# ContainerWatch decision logic in Dafny

ContainerWatch is a small web application for inspection and maintenance checklists on
containers, vehicles and vessels. Users sign in with a one-time code. Each user holds one of
three roles: `gerente` (manager), `tecnico` (technician) or `auditor`. All persistence and
authentication live in a hosted backend. This project models the decision logic and state
transitions the pages themselves run, and proves properties of them:

- the role predicate and the root page's server-side redirect (`Roles`, `Home`);
- the access guard every checklist page runs on mount (`Guard`);
- the checklist form shared by the maintenance-execution and vessel-inspection pages: the
  single-field update, the inspected-items toggle, the `parseInt`-based year check and the
  ordered validation chain (`Checklist`), and the two pages as classes (`Maintenance`,
  `Vessel`);
- the vehicle inspection page, with its own required fields and snake_case row (`Vehicle`);
- the container checklist page, whose answers are a map (`ContainerForm`);
- the manager dashboard's lists and handlers (`Dashboard`);
- the one-time-code login step machine (`Login`).

Each React handler is one atomic state transition. A page whose handlers update state is a
`class` whose fields are that state, and each handler is a method. Each backend or auth call
is a parameter holding its answer: an error message, fetched rows or a looked-up name. The
same holds for the clock (`today`, `currentYear`, `now`) and for the browser location
(`fullPath`, `asPath`). Local storage is a `map<string, string>` passed in and returned.
Navigation is returned as a `Nav` value and messages as a `Notice` value.

On the maintenance and vessel pages the form record differs only in the name of one field:
`equipamento` on one page, `embarcacao` on the other. Both share `Checklist.Form`, where that
field is called `subject`.

Notable behaviour of the code as written, which the model keeps:

- The dashboard does not save the requested path before redirecting. It admits only the role
  `gerente`, which is stricter than the other pages.
- The vehicle page checks four fields only. It has no year check and no damage-detail check.
  It never resets its form after a successful submit.
- The container checklist page refuses only an empty answer map. An answer of `''` counts.
- An unparseable year (`NaN`) is never refused, because every comparison with `NaN` is false.

## Model

| member | source | states |
|---|---|---|
| Browser.GetItem | pages/execucaoManutencao.tsx:30-31 | `localStorage.getItem` yields the stored string when the key is present and `null` otherwise |
| Lists.Filter | pages/execucaoManutencao.tsx:69 | `filter` keeps exactly the elements satisfying the predicate and never lengthens the list |
| Lists.FilterAppend | pages/dashboard.tsx:100 | filtering distributes over concatenation, so kept elements keep their relative order |
| Lists.FilterAllKept | pages/execucaoManutencao.tsx:69 | when every element passes, the list comes back unchanged |
| Lists.FilterIdempotent | pages/dashboard.tsx:237 | filtering twice with the same predicate equals filtering once |
| Roles.IsValidRole | lib/roles.ts:10-11 | true exactly for `Some("gerente")`, `Some("tecnico")`, `Some("auditor")`; `null` and `''` are false |
| Roles.ValidRolesDistinct | lib/roles.ts:4-7 | `validRoles` has exactly three pairwise-distinct entries |
| Roles.ExactMatchOnly | lib/roles.ts:11 | matching is exact: a padded or capitalised role, `null` and `''` are all rejected |
| Home.ServerSideRedirect | pages/index.tsx:9-40 | every input gets one non-permanent redirect to `/login`, `/dashboard` or `/containers`; `/login` iff no session, no user or an invalid role |
| Home.DestinationByRole | pages/index.tsx:18-33 | a signed-in `gerente` goes to `/dashboard`; a `tecnico` or `auditor` goes to `/containers`; both directions |
| Guard.CheckAccess | pages/execucaoManutencao.tsx:30-41 | admits iff the stored email is non-empty and the stored role is valid; otherwise `redirectAfterLogin` = path and every other key is untouched |
| Guard.InvalidRoleIsLikeNoLogin | pages/execucaoManutencao.tsx:33-37 | with an invalid role the outcome is the redirect, whatever email is stored |
| Checklist.SetField | pages/execucaoManutencao.tsx:60-63 | `handleChange` sets the named field; every other field and the item list are unchanged |
| Checklist.Without | pages/execucaoManutencao.tsx:69 | removes every occurrence of the item and nothing else |
| Checklist.Toggle | pages/execucaoManutencao.tsx:65-72 | flips membership of the given item; every other item keeps its membership |
| Checklist.ToggleKeepsOthersInOrder | pages/execucaoManutencao.tsx:65-72 | ignoring the toggled item, the list is identical, in order, before and after |
| Checklist.ToggleTwiceFromAbsent | pages/execucaoManutencao.tsx:65-72 | ticking then unticking an absent item restores the list exactly |
| Checklist.ToggleTwiceFromPresent | pages/execucaoManutencao.tsx:65-72 | unticking then ticking a present item moves one copy of it to the end |
| Checklist.BeforeDash | pages/execucaoManutencao.tsx:82 | `split('-')[0]` is the longest dash-free prefix |
| Checklist.TrimStart | pages/execucaoManutencao.tsx:82 | `parseInt` drops exactly the leading run of JavaScript white space: the result is a suffix, every dropped character is white space, and the result does not start with white space |
| Checklist.NoLeadingSpace | pages/execucaoManutencao.tsx:82 | text that does not start with white space is read as it is |
| Checklist.DigitIn | pages/execucaoManutencao.tsx:82 | the digits are `0`-`9` in base 10 and also `a`-`f`/`A`-`F` in base 16; a decimal digit's value is its numeral, and every value is below the radix |
| Checklist.LeadingDigits | pages/execucaoManutencao.tsx:82 | `parseInt` reads the longest prefix of digits and stops at the first non-digit |
| Checklist.AllLeadingDigits | pages/execucaoManutencao.tsx:82 | a text made of digits only is read entirely |
| Checklist.ParseInt | pages/execucaoManutencao.tsx:82 | empty or all-white-space text is `NaN`; a number needs a digit or sign as its first non-space character, and a negative one needs a `-` there |
| Checklist.ParseDecimalDigits | pages/execucaoManutencao.tsx:82 | a non-empty run of decimal digits parses to the number it denotes |
| Checklist.FourDigitsValue | pages/execucaoManutencao.tsx:82 | four decimal digits denote the number written with them |
| Checklist.YearValue | pages/execucaoManutencao.tsx:82 | four leading decimal digits parse to the year written with them |
| Checklist.IsoDateYearParse | pages/execucaoManutencao.tsx:82 | for a `YYYY-...` date, `parseInt(split('-')[0])` is the four-digit year |
| Checklist.YearField | pages/execucaoManutencao.tsx:82 | for a `YYYY-...` date, `split('-')[0]` is the four year characters |
| Checklist.IsoDateYear | pages/execucaoManutencao.tsx:82-86 | for `YYYY-MM-DD` the date is refused iff the year is < 2000 or > currentYear + 1 |
| Checklist.LetterIsNotANumber | pages/execucaoManutencao.tsx:82 | a text starting with a letter parses to `NaN` |
| Checklist.LetterYearNotRejected | pages/execucaoManutencao.tsx:82-86 | an unparseable year is not refused, since `NaN` comparisons are false |
| Checklist.YearRejected | pages/execucaoManutencao.tsx:82-83 | the date is refused iff its year parses and lies outside 2000 .. currentYear + 1; `NaN` is never refused |
| Checklist.RequiredMissing | pages/execucaoManutencao.tsx:77 | the form passes the first check iff each of the five required fields is non-empty |
| Checklist.VerdictMessage | pages/execucaoManutencao.tsx:78-90 | each refusal has a non-empty message and only a ready form has none |
| Checklist.Check | pages/execucaoManutencao.tsx:77-93 | the first failing check decides: `MissingRequired` iff a required field is empty; `InvalidDate` iff they are filled and the year is refused; `MissingDamageDetails` iff both pass and `Sim` damage lacks type or measure; Ready iff all pass |
| Checklist.DamageDetailsOnlyForSim | pages/execucaoManutencao.tsx:88-93 | when avaria is not `Sim`, the damage type and corrective measure never change the verdict |
| Checklist.OptionalFieldsIgnored | pages/execucaoManutencao.tsx:77-93 | inspected items and remarks never change the verdict |
| Checklist.InitialForm | pages/execucaoManutencao.tsx:16-27 | the initial form is dated today, has avaria `Não` and no items, and every other field is empty |
| Checklist.ResetForm | pages/execucaoManutencao.tsx:110-121 | the reset form keeps the person responsible, is dated today, has avaria `Não` and no items, and every other field is empty |
| Checklist.ResetFormIsIncomplete | pages/execucaoManutencao.tsx:110-121 | the post-submit form keeps the person responsible and fails the required-field check |
| Maintenance.MaintenancePage.constructor | pages/execucaoManutencao.tsx:10-27 | no role or email, not loading, the initial form dated today |
| Maintenance.MaintenancePage.Mount | pages/execucaoManutencao.tsx:29-58 | a rejected guard saves the path and replaces to `/login`; otherwise role and email are set and a non-empty fetched name fills the person responsible |
| Maintenance.MaintenancePage.SignedIn | pages/execucaoManutencao.tsx:75 | submit proceeds iff a non-empty email and a non-empty role are held, and that role is valid |
| Maintenance.MaintenancePage.HandleChange | pages/execucaoManutencao.tsx:60-63 | the form becomes `SetField` of the old form; nothing else changes |
| Maintenance.MaintenancePage.HandleCheckboxChange | pages/execucaoManutencao.tsx:65-72 | the item list becomes `Toggle` of the old one; nothing else changes |
| Maintenance.MaintenancePage.HandleSubmit | pages/execucaoManutencao.tsx:74-125 | no-op without email and role; the first failed check is toasted with no insert; a failed insert is toasted; on success a manager is pushed to `/respostas`, others get the reset form dated with the `hoje` of the submit and the page reloads |
| Vessel.VesselPage.constructor | pages/inspecaoEmbarcacao.tsx:11-27 | no role or email, not loading, the initial form dated today |
| Vessel.VesselPage.Mount | pages/inspecaoEmbarcacao.tsx:29-57 | the same guard; on admission the person responsible is the fetched name, or `[Nome não encontrado]`, and so never empty |
| Vessel.VesselPage.SignedIn | pages/inspecaoEmbarcacao.tsx:74 | submit proceeds iff a non-empty email and a non-empty role are held, and that role is valid |
| Vessel.VesselPage.HandleChange | pages/inspecaoEmbarcacao.tsx:59-62 | only the named field changes |
| Vessel.VesselPage.HandleCheckboxChange | pages/inspecaoEmbarcacao.tsx:64-71 | the item list becomes `Toggle` of the old one |
| Vessel.VesselPage.HandleSubmit | pages/inspecaoEmbarcacao.tsx:73-120 | the same ordered checks, insert, and role-dependent redirect or reset (dated with the `hoje` of the submit) as the maintenance page |
| Vehicle.Assign | pages/inspecaoVeicular.tsx:96-147 | each input's setter changes its own state variable and no other |
| Vehicle.ToRow | pages/inspecaoVeicular.tsx:69-82 | the row renames four fields to snake_case and keeps the rest; reading it back gives the entry, email and role |
| Vehicle.MissingRequired | pages/inspecaoVeicular.tsx:65 | the submit check passes iff each of responsavel, date, vehicle and status is non-empty |
| Vehicle.OnlyFourFieldsChecked | pages/inspecaoVeicular.tsx:65-67 | only responsavel, date, vehicle and status are checked; inspection type, damage, items and remarks never block |
| Vehicle.DamageWithoutDetailsAccepted | pages/inspecaoVeicular.tsx:64-82 | `sim` damage with empty details, and a year the other pages refuse, both pass here |
| Vehicle.VehiclePage.constructor | pages/inspecaoVeicular.tsx:9-21 | all fields empty except avaria `nao`; no role or email |
| Vehicle.VehiclePage.Mount | pages/inspecaoVeicular.tsx:43-56 | the guard: path saved and replace to `/login`, or role and email set |
| Vehicle.VehiclePage.Set | pages/inspecaoVeicular.tsx:96-147 | the entry becomes `Assign` of the old entry |
| Vehicle.VehiclePage.ToggleItem | pages/inspecaoVeicular.tsx:58-62 | the item list becomes `Toggle` of the old one |
| Vehicle.VehiclePage.HandleSubmit | pages/inspecaoVeicular.tsx:64-90 | a missing required field alerts with no insert; otherwise `ToRow` is inserted and success pushes `/containers` with no state reset |
| ContainerForm.CheckSubmit | pages/containerForm.tsx:56-60 | submittable iff the email is non-empty and the answer map is non-empty |
| ContainerForm.EmptyAnswerCounts | pages/containerForm.tsx:52-60 | one key answered with `''` is enough; the cleared map is refused |
| ContainerForm.ContainerFormPage.constructor | pages/containerForm.tsx:20-28 | empty answers, name and location; no role or email |
| ContainerForm.ContainerFormPage.Mount | pages/containerForm.tsx:30-46 | the guard; name and location are copied from the query only when each is a single string |
| ContainerForm.ContainerFormPage.HandleChange | pages/containerForm.tsx:48-50 | `answers[id] = value`; every other key keeps its presence and value |
| ContainerForm.ContainerFormPage.HandleClearForm | pages/containerForm.tsx:52-54 | the answer map becomes empty |
| ContainerForm.ContainerFormPage.HandleSubmit | pages/containerForm.tsx:56-79 | refusals alert with no insert; the row carries container id, name, location, answers and `submitted_by` = email; success pushes `/models` |
| Dashboard.ManagerAdmitted | pages/dashboard.tsx:30-37 | admits only a non-empty email with role exactly `gerente` |
| Dashboard.ManagerGuardIsStricter | pages/dashboard.tsx:34-37 | whoever the dashboard admits, the checklist guard admits; a `tecnico` is admitted there but not here |
| Dashboard.RemoveResponse | pages/dashboard.tsx:100 | drops exactly the responses with that id |
| Dashboard.RemoveContainer | pages/dashboard.tsx:236-237 | drops exactly the containers with that id |
| Dashboard.RemoveResponseKeepsOrder | pages/dashboard.tsx:94-104 | removal keeps the others in order, is the identity for an absent id, and is idempotent |
| Dashboard.RemoveContainerKeepsOrder | pages/dashboard.tsx:235-238 | the same three facts for the local container list |
| Dashboard.DashboardPage.constructor | pages/dashboard.tsx:18-28 | empty lists and draft, form type `containerForm` |
| Dashboard.DashboardPage.Mount | pages/dashboard.tsx:30-61 | non-managers are pushed to `/login` with nothing changed; a manager's lists are loaded when each query succeeds |
| Dashboard.DashboardPage.SetName | pages/dashboard.tsx:171 | only the draft name changes |
| Dashboard.DashboardPage.SetLocation | pages/dashboard.tsx:178 | only the draft location changes |
| Dashboard.DashboardPage.SetFormType | pages/dashboard.tsx:183 | only the draft form type changes |
| Dashboard.DashboardPage.HandleAddContainer | pages/dashboard.tsx:73-92 | an empty name alerts with no insert; the insert is {name, location, form_type, created_by}; on success the draft resets, on error it is unchanged |
| Dashboard.DashboardPage.HandleDeleteResponse | pages/dashboard.tsx:94-104 | declining changes nothing; a successful delete removes exactly that id's responses in order; an error keeps the list |
| Dashboard.DashboardPage.RemoveContainerLocally | pages/dashboard.tsx:235-238 | only the local container list changes, to `RemoveContainer` of it |
| Dashboard.DashboardPage.HandleLogout | pages/dashboard.tsx:117-121 | storage becomes empty and the browser is pushed to `/login` |
| Login.AfterSendOtp | pages/login.tsx:13-24 | loading ends false; the step is `verify` iff it was already or no error came back; the message is the error or the code-sent text |
| Login.AfterVerifyOtp | pages/login.tsx:26-56 | the step never changes; storage changes only for a user with email and role, then holds both and the page goes to `/dashboard` |
| Login.Apply | pages/login.tsx:13-56 | after one handler, loading is false; the step is `verify` iff it was or a code was sent without error; storage changes only for a verified user with email and role |
| Login.Run | pages/login.tsx:13-56 | no events leave the state alone; after any event loading is false |
| Login.VerifyIsFinal | pages/login.tsx:20 | over any event sequence, `verify` never returns to `login` |
| Login.VerifyNeedsASentCode | pages/login.tsx:13-24 | from `login`, `verify` is reached iff some send-code call succeeded |
| Login.StorageOnlyFromVerifiedUser | pages/login.tsx:35-52 | over any event sequence, storage changes only through a verification that returned email and role |
| Login.StoredRoleIsUnchecked | pages/login.tsx:43-52 | whatever non-empty role string the service returns is stored |
| Login.LoginPage.constructor | pages/login.tsx:6-10 | step `login`, empty message, loading false |
| Login.LoginPage.SetEmail | pages/login.tsx:69 | only the email input changes |
| Login.LoginPage.SetOtp | pages/login.tsx:87 | only the code input changes |
| Login.LoginPage.HandleSendOtp | pages/login.tsx:13-24 | the view becomes `AfterSendOtp` of the old view |
| Login.LoginPage.HandleVerifyOtp | pages/login.tsx:26-56 | view, storage and navigation are those of `AfterVerifyOtp` |

## Left out

- Backend and auth calls are not modelled as behaviour: `select`, `insert`, `delete`, `signInWithOtp`, `verifyOtp`, `getSession` and `signOut`. Their answers are parameters.
- The name lookup's query semantics are left out. One page matches the email with `eq` and the other with `ilike`; only the returned name matters here.
- Rendering is left out: JSX, the disabled states of buttons, and the toast and alert mechanics. The chosen message is returned as a `Notice`.
- Router mechanics are left out. The chosen destination is returned as a `Nav`.
- `window.confirm` is a `confirmed` parameter.
- React's asynchronous state batching is left out. Each handler and each mount effect is one atomic transition.
- The name lookup runs after the guard, inside the same transition.
- `fetchContainers` is not awaited after an add. Its result is applied inside the same transition.
- The clock is a parameter: the ISO `hoje` date (UTC) and `getFullYear` (local time), as `today` and `currentYear`. The page recomputes `hoje` on every render, so the constructor takes the first render's date and `HandleSubmit` takes the date current at the submit.
- The container form's `created_at` timestamp is a parameter, `now`.
- Checklist.SetField: `handleChange` with a field name other than the form's text fields is not modelled. Every input on those pages carries one of those names.
- Checklist.ParseInt uses exact integers. JavaScript rounds digit strings above 2^53 to a double. For such a large year the comparison with `currentYear + 1` comes out the same.
- Home.SessionRole: a non-string `user_metadata.role` is treated as absent. Strict equality with the role strings gives the same destination.
- The dashboard's QR code is left out: the selected-container modal, the URL building with `searchParams`, and `handleDownload`. These are foreign library behaviour.
- `invalidRoleMessage` in lib/roles.ts is a constant that no modelled page reads.
- pages/_app.tsx, pages/_documents.tsx and components/layout.tsx are not part of this model. They hold event wiring and static markup.
- pages/respostas.tsx, the response detail pages, pages/reset-password.tsx and pages/migrateRoles.tsx are not part of this model. Each is a single fetch, update or admin loop over the backend.
- lib/formatters.ts is not part of this model. It only delegates date formatting to the platform.
- pages/models.tsx holds types only. The dashboard's `FormResponse` follows its shape.
