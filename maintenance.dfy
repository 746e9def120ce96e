/** The maintenance-execution checklist page: its state (`form`, `role`, `email`,
    `loading`) and its handlers, each one atomic state transition. Backend answers
    (the `users` name lookup, the insert into `execucao_manutencao`), the clock and
    the browser location are parameters. */
module Maintenance {
  import opened Browser
  import opened Roles
  import opened Guard
  import opened Checklist

  /** The row inserted into `execucao_manutencao`: the form spread, plus `email` and
      `role`; `subject` is the `equipamento` column. */
  datatype Row = Row(form: Form, email: string, role: Role)

  const SavedMessage: string := "Formulário enviado com sucesso!"

  class MaintenancePage {
    var role: Option<Role>
    var email: Option<string>
    var loading: bool
    var form: Form

    constructor (today: string)
      ensures role == None && email == None && !loading && form == InitialForm(today)
    {
      role, email, loading := None, None, false;
      form := InitialForm(today);
    }

    /** Both submit preconditions of the page: an email and a role are held. */
    predicate SignedIn()
      reads this
      ensures SignedIn() <==> email.Some? && email.value != "" && role.Some? && role.value != ""
      ensures SignedIn() ==> IsValidRole(Some(role.value))
    {
      Truthy(email) && role.Some?
    }

    /** The mount effect: the access guard, then the name lookup. `fetchedName` is the
        `name` the `users` query returned (`None` on an error or no row); a non-empty
        name becomes the person responsible, anything else leaves the form alone. */
    method Mount(storage: Storage, fullPath: string, fetchedName: Option<string>) returns (newStorage: Storage, nav: Nav)
      modifies this
      ensures loading == old(loading)
      ensures CheckAccess(storage, fullPath).Redirected? ==>
                newStorage == CheckAccess(storage, fullPath).storage && nav == Replace("/login")
                && role == old(role) && email == old(email) && form == old(form)
      ensures CheckAccess(storage, fullPath).Admitted? ==>
                newStorage == storage && nav == Stay
                && role == Some(CheckAccess(storage, fullPath).role)
                && email == Some(CheckAccess(storage, fullPath).email)
                && form == (if Truthy(fetchedName) then old(form).(responsavel := fetchedName.value) else old(form))
    {
      var access := CheckAccess(storage, fullPath);
      if access.Redirected? {
        newStorage, nav := access.storage, Replace("/login");
        return;
      }
      newStorage, nav := storage, Stay;
      role, email := Some(access.role), Some(access.email);
      if Truthy(fetchedName) {
        form := form.(responsavel := fetchedName.value);
      }
    }

    /** `handleChange`: one text field of the form takes the new value. */
    method HandleChange(field: Field, value: string)
      modifies this
      ensures form == SetField(old(form), field, value)
      ensures role == old(role) && email == old(email) && loading == old(loading)
    {
      form := SetField(form, field, value);
    }

    /** `handleCheckboxChange`: tick or untick one inspected item. */
    method HandleCheckboxChange(item: string)
      modifies this
      ensures form == old(form).(itens := Toggle(old(form).itens, item))
      ensures role == old(role) && email == old(email) && loading == old(loading)
    {
      form := form.(itens := Toggle(form.itens, item));
    }

    /** `handleSubmit`. Without an email and a role nothing happens. Otherwise the checks
        run in order and the first failure is shown with nothing inserted; when all pass
        the row is inserted (`insertError` is the backend's answer). After a successful
        insert a manager is sent to the responses list, anyone else gets the initial form
        back (keeping the person responsible) dated `today`, the date at the time of the
        submit, and the page reloads `asPath`. */
    method HandleSubmit(currentYear: int, today: string, asPath: string, insertError: Option<string>)
      returns (sent: Option<Row>, notice: Option<Notice>, nav: Nav)
      modifies this
      ensures role == old(role) && email == old(email)
      ensures !old(SignedIn()) ==>
                sent == None && notice == None && nav == Stay && form == old(form) && loading == old(loading)
      ensures old(SignedIn()) && Check(old(form), currentYear) != Ready ==>
                sent == None && nav == Stay && form == old(form) && loading == old(loading)
                && notice == Some(ErrorToast(VerdictMessage(Check(old(form), currentYear))))
      ensures old(SignedIn()) && Check(old(form), currentYear) == Ready ==>
                sent == Some(Row(old(form), old(email).value, old(role).value)) && !loading
      ensures old(SignedIn()) && Check(old(form), currentYear) == Ready && insertError.Some? ==>
                notice == Some(ErrorToast("Erro ao salvar: " + insertError.value)) && nav == Stay && form == old(form)
      ensures old(SignedIn()) && Check(old(form), currentYear) == Ready && insertError.None? ==>
                notice == Some(SuccessToast(SavedMessage))
                && (old(role) == Some("gerente") ==> nav == Push("/respostas") && form == old(form))
                && (old(role) != Some("gerente") ==> nav == Replace(asPath) && form == ResetForm(old(form), today))
    {
      sent, notice, nav := None, None, Stay;
      if !Truthy(email) || role.None? {
        return;
      }
      var verdict := Check(form, currentYear);
      if verdict != Ready {
        notice := Some(ErrorToast(VerdictMessage(verdict)));
        return;
      }
      loading := true;
      sent := Some(Row(form, email.value, role.value));
      loading := false;
      if insertError.Some? {
        notice := Some(ErrorToast("Erro ao salvar: " + insertError.value));
      } else {
        notice := Some(SuccessToast(SavedMessage));
        if role == Some("gerente") {
          nav := Push("/respostas");
        } else {
          form := ResetForm(form, today);
          nav := Replace(asPath);
        }
      }
    }
  }
}
