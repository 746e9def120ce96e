/** The one-time-code login page: a two-step machine (`login` → `verify`) over `step`,
    `message` and `loading`, driven by the two handlers, with the identity written to
    local storage on a successful verification. The authentication service's answers
    are parameters. */
module Login {
  import opened Browser

  datatype Step = LoginStep | VerifyStep

  /** The part of the page state the handlers decide. */
  datatype View = View(step: Step, message: string, loading: bool)

  /** The authentication service's answer to `verifyOtp`: an error, or the user's email
      and `user_metadata.role` (either possibly missing). */
  datatype VerifyAnswer = AuthError(errorMessage: string) | Verified(userEmail: Option<string>, userRole: Option<string>)

  /** A handler run with the service's answer: `SendOtp(error)` for `signInWithOtp`. */
  datatype Event = SendOtp(error: Option<string>) | VerifyOtp(answer: VerifyAnswer)

  /** What the page holds between events: the view and local storage. */
  datatype LoginState = LoginState(view: View, storage: Storage)

  const CodeSent: string := "Código enviado! Verifique seu e-mail."
  const RoleNotFound: string := "Acesso não autorizado. Role não encontrada."

  function InitialView(): View {
    View(LoginStep, "", false)
  }

  /** `handleSendOtp`: an error is shown and the step kept; otherwise the code-sent
      message is shown and the step becomes `verify`. Loading ends either way. */
  function AfterSendOtp(v: View, error: Option<string>): (r: View)
    ensures !r.loading
    ensures r.step == VerifyStep <==> v.step == VerifyStep || error.None?
    ensures r.message == (if error.Some? then error.value else CodeSent)
  {
    if error.Some? then View(v.step, error.value, false) else View(VerifyStep, CodeSent, false)
  }

  /** `handleVerifyOtp`: an auth error, or a user without email or role, is shown as a
      message with storage untouched; otherwise the email and role (whatever role string
      the service holds) are stored and the browser goes to the dashboard. The step is
      never changed and loading ends false. */
  function AfterVerifyOtp(v: View, storage: Storage, answer: VerifyAnswer): (r: (View, Storage, Nav))
    ensures r.0.step == v.step && !r.0.loading
    ensures r.1 != storage ==> answer.Verified? && Truthy(answer.userEmail) && Truthy(answer.userRole)
    ensures answer.Verified? && Truthy(answer.userEmail) && Truthy(answer.userRole) ==>
              r.1 == storage["email" := answer.userEmail.value]["role" := answer.userRole.value]
              && r.2 == Push("/dashboard") && r.0.message == ""
    ensures answer.AuthError? ==> r.0.message == answer.errorMessage && r.1 == storage && r.2 == Stay
    ensures answer.Verified? && !(Truthy(answer.userEmail) && Truthy(answer.userRole)) ==>
              r.0.message == RoleNotFound && r.1 == storage && r.2 == Stay
  {
    match answer
    case AuthError(m) => (View(v.step, m, false), storage, Stay)
    case Verified(userEmail, userRole) =>
      if !Truthy(userEmail) || !Truthy(userRole) then (View(v.step, RoleNotFound, false), storage, Stay)
      else (View(v.step, "", false), storage["email" := userEmail.value]["role" := userRole.value], Push("/dashboard"))
  }

  /** The page's state after one handler runs to completion. */
  function Apply(s: LoginState, e: Event): (r: LoginState)
    ensures !r.view.loading
    ensures r.view.step == VerifyStep <==> s.view.step == VerifyStep || e == SendOtp(None)
    ensures r.storage != s.storage ==>
              e.VerifyOtp? && e.answer.Verified? && Truthy(e.answer.userEmail) && Truthy(e.answer.userRole)
  {
    match e
    case SendOtp(error) => LoginState(AfterSendOtp(s.view, error), s.storage)
    case VerifyOtp(answer) =>
      var r := AfterVerifyOtp(s.view, s.storage, answer);
      LoginState(r.0, r.1)
  }

  /** The state after the page handles `events` in order. */
  function Run(s: LoginState, events: seq<Event>): (r: LoginState)
    ensures events == [] ==> r == s
    ensures events != [] ==> !r.view.loading
    decreases |events|
  {
    if events == [] then s else Run(Apply(s, events[0]), events[1..])
  }

  /** Once in `verify`, the page never returns to `login`. */
  lemma {:induction false} VerifyIsFinal(s: LoginState, events: seq<Event>)
    requires s.view.step == VerifyStep
    ensures Run(s, events).view.step == VerifyStep
    decreases |events|
  {
    if events != [] {
      VerifyIsFinal(Apply(s, events[0]), events[1..]);
    }
  }

  /** From `login`, the page reaches `verify` exactly when some code was sent without error. */
  lemma {:induction false} VerifyNeedsASentCode(s: LoginState, events: seq<Event>)
    requires s.view.step == LoginStep
    ensures Run(s, events).view.step == VerifyStep <==> SendOtp(None) in events
    decreases |events|
  {
    if events != [] {
      var next := Apply(s, events[0]);
      assert events == [events[0]] + events[1..];
      if events[0] == SendOtp(None) {
        VerifyIsFinal(next, events[1..]);
      } else {
        VerifyNeedsASentCode(next, events[1..]);
      }
    }
  }

  /** Storage changes only through a verification that returned both an email and a role. */
  lemma {:induction false} StorageOnlyFromVerifiedUser(s: LoginState, events: seq<Event>)
    ensures Run(s, events).storage != s.storage ==>
              exists i :: 0 <= i < |events| && events[i].VerifyOtp? && events[i].answer.Verified?
                          && Truthy(events[i].answer.userEmail) && Truthy(events[i].answer.userRole)
    decreases |events|
  {
    if events != [] {
      var next := Apply(s, events[0]);
      StorageOnlyFromVerifiedUser(next, events[1..]);
      if Run(s, events).storage != s.storage {
        if next.storage != s.storage {
          assert events[0].VerifyOtp?;
        } else {
          var i :| 0 <= i < |events[1..]| && events[1..][i].VerifyOtp? && events[1..][i].answer.Verified?
                   && Truthy(events[1..][i].answer.userEmail) && Truthy(events[1..][i].answer.userRole);
          assert events[i + 1] == events[1..][i];
        }
      }
    }
  }

  /** The stored role is not checked against the three roles: a role the other pages
      refuse is stored all the same. */
  lemma StoredRoleIsUnchecked(v: View, storage: Storage, email: string, role: string)
    requires email != "" && role != ""
    ensures AfterVerifyOtp(v, storage, Verified(Some(email), Some(role))).1["role"] == role
  {
  }

  class LoginPage {
    var email: string
    var otp: string
    var step: Step
    var loading: bool
    var message: string

    function Current(): View
      reads this
    {
      View(step, message, loading)
    }

    constructor ()
      ensures Current() == InitialView() && email == "" && otp == ""
    {
      email, otp := "", "";
      step, loading, message := LoginStep, false, "";
    }

    method SetEmail(value: string)
      modifies this
      ensures email == value && otp == old(otp) && Current() == old(Current())
    {
      email := value;
    }

    method SetOtp(value: string)
      modifies this
      ensures otp == value && email == old(email) && Current() == old(Current())
    {
      otp := value;
    }

    /** `handleSendOtp`, with `error` the service's answer to `signInWithOtp({ email })`. */
    method HandleSendOtp(error: Option<string>)
      modifies this
      ensures Current() == AfterSendOtp(old(Current()), error)
      ensures email == old(email) && otp == old(otp)
    {
      loading, message := true, "";
      if error.Some? {
        message := error.value;
      } else {
        step, message := VerifyStep, CodeSent;
      }
      loading := false;
    }

    /** `handleVerifyOtp`, with `answer` the service's answer to `verifyOtp({ email, token: otp })`. */
    method HandleVerifyOtp(storage: Storage, answer: VerifyAnswer) returns (newStorage: Storage, nav: Nav)
      modifies this
      ensures (Current(), newStorage, nav) == AfterVerifyOtp(old(Current()), storage, answer)
      ensures email == old(email) && otp == old(otp)
    {
      loading, message := true, "";
      newStorage, nav := storage, Stay;
      if answer.AuthError? {
        message, loading := answer.errorMessage, false;
        return;
      }
      if !Truthy(answer.userEmail) || !Truthy(answer.userRole) {
        message, loading := RoleNotFound, false;
        return;
      }
      newStorage := newStorage["email" := answer.userEmail.value];
      newStorage := newStorage["role" := answer.userRole.value];
      nav := Push("/dashboard");
      loading := false;
    }
  }
}
