/** The container checklist page: a map of answers keyed by question id, filled one
    key at a time and cleared as a whole, and a submit that inserts one row into
    `form_responses`. The router query, the clock and the backend's answer are
    parameters. */
module ContainerForm {
  import opened Browser
  import opened Roles
  import opened Guard

  /** A value of `router.query`: absent, one string, or a repeated parameter's list. */
  datatype QueryValue = Absent | Single(text: string) | Repeated(texts: seq<string>)

  /** The row inserted into `form_responses`. */
  datatype ResponseRow = ResponseRow(
    container_id: QueryValue,
    container_name: string,
    container_location: string,
    answers: map<string, string>,
    submitted_by: string,
    created_at: string)

  /** The outcome of the two submit checks. */
  datatype SubmitVerdict = NotAuthenticated | NothingAnswered | Submittable

  /** `handleSubmit`'s checks: an email first, then at least one answered question.
      Only the number of keys counts, so a key whose answer is `''` is an answer. */
  function CheckSubmit(email: Option<string>, answers: map<string, string>): (v: SubmitVerdict)
    ensures v == Submittable <==> Truthy(email) && answers != map[]
    ensures v == NothingAnswered ==> Truthy(email)
  {
    if !Truthy(email) then NotAuthenticated
    else if |answers| == 0 then NothingAnswered
    else Submittable
  }

  /** Answering one question, even with the empty string, is enough to submit; clearing
      the form makes it unsubmittable again. */
  lemma EmptyAnswerCounts(email: string, id: string)
    requires email != ""
    ensures CheckSubmit(Some(email), map[id := ""]) == Submittable
    ensures CheckSubmit(Some(email), map[]) == NothingAnswered
  {
    assert id in map[id := ""];
  }

  class ContainerFormPage {
    /** The `id`, `name` and `location` query parameters. */
    const queryId: QueryValue
    const queryName: QueryValue
    const queryLocation: QueryValue
    var role: Option<Role>
    var email: Option<string>
    var answers: map<string, string>
    var containerName: string
    var containerLocation: string

    constructor (queryId: QueryValue, queryName: QueryValue, queryLocation: QueryValue)
      ensures this.queryId == queryId && this.queryName == queryName && this.queryLocation == queryLocation
      ensures role == None && email == None && answers == map[] && containerName == "" && containerLocation == ""
    {
      this.queryId, this.queryName, this.queryLocation := queryId, queryName, queryLocation;
      role, email, answers := None, None, map[];
      containerName, containerLocation := "", "";
    }

    /** The mount effect: the access guard; an admitted user's role and email are kept,
        and the container's name and location are copied from the query only when each
        is a single string. */
    method Mount(storage: Storage, fullPath: string) returns (newStorage: Storage, nav: Nav)
      modifies this
      ensures answers == old(answers)
      ensures CheckAccess(storage, fullPath).Redirected? ==>
                newStorage == CheckAccess(storage, fullPath).storage && nav == Replace("/login")
                && role == old(role) && email == old(email)
                && containerName == old(containerName) && containerLocation == old(containerLocation)
      ensures CheckAccess(storage, fullPath).Admitted? ==>
                newStorage == storage && nav == Stay
                && role == Some(CheckAccess(storage, fullPath).role)
                && email == Some(CheckAccess(storage, fullPath).email)
                && containerName == (if queryName.Single? then queryName.text else old(containerName))
                && containerLocation == (if queryLocation.Single? then queryLocation.text else old(containerLocation))
    {
      var access := CheckAccess(storage, fullPath);
      if access.Redirected? {
        newStorage, nav := access.storage, Replace("/login");
        return;
      }
      newStorage, nav := storage, Stay;
      role, email := Some(access.role), Some(access.email);
      if queryName.Single? {
        containerName := queryName.text;
      }
      if queryLocation.Single? {
        containerLocation := queryLocation.text;
      }
    }

    /** `handleChange(id, value)`: that question's answer becomes `value`; every other key
        keeps its answer (or stays unanswered). */
    method HandleChange(id: string, value: string)
      modifies this
      ensures answers == old(answers)[id := value]
      ensures forall k :: k != id ==> (k in answers <==> k in old(answers))
      ensures forall k :: k != id && k in answers ==> answers[k] == old(answers)[k]
      ensures role == old(role) && email == old(email)
      ensures containerName == old(containerName) && containerLocation == old(containerLocation)
    {
      answers := answers[id := value];
    }

    /** `handleClearForm`: no question is answered any more. */
    method HandleClearForm()
      modifies this
      ensures answers == map[]
      ensures role == old(role) && email == old(email)
      ensures containerName == old(containerName) && containerLocation == old(containerLocation)
    {
      answers := map[];
    }

    /** `handleSubmit`: refused with an alert without an email or without any answer;
        otherwise the row is inserted (`now` is the client clock, `insertError` the
        backend's answer) and success navigates to `/models`. No state changes. */
    method HandleSubmit(now: string, insertError: Option<string>) returns (sent: Option<ResponseRow>, notice: Notice, nav: Nav)
      ensures CheckSubmit(email, answers) == NotAuthenticated ==>
                sent == None && notice == Alert("Usuário não autenticado.") && nav == Stay
      ensures CheckSubmit(email, answers) == NothingAnswered ==>
                sent == None && notice == Alert("Preencha o formulário antes de enviar.") && nav == Stay
      ensures CheckSubmit(email, answers) == Submittable ==>
                sent == Some(ResponseRow(queryId, containerName, containerLocation, answers, email.value, now))
                && sent.value.submitted_by != ""
      ensures CheckSubmit(email, answers) == Submittable && insertError.Some? ==>
                notice == Alert("Erro ao enviar: " + insertError.value) && nav == Stay
      ensures CheckSubmit(email, answers) == Submittable && insertError.None? ==>
                notice == Alert("Formulário enviado com sucesso!") && nav == Push("/models")
    {
      if !Truthy(email) {
        return None, Alert("Usuário não autenticado."), Stay;
      }
      if |answers| == 0 {
        return None, Alert("Preencha o formulário antes de enviar."), Stay;
      }
      sent := Some(ResponseRow(queryId, containerName, containerLocation, answers, email.value, now));
      if insertError.Some? {
        notice, nav := Alert("Erro ao enviar: " + insertError.value), Stay;
      } else {
        notice, nav := Alert("Formulário enviado com sucesso!"), Push("/models");
      }
    }
  }
}
