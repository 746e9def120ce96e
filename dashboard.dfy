/** The manager dashboard: the container list and the list of submitted responses,
    the new-container draft (`name`, `location`, `formType`), and the handlers that add
    a container, delete a response, drop a container from the local list and log out.
    Every backend answer is a parameter. */
module Dashboard {
  import opened Browser
  import opened Roles
  import opened Guard
  import opened Lists

  /** A row of `containers`. */
  datatype Container = Container(id: string, name: string, location: string, form_type: string)

  /** A row of `form_responses`: answers from a technician or manager, or an auditor's comment. */
  datatype FormResponse = FormResponse(
    id: string,
    container_id: string,
    container_name: string,
    location: string,
    role: string,
    email: string,
    created_at: string,
    answers: Option<map<string, string>>,
    auditor_comment: Option<string>)

  /** The record `handleAddContainer` inserts. */
  datatype NewContainer = NewContainer(name: string, location: string, form_type: string, created_by: Option<string>)

  /** The checklist a new container starts with, and the value the draft returns to. */
  const DefaultFormType: string := "containerForm"

  /** The dashboard's own guard: a non-empty email and the role exactly "gerente". */
  predicate ManagerAdmitted(storage: Storage)
    ensures ManagerAdmitted(storage) <==>
              "email" in storage && storage["email"] != "" && "role" in storage && storage["role"] == "gerente"
  {
    Truthy(GetItem(storage, "email")) && GetItem(storage, "role") == Some("gerente")
  }

  /** The dashboard guard is stricter than the checklist pages' guard: whoever it admits,
      they admit, while a technician they admit is turned away here. */
  lemma ManagerGuardIsStricter(storage: Storage, fullPath: string, email: string)
    requires email != ""
    ensures ManagerAdmitted(storage) ==> CheckAccess(storage, fullPath).Admitted?
    ensures CheckAccess(map["email" := email, "role" := "tecnico"], fullPath).Admitted?
    ensures !ManagerAdmitted(map["email" := email, "role" := "tecnico"])
  {
    var technician := map["email" := email, "role" := "tecnico"];
    assert GetItem(technician, "role") == Some("tecnico");
  }

  /** `prev.filter((resp: FormResponse) => resp.id !== id)`. */
  function RemoveResponse(responses: seq<FormResponse>, id: string): (r: seq<FormResponse>)
    ensures forall x :: x in r <==> x in responses && x.id != id
  {
    Filter(responses, (resp: FormResponse) => resp.id != id)
  }

  /** `containers.filter((c: Container) => c.id !== container.id)`. */
  function RemoveContainer(containers: seq<Container>, id: string): (r: seq<Container>)
    ensures forall x :: x in r <==> x in containers && x.id != id
  {
    Filter(containers, (c: Container) => c.id != id)
  }

  /** Removing a response keeps the others in their order: removal distributes over any
      split of the list, removing an id nobody has changes nothing, and removing twice
      is removing once. */
  lemma RemoveResponseKeepsOrder(front: seq<FormResponse>, back: seq<FormResponse>, id: string)
    ensures RemoveResponse(front + back, id) == RemoveResponse(front, id) + RemoveResponse(back, id)
    ensures (forall x :: x in front ==> x.id != id) ==> RemoveResponse(front, id) == front
    ensures RemoveResponse(RemoveResponse(front, id), id) == RemoveResponse(front, id)
  {
    FilterAppend(front, back, (resp: FormResponse) => resp.id != id);
    if forall x :: x in front ==> x.id != id {
      FilterAllKept(front, (resp: FormResponse) => resp.id != id);
    }
    FilterIdempotent(front, (resp: FormResponse) => resp.id != id);
  }

  /** The same three facts for removing a container from the local list. */
  lemma RemoveContainerKeepsOrder(front: seq<Container>, back: seq<Container>, id: string)
    ensures RemoveContainer(front + back, id) == RemoveContainer(front, id) + RemoveContainer(back, id)
    ensures (forall x :: x in front ==> x.id != id) ==> RemoveContainer(front, id) == front
    ensures RemoveContainer(RemoveContainer(front, id), id) == RemoveContainer(front, id)
  {
    FilterAppend(front, back, (c: Container) => c.id != id);
    if forall x :: x in front ==> x.id != id {
      FilterAllKept(front, (c: Container) => c.id != id);
    }
    FilterIdempotent(front, (c: Container) => c.id != id);
  }

  class DashboardPage {
    var containers: seq<Container>
    var formResponses: seq<FormResponse>
    var name: string
    var location: string
    var formType: string
    var role: Option<Role>
    var userEmail: Option<string>

    constructor ()
      ensures containers == [] && formResponses == []
      ensures name == "" && location == "" && formType == DefaultFormType
      ensures role == None && userEmail == None
    {
      containers, formResponses := [], [];
      name, location, formType := "", "", DefaultFormType;
      role, userEmail := None, None;
    }

    /** The mount effect: anyone but a manager is pushed to the login page (without saving
        the requested path); a manager's email and role are kept and both lists are
        loaded. `fetchedContainers` and `fetchedResponses` are the two queries' rows,
        `None` when a query failed. */
    method Mount(storage: Storage, fetchedContainers: Option<seq<Container>>, fetchedResponses: Option<seq<FormResponse>>)
      returns (nav: Nav)
      modifies this
      ensures name == old(name) && location == old(location) && formType == old(formType)
      ensures !ManagerAdmitted(storage) ==>
                nav == Push("/login") && role == old(role) && userEmail == old(userEmail)
                && containers == old(containers) && formResponses == old(formResponses)
      ensures ManagerAdmitted(storage) ==>
                nav == Stay && role == Some("gerente") && userEmail == Some(storage["email"])
                && containers == (if fetchedContainers.Some? then fetchedContainers.value else old(containers))
                && formResponses == (if fetchedResponses.Some? then fetchedResponses.value else old(formResponses))
    {
      if !ManagerAdmitted(storage) {
        return Push("/login");
      }
      nav := Stay;
      userEmail, role := Some(storage["email"]), Some("gerente");
      if fetchedContainers.Some? {
        containers := fetchedContainers.value;
      }
      if fetchedResponses.Some? {
        formResponses := fetchedResponses.value;
      }
    }

    /** The draft's three inputs. */
    method SetName(value: string)
      modifies this
      ensures name == value && location == old(location) && formType == old(formType)
      ensures role == old(role) && userEmail == old(userEmail)
      ensures containers == old(containers) && formResponses == old(formResponses)
    {
      name := value;
    }

    method SetLocation(value: string)
      modifies this
      ensures location == value && name == old(name) && formType == old(formType)
      ensures role == old(role) && userEmail == old(userEmail)
      ensures containers == old(containers) && formResponses == old(formResponses)
    {
      location := value;
    }

    method SetFormType(value: string)
      modifies this
      ensures formType == value && name == old(name) && location == old(location)
      ensures role == old(role) && userEmail == old(userEmail)
      ensures containers == old(containers) && formResponses == old(formResponses)
    {
      formType := value;
    }

    /** `handleAddContainer`: an empty name is refused with nothing inserted. Otherwise the
        draft is inserted; on an error (`insertError`) the draft stays as it was; on success
        the draft is reset and the container list reloaded (`refetched`, `None` when that
        query failed). */
    method HandleAddContainer(insertError: Option<string>, refetched: Option<seq<Container>>)
      returns (sent: Option<NewContainer>, notice: Option<Notice>)
      modifies this
      ensures formResponses == old(formResponses) && role == old(role) && userEmail == old(userEmail)
      ensures old(name) == "" ==>
                sent == None && notice == Some(Alert("Nome é obrigatório!"))
                && name == old(name) && location == old(location) && formType == old(formType)
                && containers == old(containers)
      ensures old(name) != "" ==> sent == Some(NewContainer(old(name), old(location), old(formType), old(userEmail)))
      ensures old(name) != "" && insertError.Some? ==>
                notice == Some(Alert("Erro ao adicionar container: " + insertError.value))
                && name == old(name) && location == old(location) && formType == old(formType)
                && containers == old(containers)
      ensures old(name) != "" && insertError.None? ==>
                notice == None && name == "" && location == "" && formType == DefaultFormType
                && containers == (if refetched.Some? then refetched.value else old(containers))
    {
      if name == "" {
        return None, Some(Alert("Nome é obrigatório!"));
      }
      sent := Some(NewContainer(name, location, formType, userEmail));
      if insertError.Some? {
        notice := Some(Alert("Erro ao adicionar container: " + insertError.value));
        return;
      }
      notice := None;
      name, location, formType := "", "", DefaultFormType;
      if refetched.Some? {
        containers := refetched.value;
      }
    }

    /** `handleDeleteResponse(id)`: declining the confirmation does nothing; otherwise the
        delete is sent, and only when it succeeds are the responses with that id dropped
        from the list, the others keeping their order. */
    method HandleDeleteResponse(id: string, confirmed: bool, deleteError: Option<string>)
      returns (deleteSent: bool, notice: Option<Notice>)
      modifies this
      ensures containers == old(containers) && name == old(name) && location == old(location)
      ensures formType == old(formType) && role == old(role) && userEmail == old(userEmail)
      ensures deleteSent == confirmed
      ensures !confirmed ==> notice == None && formResponses == old(formResponses)
      ensures confirmed && deleteError.None? ==>
                notice == None && formResponses == RemoveResponse(old(formResponses), id)
      ensures confirmed && deleteError.Some? ==>
                notice == Some(Alert("Erro ao excluir: " + deleteError.value)) && formResponses == old(formResponses)
    {
      if !confirmed {
        return false, None;
      }
      deleteSent := true;
      if deleteError.None? {
        formResponses := RemoveResponse(formResponses, id);
        notice := None;
      } else {
        notice := Some(Alert("Erro ao excluir: " + deleteError.value));
      }
    }

    /** The container card's "Excluir" button: the container is dropped from the local
        list only; no backend call is made. */
    method RemoveContainerLocally(id: string)
      modifies this
      ensures containers == RemoveContainer(old(containers), id)
      ensures formResponses == old(formResponses) && name == old(name) && location == old(location)
      ensures formType == old(formType) && role == old(role) && userEmail == old(userEmail)
    {
      containers := RemoveContainer(containers, id);
    }

    /** `handleLogout`: after signing out, local storage is emptied and the browser goes to
        the login page. */
    method HandleLogout() returns (newStorage: Storage, nav: Nav)
      ensures newStorage == map[] && nav == Push("/login")
    {
      newStorage, nav := map[], Push("/login");
    }
  }
}
