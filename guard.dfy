/** The access guard each protected checklist page runs when it mounts: it reads
    `email` and `role` from local storage and either admits the user or remembers the
    requested path under `redirectAfterLogin` and sends the browser to the login page. */
module Guard {
  import opened Browser
  import opened Roles

  /** The storage key under which the requested path is remembered. */
  const RedirectKey: string := "redirectAfterLogin"

  /** The guard's decision: the admitted identity, or the storage after saving the path. */
  datatype Access = Admitted(email: string, role: Role) | Redirected(storage: Storage)

  /** The guard: a missing or empty email, or a role `IsValidRole` refuses, saves
      `fullPath` (pathname plus search string) and redirects; otherwise the stored
      email and role are taken as they are. */
  function CheckAccess(storage: Storage, fullPath: string): (r: Access)
    ensures r.Admitted? <==> Truthy(GetItem(storage, "email")) && IsValidRole(GetItem(storage, "role"))
    ensures r.Admitted? ==> "email" in storage && "role" in storage && r.email == storage["email"] != "" && r.role == storage["role"]
    ensures r.Redirected? ==> RedirectKey in r.storage && r.storage[RedirectKey] == fullPath
    ensures r.Redirected? ==> forall k :: k != RedirectKey ==> GetItem(r.storage, k) == GetItem(storage, k)
  {
    var email := GetItem(storage, "email");
    var role := GetItem(storage, "role");
    if !Truthy(email) || !IsValidRole(role) then Redirected(storage[RedirectKey := fullPath])
    else Admitted(email.value, role.value)
  }

  /** A stored role outside the three recognised ones is treated exactly like a missing
      login: whatever email is stored, the path is saved and nothing else is decided. */
  lemma InvalidRoleIsLikeNoLogin(storage: Storage, fullPath: string, email: string)
    requires !IsValidRole(GetItem(storage, "role"))
    ensures CheckAccess(storage, fullPath) == Redirected(storage[RedirectKey := fullPath])
    ensures CheckAccess(storage["email" := email], fullPath) == Redirected(storage["email" := email][RedirectKey := fullPath])
  {
    assert GetItem(storage["email" := email], "role") == GetItem(storage, "role");
  }
}
