/** The server-side redirect of the root page: where a visitor is sent, decided from
    the session returned by the authentication service. */
module Home {
  import opened Browser
  import opened Roles

  /** The authenticated user; `roleMetadata` is `user_metadata.role` when it is a string. */
  datatype User = User(roleMetadata: Option<string>)

  /** A session from the authentication service; it may lack a user. */
  datatype Session = Session(user: Option<User>)

  /** The `redirect` record returned by `getServerSideProps`. */
  datatype Redirect = Redirect(destination: string, permanent: bool)

  /** The role carried by a session, if there is a session with a user. */
  function SessionRole(session: Option<Session>): Option<string> {
    if session.Some? && session.value.user.Some? then session.value.user.value.roleMetadata else None
  }

  /** `getServerSideProps`: no session or no user goes to the login page; a manager to
      the dashboard; a technician or auditor to the container list; anything else to
      the login page. Every redirect is temporary. */
  function ServerSideRedirect(session: Option<Session>): (r: Redirect)
    ensures !r.permanent
    ensures r.destination == "/login" || r.destination == "/dashboard" || r.destination == "/containers"
    ensures r.destination == "/login" <==> session.None? || session.value.user.None? || !IsValidRole(SessionRole(session))
  {
    if session.None? || session.value.user.None? then
      Redirect("/login", false)
    else
      var role := session.value.user.value.roleMetadata;
      if role == Some("gerente") then Redirect("/dashboard", false)
      else if role == Some("tecnico") || role == Some("auditor") then Redirect("/containers", false)
      else Redirect("/login", false)
  }

  /** The destination of a signed-in user depends only on the role: managers reach the
      dashboard, technicians and auditors the container list. */
  lemma DestinationByRole(session: Option<Session>)
    requires session.Some? && session.value.user.Some?
    ensures SessionRole(session) == Some("gerente") <==> ServerSideRedirect(session).destination == "/dashboard"
    ensures SessionRole(session) in {Some("tecnico"), Some("auditor")} <==> ServerSideRedirect(session).destination == "/containers"
  {
  }
}
