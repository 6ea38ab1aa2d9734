/** The `/dashboard` page: sends each caller to the landing page of their role. */
module DashboardPage {
  import opened Wrappers
  import opened Domain

  /** The redirect target: one per role, "/login" without a session or a role. */
  function Landing(session: Option<Session>): (target: string)
    ensures target == "/login" <==> session.None? || session.value.role.None?
    ensures session.Some? && session.value.role == Some(Headquarters) ==> target == "/headquarters/dashboard"
    ensures session.Some? && session.value.role == Some(Handyman) ==> target == "/handyman/dashboard"
    ensures session.Some? && session.value.role == Some(EndUser) ==> target == "/liff"
  {
    if session.None? then "/login"
    else match session.value.role
      case Some(Headquarters) => "/headquarters/dashboard"
      case Some(Handyman) => "/handyman/dashboard"
      case Some(EndUser) => "/liff"
      case None => "/login"
  }

  /** Different roles land on different pages. */
  lemma LandingSeparatesRoles(a: Role, b: Role, id: Option<Id>)
    requires a != b
    ensures Landing(Some(Session(Some(a), id))) != Landing(Some(Session(Some(b), id)))
  {
  }
}
