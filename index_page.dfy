/** The index page: its effect navigates once, to a destination chosen from the flags. */
module IndexPage {
  import opened Common
  import opened AuthContext
  import opened AppRoutes

  /** The one `navigate` call the index page's effect makes. */
  function IndexDestination(user: Option<User>): (d: Destination)
    ensures d == RootRedirect(user)
    ensures user.None? ==> d == LoginPage
    ensures user.Some? && user.value.role == Admin ==> d == AdminHome
    ensures user.Some? && user.value.role != Admin ==> d == MemberHome
  {
    var c := CapabilitiesOf(user);
    if c.isAuthenticated then
      if c.isAdmin then AdminHome else MemberHome
    else LoginPage
  }
}
