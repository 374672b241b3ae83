/**
 * The access gate: for each route class, whether the current session sees the content
 * or is redirected, and where to.
 */
module AppRoutes {
  import opened Common
  import opened AuthContext

  /** The three places a gate can send a visitor. */
  datatype Destination = LoginPage | AdminHome | MemberHome

  function PathOf(d: Destination): string
  {
    match d
    case LoginPage => "/login"
    case AdminHome => "/admin"
    case MemberHome => "/member"
  }

  /** A gate either renders the protected content (inside its layout) or redirects. */
  datatype Decision = Render | Redirect(to: Destination)

  /** `AdminRoute`: only an administrator sees the content. */
  function AdminRoute(user: Option<User>): (d: Decision)
    ensures d == Render <==> user.Some? && user.value.role == Admin
    ensures user.None? ==> d == Redirect(LoginPage)
    ensures user.Some? && user.value.role != Admin ==> d == Redirect(MemberHome)
  {
    var c := CapabilitiesOf(user);
    if !c.isAuthenticated then Redirect(LoginPage)
    else if !c.isAdmin then Redirect(MemberHome)
    else Render
  }

  /** `MemberRoute`: only a member sees the content. */
  function MemberRoute(user: Option<User>): (d: Decision)
    ensures d == Render <==> user.Some? && user.value.role == Member
    ensures user.None? ==> d == Redirect(LoginPage)
    ensures user.Some? && user.value.role != Member ==> d == Redirect(AdminHome)
  {
    var c := CapabilitiesOf(user);
    if !c.isAuthenticated then Redirect(LoginPage)
    else if !c.isMember then Redirect(AdminHome)
    else Render
  }

  /** `RootRedirect`: the root always redirects, to the sign-in page or to a home. */
  function RootRedirect(user: Option<User>): (d: Destination)
    ensures user.None? <==> d == LoginPage
    ensures d == AdminHome <==> user.Some? && user.value.role == Admin
    ensures d == MemberHome <==> user.Some? && user.value.role != Admin
  {
    var c := CapabilitiesOf(user);
    if !c.isAuthenticated then LoginPage
    else if c.isAdmin then AdminHome
    else MemberHome
  }

  /** The gate guarding each destination; the sign-in page is public. */
  function GateAt(d: Destination, user: Option<User>): Decision
  {
    match d
    case LoginPage => Render
    case AdminHome => AdminRoute(user)
    case MemberHome => MemberRoute(user)
  }

  /** No session sees both protected areas, and rendering implies the matching flag. */
  lemma GatesExclusive(user: Option<User>)
    ensures !(AdminRoute(user) == Render && MemberRoute(user) == Render)
    ensures AdminRoute(user) == Render ==> CapabilitiesOf(user).isAdmin
    ensures MemberRoute(user) == Render ==> CapabilitiesOf(user).isMember
  {
  }

  /** A signed-in user without a role is turned away by both gates. */
  lemma NoRoleSeesNothing(u: User)
    requires u.role == NoRole
    ensures AdminRoute(Some(u)) == Redirect(MemberHome)
    ensures MemberRoute(Some(u)) == Redirect(AdminHome)
  {
  }

  /**
   * For a signed-out visitor or a user with a role, following the root redirect reaches a
   * page that renders; a user without a role is instead sent back and forth between the
   * two homes.
   */
  lemma RootRedirectSettles(user: Option<User>)
    ensures (user.None? || user.value.role != NoRole) ==> GateAt(RootRedirect(user), user) == Render
    ensures user.Some? && user.value.role == NoRole ==>
      RootRedirect(user) == MemberHome &&
      GateAt(MemberHome, user) == Redirect(AdminHome) &&
      GateAt(AdminHome, user) == Redirect(MemberHome)
  {
  }

  /** A wrong-role redirect always lands on the home of the role the user does have. */
  lemma WrongRoleRedirectRenders(user: Option<User>)
    requires user.Some? && user.value.role != NoRole
    ensures AdminRoute(user).Redirect? ==> GateAt(AdminRoute(user).to, user) == Render
    ensures MemberRoute(user).Redirect? ==> GateAt(MemberRoute(user).to, user) == Render
  {
  }

  /** Signing out turns every protected route into a redirect to the sign-in page. */
  lemma SignedOutGoesToLogin()
    ensures AdminRoute(None) == Redirect(LoginPage)
    ensures MemberRoute(None) == Redirect(LoginPage)
    ensures RootRedirect(None) == LoginPage
  {
  }
}
