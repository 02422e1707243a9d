/** The route table of the console: two public pages, the guarded layout
    with its six pages (four of them guarded again by role), the index
    redirect and the catch-all redirect. */
module AppRoutes {
  import opened Optional
  import opened Accounts
  import opened ProtectedRoute
  import Sidebar

  datatype Page = LoginPage | ResetPasswordPage | DashboardPage | MedicinesPage | InventoryPage | ReportsPage | AuditPage | UsersPage

  /** What a path shows: a public page, a page inside the layout, the
      refusal inside the layout, a redirect, or the session spinner. */
  datatype Screen = Public(page: Page) | InLayout(page: Page) | InLayoutDenied | Navigate(to: string) | Loading

  /** The paths under the guarded layout route `/`. */
  const LayoutPaths: seq<string> := ["/", "/dashboard", "/medicines", "/inventory", "/reports", "/audit", "/users"]

  /** The `roles` prop of each child route's own guard, if it has one. */
  function RouteRoles(path: string): Option<seq<Role>> {
    if path == "/medicines" || path == "/audit" then Some([ADMIN, PHARMACIST])
    else if path == "/reports" || path == "/users" then Some([ADMIN])
    else None
  }

  function PageAt(path: string): Page {
    if path == "/medicines" then MedicinesPage
    else if path == "/inventory" then InventoryPage
    else if path == "/reports" then ReportsPage
    else if path == "/audit" then AuditPage
    else if path == "/users" then UsersPage
    else DashboardPage
  }

  /** The screen for `path`, given the session's loading flag and user. */
  function Resolve(path: string, loading: bool, user: Option<User>): (r: Screen)
    ensures r.Public? <==> path == "/login" || path == "/reset-password"
    ensures r == Loading <==> path in LayoutPaths && loading
    ensures r == Navigate("/login") <==> path in LayoutPaths && !loading && user.None?
    ensures r.InLayout? ==> path in LayoutPaths && path != "/" && !loading && user.Some?
    ensures r == InLayoutDenied ==> path in LayoutPaths && path != "/" && !loading && user.Some?
    ensures path !in LayoutPaths && !r.Public? ==> r == Navigate("/dashboard")
  {
    if path == "/login" then Public(LoginPage)
    else if path == "/reset-password" then Public(ResetPasswordPage)
    else if path in LayoutPaths then
      match Guard(loading, user, None)
      case Spinner => Loading
      case RedirectToLogin => Navigate("/login")
      case _ =>
        if path == "/" then Navigate("/dashboard")
        else if Guard(loading, user, RouteRoles(path)) == RenderChildren then InLayout(PageAt(path))
        else InLayoutDenied
    else Navigate("/dashboard")
  }

  /** Who may open each page: every signed-in user the dashboard and the
      inventory, administrators and pharmacists the medicines and the audit
      log, administrators alone the reports and the users; a visitor is sent
      to the sign-in page, and nothing but a spinner shows while the
      session loads. */
  lemma PageAccess(path: string, user: User)
    requires path in LayoutPaths && path != "/"
    ensures Resolve(path, true, Some(user)) == Loading && Resolve(path, true, None) == Loading
    ensures Resolve(path, false, None) == Navigate("/login")
    ensures Resolve(path, false, Some(user)) == InLayout(PageAt(path)) <==>
      (path in {"/dashboard", "/inventory"} ||
       (path in {"/medicines", "/audit"} && user.role in {ADMIN, PHARMACIST}) ||
       (path in {"/reports", "/users"} && user.role == ADMIN))
    ensures Resolve(path, false, Some(user)).InLayout? || Resolve(path, false, Some(user)) == InLayoutDenied
  {
  }

  /** Every link in a user's side navigation opens its page: no link leads
      to the refusal. */
  lemma SidebarLinksOpen(user: User, item: Sidebar.NavItem)
    requires item in Sidebar.VisibleNavigation(Some(user))
    ensures Resolve(item.href, false, Some(user)) == InLayout(PageAt(item.href))
  {
    assert item in Sidebar.Navigation && user.role in item.roles;
    RouteAdmitsNavRoles(item);
  }

  /** Each entry's route admits (at least) the roles the entry is shown to. */
  lemma RouteAdmitsNavRoles(item: Sidebar.NavItem)
    requires item in Sidebar.Navigation
    ensures item.href in LayoutPaths && item.href != "/"
    ensures RouteRoles(item.href).Some? ==> forall r :: r in item.roles ==> r in RouteRoles(item.href).value
  {
  }

  /** For the three known roles the converse holds too: a page the user may
      open is linked from their side navigation. */
  lemma OpenPagesAreLinked(user: User, item: Sidebar.NavItem)
    requires IsKnownRole(user.role) && item in Sidebar.Navigation
    requires Resolve(item.href, false, Some(user)).InLayout?
    ensures item in Sidebar.VisibleNavigation(Some(user))
  {
    assert Sidebar.ShownTo(Some(user), item);
  }

  /** Redirects settle: once the session has loaded, following at most two
      redirects from any path reaches a page, a refusal or a spinner. */
  lemma RedirectsSettle(path: string, user: Option<User>)
    ensures var s := Resolve(path, false, user);
      !s.Navigate? || !Resolve(s.to, false, user).Navigate? ||
      !Resolve(Resolve(s.to, false, user).to, false, user).Navigate?
  {
  }
}
