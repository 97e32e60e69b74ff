/** The navigation shell: the authentication flag and the route table that
    maps a path to a view or a redirect. */
module App {
  import opened Records
  import Login

  datatype View = LoginView | RegisterView | MenuView | DashboardView | CalendarView | MembersView

  datatype Outcome = Show(view: View) | Redirect(to: string)

  /** A route only an authenticated user may see; everyone else is sent to the root. */
  function Protected(v: View, isAuthenticated: bool): Outcome {
    if isAuthenticated then Show(v) else Redirect("/")
  }

  /** The route table, tried in order; `*` catches every other path. */
  function Resolve(path: string, isAuthenticated: bool): (o: Outcome)
    ensures path == "/" ==> o == (if isAuthenticated then Redirect("/menu") else Show(LoginView))
    ensures path == "/register" ==> o == Show(RegisterView)
    ensures o.Show? && o.view != LoginView && o.view != RegisterView ==> isAuthenticated
    ensures o.Redirect? ==> o.to == "/" || (o.to == "/menu" && path == "/")
  {
    if path == "/" then (if !isAuthenticated then Show(LoginView) else Redirect("/menu"))
    else if path == "/register" then Show(RegisterView)
    else if path == "/menu" then Protected(MenuView, isAuthenticated)
    else if path == "/menu/dashboard" then Protected(DashboardView, isAuthenticated)
    else if path == "/menu/calendar" then Protected(CalendarView, isAuthenticated)
    else if path == "/menu/members" then Protected(MembersView, isAuthenticated)
    else Redirect("/")
  }

  /** The paths of the views behind the login. */
  const MenuRoutes: map<string, View> :=
    map["/menu" := MenuView, "/menu/dashboard" := DashboardView,
        "/menu/calendar" := CalendarView, "/menu/members" := MembersView]

  /** Each menu path shows its view exactly when the user is authenticated, and sends
      everyone else to the root. */
  lemma MenuRoutesGuarded(path: string, isAuthenticated: bool)
    requires path in MenuRoutes
    ensures Resolve(path, isAuthenticated) == Show(MenuRoutes[path]) <==> isAuthenticated
    ensures !isAuthenticated ==> Resolve(path, isAuthenticated) == Redirect("/")
  {
  }

  /** Every path outside the table sends the user to the root. */
  lemma UnknownPathsRedirect(path: string, isAuthenticated: bool)
    requires path != "/" && path != "/register" && path !in MenuRoutes
    ensures Resolve(path, isAuthenticated) == Redirect("/")
  {
  }

  /** Redirects never loop: an unknown path reaches a view after at most two redirects
      (an authenticated user goes to the root and on to the menu), every other path after one. */
  lemma RedirectsSettle(path: string, isAuthenticated: bool)
    requires Resolve(path, isAuthenticated).Redirect?
    ensures var next := Resolve(Resolve(path, isAuthenticated).to, isAuthenticated);
            next.Show? || (isAuthenticated && next == Redirect("/menu") &&
                           Resolve(next.to, isAuthenticated) == Show(MenuView))
    ensures path in MenuRoutes || path == "/" ==> Resolve(Resolve(path, isAuthenticated).to, isAuthenticated).Show?
  {
  }

  class AppShell {
    var isAuthenticated: bool

    constructor ()
      ensures !isAuthenticated
    {
      isAuthenticated := false;
    }

    /** `handleLogin`: the flag only ever becomes true; calling it again changes nothing. */
    method HandleLogin()
      modifies this
      ensures isAuthenticated
    {
      isAuthenticated := true;
    }

    method Route(path: string) returns (o: Outcome)
      ensures o == Resolve(path, isAuthenticated)
    {
      o := Resolve(path, isAuthenticated);
    }
  }

  /** The login form wired to the shell as `onLogin={handleLogin}`: a successful login
      authenticates the shell, so the root now redirects to the menu. */
  method SubmitLogin(shell: AppShell, form: Login.LoginForm, reply: Login.LoginReply)
    returns (session: Option<Record>)
    modifies shell, form
    ensures old(shell.isAuthenticated) ==> shell.isAuthenticated
    ensures session.Some? ==> shell.isAuthenticated && Resolve("/", shell.isAuthenticated) == Redirect("/menu")
    ensures session.None? ==> shell.isAuthenticated == old(shell.isAuthenticated)
  {
    var query, loggedIn;
    query, session, loggedIn := form.HandleSubmit(reply);
    if loggedIn {
      shell.HandleLogin();
    }
  }
}
