/** The application shell: which page is shown, who is signed in and with
    which role, and the colour theme; the guards on changing page, and what
    is drawn for each page. */
module AppShell {
  import opened Types
  import Login

  datatype AppState = AppState(view: ViewState, isAuthenticated: bool, role: Option<UserRole>, theme: Theme)

  /** The state on start-up: the landing page, nobody signed in, and the
      theme remembered from the last visit. */
  function Initial(theme: Theme): (r: AppState)
    ensures r.view == LANDING && !r.isAuthenticated && r.role.None? && r.theme == theme
  {
    AppState(LANDING, false, None, theme)
  }

  predicate IsDashboard(v: ViewState) {
    v == DASHBOARD || v == WORKER_DASHBOARD || v == MANAGER_DASHBOARD
  }

  /** The role a dashboard is reserved for; other pages have none. */
  function Owner(v: ViewState): (r: Option<UserRole>)
    ensures r.Some? <==> IsDashboard(v)
    ensures r != Some(ADMIN)
  {
    match v
    case DASHBOARD => Some(RECRUITER)
    case WORKER_DASHBOARD => Some(WORKER)
    case MANAGER_DASHBOARD => Some(MANAGER)
    case _ => None
  }

  /** The page a role is taken to after signing in; ADMIN has none. */
  function LandingView(role: UserRole): (r: Option<ViewState>)
    ensures r.None? <==> role == ADMIN
    ensures r.Some? ==> IsDashboard(r.value) && Owner(r.value) == Some(role)
  {
    match role
    case RECRUITER => Some(DASHBOARD)
    case WORKER => Some(WORKER_DASHBOARD)
    case MANAGER => Some(MANAGER_DASHBOARD)
    case ADMIN => None
  }

  /** Each dashboard is the landing page of exactly its owner. */
  lemma LandingViewOwner(v: ViewState, role: UserRole)
    ensures LandingView(role) == Some(v) <==> IsDashboard(v) && Owner(v) == Some(role)
  {
  }

  /** Signing in: the user is authenticated with the role, and taken to the
      role's dashboard; an ADMIN stays on the current page. */
  function LoginSuccess(st: AppState, role: UserRole): (r: AppState)
    ensures r.isAuthenticated && r.role == Some(role) && r.theme == st.theme
    ensures role != ADMIN ==> IsDashboard(r.view) && Owner(r.view) == Some(role)
    ensures role == ADMIN ==> r.view == st.view
  {
    var signedIn := st.(isAuthenticated := true, role := Some(role));
    if role == RECRUITER then signedIn.(view := DASHBOARD)
    else if role == WORKER then signedIn.(view := WORKER_DASHBOARD)
    else if role == MANAGER then signedIn.(view := MANAGER_DASHBOARD)
    else assert role == ADMIN; signedIn
  }

  /** Signing out: nobody is authenticated, no role, the sign-in page; only
      the theme survives. */
  function Logout(st: AppState): (r: AppState)
    ensures !r.isAuthenticated && r.role == None && r.view == LOGIN
    ensures r.theme == st.theme
  {
    st.(isAuthenticated := false, role := None, view := LOGIN)
  }

  /** A page request. A dashboard asked for by somebody not signed in sends
      them to the sign-in page; a dashboard asked for by a signed-in user of
      another role is ignored; every other request is granted. Only the page
      ever changes. */
  function ViewChange(st: AppState, v: ViewState): (r: AppState)
    ensures r.(view := st.view) == st
    ensures IsDashboard(v) && !st.isAuthenticated ==> r.view == LOGIN
    ensures IsDashboard(v) && st.isAuthenticated ==> r.view == if st.role == Owner(v) then v else st.view
    ensures !IsDashboard(v) ==> r.view == v
  {
    if IsDashboard(v) && !st.isAuthenticated then st.(view := LOGIN)
    else if v == DASHBOARD && st.role != Some(RECRUITER) then st
    else if v == WORKER_DASHBOARD && st.role != Some(WORKER) then st
    else if v == MANAGER_DASHBOARD && st.role != Some(MANAGER) then st
    else st.(view := v)
  }

  function Other(t: Theme): Theme {
    if t == Light then Dark else Light
  }

  /** The theme switch flips between light and dark and touches nothing else. */
  function ToggleTheme(st: AppState): (r: AppState)
    ensures r.theme != st.theme
    ensures r.(theme := st.theme) == st
  {
    st.(theme := Other(st.theme))
  }

  /** Switching the theme twice restores the state. */
  lemma ToggleThemeTwice(st: AppState)
    ensures ToggleTheme(ToggleTheme(st)) == st
  {
  }

  /** What the main area shows. */
  datatype Content = LandingPage | LeadForm | RecruiterBoard | WorkerBoard | ManagerBoard | LoginPage | Nothing

  /** The page for each view; a dashboard is drawn only for a signed-in user
      of its role, and otherwise the area stays empty. */
  function Render(st: AppState): (c: Content)
    ensures c == Nothing <==> IsDashboard(st.view) && !(st.isAuthenticated && st.role == Owner(st.view))
    ensures c == RecruiterBoard <==> st.view == DASHBOARD && st.isAuthenticated && st.role == Some(RECRUITER)
    ensures c == WorkerBoard <==> st.view == WORKER_DASHBOARD && st.isAuthenticated && st.role == Some(WORKER)
    ensures c == ManagerBoard <==> st.view == MANAGER_DASHBOARD && st.isAuthenticated && st.role == Some(MANAGER)
    ensures c == LoginPage <==> st.view == LOGIN
    ensures c == LandingPage <==> st.view == LANDING
    ensures c == LeadForm <==> st.view == FORM
  {
    match st.view
    case LANDING => LandingPage
    case FORM => LeadForm
    case DASHBOARD => if st.isAuthenticated && st.role == Some(RECRUITER) then RecruiterBoard else Nothing
    case WORKER_DASHBOARD => if st.isAuthenticated && st.role == Some(WORKER) then WorkerBoard else Nothing
    case MANAGER_DASHBOARD => if st.isAuthenticated && st.role == Some(MANAGER) then ManagerBoard else Nothing
    case LOGIN => LoginPage
  }

  // ---------------------------------------------------------------------
  // Sessions: the shell driven by user actions.

  /** What a user can do: ask for a page, submit the sign-in form (which is
      on screen only on the sign-in page), sign out, switch the theme; and the
      200 ms timer of an earlier page request running out. */
  datatype Event = Navigate(v: ViewState) | ViewTimer | SubmitLogin(username: string, password: string)
                 | SignOut | SwitchTheme

  /** The shell together with the page changes already granted but still
      waiting for their timer, oldest first. */
  datatype Shell = Shell(st: AppState, pending: seq<ViewState>)

  function Start(theme: Theme): Shell {
    Shell(Initial(theme), [])
  }

  /** A page request at the moment of the click: a dashboard asked for while
      signed out switches to the sign-in page at once, a dashboard of another
      role is ignored, and any other request is granted but only scheduled:
      the page changes when its timer runs out. */
  function Click(sh: Shell, v: ViewState): (r: Shell)
    ensures IsDashboard(v) && !sh.st.isAuthenticated ==> r == Shell(sh.st.(view := LOGIN), sh.pending)
    ensures IsDashboard(v) && sh.st.isAuthenticated && sh.st.role != Owner(v) ==> r == sh
    ensures !IsDashboard(v) || (sh.st.isAuthenticated && sh.st.role == Owner(v)) ==> r == Shell(sh.st, sh.pending + [v])
  {
    if IsDashboard(v) && !sh.st.isAuthenticated then sh.(st := sh.st.(view := LOGIN))
    else if v == DASHBOARD && sh.st.role != Some(RECRUITER) then sh
    else if v == WORKER_DASHBOARD && sh.st.role != Some(WORKER) then sh
    else if v == MANAGER_DASHBOARD && sh.st.role != Some(MANAGER) then sh
    else sh.(pending := sh.pending + [v])
  }

  /** Every action other than a timer running out. */
  function Act(sh: Shell, e: Event): (r: Shell)
    ensures e.ViewTimer? ==> r == sh
    ensures !e.Navigate? ==> r.pending == sh.pending
    ensures e.Navigate? ==> r.pending == sh.pending || r.pending == sh.pending + [e.v]
    ensures !e.SwitchTheme? ==> r.st.theme == sh.st.theme
  {
    match e
    case Navigate(v) => Click(sh, v)
    case ViewTimer => sh
    case SubmitLogin(u, p) =>
      if sh.st.view != LOGIN then sh
      else
        (match Login.SubmitForm(Login.LoginForm(u, p, "")).role
         case Some(role) => sh.(st := LoginSuccess(sh.st, role))
         case None => sh)
    case SignOut => sh.(st := Logout(sh.st))
    case SwitchTheme => sh.(st := ToggleTheme(sh.st))
  }

  /** The oldest scheduled page change lands as the timer callback does it:
      the page is set with no further check. */
  function CommitAsWritten(sh: Shell): (r: Shell)
    ensures sh.pending == [] ==> r == sh
    ensures sh.pending != [] ==> r.st == sh.st.(view := sh.pending[0]) && r.pending == sh.pending[1..]
  {
    if sh.pending == [] then sh else Shell(sh.st.(view := sh.pending[0]), sh.pending[1..])
  }

  /** The oldest scheduled page change lands with the request guards applied
      again to the state at that moment. */
  function Commit(sh: Shell): (r: Shell)
    ensures sh.pending == [] ==> r == sh
    ensures sh.pending != [] ==> r.st == ViewChange(sh.st, sh.pending[0]) && r.pending == sh.pending[1..]
  {
    if sh.pending == [] then sh else Shell(ViewChange(sh.st, sh.pending[0]), sh.pending[1..])
  }

  /** A change that still passes the guards when it lands is carried out the
      same way by both: they differ only on a change the state no longer
      allows. */
  lemma CommitAgrees(sh: Shell)
    requires Consistent(sh.st) && sh.pending != []
    ensures Commit(sh) == CommitAsWritten(sh) <==>
              !IsDashboard(sh.pending[0]) || (sh.st.isAuthenticated && sh.st.role == Owner(sh.pending[0]))
  {
  }

  /** One event, with the timer as written: scheduled pages land in the
      order they were requested, one per timer. */
  function NextAsWritten(sh: Shell, e: Event): (r: Shell)
    ensures e.ViewTimer? ==> r.pending == if sh.pending == [] then [] else sh.pending[1..]
    ensures e.ViewTimer? && sh.pending != [] ==> r.st.view == sh.pending[0]
    ensures !e.ViewTimer? ==> r == Act(sh, e)
  {
    if e.ViewTimer? then CommitAsWritten(sh) else Act(sh, e)
  }

  /** One event, with the corrected timer: scheduled pages are taken in
      order, one per timer, each passing the guards again. */
  function Next(sh: Shell, e: Event): (r: Shell)
    ensures e.ViewTimer? ==> r.pending == if sh.pending == [] then [] else sh.pending[1..]
    ensures e.ViewTimer? && sh.pending != [] ==> r.st == ViewChange(sh.st, sh.pending[0])
    ensures !e.ViewTimer? ==> r == Act(sh, e)
  {
    if e.ViewTimer? then Commit(sh) else Act(sh, e)
  }

  function RunAsWritten(sh: Shell, es: seq<Event>): Shell
    decreases |es|
  {
    if es == [] then sh else RunAsWritten(NextAsWritten(sh, es[0]), es[1..])
  }

  function Run(sh: Shell, es: seq<Event>): Shell
    decreases |es|
  {
    if es == [] then sh else Run(Next(sh, es[0]), es[1..])
  }

  /** A page request left to land before anything else happens has exactly
      the effect of the one-step page change, in both readings. */
  lemma NavigateThenTimer(st: AppState, v: ViewState)
    ensures Run(Shell(st, []), [Navigate(v), ViewTimer]) == Shell(ViewChange(st, v), [])
    ensures RunAsWritten(Shell(st, []), [Navigate(v), ViewTimer]) == Shell(ViewChange(st, v), [])
  {
    var sh := Next(Shell(st, []), Navigate(v));
    assert sh == NextAsWritten(Shell(st, []), Navigate(v));
    assert sh.pending == [] || sh == Shell(st, [v]);
    assert Next(sh, ViewTimer) == Shell(ViewChange(st, v), []);
    assert NextAsWritten(sh, ViewTimer) == Shell(ViewChange(st, v), []);
    assert [Navigate(v), ViewTimer][1..] == [ViewTimer];
    assert Run(sh, [ViewTimer]) == Next(sh, ViewTimer);
    assert RunAsWritten(sh, [ViewTimer]) == NextAsWritten(sh, ViewTimer);
  }

  /** The shell's invariant: signed in exactly when a role is set, never as
      ADMIN, and on a dashboard only as its owner. */
  predicate Consistent(st: AppState) {
    && (st.isAuthenticated <==> st.role.Some?)
    && st.role != Some(ADMIN)
    && (IsDashboard(st.view) ==> st.isAuthenticated && st.role == Owner(st.view))
  }

  lemma InitialConsistent(theme: Theme)
    ensures Consistent(Start(theme).st)
    ensures Render(Start(theme).st) == LandingPage
  {
  }

  /** Every action keeps the invariant, whatever changes are still waiting. */
  lemma NextConsistent(sh: Shell, e: Event)
    requires Consistent(sh.st)
    ensures Consistent(Next(sh, e).st)
  {
  }

  /** Every session keeps the invariant. */
  lemma {:induction false} RunConsistent(sh: Shell, es: seq<Event>)
    requires Consistent(sh.st)
    ensures Consistent(Run(sh, es).st)
    decreases |es|
  {
    if es != [] {
      NextConsistent(sh, es[0]);
      RunConsistent(Next(sh, es[0]), es[1..]);
    }
  }

  /** Whatever the user does from start-up, and however the timers
      interleave with it, the main area is never left empty and nobody is
      ever signed in as ADMIN. */
  lemma SessionNeverBlank(theme: Theme, es: seq<Event>)
    ensures Render(Run(Start(theme), es).st) != Nothing
    ensures Run(Start(theme), es).st.role != Some(ADMIN)
  {
    RunConsistent(Start(theme), es);
  }

  /** Sign in as the recruiter, ask for the dashboard, and sign out before its
      timer runs out. */
  const SignOutRace: seq<Event> :=
    [Navigate(LOGIN), ViewTimer, SubmitLogin("xxx", "xxx"), Navigate(DASHBOARD), SignOut, ViewTimer]

  /** With the page set unchecked when the timer runs out, that session ends
      signed out on the recruiter dashboard, and the main area is empty. */
  lemma DeferredPageBlank(theme: Theme)
    ensures RunAsWritten(Start(theme), SignOutRace).st.view == DASHBOARD
    ensures !RunAsWritten(Start(theme), SignOutRace).st.isAuthenticated
    ensures Render(RunAsWritten(Start(theme), SignOutRace).st) == Nothing
  {
  }

  /** Asking for a dashboard while signed out always lands on the sign-in page. */
  lemma SignedOutDashboardRequest(st: AppState, v: ViewState)
    requires IsDashboard(v) && !st.isAuthenticated
    ensures Render(ViewChange(st, v)) == LoginPage
  {
  }

  /** Signing in from the sign-in page with a demonstration account shows
      that account's dashboard at once, with no timer involved. */
  lemma SignInShowsDashboard(sh: Shell, u: string)
    requires sh.st.view == LOGIN && u in Login.Accounts
    ensures Next(sh, SubmitLogin(u, u)).pending == sh.pending
    ensures Render(Next(sh, SubmitLogin(u, u)).st) ==
              match Login.Accounts[u]
              case RECRUITER => RecruiterBoard
              case WORKER => WorkerBoard
              case MANAGER => ManagerBoard
              case ADMIN => Nothing
  {
  }

  /** Signing out and back in with the same account returns to the same
      dashboard. */
  lemma LogoutThenLogin(sh: Shell, u: string)
    requires u in Login.Accounts
    ensures Run(sh, [SignOut, SubmitLogin(u, u)]).st.view == LandingView(Login.Accounts[u]).value
  {
    var s1 := Next(sh, SignOut);
    assert Run(s1, [SubmitLogin(u, u)]) == Next(s1, SubmitLogin(u, u));
  }
}
