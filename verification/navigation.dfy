/**
 * The application shell: the authentication stage (landing, login, sign-up,
 * workspace), the current workspace view, the agent drawer, the selected
 * table and the signed-in user, with one transition per handler and the
 * dispatch from view to main panel.
 */
module Navigation {
  import opened Wrappers
  import opened Text
  import opened SignUp

  /** `AppState`. */
  datatype AppState = Landing | Login | Signup | InApp

  /** `ViewType`. */
  datatype View = Playground | Logs | AgentDrawerView | AgentMarketplace | TableInspector | Metadata | Lms | Roi

  /** The signed-in user; a login records no company. */
  datatype User = User(email: string, name: string, company: Option<string>)

  /** The five pieces of state the shell keeps. */
  datatype NavState = NavState(
    appState: AppState,
    currentView: View,
    drawerOpen: bool,
    selectedTable: Option<string>,
    user: Option<User>)

  const Initial := NavState(Landing, Playground, false, None, None)

  /** Every callback the shell hands to the pages it renders. */
  datatype Event =
    | GetStarted                          // landing page, "get started"
    | GoToLogin                           // landing page, "log in"
    | LoginSubmit(email: string, password: string)
    | SignUpSubmit(form: SignUpForm)
    | Back                                // login or sign-up page, back to landing
    | LoginToSignup                       // login page, link to sign-up
    | SignupToLogin                       // sign-up page, link to login
    | ForgotPassword
    | ViewChange(view: View)              // top navigation
    | ToggleDrawer                        // top navigation
    | CloseDrawer                         // the drawer's close button
    | OpenTableInspector(table: string)   // playground
    | OpenMetadata                        // playground
    | CloseInspector
    | CloseMetadata
    | Logout

  /** The user `handleLogin` records: the name is the part of the email before the first '@'. */
  function LoginUser(email: string): (u: User)
    ensures u.email == email && u.company.None?
    ensures u.name <= email && '@' !in u.name
    ensures |u.name| < |email| ==> email[|u.name|] == '@'
  {
    User(email, BeforeFirst(email, '@'), None)
  }

  /** The user `handleSignUp` records from the submitted form. */
  function SignUpUser(form: SignUpForm): (u: User)
    ensures u.email == form.email && u.company == Some(form.company)
    ensures |u.name| == |form.firstName| + 1 + |form.lastName|
    ensures u.name[..|form.firstName|] == form.firstName
    ensures u.name[|form.firstName|] == ' ' && u.name[|form.firstName| + 1..] == form.lastName
  {
    User(form.email, form.firstName + " " + form.lastName, Some(form.company))
  }

  /** What each handler does to the state, whether or not the page offering it is on screen. */
  function Step(s: NavState, e: Event): NavState {
    match e
    case GetStarted => s.(appState := Signup)
    case GoToLogin => s.(appState := Login)
    case LoginSubmit(email, _) => s.(user := Some(LoginUser(email)), appState := InApp)
    case SignUpSubmit(form) => s.(user := Some(SignUpUser(form)), appState := InApp)
    case Back => s.(appState := Landing)
    case LoginToSignup => s.(appState := Signup)
    case SignupToLogin => s.(appState := Login)
    case ForgotPassword => s
    case ViewChange(v) => s.(currentView := v)
    case ToggleDrawer => s.(drawerOpen := !s.drawerOpen)
    case CloseDrawer => s.(drawerOpen := false)
    case OpenTableInspector(t) => s.(selectedTable := Some(t), currentView := TableInspector)
    case OpenMetadata => s.(currentView := Metadata)
    case CloseInspector => s.(currentView := Playground)
    case CloseMetadata => s.(currentView := Playground)
    case Logout => s.(user := None, appState := Landing, currentView := Playground)
  }

  // ---------------------------------------------------------------------------
  // Rendering

  /** The component `renderMainContent` puts in the main area. */
  datatype Panel = LogsPanel | MarketplacePanel | InspectorPanel | MetadataPanel | LmsPanel | RoiPanel | PlaygroundLayout

  /** `renderMainContent`: 'playground' and every view without a case of its own get the playground layout. */
  function MainPanel(v: View): Panel {
    match v
    case Logs => LogsPanel
    case AgentMarketplace => MarketplacePanel
    case TableInspector => InspectorPanel
    case Metadata => MetadataPanel
    case Lms => LmsPanel
    case Roi => RoiPanel
    case _ => PlaygroundLayout
  }

  /** Only 'playground' and 'agent-drawer' share a panel; every other view has one of its own. */
  lemma MainPanelShared(v: View, w: View)
    ensures MainPanel(v) == PlaygroundLayout <==> v == Playground || v == AgentDrawerView
    ensures MainPanel(v) == MainPanel(w) && v != w ==> {v, w} == {Playground, AgentDrawerView}
  {
  }

  /** What is on screen. */
  datatype Screen = LandingScreen | LoginScreen | SignUpScreen | Workspace(panel: Panel, drawerShown: bool)

  function Render(s: NavState): Screen {
    match s.appState
    case Landing => LandingScreen
    case Login => LoginScreen
    case Signup => SignUpScreen
    case InApp => Workspace(MainPanel(s.currentView), s.drawerOpen)
  }

  /** The views the top navigation offers. */
  predicate NavigableView(v: View) {
    v == Logs || v == AgentMarketplace || v == Lms || v == Roi
  }

  /**
   * The callbacks reachable from what is on screen. A sign-up is handed over
   * only after the page's own validation passed with the terms accepted.
   */
  predicate Enabled(s: NavState, e: Event) {
    match Render(s)
    case LandingScreen => e == GetStarted || e == GoToLogin
    case LoginScreen => e.LoginSubmit? || e == Back || e == LoginToSignup || e == ForgotPassword
    case SignUpScreen => (e.SignUpSubmit? && ValidateForm(e.form, true).None?) || e == Back || e == SignupToLogin
    case Workspace(panel, drawerShown) =>
      || (e.ViewChange? && NavigableView(e.view))
      || e == ToggleDrawer || e == Logout
      || (e == CloseDrawer && drawerShown)
      || ((e.OpenTableInspector? || e == OpenMetadata) && panel == PlaygroundLayout)
      || (e == CloseInspector && panel == InspectorPanel)
      || (e == CloseMetadata && panel == MetadataPanel)
  }

  // ---------------------------------------------------------------------------
  // Invariants over every sequence of enabled events

  /**
   * A user is present exactly in the workspace; outside it the view is
   * 'playground'; the inspector is shown only with a selected table; and the
   * 'agent-drawer' view, which nothing offers, is never current.
   */
  predicate Inv(s: NavState) {
    && (s.appState == InApp <==> s.user.Some?)
    && (s.appState != InApp ==> s.currentView == Playground)
    && (s.currentView == TableInspector ==> s.selectedTable.Some?)
    && s.currentView != AgentDrawerView
  }

  lemma InitialInv()
    ensures Inv(Initial)
  {
  }

  /** Every enabled event keeps the invariant. */
  lemma StepKeepsInv(s: NavState, e: Event)
    requires Inv(s) && Enabled(s, e)
    ensures Inv(Step(s, e))
  {
  }

  /** The state after a sequence of events. */
  function Run(s: NavState, events: seq<Event>): NavState
    decreases |events|
  {
    if events == [] then s else Run(Step(s, events[0]), events[1..])
  }

  /** Each event of the sequence is enabled in the state it meets. */
  predicate EnabledRun(s: NavState, events: seq<Event>)
    decreases |events|
  {
    events == [] || (Enabled(s, events[0]) && EnabledRun(Step(s, events[0]), events[1..]))
  }

  /** The invariant holds after every sequence of enabled events. */
  lemma {:induction false} RunKeepsInv(s: NavState, events: seq<Event>)
    requires Inv(s) && EnabledRun(s, events)
    ensures Inv(Run(s, events))
    decreases |events|
  {
    if events != [] {
      StepKeepsInv(s, events[0]);
      RunKeepsInv(Step(s, events[0]), events[1..]);
    }
  }

  /** Whenever the inspector is on screen it has a table name. */
  lemma InspectorHasTable(events: seq<Event>)
    requires EnabledRun(Initial, events)
    ensures Render(Run(Initial, events)) == Workspace(InspectorPanel, Run(Initial, events).drawerOpen) ==>
              Run(Initial, events).selectedTable.Some?
  {
    InitialInv();
    RunKeepsInv(Initial, events);
  }

  /** The chat rail is mounted: the workspace shows the playground layout, which holds it. */
  predicate RailMounted(s: NavState) {
    Render(s) == Workspace(PlaygroundLayout, s.drawerOpen)
  }

  /**
   * While the rail is mounted, an offered callback keeps it mounted exactly
   * when it is not a view change, opening the inspector or the metadata
   * screen, or logout. Those unmount it, and the next mount starts a fresh log.
   */
  lemma RailUnmountedBy(s: NavState, e: Event)
    requires Inv(s) && RailMounted(s) && Enabled(s, e)
    ensures RailMounted(Step(s, e)) <==>
              !(e.ViewChange? || e.OpenTableInspector? || e == OpenMetadata || e == Logout)
  {
  }

  // ---------------------------------------------------------------------------
  // Properties of single transitions

  /** Toggling the drawer twice restores it; the drawer never changes the view. */
  lemma ToggleTwice(s: NavState)
    ensures Step(Step(s, ToggleDrawer), ToggleDrawer) == s
    ensures Step(s, ToggleDrawer).currentView == s.currentView
    ensures Step(s, CloseDrawer).currentView == s.currentView && !Step(s, CloseDrawer).drawerOpen
  {
  }

  /**
   * Logging out and back in lands on the playground with the drawer and the
   * selected table as they were before logging out.
   */
  lemma LogoutThenLogin(s: NavState, email: string, password: string)
    requires s.appState == InApp
    ensures var t := Run(s, [Logout, GoToLogin, LoginSubmit(email, password)]);
      && EnabledRun(s, [Logout, GoToLogin, LoginSubmit(email, password)])
      && t.appState == InApp && t.currentView == Playground
      && t.drawerOpen == s.drawerOpen && t.selectedTable == s.selectedTable
      && t.user == Some(LoginUser(email))
  {
    var s1 := Step(s, Logout);
    var s2 := Step(s1, GoToLogin);
    assert Run(s, [Logout, GoToLogin, LoginSubmit(email, password)]) == Run(s1, [GoToLogin, LoginSubmit(email, password)]);
    assert Run(s1, [GoToLogin, LoginSubmit(email, password)]) == Run(s2, [LoginSubmit(email, password)]);
    assert EnabledRun(s2, [LoginSubmit(email, password)]);
    assert EnabledRun(s1, [GoToLogin, LoginSubmit(email, password)]) by {
      assert [GoToLogin, LoginSubmit(email, password)][1..] == [LoginSubmit(email, password)];
    }
  }

  /** A user who signed up has an email with '@' and a password rated at least "Fair". */
  lemma SignedUpUserWellFormed(s: NavState, form: SignUpForm)
    requires Enabled(s, SignUpSubmit(form))
    ensures var u := Step(s, SignUpSubmit(form)).user.value;
      '@' in u.email && u.company.Some? && u.company.value != []
    ensures PasswordStrength(form.password).level >= 2
  {
    assert Passes(form, true, InvalidEmail);
    assert Passes(form, true, MissingField);
    assert Get(form, Company) != [];
    ValidFormIsAtLeastFair(form, true);
  }

  // ---------------------------------------------------------------------------
  // The shell's state

  class App {
    var appState: AppState
    var currentView: View
    var isAgentDrawerOpen: bool
    var selectedTable: Option<string>
    var user: Option<User>

    function State(): NavState
      reads this
    {
      NavState(appState, currentView, isAgentDrawerOpen, selectedTable, user)
    }

    constructor()
      ensures State() == Initial
    {
      appState := Landing;
      currentView := Playground;
      isAgentDrawerOpen := false;
      selectedTable := None;
      user := None;
    }

    /** Landing page, "get started". */
    method GetStarted()
      modifies this
      ensures appState == Signup
      ensures currentView == old(currentView) && isAgentDrawerOpen == old(isAgentDrawerOpen)
      ensures selectedTable == old(selectedTable) && user == old(user)
      ensures State() == Step(old(State()), Event.GetStarted)
    {
      appState := Signup;
    }

    /** Landing page, "log in"; also the sign-up page's link to login. */
    method GoToLogin()
      modifies this
      ensures appState == Login
      ensures currentView == old(currentView) && isAgentDrawerOpen == old(isAgentDrawerOpen)
      ensures selectedTable == old(selectedTable) && user == old(user)
      ensures State() == Step(old(State()), Event.GoToLogin)
      ensures State() == Step(old(State()), Event.SignupToLogin)
    {
      appState := Login;
    }

    /** The login page's link to sign-up. */
    method GoToSignup()
      modifies this
      ensures appState == Signup
      ensures currentView == old(currentView) && isAgentDrawerOpen == old(isAgentDrawerOpen)
      ensures selectedTable == old(selectedTable) && user == old(user)
      ensures State() == Step(old(State()), Event.LoginToSignup)
    {
      appState := Signup;
    }

    /** The back button of the login and sign-up pages. */
    method Back()
      modifies this
      ensures appState == Landing
      ensures currentView == old(currentView) && isAgentDrawerOpen == old(isAgentDrawerOpen)
      ensures selectedTable == old(selectedTable) && user == old(user)
      ensures State() == Step(old(State()), Event.Back)
    {
      appState := Landing;
    }

    /** "Forgot password" only logs a message. */
    method ForgotPassword()
      ensures State() == Step(State(), Event.ForgotPassword)
    {
    }

    /** `handleLogin`. */
    method HandleLogin(email: string, password: string)
      modifies this
      ensures user == Some(LoginUser(email)) && appState == InApp
      ensures currentView == old(currentView) && isAgentDrawerOpen == old(isAgentDrawerOpen)
      ensures selectedTable == old(selectedTable)
      ensures State() == Step(old(State()), LoginSubmit(email, password))
    {
      user := Some(LoginUser(email));
      appState := InApp;
    }

    /** `handleSignUp`. */
    method HandleSignUp(form: SignUpForm)
      modifies this
      ensures user == Some(SignUpUser(form)) && appState == InApp
      ensures currentView == old(currentView) && isAgentDrawerOpen == old(isAgentDrawerOpen)
      ensures selectedTable == old(selectedTable)
      ensures State() == Step(old(State()), SignUpSubmit(form))
    {
      user := Some(SignUpUser(form));
      appState := InApp;
    }

    /** `handleLogout`: the drawer and the selected table are left as they are. */
    method HandleLogout()
      modifies this
      ensures user.None? && appState == Landing && currentView == Playground
      ensures isAgentDrawerOpen == old(isAgentDrawerOpen) && selectedTable == old(selectedTable)
      ensures State() == Step(old(State()), Logout)
    {
      user := None;
      appState := Landing;
      currentView := Playground;
    }

    /** The top navigation's `onViewChange`. */
    method SetCurrentView(view: View)
      modifies this
      ensures currentView == view
      ensures appState == old(appState) && isAgentDrawerOpen == old(isAgentDrawerOpen)
      ensures selectedTable == old(selectedTable) && user == old(user)
      ensures State() == Step(old(State()), ViewChange(view))
    {
      currentView := view;
    }

    /** The top navigation's drawer button. */
    method ToggleAgentDrawer()
      modifies this
      ensures isAgentDrawerOpen == !old(isAgentDrawerOpen)
      ensures appState == old(appState) && currentView == old(currentView)
      ensures selectedTable == old(selectedTable) && user == old(user)
      ensures State() == Step(old(State()), ToggleDrawer)
    {
      isAgentDrawerOpen := !isAgentDrawerOpen;
    }

    /** The drawer's close button. */
    method CloseAgentDrawer()
      modifies this
      ensures !isAgentDrawerOpen
      ensures appState == old(appState) && currentView == old(currentView)
      ensures selectedTable == old(selectedTable) && user == old(user)
      ensures State() == Step(old(State()), CloseDrawer)
    {
      isAgentDrawerOpen := false;
    }

    /** The playground's `onOpenTableInspector`. */
    method OpenTableInspector(table: string)
      modifies this
      ensures selectedTable == Some(table) && currentView == TableInspector
      ensures appState == old(appState) && isAgentDrawerOpen == old(isAgentDrawerOpen) && user == old(user)
      ensures State() == Step(old(State()), Event.OpenTableInspector(table))
    {
      selectedTable := Some(table);
      currentView := TableInspector;
    }

    /** The playground's `onOpenMetadata`. */
    method OpenMetadata()
      modifies this
      ensures currentView == Metadata
      ensures appState == old(appState) && isAgentDrawerOpen == old(isAgentDrawerOpen)
      ensures selectedTable == old(selectedTable) && user == old(user)
      ensures State() == Step(old(State()), Event.OpenMetadata)
    {
      currentView := Metadata;
    }

    /** The `onClose` of the inspector and of the metadata screen: back to the playground, table kept. */
    method ClosePanel()
      modifies this
      ensures currentView == Playground
      ensures appState == old(appState) && isAgentDrawerOpen == old(isAgentDrawerOpen)
      ensures selectedTable == old(selectedTable) && user == old(user)
      ensures State() == Step(old(State()), CloseInspector)
      ensures State() == Step(old(State()), CloseMetadata)
    {
      currentView := Playground;
    }
  }
}
