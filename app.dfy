/** The application shell (App.tsx): the simulated login that derives a
    session from the typed email, logout, navigation, which screen a route
    renders and when the sidebar is shown. */
module App {

  import opened Types
  import opened Strings

  const ADMIN_EMAIL := "admin@maatiputra.com"
  const DEFAULT_NAME := "Ramesh Kumar"
  const DEMO_ID_PREFIX := "KISAN-IN-DEMO-"
  const PRO_ID := "KISAN-PRO-8821"
  const DEMO_PHONE := "+91 9876543210"
  const DEMO_LOCATION := "Indore, MP"
  const DEMO_TOAST := "Logged in using demo mode"
  const LOGIN_TOAST := "Logged in successfully"
  const LOGOUT_TOAST := "Logged out successfully"

  /** Every login succeeds; it is a demo session unless forced otherwise or
      the email is the administrator's. */
  function IsDemoSession(email: string, forceDemo: bool): (r: bool)
    ensures !r <==> !forceDemo && email == ADMIN_EMAIL
  {
    forceDemo || email != ADMIN_EMAIL
  }

  /** The display name: the email's local part, or the stock farmer's name
      when no email was typed. */
  function UserName(email: string): (r: string)
    ensures email == "" ==> r == DEFAULT_NAME
    ensures email != "" ==>
              && '@' !in r && |r| <= |email| && email[..|r|] == r
              && (|r| < |email| ==> email[|r|] == '@')
  {
    if email != "" then BeforeFirst(email, '@') else DEFAULT_NAME
  }

  /** The farmer id: the demo prefix and the random number, or the fixed
      id of the real account. */
  function KisanId(demo: bool, randomId: nat): (r: string)
    requires 1000 <= randomId <= 9999
    ensures demo ==> |r| == |DEMO_ID_PREFIX| + 4 && r[..|DEMO_ID_PREFIX|] == DEMO_ID_PREFIX
    ensures !demo ==> r == PRO_ID
  {
    FourDigits(randomId);
    if demo then DEMO_ID_PREFIX + Decimal(randomId) else PRO_ID
  }

  /** The number in a demo id reads back as the random number it was made
      from: two sessions with different numbers get different ids. */
  lemma {:induction false} DemoIdReadsBack(randomId: nat)
    requires 1000 <= randomId <= 9999
    ensures var r := KisanId(true, randomId);
            && (forall i | |DEMO_ID_PREFIX| <= i < |r| :: '0' <= r[i] <= '9')
            && ParseDecimal(r[|DEMO_ID_PREFIX|..]) == randomId
  {
    var r := KisanId(true, randomId);
    assert r[|DEMO_ID_PREFIX|..] == Decimal(randomId);
    DecimalRoundTrip(randomId);
  }

  lemma DemoIdsDistinct(a: nat, b: nat)
    requires 1000 <= a <= 9999 && 1000 <= b <= 9999 && a != b
    ensures KisanId(true, a) != KisanId(true, b)
  {
    DemoIdReadsBack(a);
    DemoIdReadsBack(b);
  }

  /** The user a login produces, from the email, the demo flag and the
      random number drawn in 1000..9999. */
  function Session(email: string, forceDemo: bool, randomId: nat): (u: User)
    requires 1000 <= randomId <= 9999
    ensures u.name == UserName(email)
    ensures u.kisanId == KisanId(IsDemoSession(email, forceDemo), randomId)
    ensures u.phone == DEMO_PHONE && u.location == DEMO_LOCATION
  {
    User(UserName(email), KisanId(IsDemoSession(email, forceDemo), randomId), DEMO_PHONE, DEMO_LOCATION)
  }

  /** The administrator's email, without forcing demo, gets the real
      account's id and the plain success toast text. */
  lemma AdminGetsProAccount(randomId: nat)
    requires 1000 <= randomId <= 9999
    ensures Session(ADMIN_EMAIL, false, randomId) ==
            User("admin", PRO_ID, DEMO_PHONE, DEMO_LOCATION)
    ensures LoginToast(IsDemoSession(ADMIN_EMAIL, false)) == LOGIN_TOAST
  {
    assert ADMIN_EMAIL == "admin" + ['@'] + "maatiputra.com";
    BeforeFirstJoin("admin", '@', "maatiputra.com");
  }

  /** The toast after a login. */
  function LoginToast(demo: bool): (r: string)
    ensures r == DEMO_TOAST <==> demo
    ensures r == LOGIN_TOAST <==> !demo
  {
    if demo then DEMO_TOAST else LOGIN_TOAST
  }

  /** What a route renders. */
  datatype Screen =
    | HomeScreen
    | LoginScreen
    | DashboardScreen(user: Option<User>)
    | SoilScreen
    | LeafScreen
    | ChatScreen(userLocation: Option<string>)
    | FasaldaamScreen
    | WeatherScreen
    | MapScreen

  /** `renderContent`: login and register share one screen; the chat is
      given the user's location, when there is a user. */
  function RenderContent(route: AppRoute, user: Option<User>): (r: Screen)
    ensures r == LoginScreen <==> route == Login || route == Register
    ensures r == HomeScreen <==> route == Home
    ensures r.DashboardScreen? <==> route == Dashboard
    ensures r.DashboardScreen? ==> r.user == user
    ensures r.ChatScreen? <==> route == Chat
    ensures r.ChatScreen? ==> (r.userLocation.Some? <==> user.Some?)
                              && (user.Some? ==> r.userLocation.value == user.value.location)
  {
    match route
    case Home => HomeScreen
    case Login => LoginScreen
    case Register => LoginScreen
    case Dashboard => DashboardScreen(user)
    case Soil => SoilScreen
    case Leaf => LeafScreen
    case Chat => ChatScreen(if user.Some? then Some(user.value.location) else None)
    case Fasaldaam => FasaldaamScreen
    case WeatherRoute => WeatherScreen
    case MapRoute => MapScreen
  }

  /** The sidebar is shown for a signed-in user away from the public
      screens. */
  predicate SidebarShown(user: Option<User>, route: AppRoute)
    ensures SidebarShown(user, route) <==>
              user.Some? && RenderContent(route, user) != HomeScreen && RenderContent(route, user) != LoginScreen
  {
    user.Some? && route != Home && route != Login && route != Register
  }

  /** The shell's state: the signed-in user, the route, the login spinner,
      the toast and the two form fields. */
  datatype Shell = Shell(
    user: Option<User>, route: AppRoute, isLoggingIn: bool,
    toast: Option<string>, email: string, password: string)

  const INITIAL_SHELL: Shell := Shell(None, Home, false, None, "", "")

  /** The completed login: the session derived from the typed email, the
      dashboard, the spinner off and the login toast; the form is kept. */
  function LoggedIn(s: Shell, forceDemo: bool, randomId: nat): (r: Shell)
    requires 1000 <= randomId <= 9999
    ensures r.user == Some(Session(s.email, forceDemo, randomId)) && r.route == Dashboard && !r.isLoggingIn
    ensures r.toast.Some? && (r.toast.value == DEMO_TOAST <==> IsDemoSession(s.email, forceDemo))
    ensures r.email == s.email && r.password == s.password
  {
    s.(user := Some(Session(s.email, forceDemo, randomId)), route := Dashboard, isLoggingIn := false,
       toast := Some(LoginToast(IsDemoSession(s.email, forceDemo))))
  }

  /** Logout: no user, the home page, an empty form and the logout toast. */
  function LoggedOut(s: Shell): (r: Shell)
    ensures r.user.None? && r.route == Home && r.email == "" && r.password == ""
    ensures r.toast == Some(LOGOUT_TOAST) && r.isLoggingIn == s.isLoggingIn
    ensures !SidebarShown(r.user, r.route)
  {
    s.(user := None, route := Home, email := "", password := "", toast := Some(LOGOUT_TOAST))
  }

  /** A login lands on the dashboard with the sidebar, showing the new
      session; a demo session is announced as such. */
  lemma LoginOpensDashboard(s: Shell, forceDemo: bool, randomId: nat)
    requires 1000 <= randomId <= 9999
    ensures var r := LoggedIn(s, forceDemo, randomId);
            && SidebarShown(r.user, r.route)
            && RenderContent(r.route, r.user) == DashboardScreen(Some(Session(s.email, forceDemo, randomId)))
            && !r.isLoggingIn
            && (r.toast == Some(DEMO_TOAST) <==> IsDemoSession(s.email, forceDemo))
  {
  }

  /** Logging out after a login returns to the initial screen with the form
      cleared; only the toast differs. */
  lemma LogoutAfterLogin(s: Shell, forceDemo: bool, randomId: nat)
    requires 1000 <= randomId <= 9999 && !s.isLoggingIn
    ensures LoggedOut(LoggedIn(s, forceDemo, randomId)) == INITIAL_SHELL.(toast := Some(LOGOUT_TOAST))
    ensures var r := LoggedOut(LoggedIn(s, forceDemo, randomId));
            !SidebarShown(r.user, r.route) && RenderContent(r.route, r.user) == HomeScreen
  {
  }

  class AppShell {
    var user: Option<User>
    var route: AppRoute
    var isLoggingIn: bool
    var toast: Option<string>
    var email: string
    var password: string

    function State(): Shell
      reads this
    {
      Shell(user, route, isLoggingIn, toast, email, password)
    }

    constructor ()
      ensures State() == INITIAL_SHELL
    {
      user := None;
      route := Home;
      isLoggingIn := false;
      toast := None;
      email := "";
      password := "";
    }

    method SetEmail(value: string)
      modifies this
      ensures State() == old(State()).(email := value)
    {
      email := value;
    }

    method SetPassword(value: string)
      modifies this
      ensures State() == old(State()).(password := value)
    {
      password := value;
    }

    /** `handleLogin` with its delayed completion; `randomId` is the number
        drawn for a demo id. */
    method HandleLogin(forceDemo: bool, randomId: nat)
      requires 1000 <= randomId <= 9999
      modifies this
      ensures State() == LoggedIn(old(State()), forceDemo, randomId)
    {
      isLoggingIn := true;
      var demo := IsDemoSession(email, forceDemo);
      user := Some(Session(email, forceDemo, randomId));
      route := Dashboard;
      isLoggingIn := false;
      toast := Some(LoginToast(demo));
    }

    method HandleLogout()
      modifies this
      ensures State() == LoggedOut(old(State()))
    {
      user := None;
      route := Home;
      email := "";
      password := "";
      toast := Some(LOGOUT_TOAST);
    }

    method Navigate(newRoute: AppRoute)
      modifies this
      ensures State() == old(State()).(route := newRoute)
    {
      route := newRoute;
    }

    /** The timer that hides a toast three seconds after it was shown. */
    method ToastExpired()
      modifies this
      ensures State() == old(State()).(toast := None)
    {
      toast := None;
    }
  }
}
