/** The application shell: one current-screen variable, the callbacks that
    overwrite it, the bottom navigation bar's visibility and the choice of the
    screen to render. */
module Navigation {

  datatype AppScreen = Splash | Login | Home | Timetable | Labs | Settings

  /** The four screens reachable from the bottom navigation bar. */
  predicate IsMain(s: AppScreen)
  {
    s.Home? || s.Timetable? || s.Labs? || s.Settings?
  }

  /** The `Screen` type: the main screens only. */
  type Screen = s: AppScreen | IsMain(s) witness Home

  const Initial: AppScreen := Splash

  /** `showBottomNav`: the current screen is not in the list `[splash, login]`. */
  function ShowBottomNav(s: AppScreen): (show: bool)
    ensures show <==> s != Splash && s != Login
    ensures show <==> IsMain(s)
  {
    !(s in [Splash, Login])
  }

  /** The `currentScreen as Screen` cast handed to the bottom bar: it type-checks
      because the bar is shown only on main screens. */
  function ActiveScreen(s: AppScreen): Screen
    requires ShowBottomNav(s)
  {
    s
  }

  /** The component that `renderScreen` mounts. */
  datatype View = SplashScreen | LoginScreen | HomeDashboard | TimetableScreen | LabRecordsScreen | SettingsScreen

  function RenderScreen(s: AppScreen): View
  {
    match s
    case Splash => SplashScreen
    case Login => LoginScreen
    case Home => HomeDashboard
    case Timetable => TimetableScreen
    case Labs => LabRecordsScreen
    case Settings => SettingsScreen
  }

  /** Different states render different components, and every component is rendered by some state. */
  lemma RenderScreenBijective(a: AppScreen, b: AppScreen, v: View)
    ensures RenderScreen(a) == RenderScreen(b) ==> a == b
    ensures exists s :: RenderScreen(s) == v
  {
    var s := match v
      case SplashScreen => Splash
      case LoginScreen => Login
      case HomeDashboard => Home
      case TimetableScreen => Timetable
      case LabRecordsScreen => Labs
      case SettingsScreen => Settings;
    assert RenderScreen(s) == v;
  }

  // ----- the transition system -----

  /** A callback invocation: `onComplete` of the splash screen, `onLogin` of
      the login screen, `onNavigate` of the bottom bar. */
  datatype Event = SplashComplete | LoginSubmit | Navigate(target: Screen)

  /** A callback can fire only while the component it was handed to is mounted. */
  predicate Enabled(s: AppScreen, ev: Event)
  {
    match ev
    case SplashComplete => RenderScreen(s) == SplashScreen
    case LoginSubmit => RenderScreen(s) == LoginScreen
    case Navigate(_) => ShowBottomNav(s)
  }

  /** What each handler writes to `currentScreen`; none of them looks at the old value. */
  function Step(s: AppScreen, ev: Event): AppScreen
  {
    match ev
    case SplashComplete => Login
    case LoginSubmit => Home
    case Navigate(t) => t
  }

  /** The state after a sequence of events. */
  function Run(s: AppScreen, evs: seq<Event>): AppScreen
    decreases |evs|
  {
    if evs == [] then s else Run(Step(s, evs[0]), evs[1..])
  }

  /** Every event of the sequence is enabled when it happens. */
  predicate Accepts(s: AppScreen, evs: seq<Event>)
    decreases |evs|
  {
    evs == [] || (Enabled(s, evs[0]) && Accepts(Step(s, evs[0]), evs[1..]))
  }

  lemma StepFacts(s: AppScreen, t: Screen)
    ensures Enabled(s, SplashComplete) <==> s == Splash
    ensures Enabled(s, LoginSubmit) <==> s == Login
    ensures Enabled(s, Navigate(t)) <==> IsMain(s)
    ensures Step(Splash, SplashComplete) == Login && Step(Login, LoginSubmit) == Home
    ensures Step(s, Navigate(t)) == t && IsMain(Step(s, Navigate(t)))
  {
  }

  /** Each main screen reaches every main screen in one accepted step. */
  lemma MainScreensConnected(a: Screen, b: Screen)
    ensures Accepts(a, [Navigate(b)]) && Run(a, [Navigate(b)]) == b
  {
    assert [Navigate(b)][1..] == [];
  }

  /** Once on a main screen, every accepted run stays on main screens. */
  lemma {:induction false} MainIsClosed(s: AppScreen, evs: seq<Event>)
    requires IsMain(s) && Accepts(s, evs)
    ensures IsMain(Run(s, evs))
    decreases |evs|
  {
    if evs != [] {
      MainIsClosed(Step(s, evs[0]), evs[1..]);
    }
  }

  /** From the initial state, a run is on the splash screen exactly before any
      event, on the login screen exactly after one event (the splash
      completing), and on a main screen from the second event on; the second
      event is always the login. */
  lemma {:induction false} RunsFromInitial(evs: seq<Event>)
    requires Accepts(Initial, evs)
    ensures Run(Initial, evs) == Splash <==> evs == []
    ensures Run(Initial, evs) == Login <==> evs == [SplashComplete]
    ensures |evs| >= 1 ==> evs[0] == SplashComplete
    ensures |evs| >= 2 ==> evs[1] == LoginSubmit && IsMain(Run(Initial, evs))
  {
    if |evs| >= 2 {
      var rest := evs[2..];
      assert evs[1..][1..] == rest;
      assert Step(Step(Initial, evs[0]), evs[1]) == Home;
      MainIsClosed(Home, rest);
      assert Run(Initial, evs) == Run(Home, rest);
      assert evs != [SplashComplete];
    } else if |evs| == 1 {
      assert evs == [SplashComplete];
    }
  }

  /** Every state is reachable from the initial one. */
  lemma EveryStateReachable(s: AppScreen)
    ensures exists evs :: Accepts(Initial, evs) && Run(Initial, evs) == s
  {
    var toLogin := [SplashComplete];
    assert Accepts(Initial, []) && Run(Initial, []) == Splash;
    assert toLogin[1..] == [];
    assert Accepts(Initial, toLogin) && Run(Initial, toLogin) == Login;
    var toHome := [SplashComplete, LoginSubmit];
    assert toHome[1..] == [LoginSubmit] && toHome[1..][1..] == [];
    assert Accepts(Initial, toHome) && Run(Initial, toHome) == Home;
    if IsMain(s) {
      var toMain := [SplashComplete, LoginSubmit, Navigate(s)];
      assert toMain[1..] == [LoginSubmit, Navigate(s)] && toMain[1..][1..] == [Navigate(s)];
      assert toMain[1..][1..][1..] == [];
      MainScreensConnected(Home, s);
      assert Accepts(Login, toMain[1..]) && Run(Login, toMain[1..]) == s;
      assert Accepts(Initial, toMain) && Run(Initial, toMain) == s;
    }
  }

  // ----- the shell's state -----

  /** The `MobileApp` component's single state variable. */
  class MobileApp {
    var currentScreen: AppScreen

    constructor ()
      ensures currentScreen == Initial
    {
      currentScreen := Initial;
    }

    /** `handleSplashComplete`. */
    method HandleSplashComplete()
      modifies this
      ensures currentScreen == Login
    {
      currentScreen := Login;
    }

    /** `handleLogin`. */
    method HandleLogin()
      modifies this
      ensures currentScreen == Home
    {
      currentScreen := Home;
    }

    /** `handleNavigate`: the argument's type admits main screens only. */
    method HandleNavigate(screen: Screen)
      modifies this
      ensures currentScreen == screen && IsMain(currentScreen)
    {
      currentScreen := screen;
    }

    function BottomNavShown(): bool
      reads this
    {
      ShowBottomNav(currentScreen)
    }
  }

  /** A client of the shell: splash, login, then a tap on "labs". */
  method StartAndOpenLabs() returns (screen: AppScreen, barShown: bool)
    ensures screen == Labs && barShown
  {
    var app := new MobileApp();
    assert !app.BottomNavShown();
    app.HandleSplashComplete();
    app.HandleLogin();
    app.HandleNavigate(Labs);
    screen, barShown := app.currentScreen, app.BottomNavShown();
  }
}
