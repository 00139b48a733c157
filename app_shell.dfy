/**
 * The app's startup gate: a splash screen while the stored onboarding flag
 * is read, then one of two route sets depending on it. The flag counts only
 * when the stored text is exactly "true".
 */
module AppShell {
  import opened Wrappers
  import opened AsyncStore
  import opened Navigation
  import ProfileStore
  import OnboardingFlow
  import NotificationPrefs

  /** The two pieces of state the root component keeps. */
  datatype Gate = Gate(isLoading: bool, completed: bool)

  /** `useState(true)` and `useState(false)`. */
  const Start := Gate(true, false)

  /** The stored flag, compared with `=== 'true'`. */
  predicate CompletedIn(m: map<string, string>)
  {
    Lookup(m, OnboardingCompletedKey) == Some("true")
  }

  /**
   * `checkOnboarding`: a stored "true" sets the flag; nothing ever clears it
   * here. A failed read (`readOk` false) is caught and logged. Loading ends
   * either way.
   */
  function Checked(g: Gate, m: map<string, string>, readOk: bool): Gate
  {
    Gate(false, g.completed || (readOk && CompletedIn(m)))
  }

  /**
   * `completeOnboarding`: the flag is stored, then set in memory; a failed
   * write is caught and leaves both as they were.
   */
  function Completion(g: Gate, m: map<string, string>, writeOk: bool): (Gate, map<string, string>)
  {
    if writeOk then (g.(completed := true), m[OnboardingCompletedKey := "true"]) else (g, m)
  }

  /** What the root renders. */
  function Render(g: Gate): (v: Screen)
    ensures v.Splash? <==> g.isLoading
    ensures v.Navigator? ==> (Route.Home in v.routes <==> g.completed)
    ensures v.Navigator? ==> (Route.Profile in v.routes <==> g.completed)
    ensures v.Navigator? ==> (Route.Onboarding in v.routes <==> !g.completed)
    ensures v.Navigator? ==> v.routes != []
  {
    if g.isLoading then Splash
    else if g.completed then Navigator([Route.Home, Route.Profile])
    else Navigator([Route.Onboarding])
  }

  /** The first render is the splash screen. */
  lemma StartShowsSplash()
    ensures Render(Start) == Splash
    ensures !Start.completed
  {
  }

  /**
   * After the startup read, the flag is set exactly when the read succeeded
   * and found the text "true"; any other stored text, an absent key or a
   * failed read leaves it unset, and loading has ended in every case.
   */
  lemma StartupGate(m: map<string, string>, readOk: bool)
    ensures !Checked(Start, m, readOk).isLoading
    ensures Checked(Start, m, readOk).completed <==> readOk && OnboardingCompletedKey in m && m[OnboardingCompletedKey] == "true"
    ensures OnboardingCompletedKey !in m ==> Render(Checked(Start, m, readOk)) == Navigator([Route.Onboarding])
  {
  }

  /** Only the exact text "true" counts: "True", "1" or "" do not. */
  lemma OnlyExactTrueCounts(m: map<string, string>, stored: string)
    requires stored != "true"
    ensures !Checked(Start, m[OnboardingCompletedKey := stored], true).completed
  {
  }

  /** Completing onboarding twice leaves the state the first completion produced. */
  lemma CompletionIdempotent(g: Gate, m: map<string, string>)
    ensures Completion(Completion(g, m, true).0, Completion(g, m, true).1, true) == Completion(g, m, true)
    ensures Completion(g, m, true).0.completed
    ensures CompletedIn(Completion(g, m, true).1)
  {
    assert m[OnboardingCompletedKey := "true"][OnboardingCompletedKey := "true"] == m[OnboardingCompletedKey := "true"];
  }

  /** A completion survives a restart: the next startup read opens the home routes. */
  lemma CompletionPersists(g: Gate, m: map<string, string>)
    ensures Render(Checked(Start, Completion(g, m, true).1, true)) == Navigator([Route.Home, Route.Profile])
  {
  }

  class App {
    const store: Storage
    var isLoading: bool
    var isOnboardingCompleted: bool

    function State(): Gate
      reads this
    {
      Gate(isLoading, isOnboardingCompleted)
    }

    function View(): Screen
      reads this
    {
      Render(State())
    }

    constructor (store: Storage)
      ensures this.store == store
      ensures State() == Start
    {
      this.store := store;
      isLoading := true;
      isOnboardingCompleted := false;
    }

    /** The mount effect `checkOnboarding`. */
    method CheckOnboarding(readOk: bool)
      modifies this
      ensures State() == Checked(old(State()), store.data, readOk)
    {
      if readOk {
        var value := store.GetItem(OnboardingCompletedKey);
        if value == Some("true") {
          isOnboardingCompleted := true;
        }
      }
      isLoading := false;
    }

    /** `completeOnboarding`, the `onDone` of the onboarding screen. */
    method CompleteOnboarding(writeOk: bool)
      modifies this, store
      ensures (State(), store.data) == Completion(old(State()), old(store.data), writeOk)
    {
      if writeOk {
        store.SetItem(OnboardingCompletedKey, "true");
        isOnboardingCompleted := true;
      }
    }

    /**
     * Signing out as it is evidently meant: the store is cleared and the
     * in-memory flag with it, so the onboarding route is the one on offer.
     * A failed clear changes nothing.
     */
    method SignOut(clearOk: bool)
      modifies this, store
      ensures clearOk ==> store.data == map[] && State() == old(State()).(completed := false)
      ensures !clearOk ==> store.data == old(store.data) && State() == old(State())
    {
      if clearOk {
        store.Clear();
        isOnboardingCompleted := false;
      }
    }
  }

  /** A first start on an empty store offers only the onboarding route. */
  method FreshInstall() returns (view: Screen)
    ensures view == Navigator([Route.Onboarding])
  {
    var store := new Storage(map[]);
    var app := new App(store);
    app.CheckOnboarding(true);
    view := app.View();
  }

  /**
   * Onboarding, then a restart: the home routes are offered and the profile
   * screen's mount load shows the name and email given at onboarding, empty
   * ones included (an empty stored value leaves the initial '').
   */
  method OnboardThenRestart(firstName: string, email: string)
    returns (view: Screen, shownFirst: string, shownEmail: string)
    ensures view == Navigator([Route.Home, Route.Profile])
    ensures shownFirst == firstName && shownEmail == email
  {
    var store := new Storage(map[]);
    var app := new App(store);
    app.CheckOnboarding(true);
    var onboarding := new OnboardingFlow.Onboarding(store);
    onboarding.EditFirstName(firstName);
    onboarding.EditEmail(email);
    var done := onboarding.SaveAndFinish(true, true);
    app.CompleteOnboarding(true);
    OnboardingFlow.ProfileReadsOnboarding(map[], firstName, email, NotificationPrefs.AllOn, ProfileStore.Default);
    assert Lookup(store.data, FirstNameKey) == Some(firstName);
    assert Lookup(store.data, EmailKey) == Some(email);

    var restarted := new App(store);
    restarted.CheckOnboarding(true);
    view := restarted.View();
    var profile := new ProfileStore.ProfileScreen(store);
    profile.Load();
    shownFirst, shownEmail := profile.firstName, profile.email;
  }

  /**
   * The profile screen's logout as written: the store is cleared and
   * navigation is reset to the onboarding route, but the root still holds
   * the completed flag, so the route offered is not among those on screen.
   */
  method LogoutAsWritten() returns (target: Option<Route>, view: Screen)
    ensures target == Some(Route.Onboarding)
    ensures view == Navigator([Route.Home, Route.Profile])
    ensures target.value !in view.routes
  {
    var store := new Storage(map[]);
    var app := new App(store);
    app.CheckOnboarding(true);
    app.CompleteOnboarding(true);
    var profile := new ProfileStore.ProfileScreen(store);
    target := profile.Logout(true);
    view := app.View();
  }

  /**
   * Signing out through the root instead: the onboarding route is offered
   * at once, and a restart offers it again with every profile field empty.
   */
  method SignOutCorrected() returns (view: Screen, restartView: Screen, shown: ProfileStore.ProfileData)
    ensures view == Navigator([Route.Onboarding])
    ensures restartView == Navigator([Route.Onboarding])
    ensures shown == ProfileStore.Default
  {
    var store := new Storage(map[]);
    var app := new App(store);
    app.CheckOnboarding(true);
    app.CompleteOnboarding(true);
    app.SignOut(true);
    view := app.View();

    var restarted := new App(store);
    restarted.CheckOnboarding(true);
    restartView := restarted.View();
    var profile := new ProfileStore.ProfileScreen(store);
    profile.Load();
    ProfileStore.ClearedStoreGivesDefaults(NotificationPrefs.AllOn);
    shown := profile.Current();
  }
}
