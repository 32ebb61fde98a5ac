/** The application shell (frontend/App.tsx): the global stats fold shown on
    the dashboard, and the state the shell keeps — which page and tab are
    shown, the record history, the session — with the handlers that change
    it. Server responses and the browser's `localStorage` are inputs and
    fields; the requests themselves are not modelled. */
module App {
  import opened Wrappers
  import opened Records
  import opened Folds
  import opened Numeric
  import opened Voice

  // ---------------------------------------------------------------------
  // stats

  /** The stats object as the code computes it. The percentages are `None`
      where the division by the total prepared count yields `NaN` or
      `Infinity`. */
  datatype Stats = Stats(totalWaste: int, totalLoss: int, wastePercentage: Option<real>, efficiency: Option<real>)

  /** `totalWaste / totalPrepared * 100`, before formatting; undefined when
      nothing was prepared. */
  function RawWastePercentage(history: seq<DailyRecord>): (r: Option<real>)
    ensures r.None? <==> Sum(history, Prepared) == 0
  {
    var prepared := Sum(history, Prepared);
    if prepared == 0 then None
    else Some(Sum(history, Waste) as real / prepared as real * 100.0)
  }

  /** The memo as written: no guard against an empty history. */
  function StatsAsWritten(history: seq<DailyRecord>): Stats
  {
    match RawWastePercentage(history)
    case None => Stats(Sum(history, Waste), Sum(history, Loss), None, None)
    case Some(wp) => Stats(Sum(history, Waste), Sum(history, Loss), Some(Fixed1(wp)), Some(Fixed1(100.0 - wp)))
  }

  /** With no records (or nothing prepared) the card shows `NaN%`. */
  lemma EmptyHistoryHasNoPercentage(history: seq<DailyRecord>)
    requires history == []
    ensures StatsAsWritten(history).wastePercentage.None? && StatsAsWritten(history).efficiency.None?
  {
  }

  /** The stats the dashboard shows, with the percentages as numbers. */
  datatype DisplayStats = DisplayStats(totalWaste: int, totalLoss: int, wastePercentage: real, efficiency: real)

  /** The stats with the evident intent for an empty history: 0% waste and
      100% efficiency, as the carbon tracker's guarded score does. */
  function GuardedStats(history: seq<DailyRecord>): (st: DisplayStats)
    ensures Sum(history, Prepared) == 0 ==> st.wastePercentage == 0.0 && st.efficiency == 100.0
    ensures Sum(history, Prepared) != 0 ==>
      Some(st.wastePercentage) == StatsAsWritten(history).wastePercentage
      && Some(st.efficiency) == StatsAsWritten(history).efficiency
    ensures st.totalWaste == StatsAsWritten(history).totalWaste && st.totalLoss == StatsAsWritten(history).totalLoss
  {
    match RawWastePercentage(history)
    case None => DisplayStats(Sum(history, Waste), Sum(history, Loss), 0.0, 100.0)
    case Some(wp) => DisplayStats(Sum(history, Waste), Sum(history, Loss), Fixed1(wp), Fixed1(100.0 - wp))
  }

  /** The card shows the waste percentage and its complement to 100, each
      rounded to a tenth. For sane records the two shown figures add up to
      100, or to 100.1 when the waste percentage lies exactly half-way
      between two tenths. */
  lemma PercentagesComplement(history: seq<DailyRecord>)
    requires Sum(history, Prepared) != 0
    ensures var wp := RawWastePercentage(history).value;
      StatsAsWritten(history).wastePercentage == Some(Fixed1(wp))
      && StatsAsWritten(history).efficiency == Some(Fixed1(100.0 - wp))
    ensures AllSane(history) ==>
      var st := StatsAsWritten(history);
      var x := RawWastePercentage(history).value * 10.0;
      st.wastePercentage.value + st.efficiency.value == if x == x.Floor as real + 0.5 then 100.1 else 100.0
  {
    var wp := RawWastePercentage(history).value;
    if AllSane(history) {
      SumMonotone(history, Waste, Prepared);
      SumNonNegative(history, Waste);
      FractionBounds(Sum(history, Waste), Sum(history, Prepared));
      RoundedPercentagesMayNotAddUp(wp);
    }
  }

  /** After rounding each to a tenth the two percentages add up to 100,
      except when the waste percentage lies exactly half-way between two
      tenths: both halves then round up and the pair shows 100.1 (9 wasted
      of 400 prepared shows 2.3% waste and 97.8% efficiency). */
  lemma RoundedPercentagesMayNotAddUp(wp: real)
    requires 0.0 <= wp <= 100.0
    ensures var x := wp * 10.0;
      Fixed1(wp) + Fixed1(100.0 - wp) == if x == x.Floor as real + 0.5 then 100.1 else 100.0
    ensures wp == 9.0 / 400.0 * 100.0 ==> Fixed1(wp) == 2.3 && Fixed1(100.0 - wp) == 97.8
  {
    var x := wp * 10.0;
    var n := x.Floor;
    assert (100.0 - wp) * 10.0 == 1000.0 - x;
    var a := Round(x);
    var b := Round(1000.0 - x);
    assert Fixed1(wp) == a as real / 10.0;
    assert Fixed1(100.0 - wp) == b as real / 10.0;
    if x == n as real + 0.5 {
      assert a == n + 1 && b == 1000 - n;
    } else if x < n as real + 0.5 {
      assert a == n && b == 1000 - n;
    } else {
      assert a == n + 1 && b == 999 - n;
    }
    if wp == 9.0 / 400.0 * 100.0 {
      assert x == 22.5 && n == 22;
    }
  }

  /** For sane records the total waste is not negative, the shown
      percentages lie between 0 and 100, and the rounded pair adds up to
      100 give or take a tenth; the total loss is not negative when no
      record's loss is. */
  lemma GuardedStatsBounds(history: seq<DailyRecord>)
    requires AllSane(history)
    ensures var st := GuardedStats(history);
      0 <= st.totalWaste
      && 0.0 <= st.wastePercentage <= 100.0 && 0.0 <= st.efficiency <= 100.0
      && 99.9 <= st.wastePercentage + st.efficiency <= 100.1
    ensures (forall i :: 0 <= i < |history| ==> Loss(history[i]) >= 0) ==> 0 <= GuardedStats(history).totalLoss
  {
    SumMonotone(history, Waste, Prepared);
    SumNonNegative(history, Waste);
    if forall i :: 0 <= i < |history| ==> Loss(history[i]) >= 0 {
      SumNonNegative(history, Loss);
    }
    var prepared := Sum(history, Prepared);
    if prepared != 0 {
      var wp := RawWastePercentage(history).value;
      FractionBounds(Sum(history, Waste), prepared);
      assert 0.0 <= wp <= 100.0;
      Fixed1Bounds(wp);
      Fixed1Bounds(100.0 - wp);
    }
  }

  /** The totals do not depend on the order of the history. */
  lemma StatsOrderIndependent(history: seq<DailyRecord>, other: seq<DailyRecord>)
    requires multiset(history) == multiset(other)
    ensures StatsAsWritten(history) == StatsAsWritten(other)
    ensures GuardedStats(history) == GuardedStats(other)
  {
    SumPermutation(history, other, Waste);
    SumPermutation(history, other, Loss);
    SumPermutation(history, other, Prepared);
  }

  /** A new record adds its own waste and loss to the totals. */
  lemma StatsOfPrepended(r: DailyRecord, history: seq<DailyRecord>)
    ensures GuardedStats([r] + history).totalWaste == r.waste + GuardedStats(history).totalWaste
    ensures GuardedStats([r] + history).totalLoss == r.loss + GuardedStats(history).totalLoss
  {
    SumPrepend(r, history, Waste);
    SumPrepend(r, history, Loss);
  }

  // ---------------------------------------------------------------------
  // The shell's state

  datatype Page = LandingPage | AuthPage | MainApp

  datatype Tab = DashboardTab | ForecasterTab | AnalyticsTab | HistoryTab | ArchitectureTab

  /** `['dashboard', 'forecaster', 'analytics', 'history', 'architecture'].includes(page)` */
  function TabNamed(page: string): (t: Option<Tab>)
    ensures t.Some? <==> page in ["dashboard", "forecaster", "analytics", "history", "architecture"]
  {
    if page == "dashboard" then Some(DashboardTab)
    else if page == "forecaster" then Some(ForecasterTab)
    else if page == "analytics" then Some(AnalyticsTab)
    else if page == "history" then Some(HistoryTab)
    else if page == "architecture" then Some(ArchitectureTab)
    else None
  }

  /** Every page the voice classifier navigates to is a tab. */
  lemma VoicePagesAreTabs(lower: string, text: string)
    requires Decide(lower, text).Navigate?
    ensures TabNamed(Decide(lower, text).page).Some?
  {
  }

  /** What the server answered to `POST /records`. */
  datatype SaveOutcome = SaveFailed | Saved(saved: DailyRecord)

  /** What the server answered to `GET /records`; the body may be `null`. */
  datatype FetchOutcome = FetchFailed | Fetched(data: Option<seq<DailyRecord>>)

  /** A string JavaScript treats as true. */
  predicate Truthy(s: Option<string>)
  {
    s.Some? && s.value != ""
  }

  class Shell {
    var appPage: Page
    var activeTab: Tab
    var history: seq<DailyRecord>
    var showEntryForm: bool
    var authToken: Option<string>
    /** The signed-in user, as its JSON text. */
    var authUser: Option<string>
    var showRegister: bool
    /** The browser's `localStorage`. */
    var storage: map<string, string>

    /** The first render, before the mount effect runs. */
    constructor(stored: map<string, string>)
      ensures appPage == LandingPage && activeTab == DashboardTab && history == []
      ensures !showEntryForm && authToken == None && authUser == None && !showRegister
      ensures storage == stored
    {
      appPage, activeTab, history, showEntryForm := LandingPage, DashboardTab, [], false;
      authToken, authUser, showRegister, storage := None, None, false, stored;
    }

    function Stored(key: string): Option<string>
      reads this
    {
      if key in storage then Some(storage[key]) else None
    }

    /** The mount effect: a stored token restores the session. */
    method RestoreSession()
      modifies this
      ensures Truthy(old(Stored("token"))) ==>
        authToken == old(Stored("token"))
        && authUser == Some(if Truthy(old(Stored("user"))) then old(storage["user"]) else "{}")
        && appPage == MainApp
      ensures !Truthy(old(Stored("token"))) ==>
        appPage == LandingPage && authToken == old(authToken) && authUser == old(authUser)
      ensures history == old(history) && activeTab == old(activeTab) && showEntryForm == old(showEntryForm)
      ensures showRegister == old(showRegister) && storage == old(storage)
    {
      var token := Stored("token");
      var user := Stored("user");
      if Truthy(token) {
        authToken := token;
        authUser := Some(if Truthy(user) then user.value else "{}");
        appPage := MainApp;
      } else {
        appPage := LandingPage;
      }
    }

    /** `fetchRecords`: with a session, a successful answer replaces the
        history (`data || []`); otherwise nothing changes. */
    method LoadRecords(outcome: FetchOutcome)
      modifies this
      ensures history == (if Truthy(old(authToken)) && outcome.Fetched? then
        (if outcome.data.Some? then outcome.data.value else []) else old(history))
      ensures appPage == old(appPage) && activeTab == old(activeTab) && showEntryForm == old(showEntryForm)
      ensures authToken == old(authToken) && authUser == old(authUser)
      ensures showRegister == old(showRegister) && storage == old(storage)
    {
      if Truthy(authToken) {
        match outcome
        case Fetched(data) =>
          history := if data.Some? then data.value else [];
        case FetchFailed =>
      }
    }

    /** `handleAddRecord`: the record the server saved goes to the front of
        the history, only with a session and only once the server has
        confirmed it. */
    method AddRecord(outcome: SaveOutcome)
      modifies this
      ensures history == (if Truthy(old(authToken)) && outcome.Saved? then [outcome.saved] + old(history) else old(history))
      ensures appPage == old(appPage) && activeTab == old(activeTab) && showEntryForm == old(showEntryForm)
      ensures authToken == old(authToken) && authUser == old(authUser)
      ensures showRegister == old(showRegister) && storage == old(storage)
    {
      if Truthy(authToken) {
        match outcome
        case Saved(saved) =>
          history := [saved] + history;
        case SaveFailed =>
      }
    }

    /** `handleAuthSuccess` */
    method AuthSuccess(token: string, user: string)
      modifies this
      ensures authToken == Some(token) && authUser == Some(user) && appPage == MainApp
      ensures storage == old(storage)["token" := token]["user" := user]
      ensures history == old(history) && activeTab == old(activeTab) && showEntryForm == old(showEntryForm)
      ensures showRegister == old(showRegister)
    {
      authToken, authUser, appPage := Some(token), Some(user), MainApp;
      storage := storage["token" := token]["user" := user];
    }

    /** `handleLogout` */
    method Logout()
      modifies this
      ensures authToken == None && authUser == None && appPage == LandingPage
      ensures storage == old(storage) - {"token", "user"}
      ensures history == old(history) && activeTab == old(activeTab) && showEntryForm == old(showEntryForm)
      ensures showRegister == old(showRegister)
    {
      storage := storage - {"token", "user"};
      authToken, authUser, appPage := None, None, LandingPage;
    }

    /** `handleGetStarted`: to the sign-in page, showing the login form. */
    method GetStarted()
      modifies this
      ensures appPage == AuthPage && !showRegister
      ensures history == old(history) && activeTab == old(activeTab) && showEntryForm == old(showEntryForm)
      ensures authToken == old(authToken) && authUser == old(authUser) && storage == old(storage)
    {
      appPage, showRegister := AuthPage, false;
    }

    /** `handleVoiceCommand`: navigation to a known tab, the forecaster for
        a forecast run, the entry form for a log entry; nothing else
        changes anything. */
    method HandleVoiceCommand(action: Action)
      modifies this
      ensures activeTab == (match action
        case Navigate(page) => if TabNamed(page).Some? then TabNamed(page).value else old(activeTab)
        case RunForecast => ForecasterTab
        case _ => old(activeTab))
      ensures showEntryForm == (action.LogEntry? || old(showEntryForm))
      ensures appPage == old(appPage) && history == old(history)
      ensures authToken == old(authToken) && authUser == old(authUser)
      ensures showRegister == old(showRegister) && storage == old(storage)
    {
      match action
      case Navigate(page) =>
        if page != "" {
          var tab := TabNamed(page);
          if tab.Some? {
            activeTab := tab.value;
          }
        }
      case RunForecast =>
        activeTab := ForecasterTab;
      case LogEntry(_, _, _) =>
        showEntryForm := true;
      case Help =>
      case ChatQuery(_) =>
    }

    /** A sidebar button: that tab becomes the active one. */
    method SelectTab(tab: Tab)
      modifies this
      ensures activeTab == tab
      ensures appPage == old(appPage) && history == old(history) && showEntryForm == old(showEntryForm)
      ensures authToken == old(authToken) && authUser == old(authUser)
      ensures showRegister == old(showRegister) && storage == old(storage)
    {
      activeTab := tab;
    }

    /** The "add entry" button opens the entry form, its close button
        closes it. */
    method SetEntryFormShown(shown: bool)
      modifies this
      ensures showEntryForm == shown
      ensures appPage == old(appPage) && history == old(history) && activeTab == old(activeTab)
      ensures authToken == old(authToken) && authUser == old(authUser)
      ensures showRegister == old(showRegister) && storage == old(storage)
    {
      showEntryForm := shown;
    }

    /** The links between the login and the registration form. */
    method SetRegisterShown(shown: bool)
      modifies this
      ensures showRegister == shown
      ensures appPage == old(appPage) && history == old(history) && activeTab == old(activeTab)
      ensures showEntryForm == old(showEntryForm)
      ensures authToken == old(authToken) && authUser == old(authUser) && storage == old(storage)
    {
      showRegister := shown;
    }

    /** The stats the dashboard is given. */
    function CurrentStats(): DisplayStats
      reads this
    {
      GuardedStats(history)
    }
  }

  /** A session survives a reload: signing in stores what the next mount
      restores. */
  method ReloadAfterSignIn(stored: map<string, string>, token: string, user: string) returns (restored: Shell)
    requires token != ""
    ensures restored.appPage == MainApp && restored.authToken == Some(token)
    ensures restored.authUser == Some(if user != "" then user else "{}")
  {
    var first := new Shell(stored);
    first.RestoreSession();
    first.AuthSuccess(token, user);
    restored := new Shell(first.storage);
    restored.RestoreSession();
  }

  /** Signing out ends the session for good: the next mount shows the
      landing page. */
  method ReloadAfterSignOut(stored: map<string, string>) returns (restored: Shell)
    ensures restored.appPage == LandingPage && restored.authToken == None
  {
    var first := new Shell(stored);
    first.RestoreSession();
    first.Logout();
    restored := new Shell(first.storage);
    restored.RestoreSession();
  }
}
