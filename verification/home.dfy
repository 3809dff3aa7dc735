/** One poll step of the home screen (HomeScreen.js, fetchLatestData) as a
    transition on the screen's state record. The fetch result, the formatted
    wall-clock time and whether the alert's side effects throw are inputs; the
    alert dialog and push notification become the step's alert flag. */
module Home {

  import opened Fetching
  import Window

  datatype Status = Normal | Warning | Alert

  /** Lowest level classified Normal. */
  const NormalFloor: real := 20.0
  /** Levels strictly below this are unsafe. */
  const UnsafeBelow: real := 19.5

  /** Severity order of the statuses: Normal < Warning < Alert. */
  function Severity(st: Status): nat {
    match st
    case Normal => 0
    case Warning => 1
    case Alert => 2
  }

  /** The payload the latest-reading fetch resolves with. */
  datatype Payload = Payload(oxygenLevel: real, isAlert: bool)

  /** An entry of the recent-readings window: formatted time and level. */
  datatype Recent = Recent(time: string, value: real)

  /** The home screen's state record. */
  datatype Screen = Screen(
    oxygenLevel: real,
    status: Status,
    isConnected: bool,
    lastUpdate: string,
    refreshing: bool,
    loading: bool,
    recentReadings: seq<Recent>)

  /** Result of one step: the new state and whether the alert fired. */
  datatype Step = Step(state: Screen, alert: bool)

  /** One poll tick as seen from outside: what the fetch produced, the
      formatted clock time at that moment, and whether the alert's side
      effects would throw. */
  datatype Tick = Tick(fetched: Fetch<Payload>, clock: string, alertThrows: bool)

  /** The three-band threshold classifier (updateStatus). */
  function Classify(level: real): (st: Status)
    ensures st == Normal <==> NormalFloor <= level
    ensures st == Warning <==> UnsafeBelow <= level < NormalFloor
    ensures st == Alert <==> level < UnsafeBelow
  {
    if level >= 20.0 then Normal
    else if level >= 19.5 then Warning
    else Alert
  }

  /** A lower level is never classified as less severe than a higher one. */
  lemma ClassifyMonotone(a: real, b: real)
    requires a <= b
    ensures Severity(Classify(b)) <= Severity(Classify(a))
  {
  }

  /** Both boundaries belong to the safer band. */
  lemma ClassifyBoundaries()
    ensures Classify(20.0) == Normal
    ensures Classify(19.5) == Warning
  {
  }

  /** The alert condition of the poll step: the device's own flag, or a level
      below the unsafe threshold. */
  function ShouldAlert(p: Payload): (fire: bool)
    ensures fire <==> p.isAlert || Classify(p.oxygenLevel) == Alert
  {
    p.isAlert || p.oxygenLevel < 19.5
  }

  /** The state the screen starts in, before the first fetch. */
  function Initial(): (s: Screen)
    ensures Coherent(s)
    ensures s.oxygenLevel == 21.0 && s.status == Normal && s.lastUpdate == ""
    ensures s.loading && s.isConnected && !s.refreshing
    ensures s.recentReadings == []
  {
    Screen(21.0, Normal, true, "", false, true, [])
  }

  /** What every reachable state keeps: the status matches the displayed
      level, the window is within capacity, and its newest entry is the
      displayed level stamped with the last update time. */
  predicate Coherent(s: Screen) {
    && s.status == Classify(s.oxygenLevel)
    && |s.recentReadings| <= Window.Capacity
    && (|s.recentReadings| > 0 ==>
          s.recentReadings[|s.recentReadings| - 1] == Recent(s.lastUpdate, s.oxygenLevel))
  }

  /** fetchLatestData. The success branch updates level, status, connection,
      last update time, the window and the loading flag, and decides the
      alert; the failure branch only marks the screen disconnected and done
      loading; both end with refreshing cleared. `alertThrows` says whether
      the alert's dialog or push notification throws, should the alert fire:
      the catch block then runs after the success updates were made, so the
      new reading stays on screen while the screen shows disconnected. */
  function Poll(s: Screen, fetched: Fetch<Payload>, clock: string, alertThrows: bool): (r: Step)
    ensures !r.state.refreshing && !r.state.loading
    ensures |s.recentReadings| <= Window.Capacity ==> |r.state.recentReadings| <= Window.Capacity
    ensures r.alert <==> fetched.Ok? && (fetched.value.isAlert || Classify(fetched.value.oxygenLevel) == Alert)
    ensures fetched.Ok? ==>
      && r.state.oxygenLevel == fetched.value.oxygenLevel
      && r.state.status == Classify(fetched.value.oxygenLevel)
      && (r.state.isConnected <==> !(r.alert && alertThrows))
      && r.state.lastUpdate == clock
      && r.state.recentReadings == Window.Push(s.recentReadings, Recent(clock, fetched.value.oxygenLevel))
    ensures fetched.Err? ==>
      r.state == s.(isConnected := false, loading := false, refreshing := false)
  {
    var step := match fetched
      case Ok(data) =>
        var newReading := Recent(clock, data.oxygenLevel);
        var updated := s.(oxygenLevel := data.oxygenLevel,
                          status := Classify(data.oxygenLevel),
                          isConnected := true,
                          lastUpdate := clock,
                          recentReadings := Window.Push(s.recentReadings, newReading));
        var alert := ShouldAlert(data);
        if alert && alertThrows then
          // the catch block runs on top of the updates already made
          Step(updated.(isConnected := false, loading := false), alert)
        else
          Step(updated.(loading := false), alert)
      case Err =>
        Step(s.(isConnected := false, loading := false), false);
    step.(state := step.state.(refreshing := false))
  }

  /** Pull-to-refresh (onRefresh): raises the refreshing flag, then runs the
      same step; the flag it raised does not survive the step. */
  function Refresh(s: Screen, fetched: Fetch<Payload>, clock: string, alertThrows: bool): (r: Step)
    ensures r == Poll(s, fetched, clock, alertThrows)
  {
    Poll(s.(refreshing := true), fetched, clock, alertThrows)
  }

  /** Whether an alert fires depends only on the fetched payload, never on the
      previous state, the clock or how the previous alert went: a reading
      below the threshold alerts on every tick. */
  lemma NoDebounce(s1: Screen, s2: Screen, p: Payload, c1: string, c2: string, t1: bool, t2: bool)
    ensures Poll(s1, Ok(p), c1, t1).alert == Poll(s2, Ok(p), c2, t2).alert
    ensures Classify(p.oxygenLevel) == Alert ==> Poll(s1, Ok(p), c1, t1).alert
  {
  }

  /** When the alert fires and its side effects throw, the screen keeps every
      update of the successful fetch except that it shows disconnected. When
      no alert fires, whether it would have thrown makes no difference. */
  lemma AlertFailureOnlyDisconnects(s: Screen, p: Payload, clock: string)
    ensures ShouldAlert(p) ==>
      Poll(s, Ok(p), clock, true) == Poll(s, Ok(p), clock, false).(state := Poll(s, Ok(p), clock, false).state.(isConnected := false))
    ensures !ShouldAlert(p) ==> Poll(s, Ok(p), clock, true) == Poll(s, Ok(p), clock, false)
  {
  }

  /** When the very first fetch throws, the screen keeps its placeholder
      reading: a safe 21.0 at Normal status, never updated, now shown
      disconnected, with an empty window. */
  lemma FirstFailureShowsPlaceholder(clock: string, alertThrows: bool)
    ensures var t := Poll(Initial(), Err, clock, alertThrows).state;
      && t.oxygenLevel == 21.0 && t.status == Normal && t.lastUpdate == ""
      && !t.isConnected && !t.loading && !t.refreshing
      && t.recentReadings == []
  {
  }

  /** Each step keeps the screen coherent. */
  lemma PollPreservesCoherent(s: Screen, fetched: Fetch<Payload>, clock: string, alertThrows: bool)
    requires Coherent(s)
    ensures Coherent(Poll(s, fetched, clock, alertThrows).state)
  {
    var w := Poll(s, fetched, clock, alertThrows).state.recentReadings;
    if fetched.Ok? {
      assert w[|w| - 1] == Recent(clock, fetched.value.oxygenLevel);
    }
  }

  /** The state after a sequence of ticks. */
  function Run(s: Screen, ticks: seq<Tick>): Screen
    decreases |ticks|
  {
    if ticks == [] then s
    else Run(Poll(s, ticks[0].fetched, ticks[0].clock, ticks[0].alertThrows).state, ticks[1..])
  }

  /** The window entries the successful ticks of a run produce, in order. */
  function Arrivals(ticks: seq<Tick>): seq<Recent>
    decreases |ticks|
  {
    if ticks == [] then []
    else match ticks[0].fetched
      case Ok(p) => [Recent(ticks[0].clock, p.oxygenLevel)] + Arrivals(ticks[1..])
      case Err => Arrivals(ticks[1..])
  }

  /** A run of ticks from a coherent state ends coherent. */
  lemma {:induction false} RunPreservesCoherent(s: Screen, ticks: seq<Tick>)
    requires Coherent(s)
    ensures Coherent(Run(s, ticks))
    decreases |ticks|
  {
    if ticks != [] {
      PollPreservesCoherent(s, ticks[0].fetched, ticks[0].clock, ticks[0].alertThrows);
      RunPreservesCoherent(Poll(s, ticks[0].fetched, ticks[0].clock, ticks[0].alertThrows).state, ticks[1..]);
    }
  }

  /** Failed ticks never touch the window; successful ones push onto it. */
  lemma {:induction false} RunWindowIsPushAll(s: Screen, ticks: seq<Tick>)
    ensures Run(s, ticks).recentReadings == Window.PushAll(s.recentReadings, Arrivals(ticks))
    decreases |ticks|
  {
    if ticks != [] {
      var s' := Poll(s, ticks[0].fetched, ticks[0].clock, ticks[0].alertThrows).state;
      RunWindowIsPushAll(s', ticks[1..]);
      match ticks[0].fetched
      case Ok(p) =>
        var a := Recent(ticks[0].clock, p.oxygenLevel);
        assert Arrivals(ticks) == [a] + Arrivals(ticks[1..]);
        assert ([a] + Arrivals(ticks[1..]))[1..] == Arrivals(ticks[1..]);
      case Err =>
    }
  }

  /** After any run, the window is exactly the newest min(|prev| + n, 10)
      entries of the previous window followed by the n readings the
      successful ticks delivered, in arrival order. */
  lemma RunWindowKeepsNewest(s: Screen, ticks: seq<Tick>)
    requires |s.recentReadings| <= Window.Capacity
    ensures Run(s, ticks).recentReadings ==
      Window.Last(s.recentReadings + Arrivals(ticks),
                  Window.Smaller(|s.recentReadings| + |Arrivals(ticks)|, Window.Capacity))
  {
    RunWindowIsPushAll(s, ticks);
    Window.PushAllKeepsNewest(s.recentReadings, Arrivals(ticks));
  }

  /** A run of failed fetches only flips the screen to disconnected: the
      level, status, last update time and window stay as they were. */
  lemma {:induction false} FailuresOnlyDisconnect(s: Screen, ticks: seq<Tick>)
    requires |ticks| > 0
    requires forall i :: 0 <= i < |ticks| ==> ticks[i].fetched.Err?
    ensures Run(s, ticks) == s.(isConnected := false, loading := false, refreshing := false)
    decreases |ticks|
  {
    var s' := Poll(s, ticks[0].fetched, ticks[0].clock, ticks[0].alertThrows).state;
    if |ticks| > 1 {
      FailuresOnlyDisconnect(s', ticks[1..]);
      assert s'.(isConnected := false, loading := false, refreshing := false) == s';
    }
  }
}
