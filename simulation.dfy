/** The dashboard's once-a-second simulation (App.tsx:48-113): a running
    appliance raises today's usage until it randomly stops and is logged, and
    the "Ghost Hunter" randomly suspects a silent leak whose loss grows each
    tick until it randomly clears.

    `Math.random()` is replaced by a `Draws` record of the values it would have
    returned, `setInterval` by one call of `NextState` (or `Dashboard.Tick`) per
    tick, and the 5-second notification `setTimeout` by a count of scheduled
    timers and a separate `ClearNotification` event. */
module Simulation {
  import opened Options
  import opened Types
  import WaterPulse

  /** A value `Math.random()` can return. */
  predicate Unit(x: real) {
    0.0 <= x < 1.0
  }

  /** The random values one tick may read, each named by the test that reads
      it; a tick ignores those its branches do not reach. */
  datatype Draws = Draws(start: real, pick: real, stop: real, volume: real, leakStart: real, leakResolve: real) {
    predicate Valid() {
      Unit(start) && Unit(pick) && Unit(stop) && Unit(volume) && Unit(leakStart) && Unit(leakResolve)
    }
  }

  predicate AllValid(ds: seq<Draws>) {
    forall i :: 0 <= i < |ds| ==> ds[i].Valid()
  }

  /** The state slots of the dashboard that the tick reads or writes, plus the
      number of notification-clearing timers still to fire. */
  datatype SimState = SimState(
    stats: DailyStats,
    events: seq<WaterEvent>,
    activeFlow: Option<Flow>,
    ghostLeak: Option<Leak>,
    notification: Option<string>,
    pendingClears: nat)

  /** The appliances a new flow is drawn from (App.tsx:52-57). */
  const Appliances: seq<Flow> := [
    Flow("Kitchen Sink", 1.5),
    Flow("Garden Hose", 5.0),
    Flow("Toilet Flush", 2.0),
    Flow("Shower", 2.5)
  ]

  const ShowerMessage: string := "\U{1F6BF} Shower started! Playing 'Eco-Jams' playlist on Hue speakers."

  const StartChance: real := 0.85      // a flow starts when the draw exceeds this
  const StopChance: real := 0.8        // a running flow stops when the draw exceeds this
  const ResolveChance: real := 0.90    // a leak clears when the draw exceeds this
  const InitialWasted: real := 0.05    // gallons reported when a leak is first suspected
  const DripPerTick: real := 0.002     // gallons a suspected leak adds each tick
  const DefaultSensitivity: int := 75

  /** The state the dashboard mounts with (App.tsx:24-45). */
  const InitialState: SimState := SimState(
    DailyStats(42.5, 80.0, 55.20, 45.00),
    [ WaterEvent("Master Shower", 14.2, "shower"),
      WaterEvent("Guest Toilet", 1.6, "toilet"),
      WaterEvent("Dishwasher", 4.5, "dishwasher") ],
    None, None, None, 0)

  /** `Math.floor(r * appliances.length)`: the table splits [0, 1) into equal
      quarters and the draw picks the quarter it falls in. */
  function PickIndex(r: real): (i: nat)
    requires Unit(r)
    ensures i < |Appliances|
    ensures i as real / 4.0 <= r < (i as real + 1.0) / 4.0
  {
    (r * |Appliances| as real).Floor
  }

  /** `Math.floor(r * 5) + 1`: a whole number of gallons from 1 to 5, each
      chosen on a fifth of [0, 1). */
  function EventVolume(r: real): (v: int)
    requires Unit(r)
    ensures 1 <= v <= 5
    ensures (v - 1) as real / 5.0 <= r < v as real / 5.0
  {
    (r * 5.0).Floor + 1
  }

  /** The leak-start threshold for sensitivity `s` (App.tsx:92). */
  function Threshold(s: int): (t: real)
    ensures 0 <= s <= 100 ==> 0.905 <= t <= 0.995
  {
    0.995 - ((s as real / 100.0) * 0.09)
  }

  /** A logged event as the tick creates it: a known appliance, the tap icon
      and a whole number of gallons between 1 and 5. */
  predicate IsApplianceName(name: string) {
    exists i :: 0 <= i < |Appliances| && Appliances[i].appliance == name
  }

  predicate Logged(e: WaterEvent) {
    && IsApplianceName(e.appliance)
    && e.icon == "tap"
    && e.volume == e.volume.Floor as real
    && 1.0 <= e.volume <= 5.0
  }

  /** What holds of every state the dashboard reaches: only table appliances
      run, a leak's loss matches its age, a shown notification is the shower
      message with a timer pending to clear it, and the goal is positive. */
  predicate Inv(st: SimState) {
    && (st.activeFlow.Some? ==> st.activeFlow.value in Appliances)
    && (st.ghostLeak.Some? ==>
          st.ghostLeak.value.wasted == InitialWasted + DripPerTick * st.ghostLeak.value.duration as real)
    && (st.notification.Some? ==> st.notification.value == ShowerMessage && st.pendingClears > 0)
    && st.stats.goal > 0.0
  }

  // ---------------------------------------------------------------------------
  // Part 1 of the tick: the normal flow (App.tsx:50-85)
  // ---------------------------------------------------------------------------

  function FlowUpdate(st: SimState, d: Draws): SimState
    requires d.Valid()
  {
    if st.activeFlow.None? && d.start > StartChance then
      var app := Appliances[PickIndex(d.pick)];
      if app.appliance == "Shower" then
        st.(activeFlow := Some(app), notification := Some(ShowerMessage), pendingClears := st.pendingClears + 1)
      else
        st.(activeFlow := Some(app))
    else if st.activeFlow.Some? then
      var flow := st.activeFlow.value;
      var used := st.stats.(used := st.stats.used + flow.rate / 60.0);
      if d.stop > StopChance then
        var e := WaterEvent(flow.appliance, EventVolume(d.volume) as real, "tap");
        st.(stats := used, events := [e] + st.events, activeFlow := None)
      else
        st.(stats := used)
    else
      st
  }

  // ---------------------------------------------------------------------------
  // Part 2 of the tick: the Ghost Hunter (App.tsx:87-108)
  // ---------------------------------------------------------------------------

  /** One `setGhostLeak` call queued during a tick: a new value, the
      functional updater of App.tsx:99-102, or `null`. */
  datatype LeakSetter = Put(leak: Leak) | Grow | Clear

  function ApplySetter(prev: Option<Leak>, u: LeakSetter): Option<Leak> {
    match u
    case Put(l) => Some(l)
    case Grow => if prev.Some? then Some(Leak(prev.value.wasted + DripPerTick, prev.value.duration + 1)) else None
    case Clear => None
  }

  /** React applies the setters queued in one callback in the order they were queued. */
  function ApplySetters(prev: Option<Leak>, q: seq<LeakSetter>): Option<Leak>
    decreases |q|
  {
    if q == [] then prev else ApplySetters(ApplySetter(prev, q[0]), q[1..])
  }

  /** The setters the leak branch queues. */
  function LeakSetters(leak: Option<Leak>, s: int, d: Draws): seq<LeakSetter> {
    if leak.None? then
      if d.leakStart > Threshold(s) then [Put(Leak(InitialWasted, 0))] else []
    else if d.leakResolve > ResolveChance then [Grow, Clear]
    else [Grow]
  }

  function LeakUpdate(st: SimState, s: int, d: Draws): SimState {
    st.(ghostLeak := ApplySetters(st.ghostLeak, LeakSetters(st.ghostLeak, s, d)))
  }

  /** One tick of the interval at sensitivity `s`. */
  function NextState(st: SimState, s: int, d: Draws): SimState
    requires d.Valid()
  {
    LeakUpdate(FlowUpdate(st, d), s, d)
  }

  /** The 5-second timer of App.tsx:64 firing. */
  function ClearNotification(st: SimState): SimState
    requires st.pendingClears > 0
  {
    st.(notification := None, pendingClears := st.pendingClears - 1)
  }

  /** Consecutive ticks at a fixed sensitivity. */
  function Run(st: SimState, s: int, ds: seq<Draws>): SimState
    requires AllValid(ds)
    decreases |ds|
  {
    if ds == [] then st else Run(NextState(st, s, ds[0]), s, ds[1..])
  }

  /** The gauge's input, `used / goal * 100` (App.tsx:136). */
  function UsagePercent(stats: DailyStats): real
    requires stats.goal != 0.0
  {
    stats.used / stats.goal * 100.0
  }

  // ---------------------------------------------------------------------------
  // Properties of one tick
  // ---------------------------------------------------------------------------

  /** With no flow running, a flow starts exactly when the start draw exceeds
      0.85, it is the table entry the pick draw selects, and usage and the log
      stay as they were. */
  lemma FlowStartsOnlyWhenIdle(st: SimState, s: int, d: Draws)
    requires d.Valid() && st.activeFlow.None?
    ensures NextState(st, s, d).activeFlow.Some? <==> d.start > StartChance
    ensures d.start > StartChance ==> NextState(st, s, d).activeFlow == Some(Appliances[PickIndex(d.pick)])
    ensures NextState(st, s, d).stats == st.stats && NextState(st, s, d).events == st.events
  {
  }

  /** Starting the shower shows the shower message and schedules one clearing
      timer; every other tick leaves the notification and the timers alone. */
  lemma ShowerNotifies(st: SimState, s: int, d: Draws)
    requires d.Valid()
    ensures var r := NextState(st, s, d);
      var shower := st.activeFlow.None? && d.start > StartChance
                    && Appliances[PickIndex(d.pick)].appliance == "Shower";
      && r.notification == (if shower then Some(ShowerMessage) else st.notification)
      && r.pendingClears == (if shower then st.pendingClears + 1 else st.pendingClears)
  {
  }

  /** A running flow adds exactly `rate / 60` to `used`, on the tick that
      stops it too, and changes no other counter; it stops exactly when the
      stop draw exceeds 0.8, and that tick starts no other flow. */
  lemma RunningFlowAccumulates(st: SimState, s: int, d: Draws)
    requires d.Valid() && st.activeFlow.Some?
    ensures var r := NextState(st, s, d);
      && r.stats == st.stats.(used := st.stats.used + st.activeFlow.value.rate / 60.0)
      && r.activeFlow == (if d.stop > StopChance then None else st.activeFlow)
      && r.notification == st.notification
  {
  }

  /** Stopping a flow prepends exactly one event, named after the flow, with
      the tap icon and a whole volume from 1 to 5, before the old log; a flow
      that keeps running logs nothing. */
  lemma StoppingLogsOneEvent(st: SimState, s: int, d: Draws)
    requires d.Valid() && st.activeFlow.Some?
    ensures var r := NextState(st, s, d);
      if d.stop > StopChance then
        && |r.events| == |st.events| + 1
        && r.events[1..] == st.events
        && r.events[0].appliance == st.activeFlow.value.appliance
        && r.events[0].icon == "tap"
        && r.events[0].volume == r.events[0].volume.Floor as real
        && 1.0 <= r.events[0].volume <= 5.0
      else
        r.events == st.events
  {
  }

  /** The threshold is 0.995 at sensitivity 0, 0.905 at 100, and does not
      rise as the sensitivity rises. */
  lemma ThresholdFallsWithSensitivity(s1: int, s2: int)
    requires s1 <= s2
    ensures Threshold(s2) <= Threshold(s1)
    ensures Threshold(0) == 0.995 && Threshold(100) == 0.905
  {
  }

  /** With no leak suspected, one starts exactly when the draw exceeds the
      threshold, at 0.05 gallons and age 0. */
  lemma LeakStartsAboveThreshold(st: SimState, s: int, d: Draws)
    requires d.Valid() && st.ghostLeak.None?
    ensures NextState(st, s, d).ghostLeak ==
      (if d.leakStart > Threshold(s) then Some(Leak(InitialWasted, 0)) else None)
  {
    ApplyOne(None, Put(Leak(InitialWasted, 0)));
  }

  /** A queue of one setter applies just that setter. */
  lemma ApplyOne(prev: Option<Leak>, u: LeakSetter)
    ensures ApplySetters(prev, [u]) == ApplySetter(prev, u)
  {
    assert [u][1..] == [];
  }

  /** A queue that ends with `null` leaves no leak, whatever came before it. */
  lemma {:induction false} ClearLastWins(prev: Option<Leak>, q: seq<LeakSetter>)
    ensures ApplySetters(prev, q + [Clear]) == None
    decreases |q|
  {
    if q == [] {
      assert [Clear][1..] == [];
    } else {
      assert (q + [Clear])[1..] == q[1..] + [Clear];
      ClearLastWins(ApplySetter(prev, q[0]), q[1..]);
    }
  }

  /** A suspected leak either survives, 0.002 gallons and one tick older, or
      (resolve draw above 0.9) is gone, that tick's growth discarded. */
  lemma LeakGrowsOrClears(st: SimState, s: int, d: Draws)
    requires d.Valid() && st.ghostLeak.Some?
    ensures var l := st.ghostLeak.value;
      NextState(st, s, d).ghostLeak ==
        (if d.leakResolve > ResolveChance then None
         else Some(Leak(l.wasted + DripPerTick, l.duration + 1)))
  {
    if d.leakResolve > ResolveChance {
      ClearLastWins(st.ghostLeak, [Grow]);
      assert [Grow] + [Clear] == [Grow, Clear];
    } else {
      ApplyOne(st.ghostLeak, Grow);
    }
  }

  /** The parts of the state the flow branch owns. */
  function FlowPart(st: SimState): (DailyStats, seq<WaterEvent>, Option<Flow>, Option<string>, nat) {
    (st.stats, st.events, st.activeFlow, st.notification, st.pendingClears)
  }

  /** The two branches are independent: the leak state, the sensitivity and
      the leak draws never affect usage, the log, the flow or the notification,
      and the flow side never affects the leak. */
  lemma BranchesIndependent(st1: SimState, st2: SimState, s1: int, s2: int, d1: Draws, d2: Draws)
    requires d1.Valid() && d2.Valid()
    ensures FlowPart(st1) == FlowPart(st2)
            && (d1.start, d1.pick, d1.stop, d1.volume) == (d2.start, d2.pick, d2.stop, d2.volume)
            ==> FlowPart(NextState(st1, s1, d1)) == FlowPart(NextState(st2, s2, d2))
    ensures st1.ghostLeak == st2.ghostLeak && s1 == s2
            && (d1.leakStart, d1.leakResolve) == (d2.leakStart, d2.leakResolve)
            ==> NextState(st1, s1, d1).ghostLeak == NextState(st2, s2, d2).ghostLeak
  {
  }

  lemma InitialStateInv()
    ensures Inv(InitialState)
  {
  }

  /** Every tick keeps the invariant. */
  lemma NextStatePreservesInv(st: SimState, s: int, d: Draws)
    requires Inv(st) && d.Valid()
    ensures Inv(NextState(st, s, d))
  {
    if st.ghostLeak.Some? {
      LeakGrowsOrClears(st, s, d);
    } else {
      LeakStartsAboveThreshold(st, s, d);
    }
  }

  lemma ClearNotificationPreservesInv(st: SimState)
    requires Inv(st) && st.pendingClears > 0
    ensures Inv(ClearNotification(st))
    ensures ClearNotification(st).notification.None?
  {
  }

  // ---------------------------------------------------------------------------
  // Properties of a run of ticks
  // ---------------------------------------------------------------------------

  lemma {:induction false} RunPreservesInv(st: SimState, s: int, ds: seq<Draws>)
    requires Inv(st) && AllValid(ds)
    ensures Inv(Run(st, s, ds))
    decreases |ds|
  {
    if ds != [] {
      NextStatePreservesInv(st, s, ds[0]);
      RunPreservesInv(NextState(st, s, ds[0]), s, ds[1..]);
    }
  }

  /** Over any run `used` never decreases, and the goal and both bills never change. */
  lemma {:induction false} UsedNeverDecreases(st: SimState, s: int, ds: seq<Draws>)
    requires Inv(st) && AllValid(ds)
    ensures var r := Run(st, s, ds);
      && r.stats.used >= st.stats.used
      && r.stats.goal == st.stats.goal
      && r.stats.projectedBill == st.stats.projectedBill
      && r.stats.averageBill == st.stats.averageBill
    decreases |ds|
  {
    if ds != [] {
      var next := NextState(st, s, ds[0]);
      if st.activeFlow.Some? {
        RunningFlowAccumulates(st, s, ds[0]);
        assert st.activeFlow.value.rate > 0.0;
      } else {
        FlowStartsOnlyWhenIdle(st, s, ds[0]);
      }
      NextStatePreservesInv(st, s, ds[0]);
      UsedNeverDecreases(next, s, ds[1..]);
    }
  }

  /** One tick leaves the log alone or prepends one logged event. */
  lemma TickLogsAtMostOne(st: SimState, s: int, d: Draws)
    requires Inv(st) && d.Valid()
    ensures var n := NextState(st, s, d);
      n.events == st.events || (|n.events| > 0 && n.events == [n.events[0]] + st.events && Logged(n.events[0]))
  {
    var n := NextState(st, s, d);
    if st.activeFlow.Some? && d.stop > StopChance {
      StoppingLogsOneEvent(st, s, d);
      var j :| 0 <= j < |Appliances| && Appliances[j] == st.activeFlow.value;
      assert Appliances[j].appliance == n.events[0].appliance;
      assert n.events == [n.events[0]] + n.events[1..];
    } else if st.activeFlow.Some? {
      StoppingLogsOneEvent(st, s, d);
    } else {
      FlowStartsOnlyWhenIdle(st, s, d);
    }
  }

  lemma TailAfterHead<T>(a: seq<T>, k: nat, e: T, b: seq<T>)
    requires k <= |a| && a[k..] == [e] + b
    ensures k < |a| && a[k] == e && a[k + 1..] == b
  {
    assert a[k..][0] == e;
    assert a[k + 1..] == a[k..][1..];
  }

  /** Over any run the old log survives, in order, at the tail of the new log;
      at most one event per tick is added, and every added event is one the
      flow branch logs. */
  lemma {:induction false} LogOnlyGrowsAtHead(st: SimState, s: int, ds: seq<Draws>)
    requires Inv(st) && AllValid(ds)
    ensures var r := Run(st, s, ds);
      var k := |r.events| - |st.events|;
      && 0 <= k <= |ds|
      && r.events[k..] == st.events
      && forall i :: 0 <= i < k ==> Logged(r.events[i])
    decreases |ds|
  {
    if ds != [] {
      var next := NextState(st, s, ds[0]);
      NextStatePreservesInv(st, s, ds[0]);
      TickLogsAtMostOne(st, s, ds[0]);
      LogOnlyGrowsAtHead(next, s, ds[1..]);
      var r := Run(next, s, ds[1..]);
      assert r == Run(st, s, ds);
      var k' := |r.events| - |next.events|;
      if next.events != st.events {
        TailAfterHead(r.events, k', next.events[0], st.events);
      }
    }
  }

  /** The gauge label for any state reached is a whole percentage from 0 to 100. */
  lemma GaugeLabelInRange(st: SimState)
    requires Inv(st)
    ensures 0 <= WaterPulse.PercentLabel(UsagePercent(st.stats)) <= 100
  {
  }

  // ---------------------------------------------------------------------------
  // The dashboard's state slots, updated in place
  // ---------------------------------------------------------------------------

  class Dashboard {
    var stats: DailyStats
    var events: seq<WaterEvent>
    var activeFlow: Option<Flow>
    var ghostLeak: Option<Leak>
    var notification: Option<string>
    var pendingClears: nat
    var sensitivity: int

    function Model(): SimState
      reads this
    {
      SimState(stats, events, activeFlow, ghostLeak, notification, pendingClears)
    }

    ghost predicate Valid()
      reads this
    {
      Inv(Model()) && 0 <= sensitivity <= 100
    }

    constructor ()
      ensures Valid()
      ensures Model() == InitialState && sensitivity == DefaultSensitivity
    {
      stats := InitialState.stats;
      events := InitialState.events;
      activeFlow := None;
      ghostLeak := None;
      notification := None;
      pendingClears := 0;
      sensitivity := DefaultSensitivity;
    }

    /** The interval callback: the flow branch, then the leak branch. */
    method Tick(d: Draws)
      requires Valid() && d.Valid()
      modifies this
      ensures Valid()
      ensures Model() == NextState(old(Model()), old(sensitivity), d)
      ensures sensitivity == old(sensitivity)
    {
      ghost var before := Model();
      if activeFlow.None? && d.start > StartChance {
        var app := Appliances[PickIndex(d.pick)];
        activeFlow := Some(app);
        if app.appliance == "Shower" {
          notification := Some(ShowerMessage);
          pendingClears := pendingClears + 1;
        }
      } else if activeFlow.Some? {
        var flow := activeFlow.value;
        stats := stats.(used := stats.used + flow.rate / 60.0);
        if d.stop > StopChance {
          var e := WaterEvent(flow.appliance, EventVolume(d.volume) as real, "tap");
          events := [e] + events;
          activeFlow := None;
        }
      }
      var queue: seq<LeakSetter> := [];
      if ghostLeak.None? {
        if d.leakStart > Threshold(sensitivity) {
          queue := [Put(Leak(InitialWasted, 0))];
        }
      } else {
        queue := [Grow];
        if d.leakResolve > ResolveChance {
          queue := queue + [Clear];
        }
      }
      ghostLeak := ApplySetters(ghostLeak, queue);
      NextStatePreservesInv(before, sensitivity, d);
    }

    /** The notification timer firing: it clears whatever notification is shown. */
    method NotificationTimerFires()
      requires Valid() && pendingClears > 0
      modifies this
      ensures Valid()
      ensures Model() == ClearNotification(old(Model())) && sensitivity == old(sensitivity)
    {
      notification := None;
      pendingClears := pendingClears - 1;
    }

    /** The settings slider, a range input from 0 to 100. */
    method SetSensitivity(v: int)
      requires Valid() && 0 <= v <= 100
      modifies this
      ensures Valid()
      ensures Model() == old(Model()) && sensitivity == v
    {
      sensitivity := v;
    }
  }
}
