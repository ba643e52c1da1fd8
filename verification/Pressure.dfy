/** internal/proxy/proxy.go: classifying the load of a model group and switching its pressure state with hysteresis. */
module Pressure {
  import opened Collections
  import opened Text
  import opened ControlPlane

  // ---------- One tick's measurements ----------

  datatype Aggregate = Aggregate(prefillInflight: int, decodeInflight: int, ttftSum: real, ttftN: nat, itlSum: real, itlN: nat,
                                 prefillWorkers: nat, decodeWorkers: nat)

  const EMPTY_AGGREGATE := Aggregate(0, 0, 0.0, 0, 0.0, 0, 0, 0)

  type Stats = map<string, WorkerStat>

  function StatOf(stats: Stats, id: string): WorkerStat {
    if id in stats then stats[id] else WorkerStat(id, 0, 0.0, 0.0)
  }

  /** Only ready, routable workers with a group are measured. */
  predicate Measured(w: WorkerInfo) {
    w.routable && w.state == Ready && TrimSpace(w.modelGroup) != ""
  }

  function AddWorker(a: Aggregate, role: Role, stat: WorkerStat): Aggregate {
    match role
    case Prefill =>
      a.(prefillWorkers := a.prefillWorkers + 1, prefillInflight := a.prefillInflight + stat.inflight,
         ttftSum := if stat.ttft > 0.0 then a.ttftSum + stat.ttft else a.ttftSum,
         ttftN := if stat.ttft > 0.0 then a.ttftN + 1 else a.ttftN)
    case Decode =>
      a.(decodeWorkers := a.decodeWorkers + 1, decodeInflight := a.decodeInflight + stat.inflight,
         itlSum := if stat.itl > 0.0 then a.itlSum + stat.itl else a.itlSum,
         itlN := if stat.itl > 0.0 then a.itlN + 1 else a.itlN)
    case _ => a
  }

  /** The measurements of one group over the first n workers; None if it has none of them. */
  function AggregateUpTo(workers: seq<WorkerInfo>, stats: Stats, n: nat, group: string): Option<Aggregate>
    requires n <= |workers|
  {
    if n == 0 then None
    else
      var before := AggregateUpTo(workers, stats, n - 1, group);
      var w := workers[n - 1];
      if Measured(w) && TrimSpace(w.modelGroup) == group then
        Some(AddWorker(if before.Some? then before.value else EMPTY_AGGREGATE, w.role, StatOf(stats, w.id)))
      else before
  }

  function Average(sum: real, n: nat): real {
    if n > 0 then sum / n as real else 0.0
  }

  // ---------- Classification ----------

  datatype Thresholds = Thresholds(ttftHot: real, itlHot: real)

  datatype GroupConfig = GroupConfig(name: string, ttftHotMs: int, itlHotMs: int)

  /** The first configured group of this name, if its thresholds are positive. */
  function ThresholdsFor(groups: seq<GroupConfig>, group: string): Option<Thresholds> {
    if groups == [] then None
    else if TrimSpace(groups[0].name) != TrimSpace(group) then ThresholdsFor(groups[1..], group)
    else if groups[0].ttftHotMs <= 0 || groups[0].itlHotMs <= 0 then None
    else Some(Thresholds(groups[0].ttftHotMs as real, groups[0].itlHotMs as real))
  }

  function PressureScore(metric: real, threshold: real, delta: real): real {
    var score := if threshold > 0.0 && metric > 0.0 then metric / threshold else 0.0;
    if delta > score then delta else score
  }

  datatype Load = Load(canCompare: bool, delta: real, ttft: real, itl: real)

  /** delta is prefill inflight per worker minus decode inflight per worker. */
  function LoadOf(a: Aggregate): Load {
    Load(a.prefillWorkers > 0 && a.decodeWorkers > 0,
         Average(a.prefillInflight as real, a.prefillWorkers) - Average(a.decodeInflight as real, a.decodeWorkers),
         Average(a.ttftSum, a.ttftN), Average(a.itlSum, a.itlN))
  }

  datatype Class = HotPrefill | HotDecode | Calm

  method Flags(l: Load, thresholds: Option<Thresholds>) returns (prefillHot: bool, decodeHot: bool)
    ensures !(prefillHot && decodeHot)
    ensures ClassOf(l, thresholds) == if prefillHot then HotPrefill else if decodeHot then HotDecode else Calm
  {
    prefillHot := l.canCompare && l.delta >= 1.0;
    decodeHot := l.canCompare && -l.delta >= 1.0;
    if thresholds.Some? {
      var t := thresholds.value;
      prefillHot := prefillHot || (l.ttft > 0.0 && l.ttft >= t.ttftHot);
      decodeHot := decodeHot || (l.itl > 0.0 && l.itl >= t.itlHot);
      if prefillHot && decodeHot {
        var prefillScore := PressureScore(l.ttft, t.ttftHot, l.delta);
        var decodeScore := PressureScore(l.itl, t.itlHot, -l.delta);
        if decodeScore >= prefillScore {
          prefillHot := false;
        } else {
          decodeHot := false;
        }
      }
    }
  }

  predicate PrefillSignal(l: Load, thresholds: Option<Thresholds>) {
    (l.canCompare && l.delta >= 1.0) || (thresholds.Some? && l.ttft > 0.0 && l.ttft >= thresholds.value.ttftHot)
  }

  predicate DecodeSignal(l: Load, thresholds: Option<Thresholds>) {
    (l.canCompare && -l.delta >= 1.0) || (thresholds.Some? && l.itl > 0.0 && l.itl >= thresholds.value.itlHot)
  }

  /** One signal decides alone; with both, the higher score wins and decode wins a tie. */
  function ClassOf(l: Load, thresholds: Option<Thresholds>): Class {
    var p, d := PrefillSignal(l, thresholds), DecodeSignal(l, thresholds);
    if p && d && thresholds.Some? then
      if PressureScore(l.itl, thresholds.value.itlHot, -l.delta) >= PressureScore(l.ttft, thresholds.value.ttftHot, l.delta)
      then HotDecode else HotPrefill
    else if p then HotPrefill
    else if d then HotDecode
    else Calm
  }

  // ---------- The tracker ----------

  datatype Tracker = Tracker(current: PressureState, prefillTicks: nat, decodeTicks: nat, calmTicks: nat, lastTransition: Option<int>)

  const NEW_TRACKER := Tracker(Normal, 0, 0, 0, None)

  function Counted(t: Tracker, c: Class): Tracker {
    match c
    case HotPrefill => t.(prefillTicks := t.prefillTicks + 1, decodeTicks := 0, calmTicks := 0)
    case HotDecode => t.(decodeTicks := t.decodeTicks + 1, prefillTicks := 0, calmTicks := 0)
    case Calm => t.(calmTicks := t.calmTicks + 1, prefillTicks := 0, decodeTicks := 0)
  }

  function Target(t: Tracker, sustain: nat): PressureState {
    if t.prefillTicks >= sustain then PrefillHot
    else if t.decodeTicks >= sustain then DecodeHot
    else if t.calmTicks >= sustain / 2 then Normal
    else t.current
  }

  predicate MaySwitch(t: Tracker, cooldown: int, now: int) {
    t.lastTransition.None? || now - t.lastTransition.value >= cooldown
  }

  function Track(t: Tracker, c: Class, sustain: nat, cooldown: int, now: int): Tracker {
    var u := Counted(t, c);
    if Target(u, sustain) != u.current && MaySwitch(u, cooldown, now)
    then u.(current := Target(u, sustain), lastTransition := Some(now)) else u
  }

  // ---------- The tick ----------

  const TICK_SECONDS := 5

  /** Ticks that a hot class must last: the sustain window in ticks, rounded up, or six by default. */
  function SustainTicks(sustainWindowSeconds: int): (s: nat)
    ensures s >= 1
  {
    if sustainWindowSeconds > 0 then (sustainWindowSeconds + TICK_SECONDS - 1) / TICK_SECONDS else 6
  }

  /** The required ticks, five seconds each, cover the configured window, and one tick less would not; without a window six
      ticks are required. */
  lemma SustainTicksCoverWindow(window: int)
    ensures window > 0 ==> (SustainTicks(window) - 1) * 5 < window <= SustainTicks(window) * 5
    ensures window <= 0 ==> SustainTicks(window) == 6
  {
  }

  // ---------- Ticks of one group ----------

  datatype TickInput = TickInput(hot: Class, now: int)

  /** What the proxy sees at a tick. */
  datatype Sample = Sample(workers: seq<WorkerInfo>, stats: Stats, now: int)

  /** The ticks among the first n samples at which the group was measured. */
  function TicksOf(samples: seq<Sample>, n: nat, groups: seq<GroupConfig>, g: string): seq<TickInput>
    requires n <= |samples|
  {
    if n == 0 then []
    else
      var s := samples[n - 1];
      match AggregateUpTo(s.workers, s.stats, |s.workers|, g)
      case None => TicksOf(samples, n - 1, groups, g)
      case Some(a) => TicksOf(samples, n - 1, groups, g) + [TickInput(ClassOf(LoadOf(a), ThresholdsFor(groups, g)), s.now)]
  }

  /** The tracker of a group after these ticks. */
  function LastTracker(sustain: nat, cooldown: int, ticks: seq<TickInput>): Tracker {
    if ticks == [] then NEW_TRACKER
    else
      var last := ticks[|ticks| - 1];
      Track(LastTracker(sustain, cooldown, ticks[..|ticks| - 1]), last.hot, sustain, cooldown, last.now)
  }

  lemma NextTick(sustain: nat, cooldown: int, samples: seq<Sample>, n: nat, groups: seq<GroupConfig>, g: string)
    requires n < |samples|
    ensures var s := samples[n];
            var before := LastTracker(sustain, cooldown, TicksOf(samples, n, groups, g));
            LastTracker(sustain, cooldown, TicksOf(samples, n + 1, groups, g))
            == match AggregateUpTo(s.workers, s.stats, |s.workers|, g)
               case None => before
               case Some(a) => Track(before, ClassOf(LoadOf(a), ThresholdsFor(groups, g)), sustain, cooldown, s.now)
  {
    hide Track, AggregateUpTo, ClassOf, LoadOf;
    var s := samples[n];
    match AggregateUpTo(s.workers, s.stats, |s.workers|, g)
    case None =>
    case Some(a) =>
      var ticks := TicksOf(samples, n, groups, g);
      var tick := TickInput(ClassOf(LoadOf(a), ThresholdsFor(groups, g)), s.now);
      assert (ticks + [tick])[..|ticks|] == ticks;
  }

  class Monitor {
    const sustain: nat
    const cooldown: int
    const groups: seq<GroupConfig>
    var trackers: map<string, Tracker>
    var reports: map<string, PressureReport>

    constructor (sustainWindowSeconds: int, cooldownSeconds: int, groups: seq<GroupConfig>)
      ensures sustain == SustainTicks(sustainWindowSeconds) && this.groups == groups
      ensures cooldown == if cooldownSeconds > 0 then cooldownSeconds else 30
      ensures trackers == map[] && reports == map[]
    {
      sustain := SustainTicks(sustainWindowSeconds);
      cooldown := if cooldownSeconds > 0 then cooldownSeconds else 30;
      this.groups := groups;
      trackers, reports := map[], map[];
    }

    function TrackerOf(group: string): Tracker
      reads this
    {
      if group in trackers then trackers[group] else NEW_TRACKER
    }

    method Measure(workers: seq<WorkerInfo>, stats: Stats) returns (aggregates: map<string, Aggregate>)
      ensures forall g :: (if g in aggregates then Some(aggregates[g]) else None) == AggregateUpTo(workers, stats, |workers|, g)
    {
      aggregates := map[];
      for i := 0 to |workers|
        invariant forall g :: (if g in aggregates then Some(aggregates[g]) else None) == AggregateUpTo(workers, stats, i, g)
      {
        var w := workers[i];
        if !w.routable || w.state != Ready {
          continue;
        }
        var group := TrimSpace(w.modelGroup);
        if group == "" {
          continue;
        }
        var a := if group in aggregates then aggregates[group] else EMPTY_AGGREGATE;
        aggregates := aggregates[group := AddWorker(a, w.role, StatOf(stats, w.id))];
      }
    }

    /** Group g kept its tracker and its report. */
    twostate predicate Untouched(g: string)
      reads this
    {
      && TrackerOf(g) == old(TrackerOf(g))
      && (g in reports <==> g in old(reports))
      && (g in reports ==> reports[g] == old(reports)[g])
    }

    /** Group g, measured as a, went one step on and reported it. */
    ghost predicate Ticked(g: string, a: Aggregate, before: Tracker, now: int)
      reads this
    {
      var l := LoadOf(a);
      && TrackerOf(g) == Track(before, ClassOf(l, ThresholdsFor(groups, g)), sustain, cooldown, now)
      && g in reports
      && reports[g] == PressureReport(g, a.prefillInflight + a.decodeInflight, l.ttft, l.itl, TrackerOf(g).current, now)
    }

    /** What a tick does to the groups it measured; the others keep tracker and report. */
    method Tick(workers: seq<WorkerInfo>, stats: Stats, now: int)
      modifies this
      ensures forall g :: (match AggregateUpTo(workers, stats, |workers|, g)
                           case None => Untouched(g)
                           case Some(a) => Ticked(g, a, old(TrackerOf(g)), now))
    {
      var aggregates := Measure(workers, stats);
      var todo := aggregates.Keys;
      hide AggregateUpTo, Track, ClassOf, LoadOf;
      while todo != {}
        invariant todo <= aggregates.Keys
        invariant forall g :: g !in aggregates || g in todo ==> Untouched(g)
        invariant forall g :: g in aggregates && g !in todo ==> Ticked(g, aggregates[g], old(TrackerOf(g)), now)
        decreases todo
      {
        var group :| group in todo;
        label before:
        assert TrackerOf(group) == old(TrackerOf(group)) by {
          assert Untouched(group);
        }
        TickGroup(group, aggregates[group], now);
        forall g | g !in aggregates || g in todo - {group}
          ensures Untouched(g)
        {
          assert Untouched@before(g);
        }
        forall g | g in aggregates && g !in todo
          ensures Ticked(g, aggregates[g], old(TrackerOf(g)), now)
        {
          assert Untouched@before(g);
        }
        todo := todo - {group};
      }
    }

    /** The loop of a new monitor, tick after tick: every group's tracker is the last one of the group's history. */
    method Loop(samples: seq<Sample>)
      requires trackers == map[]
      modifies this
      ensures forall g :: TrackerOf(g) == LastTracker(sustain, cooldown, TicksOf(samples, |samples|, groups, g))
    {
      for i := 0 to |samples|
        invariant forall g :: TrackerOf(g) == LastTracker(sustain, cooldown, TicksOf(samples, i, groups, g))
      {
        hide Track, AggregateUpTo, ClassOf, LoadOf, TicksOf, LastTracker, ThresholdsFor;
        label before:
        Tick(samples[i].workers, samples[i].stats, samples[i].now);
        forall g
          ensures TrackerOf(g) == LastTracker(sustain, cooldown, TicksOf(samples, i + 1, groups, g))
        {
          NextTick(sustain, cooldown, samples, i, groups, g);
          assert old@before(TrackerOf(g)) == LastTracker(sustain, cooldown, TicksOf(samples, i, groups, g));
        }
      }
    }

    /** The body of the loop over the measured groups. */
    method TickGroup(group: string, a: Aggregate, now: int)
      modifies this
      ensures Ticked(group, a, old(TrackerOf(group)), now)
      ensures forall g :: g != group ==> Untouched(g)
    {
      var tracker := TrackerOf(group);
      var l := LoadOf(a);
      var prefillHot, decodeHot := Flags(l, ThresholdsFor(groups, group));
      if prefillHot {
        tracker := tracker.(prefillTicks := tracker.prefillTicks + 1, decodeTicks := 0, calmTicks := 0);
      } else if decodeHot {
        tracker := tracker.(decodeTicks := tracker.decodeTicks + 1, prefillTicks := 0, calmTicks := 0);
      } else {
        tracker := tracker.(calmTicks := tracker.calmTicks + 1, prefillTicks := 0, decodeTicks := 0);
      }
      var target := tracker.current;
      if tracker.prefillTicks >= sustain {
        target := PrefillHot;
      } else if tracker.decodeTicks >= sustain {
        target := DecodeHot;
      } else if tracker.calmTicks >= sustain / 2 {
        target := Normal;
      }
      if target != tracker.current && MaySwitch(tracker, cooldown, now) {
        tracker := tracker.(current := target, lastTransition := Some(now));
      }
      trackers := trackers[group := tracker];
      reports := reports[group := PressureReport(group, a.prefillInflight + a.decodeInflight, l.ttft, l.itl, tracker.current, now)];
    }
  }

  // ---------- Histories of one group ----------

  /** ts[n] is the tracker before tick n. */
  ghost predicate IsHistory(sustain: nat, cooldown: int, ticks: seq<TickInput>, ts: seq<Tracker>) {
    && |ts| == |ticks| + 1 && ts[0] == NEW_TRACKER && sustain >= 1
    && forall n :: 0 <= n < |ticks| ==> ts[n + 1] == Track(ts[n], ticks[n].hot, sustain, cooldown, ticks[n].now)
  }

  /** The trackers that the loop goes through are a history of the group's ticks, so what holds of histories holds of
      the loop. */
  lemma LoopIsHistory(sustain: nat, cooldown: int, ticks: seq<TickInput>)
    requires sustain >= 1
    ensures var ts := seq(|ticks| + 1, i requires 0 <= i <= |ticks| => LastTracker(sustain, cooldown, ticks[..i]));
            IsHistory(sustain, cooldown, ticks, ts) && ts[|ticks|] == LastTracker(sustain, cooldown, ticks)
  {
    hide Track;
    assert ticks[..|ticks|] == ticks && ticks[..0] == [];
    forall n | 0 <= n < |ticks|
      ensures LastTracker(sustain, cooldown, ticks[..n + 1])
           == Track(LastTracker(sustain, cooldown, ticks[..n]), ticks[n].hot, sustain, cooldown, ticks[n].now)
    {
      assert ticks[..n + 1][..n] == ticks[..n];
    }
  }

  /** The length of the run of class c that ends with tick n - 1. */
  function RunLength(ticks: seq<TickInput>, n: nat, c: Class): nat
    requires n <= |ticks|
  {
    if n == 0 || ticks[n - 1].hot != c then 0 else RunLength(ticks, n - 1, c) + 1
  }

  lemma {:induction false} CountersAreRunLengths(sustain: nat, cooldown: int, ticks: seq<TickInput>, ts: seq<Tracker>, n: nat)
    requires IsHistory(sustain, cooldown, ticks, ts) && n < |ts|
    ensures ts[n].prefillTicks == RunLength(ticks, n, HotPrefill)
    ensures ts[n].decodeTicks == RunLength(ticks, n, HotDecode)
    ensures ts[n].calmTicks == RunLength(ticks, n, Calm)
  {
    if n > 0 {
      CountersAreRunLengths(sustain, cooldown, ticks, ts, n - 1);
      assert ts[n] == Track(ts[n - 1], ticks[n - 1].hot, sustain, cooldown, ticks[n - 1].now);
    }
  }

  predicate SwitchesAt(ts: seq<Tracker>, n: nat)
    requires n + 1 < |ts|
  {
    ts[n + 1].current != ts[n].current
  }

  function Max(a: int, b: int): int {
    if a > b then a else b
  }

  /** A switch needs an unbroken run of its class: the full sustain for a hot state, half of it (at least one tick) for
      Normal. */
  lemma SwitchesAreSustained(sustain: nat, cooldown: int, ticks: seq<TickInput>, ts: seq<Tracker>, n: nat)
    requires IsHistory(sustain, cooldown, ticks, ts) && n < |ticks| && SwitchesAt(ts, n)
    ensures ts[n + 1].current == PrefillHot ==> RunLength(ticks, n + 1, HotPrefill) >= sustain
    ensures ts[n + 1].current == DecodeHot ==> RunLength(ticks, n + 1, HotDecode) >= sustain
    ensures ts[n + 1].current == Normal ==> RunLength(ticks, n + 1, Calm) >= Max(1, sustain / 2)
    ensures ts[n + 1].current != OtherPressure
  {
    CountersAreRunLengths(sustain, cooldown, ticks, ts, n);
    assert ts[n + 1] == Track(ts[n], ticks[n].hot, sustain, cooldown, ticks[n].now);
  }

  /** Out of cooldown, a sustained hot run does switch the state. */
  lemma SustainedRunSwitches(sustain: nat, cooldown: int, ticks: seq<TickInput>, ts: seq<Tracker>, n: nat)
    requires IsHistory(sustain, cooldown, ticks, ts) && n < |ticks| && MaySwitch(ts[n], cooldown, ticks[n].now)
    ensures RunLength(ticks, n + 1, HotPrefill) >= sustain ==> ts[n + 1].current == PrefillHot
    ensures RunLength(ticks, n + 1, HotDecode) >= sustain ==> ts[n + 1].current == DecodeHot
    ensures RunLength(ticks, n + 1, Calm) >= Max(1, sustain / 2) ==> ts[n + 1].current == Normal
  {
    CountersAreRunLengths(sustain, cooldown, ticks, ts, n + 1);
    CountersAreRunLengths(sustain, cooldown, ticks, ts, n);
    assert ts[n + 1] == Track(ts[n], ticks[n].hot, sustain, cooldown, ticks[n].now);
  }

  /** The time of the last switch before tick n. */
  function LastSwitch(ticks: seq<TickInput>, ts: seq<Tracker>, n: nat): Option<int>
    requires |ts| == |ticks| + 1 && n <= |ticks|
  {
    if n == 0 then None
    else if SwitchesAt(ts, n - 1) then Some(ticks[n - 1].now)
    else LastSwitch(ticks, ts, n - 1)
  }

  lemma {:induction false} TransitionDates(sustain: nat, cooldown: int, ticks: seq<TickInput>, ts: seq<Tracker>, n: nat)
    requires IsHistory(sustain, cooldown, ticks, ts) && n < |ts|
    ensures ts[n].lastTransition == LastSwitch(ticks, ts, n)
  {
    if n > 0 {
      TransitionDates(sustain, cooldown, ticks, ts, n - 1);
      assert ts[n] == Track(ts[n - 1], ticks[n - 1].hot, sustain, cooldown, ticks[n - 1].now);
    }
  }

  /** The state that the runs up to and including tick n call for, if any. */
  ghost predicate CallsFor(sustain: nat, ticks: seq<TickInput>, n: nat, state: PressureState)
    requires n < |ticks|
  {
    match state
    case PrefillHot => RunLength(ticks, n + 1, HotPrefill) >= sustain
    case DecodeHot => RunLength(ticks, n + 1, HotDecode) >= sustain
    case Normal => RunLength(ticks, n + 1, Calm) >= Max(1, sustain / 2)
    case OtherPressure => false
  }

  /** A tick switches to a state if and only if that state is not the current one, its run is long enough, and the last
      switch, if there was one, is a cooldown ago. */
  lemma SwitchesExactly(sustain: nat, cooldown: int, ticks: seq<TickInput>, ts: seq<Tracker>, n: nat, state: PressureState)
    requires IsHistory(sustain, cooldown, ticks, ts) && n < |ticks|
    ensures SwitchesAt(ts, n) && ts[n + 1].current == state
        <==> && state != ts[n].current && CallsFor(sustain, ticks, n, state)
             && (LastSwitch(ticks, ts, n).Some? ==> ticks[n].now - LastSwitch(ticks, ts, n).value >= cooldown)
  {
    TransitionDates(sustain, cooldown, ticks, ts, n);
    CountersAreRunLengths(sustain, cooldown, ticks, ts, n);
    CountersAreRunLengths(sustain, cooldown, ticks, ts, n + 1);
    assert ts[n + 1] == Track(ts[n], ticks[n].hot, sustain, cooldown, ticks[n].now);
    hide LastSwitch;
  }

  /** Consecutive switches are at least a cooldown apart. */
  lemma SwitchesAreSpaced(sustain: nat, cooldown: int, ticks: seq<TickInput>, ts: seq<Tracker>, n: nat)
    requires IsHistory(sustain, cooldown, ticks, ts) && n < |ticks| && SwitchesAt(ts, n)
    ensures LastSwitch(ticks, ts, n).Some? ==> ticks[n].now - LastSwitch(ticks, ts, n).value >= cooldown
  {
    TransitionDates(sustain, cooldown, ticks, ts, n);
    assert ts[n + 1] == Track(ts[n], ticks[n].hot, sustain, cooldown, ticks[n].now);
  }
}
