/** What makes a tick hot, stated on the workers and their statistics. */
module Hotness {
  import opened Collections
  import opened Text
  import opened ControlPlane
  import opened Pressure

  // ---------- What counts ----------

  /** A worker of this role that is measured for the group. */
  predicate CountsFor(w: WorkerInfo, group: string, role: Role) {
    w.role == role && w.state == Ready && w.routable && group != "" && TrimSpace(w.modelGroup) == group
  }

  function Requests(stats: Stats, id: string): int {
    if id in stats then stats[id].inflight else 0
  }

  /** The smoothed latency of the phase that a worker of this role serves; zero means none yet. */
  function Latency(stats: Stats, id: string, role: Role): real {
    if id !in stats then 0.0 else if role == Prefill then stats[id].ttft else stats[id].itl
  }

  /** The workers that count, the requests in flight on them, how many have a latency, and the sum of these. */
  datatype Totals = Totals(workers: nat, inflight: int, sampled: nat, latency: real)

  function TotalsOf(workers: seq<WorkerInfo>, stats: Stats, group: string, role: Role): Totals {
    if workers == [] then Totals(0, 0, 0, 0.0)
    else
      var rest, w := TotalsOf(workers[..|workers| - 1], stats, group, role), workers[|workers| - 1];
      if !CountsFor(w, group, role) then rest
      else
        var latency := Latency(stats, w.id, role);
        Totals(rest.workers + 1, rest.inflight + Requests(stats, w.id),
               if latency > 0.0 then rest.sampled + 1 else rest.sampled, if latency > 0.0 then rest.latency + latency else rest.latency)
  }

  ghost predicate IsMeasured(workers: seq<WorkerInfo>, group: string) {
    group != "" && exists i :: 0 <= i < |workers| && workers[i].state == Ready && workers[i].routable && TrimSpace(workers[i].modelGroup) == group
  }

  ghost predicate Agree(a: Aggregate, p: Totals, d: Totals) {
    && a.prefillWorkers == p.workers && a.prefillInflight == p.inflight && a.ttftN == p.sampled && a.ttftSum == p.latency
    && a.decodeWorkers == d.workers && a.decodeInflight == d.inflight && a.itlN == d.sampled && a.itlSum == d.latency
  }

  /** A group is measured exactly when one of its workers is ready and routable, and its aggregate is the totals of its
      prefill and of its decode workers. */
  lemma {:induction false} AggregateIsTotals(workers: seq<WorkerInfo>, stats: Stats, n: nat, group: string)
    requires n <= |workers|
    ensures AggregateUpTo(workers, stats, n, group).Some? <==> IsMeasured(workers[..n], group)
    ensures var a := AggregateUpTo(workers, stats, n, group);
            Agree(if a.Some? then a.value else EMPTY_AGGREGATE, TotalsOf(workers[..n], stats, group, Prefill),
                  TotalsOf(workers[..n], stats, group, Decode))
  {
    hide TrimSpace;
    if n > 0 {
      AggregateIsTotals(workers, stats, n - 1, group);
      assert workers[..n][..n - 1] == workers[..n - 1];
      assert workers[..n] == workers[..n - 1] + [workers[n - 1]];
    }
  }

  lemma {:induction false} TotalsAreSane(workers: seq<WorkerInfo>, stats: Stats, group: string, role: Role)
    ensures var t := TotalsOf(workers, stats, group, role);
            t.sampled <= t.workers && t.latency >= 0.0 && (t.latency > 0.0 <==> t.sampled > 0)
  {
    if workers != [] {
      TotalsAreSane(workers[..|workers| - 1], stats, group, role);
    }
  }

  // ---------- Who is overloaded ----------

  /** Both roles have workers, and per worker a has at least one request more than b. */
  predicate Outweighs(a: Totals, b: Totals) {
    a.workers > 0 && b.workers > 0 && a.inflight * b.workers - b.inflight * a.workers >= a.workers * b.workers
  }

  lemma GapIsOutweighing(a: Totals, b: Totals)
    ensures a.workers > 0 && b.workers > 0 ==>
              (Average(a.inflight as real, a.workers) - Average(b.inflight as real, b.workers) >= 1.0 <==> Outweighs(a, b))
  {
  }

  /** The workers' mean latency reaches the threshold. */
  predicate IsSlow(t: Totals, hot: real) {
    t.sampled > 0 && t.latency >= hot * t.sampled as real
  }

  lemma SlowByMean(t: Totals, hot: real)
    requires t.sampled > 0 <==> t.latency > 0.0
    ensures IsSlow(t, hot) <==> Average(t.latency, t.sampled) > 0.0 && Average(t.latency, t.sampled) >= hot
  {
  }

  predicate IsOverloaded(own: Totals, other: Totals, hot: Option<real>) {
    Outweighs(own, other) || (hot.Some? && IsSlow(own, hot.value))
  }

  /** How hot a role is: its mean latency in units of its threshold or its surplus of requests per worker, whichever is
      more. */
  function Heat(own: Totals, other: Totals, hot: real): real
    requires own.workers > 0 && other.workers > 0
  {
    var gap := own.inflight as real / own.workers as real - other.inflight as real / other.workers as real;
    var ratio := if own.sampled > 0 && hot > 0.0 then own.latency / own.sampled as real / hot else 0.0;
    if gap > ratio then gap else ratio
  }

  /** Only one role can outweigh the other. */
  lemma OneOutweighs(a: Totals, b: Totals)
    ensures !(Outweighs(a, b) && Outweighs(b, a))
  {
  }

  /** The class of a group's tick, by the totals of its two roles. */
  ghost predicate IsClass(c: Class, p: Totals, d: Totals, thresholds: Option<Thresholds>) {
    var prefillHot := IsOverloaded(p, d, if thresholds.Some? then Some(thresholds.value.ttftHot) else None);
    var decodeHot := IsOverloaded(d, p, if thresholds.Some? then Some(thresholds.value.itlHot) else None);
    && (c == Calm <==> !prefillHot && !decodeHot)
    && (prefillHot && !decodeHot ==> c == HotPrefill)
    && (decodeHot && !prefillHot ==> c == HotDecode)
    && (prefillHot && decodeHot ==> thresholds.Some? && p.workers > 0 && d.workers > 0)
    && (prefillHot && decodeHot ==> c == if Heat(d, p, thresholds.value.itlHot) >= Heat(p, d, thresholds.value.ttftHot) then HotDecode else HotPrefill)
  }

  lemma ClassByTotals(a: Aggregate, p: Totals, d: Totals, thresholds: Option<Thresholds>)
    requires Agree(a, p, d) && p.sampled <= p.workers && d.sampled <= d.workers
    requires (p.latency > 0.0 <==> p.sampled > 0) && (d.latency > 0.0 <==> d.sampled > 0)
    ensures IsClass(ClassOf(LoadOf(a), thresholds), p, d, thresholds)
  {
    GapIsOutweighing(p, d);
    GapIsOutweighing(d, p);
    OneOutweighs(p, d);
    if thresholds.Some? {
      SlowByMean(p, thresholds.value.ttftHot);
      SlowByMean(d, thresholds.value.itlHot);
    }
    hide Outweighs, IsSlow;
  }

  /** A measured group's tick is hot for a role exactly when the role has at least one request more per worker than the
      other, or, with thresholds, when its mean latency reaches its own threshold: time to the first token for prefill
      workers, time between tokens for decode workers. When both are, the hotter one counts, and decode at a tie. */
  lemma ClassExactly(workers: seq<WorkerInfo>, stats: Stats, group: string, thresholds: Option<Thresholds>)
    ensures AggregateUpTo(workers, stats, |workers|, group).Some? <==> IsMeasured(workers, group)
    ensures IsMeasured(workers, group) ==>
              IsClass(ClassOf(LoadOf(AggregateUpTo(workers, stats, |workers|, group).value), thresholds),
                      TotalsOf(workers, stats, group, Prefill), TotalsOf(workers, stats, group, Decode), thresholds)
  {
    AggregateIsTotals(workers, stats, |workers|, group);
    assert workers[..|workers|] == workers;
    TotalsAreSane(workers, stats, group, Prefill);
    TotalsAreSane(workers, stats, group, Decode);
    hide TotalsOf, AggregateUpTo, IsClass, IsMeasured, ClassOf, LoadOf;
    var a := AggregateUpTo(workers, stats, |workers|, group);
    if a.Some? {
      ClassByTotals(a.value, TotalsOf(workers, stats, group, Prefill), TotalsOf(workers, stats, group, Decode), thresholds);
    }
  }

  /** Without thresholds: decode is hot exactly when its workers carry at least one request more per worker, prefill the
      other way round, and neither without workers of both roles. */
  lemma ClassWithoutThresholds(workers: seq<WorkerInfo>, stats: Stats, group: string)
    requires IsMeasured(workers, group)
    ensures var p, d := TotalsOf(workers, stats, group, Prefill), TotalsOf(workers, stats, group, Decode);
            var a := AggregateUpTo(workers, stats, |workers|, group);
            && a.Some?
            && (ClassOf(LoadOf(a.value), None) == HotDecode <==>
                p.workers > 0 && d.workers > 0 && d.inflight * p.workers - p.inflight * d.workers >= d.workers * p.workers)
            && (ClassOf(LoadOf(a.value), None) == HotPrefill <==>
                p.workers > 0 && d.workers > 0 && p.inflight * d.workers - d.inflight * p.workers >= p.workers * d.workers)
  {
    ClassExactly(workers, stats, group, None);
    var p, d := TotalsOf(workers, stats, group, Prefill), TotalsOf(workers, stats, group, Decode);
    OneOutweighs(p, d);
    hide TotalsOf, AggregateUpTo, IsMeasured, ClassOf, LoadOf;
  }

  // ---------- Thresholds and reports ----------

  /** Configuration i is the first one of this group. */
  ghost predicate IsFirstConfig(groups: seq<GroupConfig>, i: nat, group: string) {
    && i < |groups| && TrimSpace(groups[i].name) == TrimSpace(group)
    && forall j :: 0 <= j < i ==> TrimSpace(groups[j].name) != TrimSpace(group)
  }

  /** A group has thresholds exactly when the first configuration of its name states two positive ones. */
  lemma {:induction false} ThresholdsExactly(groups: seq<GroupConfig>, group: string, i: nat)
    requires IsFirstConfig(groups, i, group)
    ensures ThresholdsFor(groups, group) == if groups[i].ttftHotMs > 0 && groups[i].itlHotMs > 0
                                            then Some(Thresholds(groups[i].ttftHotMs as real, groups[i].itlHotMs as real)) else None
  {
    if i > 0 {
      assert forall j :: 0 <= j < |groups| - 1 ==> groups[1..][j] == groups[j + 1];
      ThresholdsExactly(groups[1..], group, i - 1);
    }
  }

  lemma {:induction false} NoThresholds(groups: seq<GroupConfig>, group: string)
    requires forall j :: 0 <= j < |groups| ==> TrimSpace(groups[j].name) != TrimSpace(group)
    ensures ThresholdsFor(groups, group).None?
  {
    if groups != [] {
      NoThresholds(groups[1..], group);
    }
  }

  /** The mean of the sampled latencies; zero if none was sampled. */
  predicate IsMean(mean: real, t: Totals) {
    mean * t.sampled as real == t.latency && (t.sampled == 0 ==> mean == 0.0)
  }

  /** The report's figures: all requests in flight of both roles, and the mean latencies of prefill and of decode workers,
      zero where none was sampled. */
  lemma ReportedFigures(workers: seq<WorkerInfo>, stats: Stats, group: string)
    requires IsMeasured(workers, group)
    ensures var p, d := TotalsOf(workers, stats, group, Prefill), TotalsOf(workers, stats, group, Decode);
            var a := AggregateUpTo(workers, stats, |workers|, group);
            && a.Some? && a.value.prefillInflight + a.value.decodeInflight == p.inflight + d.inflight
            && IsMean(LoadOf(a.value).ttft, p) && IsMean(LoadOf(a.value).itl, d)
  {
    AggregateIsTotals(workers, stats, |workers|, group);
    assert workers[..|workers|] == workers;
    hide TotalsOf, AggregateUpTo, IsMeasured, TrimSpace, LoadOf, IsMean;
    TotalsAreSane(workers, stats, group, Prefill);
    TotalsAreSane(workers, stats, group, Decode);
    FiguresByTotals(AggregateUpTo(workers, stats, |workers|, group).value, TotalsOf(workers, stats, group, Prefill),
                    TotalsOf(workers, stats, group, Decode));
  }

  lemma FiguresByTotals(a: Aggregate, p: Totals, d: Totals)
    requires Agree(a, p, d) && (p.sampled == 0 ==> p.latency == 0.0) && (d.sampled == 0 ==> d.latency == 0.0)
    ensures IsMean(LoadOf(a).ttft, p) && IsMean(LoadOf(a).itl, d)
  {
  }
}
