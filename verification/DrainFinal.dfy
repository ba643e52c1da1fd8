/** Exactly when a zero poll is final, under the router's own choice among the workers; and workers that are never chosen. */
module DrainFinal {
  import opened Collections
  import opened ControlPlane
  import opened Router
  import opened Drain
  import opened DrainRuns

  // ---------- Workers that the router can come to choose ----------

  /** Requests of the group may use this role: prefill and decode workers serve in pairs only. */
  ghost predicate IsUsed(workers: seq<WorkerInfo>, group: string, role: Role) {
    role == Unified || (role in {Prefill, Decode} && HasPair(workers, group))
  }

  /** The worker is in line: it has statistics, or it is the first of workers that have none. */
  ghost predicate IsInLine(list: seq<WorkerInfo>, stats: Stats, id: string) {
    && (exists w :: w in list && w.id == id)
    && (id in stats || (list[0].id == id && forall w :: w in list ==> w.id !in stats))
  }

  /** Sooner or later the router can choose the worker from this list of workers. */
  ghost predicate IsReachable(workers: seq<WorkerInfo>, stats: Stats, id: string) {
    exists group, role :: IsUsed(workers, group, role) && IsInLine(Serving(workers, group, role), stats, id)
  }

  /** A best worker is in line. */
  lemma BestIsInLine(best: WorkerInfo, list: seq<WorkerInfo>, stats: Stats, metric: WorkerStat -> real)
    requires IsBest(best, list, stats, metric)
    ensures IsInLine(list, stats, best.id)
  {
  }

  lemma RoutedIsReachable(workers: seq<WorkerInfo>, stats: Stats, ids: seq<string>, id: string)
    requires CanRoute(workers, stats, ids) && id in ids
    ensures IsReachable(workers, stats, id)
  {
    hide Serving, IsInLine, IsBest;
    var group, reports, r :| IsAnswer(workers, group, stats, reports, r) && ids == RouteIDs(r);
    match r
    case ToUnified(u) =>
      BestIsInLine(u, Serving(workers, group, Unified), stats, ITL);
      assert IsUsed(workers, group, Unified);
    case ToPair(p, d) =>
      BestIsInLine(p, Serving(workers, group, Prefill), stats, TTFT);
      BestIsInLine(d, Serving(workers, group, Decode), stats, ITL);
      assert IsUsed(workers, group, Prefill) && IsUsed(workers, group, Decode);
  }

  /** The router cannot come to choose the worker from the snapshot, nor from an answer on its way. */
  ghost predicate OutOfReach(s: System, id: string) {
    && !IsReachable(s.snapshot, s.stats, id)
    && (s.fetched.Some? ==> !IsReachable(s.fetched.value, s.stats, id))
  }

  // ---------- Out of reach and without load, for good ----------

  /** Statistics are never dropped, and this worker got none. */
  predicate Grows(before: Stats, after: Stats, id: string) {
    before.Keys <= after.Keys && (id in after ==> id in before)
  }

  lemma StaysOutOfReach(workers: seq<WorkerInfo>, before: Stats, after: Stats, id: string)
    requires !IsReachable(workers, before, id) && Grows(before, after, id)
    ensures !IsReachable(workers, after, id)
  {
    hide Serving, IsUsed;
  }

  lemma {:induction false} BegunGrows(m: Stats, ids: seq<string>, n: nat, id: string)
    requires n <= |ids| && id !in ids
    ensures Grows(m, BegunAll(m, ids, n), id)
  {
    if n > 0 {
      BegunGrows(m, ids, n - 1, id);
    }
  }

  lemma {:induction false} EndedGrows(m: Stats, ids: seq<string>, n: nat, id: string)
    requires n <= |ids|
    ensures Grows(m, EndedAll(m, ids, n), id)
  {
    if n > 0 {
      EndedGrows(m, ids, n - 1, id);
    }
  }

  /** A request that uses the worker is part of its load. */
  lemma NoLoadNoUse(s: System, r: nat, id: string)
    requires LoadOn(s, id) == 0 && r in s.requests
    ensures id !in s.requests[r].ids
  {
    var ids := s.requests[r].ids;
    UseRemove(s.requests, r, id);
    OccursNonNegative(s.requests - {r}, id);
    if id in ids {
      assert ids[..|ids|] == ids;
      OccursSome(ids, |ids|, id);
    }
  }

  lemma StatsGrow(s: System, step: Step, id: string)
    requires Enabled(s, step) && LoadOn(s, id) == 0
    ensures Grows(s.stats, Next(s, step).stats, id)
  {
    hide LoadOn, IsAnswer;
    match step
    case Begin(r) =>
      NoLoadNoUse(s, r, id);
      BegunGrows(s.stats, s.requests[r].ids, |s.requests[r].ids|, id);
    case End(r) => EndedGrows(s.stats, s.requests[r].ids, |s.requests[r].ids|, id);
    case Record(r, _, _, _) => NoLoadNoUse(s, r, id);
    case _ =>
  }

  /** A marked worker that nobody is using and that is out of reach stays so. */
  lemma StepKeepsAway(s: System, step: Step, id: string)
    requires Enabled(s, step) && id in s.marked && LoadOn(s, id) == 0 && OutOfReach(s, id)
    ensures LoadOn(Next(s, step), id) == 0 && OutOfReach(Next(s, step), id)
  {
    StatsGrow(s, step, id);
    StaysOutOfReach(s.snapshot, s.stats, Next(s, step).stats, id);
    if s.fetched.Some? {
      StaysOutOfReach(s.fetched.value, s.stats, Next(s, step).stats, id);
    }
    StepKeepsNoLoad(s, step, id);
    hide IsReachable, LoadOn, IsAnswer;
    match step
    case Fetch(workers) => DrainingIsOutOfReach(s.marked, workers, s.stats, id);
    case _ =>
  }

  lemma DrainingIsOutOfReach(marked: set<string>, workers: seq<WorkerInfo>, stats: Stats, id: string)
    requires Lists(marked, workers) && id in marked
    ensures !IsReachable(workers, stats, id)
  {
    ListedDrainingIsClosed(marked, workers, id);
    hide Serving, IsUsed;
  }

  lemma StepKeepsNoLoad(s: System, step: Step, id: string)
    requires Enabled(s, step) && LoadOn(s, id) == 0 && !IsReachable(s.snapshot, s.stats, id)
    ensures LoadOn(Next(s, step), id) == 0
  {
    hide IsReachable;
    match step
    case Select(r, ids) =>
      if id in ids {
        RoutedIsReachable(s.snapshot, s.stats, ids, id);
      }
      NeverOccurs(ids, |ids|, id);
      UsePut(s.requests, r, Selected(ids), id);
    case Begin(r) => UsePut(s.requests, r, Open(s.requests[r].ids), id);
    case Abort(r) =>
      UseRemove(s.requests, r, id);
      OccursNonNegative(s.requests - {r}, id);
    case End(r) =>
      UseRemove(s.requests, r, id);
      OccursNonNegative(s.requests - {r}, id);
    case _ =>
  }

  lemma {:induction false} StaysAway(run: seq<System>, steps: seq<Step>, id: string, j: nat)
    requires IsRun(run, steps) && KeepsMark(steps, id) && j < |run|
    requires id in run[0].marked && LoadOn(run[0], id) == 0 && OutOfReach(run[0], id)
    ensures id in run[j].marked && LoadOn(run[j], id) == 0 && OutOfReach(run[j], id)
  {
    hide Enabled, LoadOn, OutOfReach;
    if j > 0 {
      StaysAway(run, steps, id, j - 1);
      assert steps[j - 1] != ClearDraining(id);
      StepKeepsAway(run[j - 1], steps[j - 1], id);
    }
  }

  lemma AwayIsFinal(s: System, id: string)
    requires Counted(s) && id in s.marked && LoadOn(s, id) == 0 && OutOfReach(s, id)
    ensures ZeroIsFinal(s, id)
  {
    hide LoadOn, OutOfReach, Counted;
    forall run: seq<System>, steps: seq<Step>, j: int | IsRun(run, steps) && run[0] == s && KeepsMark(steps, id) && 0 <= j < |run|
      ensures Inflight(run[j].stats, id) == 0
    {
      CountersAreExact(run, steps, j);
      StaysAway(run, steps, id, j);
      CountedZero(run[j], id);
    }
  }

  lemma CountedZero(s: System, id: string)
    requires Counted(s) && LoadOn(s, id) == 0
    ensures Inflight(s.stats, id) == 0
  {
    OpenIsPartOfLoad(s, id);
  }

  // ---------- Within reach, the worker gets a request ----------

  /** A route that takes this best worker of the list. */
  lemma RouteTo(workers: seq<WorkerInfo>, stats: Stats, group: string, role: Role, best: WorkerInfo) returns (ids: seq<string>)
    requires IsUsed(workers, group, role)
    requires IsBest(best, Serving(workers, group, role), stats, if role == Prefill then TTFT else ITL)
    ensures CanRoute(workers, stats, ids) && best.id in ids
  {
    hide ServingUpTo, IsBest;
    if role == Unified {
      BestIsMember(best, Serving(workers, group, Unified), stats, ITL);
      var r := ToUnified(best);
      ids := RouteIDs(r);
      assert IsAnswer(workers, group, stats, map[], r);
    } else {
      var p, d := best, best;
      if role == Prefill {
        d := BestExists(Serving(workers, group, Decode), stats, ITL);
      } else {
        p := BestExists(Serving(workers, group, Prefill), stats, TTFT);
      }
      BestIsMember(p, Serving(workers, group, Prefill), stats, TTFT);
      BestIsMember(d, Serving(workers, group, Decode), stats, ITL);
      var r := ToPair(p, d);
      ids := RouteIDs(r);
      assert IsAnswer(workers, group, stats, map[group := PressureReport(group, 0, 0.0, 0.0, DecodeHot, 0)], r);
    }
  }

  lemma BestIsMember(best: WorkerInfo, list: seq<WorkerInfo>, stats: Stats, metric: WorkerStat -> real)
    requires IsBest(best, list, stats, metric)
    ensures best in list
  {
  }

  /** New requests only: each is chosen from the snapshot as it is, and counted. */
  ghost predicate OnlySends(steps: seq<Step>) {
    forall i :: 0 <= i < |steps| ==> steps[i].Select? || steps[i].Begin?
  }

  /** By new requests alone, the worker can come to have more than c in flight. */
  ghost predicate CanReach(s: System, id: string, c: int) {
    exists run: seq<System>, steps: seq<Step> ::
      IsRun(run, steps) && OnlySends(steps) && run[0] == s && Inflight(run[|steps|].stats, id) > c
  }

  /** By new requests alone, the router comes to give the worker one more. */
  ghost predicate GetsRequest(s: System, id: string) {
    CanReach(s, id, Inflight(s.stats, id))
  }

  lemma ReachedAlready(s: System, id: string, c: int)
    requires Inflight(s.stats, id) > c
    ensures CanReach(s, id, c)
  {
    var run, steps: seq<Step> := [s], [];
    assert IsRun(run, steps) && OnlySends(steps);
    assert run[0] == s && run[|steps|] == s;
  }

  lemma SendFirst(s: System, step: Step, id: string, c: int)
    requires Enabled(s, step) && (step.Select? || step.Begin?) && CanReach(Next(s, step), id, c)
    ensures CanReach(s, id, c)
  {
    hide Enabled, Next, Inflight;
    var run: seq<System>, steps: seq<Step> :|
      IsRun(run, steps) && OnlySends(steps) && run[0] == Next(s, step) && Inflight(run[|steps|].stats, id) > c;
    assert IsRun([s] + run, [step] + steps) && OnlySends([step] + steps);
    assert ([s] + run)[0] == s && ([s] + run)[|[step] + steps|] == run[|steps|];
  }

  /** One request is selected and begun. */
  lemma SendOne(s: System, ids: seq<string>, id: string, c: int) returns (t: System)
    requires Counted(s) && CanRoute(s.snapshot, s.stats, ids)
    ensures Counted(t) && t.snapshot == s.snapshot && t.stats == BegunAll(s.stats, ids, |ids|)
    ensures CanReach(t, id, c) ==> CanReach(s, id, c)
  {
    hide Counted, CanRoute, CanReach;
    var r := FreshNumber(s.requests.Keys);
    assert r !in s.requests.Keys;
    var step := Select(r, ids);
    t := Next(Next(s, step), Begin(r));
    CountedStep(s, step);
    CountedStep(Next(s, step), Begin(r));
    if CanReach(t, id, c) {
      SendFirst(Next(s, step), Begin(r), id, c);
      SendFirst(s, step, id, c);
    }
  }

  /** A route through the worker brings it one more. */
  lemma RoutedReaches(s: System, ids: seq<string>, id: string, c: int)
    requires Counted(s) && CanRoute(s.snapshot, s.stats, ids) && id in ids && Inflight(s.stats, id) >= c
    ensures CanReach(s, id, c)
  {
    hide Counted, CanRoute, CanReach;
    var t := SendOne(s, ids, id, c);
    assert ids == ids[..|ids|];
    BegunAllAdds(s.stats, ids, |ids|, id);
    OccursSome(ids, |ids|, id);
    ReachedAlready(t, id, c);
  }

  /** How many requests the workers of the list lack to have more than c each. */
  function Gap(list: seq<WorkerInfo>, n: nat, stats: Stats, c: int): nat
    requires n <= |list|
  {
    if n == 0 then 0
    else
      var inflight := Inflight(stats, list[n - 1].id);
      Gap(list, n - 1, stats, c) + (if inflight <= c then c + 1 - inflight else 0)
  }

  lemma {:induction false} GapShrinks(list: seq<WorkerInfo>, n: nat, before: Stats, after: Stats, c: int, v: WorkerInfo)
    requires n <= |list| && forall k :: Inflight(after, k) >= Inflight(before, k)
    requires Inflight(before, v.id) <= c && Inflight(after, v.id) > Inflight(before, v.id)
    ensures Gap(list, n, after, c) <= Gap(list, n, before, c)
    ensures v in list[..n] ==> Gap(list, n, after, c) < Gap(list, n, before, c)
  {
    if n > 0 {
      GapShrinks(list, n - 1, before, after, c, v);
      assert list[..n] == list[..n - 1] + [list[n - 1]];
    }
  }

  lemma SentShrinksGap(list: seq<WorkerInfo>, stats: Stats, c: int, ids: seq<string>, best: WorkerInfo)
    requires best in list && best.id in ids && Inflight(stats, best.id) <= c
    ensures Gap(list, |list|, BegunAll(stats, ids, |ids|), c) < Gap(list, |list|, stats, c)
  {
    hide BegunAll, Gap, Inflight;
    forall k
      ensures Inflight(BegunAll(stats, ids, |ids|), k) >= Inflight(stats, k)
    {
      BegunAllAdds(stats, ids, |ids|, k);
    }
    assert ids[..|ids|] == ids && list[..|list|] == list;
    BegunAllAdds(stats, ids, |ids|, best.id);
    OccursSome(ids, |ids|, best.id);
    GapShrinks(list, |list|, stats, BegunAll(stats, ids, |ids|), c, best);
  }

  /** The router sends requests to the less loaded workers of the list until it is this worker's turn. */
  lemma {:induction false} TurnReaches(s: System, group: string, role: Role, id: string, c: int)
    requires Counted(s) && IsUsed(s.snapshot, group, role)
    requires IsInLine(Serving(s.snapshot, group, role), s.stats, id) && id in s.stats && Inflight(s.stats, id) == c
    ensures CanReach(s, id, c)
    decreases Gap(Serving(s.snapshot, group, role), |Serving(s.snapshot, group, role)|, s.stats, c)
  {
    hide Serving, Counted, CanReach, CanRoute, IsUsed, Gap;
    var list := Serving(s.snapshot, group, role);
    var best := BestExists(list, s.stats, if role == Prefill then TTFT else ITL);
    var ids := RouteTo(s.snapshot, s.stats, group, role, best);
    if id in ids {
      RoutedReaches(s, ids, id, c);
    } else {
      BestIsNoBusier(list, s.stats, best, id, if role == Prefill then TTFT else ITL);
      var t := SendOne(s, ids, id, c);
      SentShrinksGap(list, s.stats, c, ids, best);
      InLineStays(list, s.stats, ids, id);
      TurnReaches(t, group, role, id, c);
    }
  }

  /** The one that is chosen before the worker has no more in flight. */
  lemma BestIsNoBusier(list: seq<WorkerInfo>, stats: Stats, best: WorkerInfo, id: string, metric: WorkerStat -> real)
    requires IsBest(best, list, stats, metric) && IsInLine(list, stats, id) && id in stats
    ensures best in list && Inflight(stats, best.id) <= Inflight(stats, id)
  {
    var w :| w in list && w.id == id;
    assert w.id in stats;
  }

  /** Nothing changes for a worker that gets none of the requests. */
  lemma InLineStays(list: seq<WorkerInfo>, stats: Stats, ids: seq<string>, id: string)
    requires IsInLine(list, stats, id) && id in stats && id !in ids
    ensures IsInLine(list, BegunAll(stats, ids, |ids|), id) && id in BegunAll(stats, ids, |ids|)
    ensures Inflight(BegunAll(stats, ids, |ids|), id) == Inflight(stats, id)
  {
    BegunKeeps(stats, ids, |ids|, id);
  }

  lemma {:induction false} BegunKeeps(m: Stats, ids: seq<string>, n: nat, id: string)
    requires n <= |ids| && id in m && id !in ids
    ensures id in BegunAll(m, ids, n) && BegunAll(m, ids, n)[id] == m[id]
  {
    if n > 0 {
      BegunKeeps(m, ids, n - 1, id);
    }
  }

  /** A worker in line gets a request by new requests alone: while others of its list are less loaded, the router turns to
      them, until it is the worker's turn. */
  lemma TurnComes(s: System, id: string)
    requires Counted(s) && IsReachable(s.snapshot, s.stats, id)
    ensures GetsRequest(s, id)
  {
    hide Counted, CanReach, Serving, IsUsed;
    var group, role :| IsUsed(s.snapshot, group, role) && IsInLine(Serving(s.snapshot, group, role), s.stats, id);
    if id in s.stats {
      TurnReaches(s, group, role, id, Inflight(s.stats, id));
    } else {
      var list := Serving(s.snapshot, group, role);
      FirstIsBest(list, s.stats, if role == Prefill then TTFT else ITL);
      var ids := RouteTo(s.snapshot, s.stats, group, role, list[0]);
      RoutedReaches(s, ids, id, Inflight(s.stats, id));
    }
  }

  /** A worker that can get a request is not final. */
  lemma ServedIsNotFinal(s: System, id: string)
    requires Counted(s) && GetsRequest(s, id)
    ensures !ZeroIsFinal(s, id)
  {
    hide Counted, Inflight;
    var run: seq<System>, steps: seq<Step> :|
      IsRun(run, steps) && OnlySends(steps) && run[0] == s && Inflight(run[|steps|].stats, id) > Inflight(s.stats, id);
    assert KeepsMark(steps, id);
    CountIsNonNegative(s, id);
  }

  lemma CountIsNonNegative(s: System, id: string)
    requires Counted(s)
    ensures Inflight(s.stats, id) >= 0
  {
    OccursNonNegative(s.requests, id);
  }

  lemma ReachableIsNotFinal(s: System, id: string)
    requires Counted(s) && IsReachable(s.snapshot, s.stats, id)
    ensures !ZeroIsFinal(s, id)
  {
    hide Counted, ZeroIsFinal, IsReachable, GetsRequest;
    TurnComes(s, id);
    ServedIsNotFinal(s, id);
  }

  lemma FirstIsBest(list: seq<WorkerInfo>, stats: Stats, metric: WorkerStat -> real)
    requires list != [] && forall w :: w in list ==> w.id !in stats
    ensures IsBest(list[0], list, stats, metric)
  {
  }

  // ---------- The exact condition ----------

  /** A zero poll of a marked worker is final if and only if no request has chosen it, counted or not, and it is not in line
      for one, neither in the proxy's snapshot nor in an answer on its way. */
  lemma ZeroIsFinalExactly(s: System, id: string)
    requires Counted(s) && id in s.marked
    ensures ZeroIsFinal(s, id) <==> LoadOn(s, id) == 0 && OutOfReach(s, id)
  {
    if ZeroIsFinal(s, id) {
      FinalHasNoLoad(s, id);
      hide ZeroIsFinal, Counted, IsReachable, LoadOn;
      if IsReachable(s.snapshot, s.stats, id) {
        ReachableIsNotFinal(s, id);
      }
      if s.fetched.Some? && IsReachable(s.fetched.value, s.stats, id) {
        FinalAfter(s, Install, id);
        CountedStep(s, Install);
        ReachableIsNotFinal(Next(s, Install), id);
      }
    }
    if LoadOn(s, id) == 0 && OutOfReach(s, id) {
      AwayIsFinal(s, id);
    }
  }

  lemma FinalHasNoLoad(s: System, id: string)
    requires Counted(s) && ZeroIsFinal(s, id)
    ensures LoadOn(s, id) == 0
  {
    OpenIsPartOfLoad(s, id);
    FinalIsZero(s, id);
    if LoadOn(s, id) > 0 {
      var r := SomeUse(s.requests, id);
      if s.requests[r].Selected? {
        SelectedIsNotFinal(s, r, id);
      } else {
        OpenIsCounted(s, r, id);
      }
    }
  }

  // ---------- Workers that are never chosen ----------

  /** While the router cannot come to choose the worker from any snapshot of the run, by the statistics there were at the
      start, the worker gets no request: statistics come with the first request, and are never dropped. */
  lemma {:induction false} NewWorkerStarves(run: seq<System>, steps: seq<Step>, id: string, j: nat)
    requires IsRun(run, steps) && j < |run| && LoadOn(run[0], id) == 0
    requires forall k :: 0 <= k < |run| ==> !IsReachable(run[k].snapshot, run[0].stats, id)
    ensures LoadOn(run[j], id) == 0 && Grows(run[0].stats, run[j].stats, id)
  {
    hide Enabled, LoadOn, IsReachable;
    if j > 0 {
      NewWorkerStarves(run, steps, id, j - 1);
      var s := run[j - 1];
      StaysOutOfReach(s.snapshot, run[0].stats, s.stats, id);
      StatsGrow(s, steps[j - 1], id);
      StepKeepsNoLoad(s, steps[j - 1], id);
    }
  }

  ghost predicate NoInstall(steps: seq<Step>) {
    forall i :: 0 <= i < |steps| ==> steps[i] != Install
  }

  /** In every run that keeps the snapshot, no request chooses the worker. */
  ghost predicate NeverServed(s: System, id: string) {
    forall run: seq<System>, steps: seq<Step>, j: int :: IsRun(run, steps) && run[0] == s && NoInstall(steps) && 0 <= j < |run|
      ==> LoadOn(run[j], id) == 0
  }

  lemma {:induction false} SnapshotStays(run: seq<System>, steps: seq<Step>, j: nat)
    requires IsRun(run, steps) && NoInstall(steps) && j < |run|
    ensures run[j].snapshot == run[0].snapshot
  {
    hide Enabled;
    if j > 0 {
      SnapshotStays(run, steps, j - 1);
      assert steps[j - 1] != Install;
    }
  }

  lemma UnreachableIsNeverServed(s: System, id: string)
    requires LoadOn(s, id) == 0 && !IsReachable(s.snapshot, s.stats, id)
    ensures NeverServed(s, id)
  {
    hide LoadOn, IsReachable, NoInstall;
    forall run: seq<System>, steps: seq<Step>, j: int | IsRun(run, steps) && run[0] == s && NoInstall(steps) && 0 <= j < |run|
      ensures LoadOn(run[j], id) == 0
    {
      forall k | 0 <= k < |run|
        ensures !IsReachable(run[k].snapshot, run[0].stats, id)
      {
        SnapshotStays(run, steps, k);
      }
      NewWorkerStarves(run, steps, id, j);
    }
  }

  /** While the snapshot stays, a worker without requests never gets one if and only if it is not in line in any list that
      requests use: there it has no statistics, and another worker has some or comes first. */
  lemma NeverServedExactly(s: System, id: string)
    requires Counted(s) && LoadOn(s, id) == 0
    ensures NeverServed(s, id) <==> !IsReachable(s.snapshot, s.stats, id)
  {
    hide Counted, LoadOn, IsReachable, NeverServed, GetsRequest;
    if IsReachable(s.snapshot, s.stats, id) {
      TurnComes(s, id);
      RequestIsLoad(s, id);
    } else {
      UnreachableIsNeverServed(s, id);
    }
  }

  lemma RequestIsLoad(s: System, id: string)
    requires Counted(s) && GetsRequest(s, id)
    ensures !NeverServed(s, id)
  {
    hide Counted, Inflight, LoadOn;
    var run: seq<System>, steps: seq<Step> :|
      IsRun(run, steps) && OnlySends(steps) && run[0] == s && Inflight(run[|steps|].stats, id) > Inflight(s.stats, id);
    assert NoInstall(steps);
    CountIsNonNegative(s, id);
    CountersAreExact(run, steps, |steps|);
    CountIsLoad(run[|steps|], id);
  }

  lemma CountIsLoad(s: System, id: string)
    requires Counted(s)
    ensures Inflight(s.stats, id) <= LoadOn(s, id)
  {
    OpenIsPartOfLoad(s, id);
  }

  // ---------- Two workers ----------

  function UnifiedWorker(id: string): WorkerInfo {
    WorkerInfo(id, Unified, Ready, true, true, "e", "g")
  }

  const TWO := [UnifiedWorker("A"), UnifiedWorker("B")]

  /** A serves a request and has statistics, B is idle and has none. */
  const BUSY := System({}, TWO, None, map["A" := WorkerStat("A", 1, 0.0, 0.0)], map[0 := Open(["A"])])

  /** Both are new. */
  const FRESH := System({}, TWO, None, map[], map[])

  lemma ServingTwo(group: string, role: Role)
    ensures Serving(TWO, group, role) == if group == "g" && role == Unified then TWO else []
  {
    assert ServingUpTo(TWO, 0, group, role) == [];
    assert ServingUpTo(TWO, 1, group, role) == if group == "g" && role == Unified then [TWO[0]] else [];
  }

  lemma OnlyTheFirst(stats: Stats)
    requires "B" !in stats
    ensures IsReachable(TWO, stats, "A") && !IsReachable(TWO, stats, "B")
  {
    hide Serving;
    forall group, role
      ensures !IsInLine(Serving(TWO, group, role), stats, "B")
      ensures group == "g" && role == Unified ==> IsInLine(Serving(TWO, group, role), stats, "A")
    {
      ServingTwo(group, role);
      assert TWO[0].id == "A" && TWO[0] in TWO;
    }
    assert IsUsed(TWO, "g", Unified) && IsInLine(Serving(TWO, "g", Unified), stats, "A");
  }

  lemma BusyIsCounted()
    ensures Counted(BUSY) && LoadOn(BUSY, "B") == 0
  {
    forall id
      ensures Inflight(BUSY.stats, id) == OpenOn(BUSY, id)
      ensures id == "B" ==> LoadOn(BUSY, id) == 0
    {
      assert Occurs(["A"], 0, id) == 0;
      assert BUSY.requests - {0} == map[];
      OpenRemove(BUSY.requests, 0, id);
      UseRemove(BUSY.requests, 0, id);
      assert OpenCounts(map[], id) == map[] && UseCounts(map[], id) == map[];
    }
  }

  lemma FreshIsCounted()
    ensures Counted(FRESH) && LoadOn(FRESH, "B") == 0
  {
    forall id
      ensures Inflight(FRESH.stats, id) == OpenOn(FRESH, id)
      ensures LoadOn(FRESH, id) == 0
    {
      assert OpenCounts(map[], id) == map[] && UseCounts(map[], id) == map[];
    }
  }

  /** While the snapshot stays, the idle worker B never gets a request, and A always can: whether A is busy and has
      statistics, or both are new. */
  lemma SecondWorkerStarves(s: System)
    requires s == BUSY || s == FRESH
    ensures NeverServed(s, "B") && GetsRequest(s, "A")
  {
    hide NeverServed, GetsRequest, Counted, LoadOn, IsReachable;
    BusyIsCounted();
    FreshIsCounted();
    OnlyTheFirst(s.stats);
    NeverServedExactly(s, "B");
    TurnComes(s, "A");
  }
}
