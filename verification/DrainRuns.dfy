/** Draining under every interleaving of request, sync, mark and poll steps. */
module DrainRuns {
  import opened Collections
  import opened ControlPlane
  import opened Router
  import opened Drain

  /** Selected: chosen under the read lock, not yet counted. Open: counted, not yet ended. */
  datatype Request = Selected(ids: seq<string>) | Open(ids: seq<string>)

  /** marked: pods with the draining annotation; snapshot: the proxy's workers; fetched: an answer of the scheduler
      that the proxy has not installed yet. */
  datatype System = System(marked: set<string>, snapshot: seq<WorkerInfo>, fetched: Option<seq<WorkerInfo>>,
                           stats: Stats, requests: map<nat, Request>)

  datatype Step =
    | Select(r: nat, ids: seq<string>)
    | Begin(r: nat)
    | Abort(r: nat)
    | End(r: nat)
    | Record(r: nat, id: string, phase: Phase, duration: real)
    | Fetch(workers: seq<WorkerInfo>)
    | Install
    | FetchLost
    | MarkDraining(id: string)
    | ClearDraining(id: string)

  function RouteIDs(r: RequestWorker): seq<string> {
    match r
    case ToUnified(u) => [u.id]
    case ToPair(p, d) => [p.id, d.id]
  }

  /** The router may send a request of some group to exactly these workers; the pressure reports may say anything. */
  ghost predicate CanRoute(workers: seq<WorkerInfo>, stats: Stats, ids: seq<string>) {
    exists group, reports, r :: IsAnswer(workers, group, stats, reports, r) && ids == RouteIDs(r)
  }

  /** Some list of serving workers holds this worker. */
  ghost predicate IsOffered(workers: seq<WorkerInfo>, id: string) {
    exists group, role, w :: w in Serving(workers, group, role) && w.id == id
  }

  lemma RoutedIsOffered(workers: seq<WorkerInfo>, stats: Stats, ids: seq<string>, id: string)
    requires CanRoute(workers, stats, ids) && id in ids
    ensures IsOffered(workers, id)
  {
    hide Serving, IsBestRoute, HasPair;
    var group, reports, r :| IsAnswer(workers, group, stats, reports, r) && ids == RouteIDs(r);
    match r
    case ToUnified(u) => assert u in Serving(workers, group, Unified) && u.id == id;
    case ToPair(p, d) => assert p in Serving(workers, group, Prefill) && d in Serving(workers, group, Decode);
  }

  /** The scheduler lists a marked worker as draining and not routable, or not at all. */
  predicate Lists(marked: set<string>, workers: seq<WorkerInfo>) {
    forall i :: 0 <= i < |workers| && workers[i].id in marked ==> workers[i].state == Draining && !workers[i].routable
  }

  ghost predicate Enabled(s: System, step: Step) {
    match step
    case Select(r, ids) => r !in s.requests && CanRoute(s.snapshot, s.stats, ids)
    case Begin(r) => r in s.requests && s.requests[r].Selected?
    case Abort(r) => r in s.requests && s.requests[r].Selected?
    case End(r) => r in s.requests && s.requests[r].Open?
    case Record(r, id, _, _) => r in s.requests && s.requests[r].Open? && id in s.requests[r].ids
    case Fetch(workers) => s.fetched.None? && Lists(s.marked, workers)
    case Install => s.fetched.Some?
    case _ => true
  }

  function Next(s: System, step: Step): System {
    match step
    case Select(r, ids) => s.(requests := s.requests[r := Selected(ids)])
    case Begin(r) =>
      if r !in s.requests then s
      else
        var ids := s.requests[r].ids;
        s.(requests := s.requests[r := Open(ids)], stats := BegunAll(s.stats, ids, |ids|))
    case Abort(r) => s.(requests := s.requests - {r})
    case End(r) =>
      if r !in s.requests then s
      else
        var ids := s.requests[r].ids;
        s.(requests := s.requests - {r}, stats := EndedAll(s.stats, ids, |ids|))
    case Record(_, id, phase, duration) => s.(stats := Recorded(s.stats, id, phase, duration))
    case Fetch(workers) => s.(fetched := Some(workers))
    case Install => if s.fetched.None? then s else s.(snapshot := s.fetched.value, fetched := None)
    case FetchLost => s.(fetched := None)
    case MarkDraining(id) => s.(marked := s.marked + {id})
    case ClearDraining(id) => s.(marked := s.marked - {id})
  }

  // ---------- Counting requests ----------

  /** How often a worker occurs among the first n of the ids. */
  function Occurs(ids: seq<string>, n: nat, id: string): nat
    requires n <= |ids|
  {
    if n == 0 then 0 else Occurs(ids, n - 1, id) + (if ids[n - 1] == id then 1 else 0)
  }

  function OpenOf(q: Request, id: string): nat {
    if q.Open? then Occurs(q.ids, |q.ids|, id) else 0
  }

  function UseOf(q: Request, id: string): nat {
    Occurs(q.ids, |q.ids|, id)
  }

  ghost function OpenCounts(requests: map<nat, Request>, id: string): map<nat, int> {
    map r | r in requests :: OpenOf(requests[r], id)
  }

  ghost function UseCounts(requests: map<nat, Request>, id: string): map<nat, int> {
    map r | r in requests :: UseOf(requests[r], id)
  }

  /** Open requests on the worker. */
  ghost function OpenOn(s: System, id: string): int {
    SumMap(OpenCounts(s.requests, id))
  }

  /** Requests on the worker, open or selected but not yet counted. */
  ghost function LoadOn(s: System, id: string): int {
    SumMap(UseCounts(s.requests, id))
  }

  lemma OpenPut(requests: map<nat, Request>, r: nat, q: Request, id: string)
    ensures SumMap(OpenCounts(requests[r := q], id))
         == SumMap(OpenCounts(requests, id)) - (if r in requests then OpenOf(requests[r], id) else 0) + OpenOf(q, id)
  {
    assert OpenCounts(requests[r := q], id) == OpenCounts(requests, id)[r := OpenOf(q, id)];
    SumMapPut(OpenCounts(requests, id), r, OpenOf(q, id));
  }

  lemma OpenRemove(requests: map<nat, Request>, r: nat, id: string)
    requires r in requests
    ensures SumMap(OpenCounts(requests - {r}, id)) == SumMap(OpenCounts(requests, id)) - OpenOf(requests[r], id)
  {
    assert OpenCounts(requests - {r}, id) == OpenCounts(requests, id) - {r};
    SumMapRemove(OpenCounts(requests, id), r);
  }

  lemma UsePut(requests: map<nat, Request>, r: nat, q: Request, id: string)
    ensures SumMap(UseCounts(requests[r := q], id))
         == SumMap(UseCounts(requests, id)) - (if r in requests then UseOf(requests[r], id) else 0) + UseOf(q, id)
  {
    assert UseCounts(requests[r := q], id) == UseCounts(requests, id)[r := UseOf(q, id)];
    SumMapPut(UseCounts(requests, id), r, UseOf(q, id));
  }

  lemma UseRemove(requests: map<nat, Request>, r: nat, id: string)
    requires r in requests
    ensures SumMap(UseCounts(requests - {r}, id)) == SumMap(UseCounts(requests, id)) - UseOf(requests[r], id)
  {
    assert UseCounts(requests - {r}, id) == UseCounts(requests, id) - {r};
    SumMapRemove(UseCounts(requests, id), r);
  }

  // ---------- The counters count the open requests ----------

  lemma {:induction false} BegunAllAdds(m: Stats, ids: seq<string>, n: nat, id: string)
    requires n <= |ids|
    ensures Inflight(BegunAll(m, ids, n), id) == Inflight(m, id) + Occurs(ids, n, id)
  {
    if n > 0 {
      BegunAllAdds(m, ids, n - 1, id);
    }
  }

  /** While the counters cover the ids that remain, ending subtracts exactly. */
  lemma {:induction false} EndedAllSubtracts(m: Stats, ids: seq<string>, n: nat, id: string)
    requires n <= |ids| && Inflight(m, id) >= Occurs(ids, n, id)
    ensures Inflight(EndedAll(m, ids, n), id) == Inflight(m, id) - Occurs(ids, n, id)
  {
    if n > 0 {
      EndedAllSubtracts(m, ids, n - 1, id);
    }
  }

  /** Every worker's counter is the number of open requests on it. */
  ghost predicate Counted(s: System) {
    forall id :: Inflight(s.stats, id) == OpenOn(s, id)
  }

  lemma {:induction false} OccursNonNegative(requests: map<nat, Request>, id: string)
    ensures SumMap(OpenCounts(requests, id)) >= 0 && SumMap(UseCounts(requests, id)) >= 0
  {
    SumMapNonNegative(OpenCounts(requests, id));
    SumMapNonNegative(UseCounts(requests, id));
  }

  lemma StepCounts(s: System, step: Step, id: string)
    requires Enabled(s, step) && Inflight(s.stats, id) == OpenOn(s, id)
    ensures Inflight(Next(s, step).stats, id) == OpenOn(Next(s, step), id)
  {
    match step
    case Select(r, ids) => OpenPut(s.requests, r, Selected(ids), id);
    case Begin(r) =>
      OpenPut(s.requests, r, Open(s.requests[r].ids), id);
      BegunAllAdds(s.stats, s.requests[r].ids, |s.requests[r].ids|, id);
    case Abort(r) => OpenRemove(s.requests, r, id);
    case End(r) =>
      OpenRemove(s.requests, r, id);
      OccursNonNegative(s.requests - {r}, id);
      EndedAllSubtracts(s.stats, s.requests[r].ids, |s.requests[r].ids|, id);
    case _ =>
  }

  /** The "nothing in flight" guard of endWorkerRequest never fires: each end finds a positive counter. */
  lemma GuardNeverFires(s: System, r: nat, k: nat)
    requires Counted(s) && r in s.requests && s.requests[r].Open? && k < |s.requests[r].ids|
    ensures Inflight(EndedAll(s.stats, s.requests[r].ids, k), s.requests[r].ids[k]) > 0
  {
    var ids := s.requests[r].ids;
    var id := ids[k];
    OpenRemove(s.requests, r, id);
    OccursNonNegative(s.requests - {r}, id);
    OccursGrows(ids, k + 1, |ids|, id);
    EndedAllSubtracts(s.stats, ids, k, id);
  }

  lemma {:induction false} OccursGrows(ids: seq<string>, k: nat, n: nat, id: string)
    requires k <= n <= |ids|
    ensures Occurs(ids, k, id) <= Occurs(ids, n, id)
    decreases n
  {
    if k < n {
      OccursGrows(ids, k, n - 1, id);
    }
  }

  // ---------- Runs ----------

  ghost predicate IsRun(run: seq<System>, steps: seq<Step>) {
    && |run| == |steps| + 1
    && forall i :: 0 <= i < |steps| ==> Enabled(run[i], steps[i]) && run[i + 1] == Next(run[i], steps[i])
  }

  lemma CountedStep(s: System, step: Step)
    requires Counted(s) && Enabled(s, step)
    ensures Counted(Next(s, step))
  {
    forall id
      ensures Inflight(Next(s, step).stats, id) == OpenOn(Next(s, step), id)
    {
      StepCounts(s, step, id);
    }
  }

  /** Over every run, the counters count the open requests. */
  lemma {:induction false} CountersAreExact(run: seq<System>, steps: seq<Step>, i: nat)
    requires IsRun(run, steps) && Counted(run[0]) && i < |run|
    ensures Counted(run[i])
  {
    if i > 0 {
      CountersAreExact(run, steps, i - 1);
      CountedStep(run[i - 1], steps[i - 1]);
    }
  }

  // ---------- Draining ----------

  /** Neither the proxy's snapshot nor an answer on its way offers the worker. */
  ghost predicate Closed(s: System, id: string) {
    && !IsOffered(s.snapshot, id)
    && (s.fetched.Some? ==> !IsOffered(s.fetched.value, id))
  }

  ghost predicate HasReady(workers: seq<WorkerInfo>, id: string) {
    exists i :: 0 <= i < |workers| && workers[i].id == id && workers[i].state == Ready
  }

  lemma ServingIsReady(workers: seq<WorkerInfo>, group: string, role: Role, w: WorkerInfo)
    requires w in Serving(workers, group, role)
    ensures HasReady(workers, w.id)
  {
    ServingMembers(workers, |workers|, group, role, w);
    hide ServingUpTo;
    var i :| 0 <= i < |workers| && workers[i] == w;
  }

  /** A list that shows the worker as draining does not offer it. */
  lemma ListedDrainingIsClosed(marked: set<string>, workers: seq<WorkerInfo>, id: string)
    requires Lists(marked, workers) && id in marked
    ensures !IsOffered(workers, id)
  {
    hide Serving;
    if IsOffered(workers, id) {
      var group, role, w :| w in Serving(workers, group, role) && w.id == id;
      ServingIsReady(workers, group, role, w);
    }
  }

  /** One step while the mark stays: a closed worker stays closed and gains no request. */
  lemma StepKeepsClosed(s: System, step: Step, id: string)
    requires Enabled(s, step) && Closed(s, id) && id in s.marked
    ensures Closed(Next(s, step), id)
    ensures LoadOn(Next(s, step), id) <= LoadOn(s, id)
  {
    match step
    case Select(r, ids) =>
      if id in ids {
        RoutedIsOffered(s.snapshot, s.stats, ids, id);
      }
      NeverOccurs(ids, |ids|, id);
      UsePut(s.requests, r, Selected(ids), id);
    case Begin(r) => UsePut(s.requests, r, Open(s.requests[r].ids), id);
    case Abort(r) => UseRemove(s.requests, r, id);
    case End(r) => UseRemove(s.requests, r, id);
    case Fetch(workers) => ListedDrainingIsClosed(s.marked, workers, id);
    case _ =>
  }

  lemma {:induction false} NeverOccurs(ids: seq<string>, n: nat, id: string)
    requires n <= |ids| && id !in ids
    ensures Occurs(ids, n, id) == 0
  {
    if n > 0 {
      NeverOccurs(ids, n - 1, id);
    }
  }

  ghost predicate KeepsMark(steps: seq<Step>, id: string) {
    forall i :: 0 <= i < |steps| ==> steps[i] != ClearDraining(id)
  }

  /** Once the proxy has synced a snapshot without the worker, the requests on it never rise while the mark stays. */
  lemma {:induction false} LoadNeverRises(run: seq<System>, steps: seq<Step>, id: string, i: nat, j: nat)
    requires IsRun(run, steps) && KeepsMark(steps, id) && i <= j < |run|
    requires id in run[i].marked && Closed(run[i], id)
    ensures id in run[j].marked && Closed(run[j], id)
    ensures LoadOn(run[j], id) <= LoadOn(run[i], id)
    decreases j
  {
    hide Enabled, Closed, LoadOn;
    if i < j {
      LoadNeverRises(run, steps, id, i, j - 1);
      assert steps[j - 1] != ClearDraining(id);
      StepKeepsClosed(run[j - 1], steps[j - 1], id);
    }
  }

  /** The first install of an answer fetched after the mark closes the worker. */
  lemma SyncCloses(s: System, workers: seq<WorkerInfo>, id: string)
    requires id in s.marked && s.fetched.None? && Lists(s.marked, workers)
    ensures Closed(Next(Next(s, Fetch(workers)), Install), id)
  {
    ListedDrainingIsClosed(s.marked, workers, id);
  }

  // ---------- When a zero poll is final ----------

  /** From s on, in every run that keeps the mark, no poll ever shows the worker busy. */
  ghost predicate ZeroIsFinal(s: System, id: string) {
    forall run: seq<System>, steps: seq<Step>, j: int :: IsRun(run, steps) && run[0] == s && KeepsMark(steps, id) && 0 <= j < |run|
      ==> Inflight(run[j].stats, id) == 0
  }

  lemma OpenIsPartOfLoad(s: System, id: string)
    ensures 0 <= OpenOn(s, id) <= LoadOn(s, id)
  {
    OccursNonNegative(s.requests, id);
    OpenBelowUse(s.requests, id);
  }

  lemma {:induction false} OpenBelowUse(requests: map<nat, Request>, id: string)
    ensures SumMap(OpenCounts(requests, id)) <= SumMap(UseCounts(requests, id))
    decreases |requests|
  {
    if requests == map[] {
      assert OpenCounts(requests, id) == map[] && UseCounts(requests, id) == map[];
    } else {
      var r :| r in requests;
      OpenBelowUse(requests - {r}, id);
      OpenRemove(requests, r, id);
      UseRemove(requests, r, id);
    }
  }

  lemma FinalIsZero(s: System, id: string)
    requires ZeroIsFinal(s, id)
    ensures Inflight(s.stats, id) == 0
  {
    var run, steps: seq<Step> := [s], [];
    assert IsRun(run, steps) && KeepsMark(steps, id);
    assert run[0] == s;
  }

  lemma Prepend(s: System, step: Step, run: seq<System>, steps: seq<Step>, id: string)
    requires IsRun(run, steps) && KeepsMark(steps, id) && Enabled(s, step) && run[0] == Next(s, step) && step != ClearDraining(id)
    ensures IsRun([s] + run, [step] + steps) && KeepsMark([step] + steps, id)
  {
    hide Enabled, Next;
  }

  lemma FinalAfter(s: System, step: Step, id: string)
    requires ZeroIsFinal(s, id) && Enabled(s, step) && step != ClearDraining(id)
    ensures ZeroIsFinal(Next(s, step), id)
  {
    hide Enabled, Next, KeepsMark, Inflight;
    forall run: seq<System>, steps: seq<Step>, j: int
      | IsRun(run, steps) && run[0] == Next(s, step) && KeepsMark(steps, id) && 0 <= j < |run|
      ensures Inflight(run[j].stats, id) == 0
    {
      Prepend(s, step, run, steps, id);
      assert ([s] + run)[0] == s && ([s] + run)[j + 1] == run[j];
    }
  }

  lemma {:induction false} OccursSome(ids: seq<string>, n: nat, id: string)
    requires n <= |ids| && id in ids[..n]
    ensures Occurs(ids, n, id) > 0
  {
    if ids[n - 1] != id {
      assert ids[..n] == ids[..n - 1] + [ids[n - 1]];
      OccursSome(ids, n - 1, id);
    }
  }

  /** A selected request is about to be counted, so its worker is not final. */
  lemma SelectedIsNotFinal(s: System, r: nat, id: string)
    requires Counted(s) && r in s.requests && s.requests[r].Selected? && UseOf(s.requests[r], id) > 0
    ensures !ZeroIsFinal(s, id)
  {
    if ZeroIsFinal(s, id) {
      FinalIsZero(s, id);
      FinalAfter(s, Begin(r), id);
      FinalIsZero(Next(s, Begin(r)), id);
      BegunAllAdds(s.stats, s.requests[r].ids, |s.requests[r].ids|, id);
    }
  }

  lemma OpenIsCounted(s: System, r: nat, id: string)
    requires Counted(s) && r in s.requests && s.requests[r].Open? && UseOf(s.requests[r], id) > 0
    ensures Inflight(s.stats, id) > 0
  {
    OpenRemove(s.requests, r, id);
    OccursNonNegative(s.requests - {r}, id);
  }

  lemma {:induction false} SomeUse(requests: map<nat, Request>, id: string) returns (r: nat)
    requires SumMap(UseCounts(requests, id)) > 0
    ensures r in requests && UseOf(requests[r], id) > 0
    decreases |requests|
  {
    assert UseCounts(map[], id) == map[];
    r :| r in requests;
    if UseOf(requests[r], id) == 0 {
      UseRemove(requests, r, id);
      r := SomeUse(requests - {r}, id);
    }
  }

  lemma {:induction false} FreshNumber(used: set<nat>) returns (r: nat)
    ensures forall k :: k in used ==> k < r
    decreases |used|
  {
    if used == {} {
      r := 0;
    } else {
      var k :| k in used;
      var r' := FreshNumber(used - {k});
      r := if k < r' then r' else k + 1;
      assert used == (used - {k}) + {k};
    }
  }
}
