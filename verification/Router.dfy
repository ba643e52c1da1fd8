/** internal/proxy/router.go: choosing the workers for a request. */
module Router {
  import opened Collections
  import opened ControlPlane

  type Stats = map<string, WorkerStat>

  datatype RequestWorker = ToUnified(unified: WorkerInfo) | ToPair(prefill: WorkerInfo, decode: WorkerInfo)

  /** The worker may serve a request of this group. */
  predicate Serves(w: WorkerInfo, group: string) {
    && w.modelGroup == group && w.role != Unknown && w.state == Ready && w.routable && w.endpoint != ""
    && (w.gpu2gpu || (w.role != Prefill && w.role != Decode))
  }

  /** The workers of one role that serve the group, among the first n. */
  function ServingUpTo(workers: seq<WorkerInfo>, n: nat, group: string, role: Role): seq<WorkerInfo>
    requires n <= |workers|
  {
    if n == 0 then []
    else
      ServingUpTo(workers, n - 1, group, role)
        + (if Serves(workers[n - 1], group) && workers[n - 1].role == role then [workers[n - 1]] else [])
  }

  lemma {:induction false} ServingMembers(workers: seq<WorkerInfo>, n: nat, group: string, role: Role, w: WorkerInfo)
    requires n <= |workers|
    ensures w in ServingUpTo(workers, n, group, role) <==> w in workers[..n] && Serves(w, group) && w.role == role
  {
    if n > 0 {
      ServingMembers(workers, n - 1, group, role, w);
      assert workers[..n] == workers[..n - 1] + [workers[n - 1]];
    }
  }

  function Serving(workers: seq<WorkerInfo>, group: string, role: Role): seq<WorkerInfo> {
    ServingUpTo(workers, |workers|, group, role)
  }

  /** Fewer requests in flight, and between equals the lower metric. */
  predicate LessLoaded(a: WorkerStat, b: WorkerStat, metric: WorkerStat -> real) {
    a.inflight < b.inflight || (a.inflight == b.inflight && metric(a) < metric(b))
  }

  function ShouldReplace(best: Option<WorkerStat>, candidate: Option<WorkerStat>, metric: WorkerStat -> real): bool {
    candidate.Some? && (best.None? || LessLoaded(candidate.value, best.value, metric))
  }

  function StatOf(stats: Stats, w: WorkerInfo): Option<WorkerStat> {
    if w.id in stats then Some(stats[w.id]) else None
  }

  const TTFT: WorkerStat -> real := (s: WorkerStat) => s.ttft
  const ITL: WorkerStat -> real := (s: WorkerStat) => s.itl

  /** The choice among workers of one kind. A worker without statistics is chosen only when none has any, however busy
      the others are; otherwise no worker with statistics is less loaded. */
  ghost predicate IsBest(best: WorkerInfo, workers: seq<WorkerInfo>, stats: Stats, metric: WorkerStat -> real) {
    && best in workers
    && (best.id !in stats <==> forall w :: w in workers ==> w.id !in stats)
    && (best.id !in stats ==> best == workers[0])
    && (best.id in stats ==> forall w :: w in workers && w.id in stats ==> !LessLoaded(stats[w.id], stats[best.id], metric))
  }

  /** Every non-empty list has a best worker. */
  lemma {:induction false} BestExists(workers: seq<WorkerInfo>, stats: Stats, metric: WorkerStat -> real) returns (best: WorkerInfo)
    requires workers != []
    ensures IsBest(best, workers, stats, metric)
  {
    if |workers| == 1 {
      best := workers[0];
    } else {
      var init, last := workers[..|workers| - 1], workers[|workers| - 1];
      assert workers == init + [last];
      best := BestExists(init, stats, metric);
      if ShouldReplace(StatOf(stats, best), StatOf(stats, last), metric) {
        best := last;
      }
    }
  }

  method FindBest(workers: seq<WorkerInfo>, stats: Stats, metric: WorkerStat -> real) returns (best: WorkerInfo)
    requires workers != []
    ensures IsBest(best, workers, stats, metric)
  {
    best := workers[0];
    var bestStats := StatOf(stats, best);
    for i := 0 to |workers|
      invariant best in workers && bestStats == StatOf(stats, best)
      invariant bestStats.None? ==> best == workers[0] && forall j :: 0 <= j < i ==> workers[j].id !in stats
      invariant bestStats.Some? ==>
                  forall j :: 0 <= j < i && workers[j].id in stats ==> !LessLoaded(stats[workers[j].id], bestStats.value, metric)
    {
      var candidate := StatOf(stats, workers[i]);
      if ShouldReplace(bestStats, candidate, metric) {
        best := workers[i];
        bestStats := candidate;
      }
    }
  }

  predicate IsHot(reports: map<string, PressureReport>, group: string) {
    group in reports && reports[group].state in {PrefillHot, DecodeHot}
  }

  /** Workers a request of the group may be sent to, together. */
  ghost predicate IsRoute(workers: seq<WorkerInfo>, group: string, r: RequestWorker) {
    match r
    case ToUnified(u) => u in Serving(workers, group, Unified)
    case ToPair(p, d) => p in Serving(workers, group, Prefill) && d in Serving(workers, group, Decode)
  }

  ghost predicate HasPair(workers: seq<WorkerInfo>, group: string) {
    Serving(workers, group, Prefill) != [] && Serving(workers, group, Decode) != []
  }

  /** Each worker of the route is the least loaded of its role, by its own phase metric. */
  ghost predicate IsBestRoute(workers: seq<WorkerInfo>, group: string, stats: Stats, r: RequestWorker) {
    match r
    case ToUnified(u) => IsBest(u, Serving(workers, group, Unified), stats, ITL)
    case ToPair(p, d) =>
      && IsBest(p, Serving(workers, group, Prefill), stats, TTFT)
      && IsBest(d, Serving(workers, group, Decode), stats, ITL)
  }

  /** What the router may answer. */
  ghost predicate IsAnswer(workers: seq<WorkerInfo>, group: string, stats: Stats, reports: map<string, PressureReport>, r: RequestWorker) {
    && IsRoute(workers, group, r) && IsBestRoute(workers, group, stats, r)
    && (r.ToPair? <==> HasPair(workers, group) && (Serving(workers, group, Unified) == [] || IsHot(reports, group)))
  }

  /** A route exists exactly when some worker or pair can serve the group; a pair is used when there is no unified
      worker or the group is hot. */
  method FindRequestWorker(group: string, workers: seq<WorkerInfo>, stats: Stats, reports: map<string, PressureReport>)
    returns (r: Option<RequestWorker>)
    ensures r.Some? <==> HasPair(workers, group) || Serving(workers, group, Unified) != []
    ensures r.Some? ==> IsAnswer(workers, group, stats, reports, r.value)
  {
    var unified: seq<WorkerInfo>, prefill: seq<WorkerInfo>, decode: seq<WorkerInfo> := [], [], [];
    for i := 0 to |workers|
      invariant unified == ServingUpTo(workers, i, group, Unified)
      invariant prefill == ServingUpTo(workers, i, group, Prefill)
      invariant decode == ServingUpTo(workers, i, group, Decode)
    {
      if !Serves(workers[i], group) {
        continue;
      }
      match workers[i].role
      case Unified => unified := unified + [workers[i]];
      case Prefill => prefill := prefill + [workers[i]];
      case Decode => decode := decode + [workers[i]];
      case Unknown =>
    }
    hide ServingUpTo;
    if prefill != [] && decode != [] && (unified == [] || IsHot(reports, group)) {
      var bestPrefill := FindBest(prefill, stats, TTFT);
      var bestDecode := FindBest(decode, stats, ITL);
      return Some(ToPair(bestPrefill, bestDecode));
    }
    if unified != [] {
      var bestUnified := FindBest(unified, stats, ITL);
      return Some(ToUnified(bestUnified));
    }
    return None;
  }

  // ---------- What an answer means ----------

  /** The worker serves this role of the group. */
  ghost predicate Offers(workers: seq<WorkerInfo>, group: string, role: Role, w: WorkerInfo) {
    && w in workers && w.role == role && role != Unknown && w.modelGroup == group
    && w.state == Ready && w.routable && w.endpoint != "" && (role in {Prefill, Decode} ==> w.gpu2gpu)
  }

  /** The chosen worker serves the role, and no worker of the role that has statistics carries fewer requests, or as many
      with less latency; latency is what this role is measured by. */
  ghost predicate LeastLoaded(workers: seq<WorkerInfo>, group: string, role: Role, stats: Stats, chosen: WorkerInfo,
                              latency: WorkerStat -> real)
  {
    && Offers(workers, group, role, chosen)
    && forall w :: Offers(workers, group, role, w) && w.id in stats ==>
         (chosen.id in stats
          && (stats[chosen.id].inflight < stats[w.id].inflight
              || (stats[chosen.id].inflight == stats[w.id].inflight && latency(stats[chosen.id]) <= latency(stats[w.id]))))
  }

  lemma ServingOffers(workers: seq<WorkerInfo>, group: string, role: Role, w: WorkerInfo)
    ensures w in Serving(workers, group, role) <==> Offers(workers, group, role, w)
  {
    ServingMembers(workers, |workers|, group, role, w);
    assert workers[..|workers|] == workers;
  }

  lemma BestIsLeastLoaded(workers: seq<WorkerInfo>, group: string, role: Role, stats: Stats, best: WorkerInfo, metric: WorkerStat -> real)
    requires IsBest(best, Serving(workers, group, role), stats, metric)
    ensures LeastLoaded(workers, group, role, stats, best, metric)
  {
    hide Serving, Offers;
    forall w
      ensures w in Serving(workers, group, role) <==> Offers(workers, group, role, w)
    {
      ServingOffers(workers, group, role, w);
    }
  }

  /** An answer names a unified worker, least loaded by time between tokens, or a prefill and a decode worker, least loaded
      by time to the first token and by time between tokens. It is a pair exactly when both roles are served and the group
      is hot or has no unified worker. */
  lemma AnswerMeans(workers: seq<WorkerInfo>, group: string, stats: Stats, reports: map<string, PressureReport>, r: RequestWorker)
    requires IsAnswer(workers, group, stats, reports, r)
    ensures r.ToUnified? ==> LeastLoaded(workers, group, Unified, stats, r.unified, (s: WorkerStat) => s.itl)
    ensures r.ToPair? ==> LeastLoaded(workers, group, Prefill, stats, r.prefill, (s: WorkerStat) => s.ttft)
    ensures r.ToPair? ==> LeastLoaded(workers, group, Decode, stats, r.decode, (s: WorkerStat) => s.itl)
    ensures r.ToPair? <==> && (exists p :: Offers(workers, group, Prefill, p)) && (exists d :: Offers(workers, group, Decode, d))
                           && ((group in reports && (reports[group].state == PrefillHot || reports[group].state == DecodeHot))
                               || forall u :: !Offers(workers, group, Unified, u))
  {
    RolesAreServed(workers, group, Prefill);
    RolesAreServed(workers, group, Decode);
    RolesAreServed(workers, group, Unified);
    match r {
      case ToUnified(u) => BestIsLeastLoaded(workers, group, Unified, stats, u, ITL);
      case ToPair(p, d) =>
        BestIsLeastLoaded(workers, group, Prefill, stats, p, TTFT);
        BestIsLeastLoaded(workers, group, Decode, stats, d, ITL);
    }
    hide Serving, Offers, IsBest;
  }

  lemma RolesAreServed(workers: seq<WorkerInfo>, group: string, role: Role)
    ensures Serving(workers, group, role) != [] <==> exists w :: Offers(workers, group, role, w)
  {
    hide Serving, Offers;
    forall w
      ensures w in Serving(workers, group, role) <==> Offers(workers, group, role, w)
    {
      ServingOffers(workers, group, role, w);
    }
    if Serving(workers, group, role) != [] {
      assert Serving(workers, group, role)[0] in Serving(workers, group, role);
    }
  }
}
