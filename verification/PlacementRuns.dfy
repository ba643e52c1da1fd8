/** Whole runs of reports, stale-node removals, releases, one-pod placements and gang commits on the registry:
    reservations stay within capacity and GPUs without MPS stay exclusive. */
module PlacementRuns {
  import opened Collections
  import opened Types
  import opened Strategy
  import opened Pods
  import opened ControlPlane
  import opened Ledger
  import opened LedgerRuns
  import opened GangPlanner
  import opened GangSafety
  import opened Commit
  import opened W = Watcher
  import R = Registry
  import A = Allocator
  import D = Disagg

  /** The machines: total memory and MPS mode of every GPU, fixed for the run. */
  datatype Hardware = Hardware(total: (string, string) -> nat, mps: (string, string) -> bool)

  /** A report of node n agrees with the hardware, claims no more free memory than there is, and names GPUs apart. */
  ghost predicate ReportOK(n: string, gpus: seq<GPUInfo>, hw: Hardware) {
    && (forall i :: 0 <= i < |gpus| ==> gpus[i].totalMB == hw.total(n, gpus[i].uuid)
                                        && gpus[i].mpsEnabled == hw.mps(n, gpus[i].uuid)
                                        && ReportedFree(gpus[i]) <= gpus[i].totalMB)
    && (forall i, j :: 0 <= i < j < |gpus| ==> gpus[i].uuid != gpus[j].uuid)
  }

  ghost predicate NodesOK(s: State, hw: Hardware) {
    forall n :: n in s.nodes ==> ReportOK(n, s.nodes[n].gpus, hw)
  }

  ghost predicate WithinTotals(s: State, hw: Hardware) {
    forall n, g :: s.Reserved(n, g) <= hw.total(n, g)
  }

  ghost predicate Exclusive(s: State, hw: Hardware) {
    forall n, g :: !hw.mps(n, g) ==> s.PodCount(n, g) <= 1
  }

  datatype Event =
    | EvReport(node: string, hasNVLink: bool, gpus: seq<GPUInfo>, now: int)
    | EvStale(threshold: int, now: int)
    | EvRelease(key: string)
    | EvPlace(pod: Pod, preferred: seq<string>, decision: Decision, bound: bool)
    | EvGang(pods: seq<Pod>, placements: seq<PodPlacement>, binds: seq<bool>)

  /** Reports agree with the hardware; placements are what SchedulePod and ScheduleGang may answer; requests are
      non-negative. */
  ghost predicate Enabled(s: State, e: Event, hw: Hardware) {
    match e
    case EvReport(n, _, gpus, _) => ReportOK(n, gpus, hw)
    case EvPlace(pod, preferred, d, _) => GetGPUMemory(pod) >= 0 && IsDecision(s, pod, preferred, d)
    case EvGang(pods, ps, binds) =>
      |binds| == |pods| && IsGangPlan(s, pods, ps) && forall i :: 0 <= i < |pods| ==> GetGPUMemory(pods[i]) >= 0
    case _ => true
  }

  function Next(s: State, e: Event): (r: State)
    requires s.reservations.Keys == s.podCounts.Keys
    requires e.EvGang? ==> |e.placements| == |e.binds|
    ensures r.reservations.Keys == r.podCounts.Keys
  {
    match e
    case EvReport(n, hasNVLink, gpus, now) => Report(s, n, hasNVLink, gpus, now)
    case EvStale(threshold, now) => RemoveStale(s, threshold, now)
    case EvRelease(key) => Release(s, key)
    case EvPlace(pod, _, d, bound) => Place(s, d, GetGPUMemory(pod), PodKey(pod.namespace, pod.name), bound)
    case EvGang(_, ps, binds) => Committed(s, ps, binds, |ps|)
  }

  // ---------- Releases and failed binds only lower the tables ----------

  lemma {:induction false} CountsAreNonNegative(es: seq<Entry>, n: string, g: string)
    ensures Sum(es, CountOn(n, g)) >= 0
  {
    if es != [] {
      CountsAreNonNegative(es[1..], n, g);
    }
  }

  lemma ReleaseLowers(s: State, key: string, n: string, g: string)
    requires LedgerOK(s)
    ensures s.reservations.Keys == s.podCounts.Keys
    ensures Release(s, key).Reserved(n, g) <= s.Reserved(n, g)
    ensures Release(s, key).PodCount(n, g) <= s.PodCount(n, g)
  {
    if key in s.allocs {
      var es := s.allocs[key];
      NonNegativeNeverClamps(s, key, |es|);
      ReleaseUpToEffect(s, es, |es|, n, g);
      assert es[..|es|] == es;
      SumNonNegative(es, MemOn(n, g));
      CountsAreNonNegative(es, n, g);
    }
  }

  /** Full-GPU entries marked, and perhaps released again, raise the tables by at most what the entries hold. */
  lemma MarksBound(s: State, es: seq<Entry>, key: string, bound: bool, n: string, g: string)
    requires s.reservations.Keys == s.podCounts.Keys
    requires LedgerOK(s) && FullGPUEntries(es)
    ensures var t := MarkUpTo(s, es, |es|, key);
            var r := if bound then t else Release(t, key);
            && LedgerOK(r)
            && r.Reserved(n, g) <= s.Reserved(n, g) + Sum(es, MemOn(n, g))
            && r.PodCount(n, g) <= s.PodCount(n, g) + Sum(es, CountOn(n, g))
  {
    var t := MarkUpTo(s, es, |es|, key);
    MarkUpToOK(s, es, |es|, key);
    MarkUpToTables(s, es, |es|, key, n, g);
    assert es[..|es|] == es;
    hide LedgerOK, MarkUpTo;
    ReleaseOK(t, key);
    ReleaseLowers(t, key, n, g);
  }

  // ---------- One-pod decisions fit ----------

  lemma ViewIsWellNamed(view: seq<Node>, s: State, hw: Hardware)
    requires IsViewOf(view, s) && NodesOK(s, hw)
    ensures WellNamed(view)
  {
    forall i | 0 <= i < |view|
      ensures UniqueIDs(view[i].gpus)
    {
      assert ReportOK(view[i].name, s.nodes[view[i].name].gpus, hw);
    }
  }

  /** A GPU of the view shows the ledger and the hardware. */
  lemma ViewShows(view: seq<Node>, s: State, hw: Hardware, a: int, b: int)
    requires IsViewOf(view, s) && NodesOK(s, hw) && ValidIndex(view, a, b)
    ensures var g := view[a].gpus[b];
            && g.usedMB == s.Reserved(view[a].name, g.id) && g.allocatedPods == s.PodCount(view[a].name, g.id)
            && g.totalMB == hw.total(view[a].name, g.id) && g.mps == hw.mps(view[a].name, g.id)
  {
    assert ReportOK(view[a].name, s.nodes[view[a].name].gpus, hw);
  }

  /** What a set of entries may add to GPU (n, g): nothing over the total, and a second pod only under MPS. */
  ghost predicate Fits(s: State, es: seq<Entry>, hw: Hardware, exclusive: bool, n: string, g: string) {
    && (Sum(es, MemOn(n, g)) > 0 ==> s.Reserved(n, g) + Sum(es, MemOn(n, g)) <= hw.total(n, g))
    && (exclusive && Sum(es, CountOn(n, g)) > 0 && !hw.mps(n, g) ==> s.PodCount(n, g) + Sum(es, CountOn(n, g)) <= 1)
  }

  lemma OneEntry(e: Entry, n: string, g: string)
    ensures Sum([e], MemOn(n, g)) == MemOn(n, g)(e) && Sum([e], CountOn(n, g)) == CountOn(n, g)(e)
  {
    assert [e][1..] == [];
  }

  lemma DisaggFitsGPU(s: State, hw: Hardware, pod: Pod, preferred: seq<string>, es: seq<Entry>, n: string, g: string)
    requires NodesOK(s, hw) && DisaggDecision(s, pod, preferred, es)
    ensures Fits(s, es, hw, true, n, g)
  {
    var view: seq<Node>, c: D.DisaggCandidate :| IsViewOf(view, s) && D.IsDisaggChoice(view, preferred, GetGPUMemory(pod), c)
      && es == [Entry(c.nodeName, c.gpuID, GetGPUMemory(pod), false)];
    hide IsViewOf, NodesOK;
    CandidateFitsGPU(s, hw, view, c, GetGPUMemory(pod), n, g);
  }

  lemma CandidateFitsGPU(s: State, hw: Hardware, view: seq<Node>, c: D.DisaggCandidate, memoryMB: int, n: string, g: string)
    requires NodesOK(s, hw) && IsViewOf(view, s) && D.IsCandidate(view, c, memoryMB)
    ensures Fits(s, [Entry(c.nodeName, c.gpuID, memoryMB, false)], hw, true, n, g)
  {
    var i, gpu :| 0 <= i < |view| && gpu in view[i].gpus && D.IsDisaggGPU(gpu, memoryMB)
      && c == D.DisaggCandidate(view[i].name, gpu.id, gpu.AvailableMB());
    var j :| 0 <= j < |view[i].gpus| && view[i].gpus[j] == gpu;
    ViewShows(view, s, hw, i, j);
    hide IsViewOf, NodesOK;
    OneEntry(Entry(c.nodeName, c.gpuID, memoryMB, false), n, g);
  }

  lemma RoutedFitsGPU(s: State, hw: Hardware, pod: Pod, es: seq<Entry>, n: string, g: string)
    requires NodesOK(s, hw) && RoutedDecision(s, pod, FullGPUs(es))
    ensures Fits(s, es, hw, true, n, g)
  {
    var memoryMB, shared := A.RoutedMemory(pod, JobOf(pod)), IsSharedGPUPod(pod);
    A.RoutedMemoryIsReserved(pod);
    var c := RoutedCandidate(s, pod, es);
    var info :| info in s.nodes[c.nodeName].gpus && R.FitsFull(s, c.nodeName, info, memoryMB) && c == R.FullCandidate(s, c.nodeName, info);
    assert ReportOK(c.nodeName, s.nodes[c.nodeName].gpus, hw);
    OneEntry(es[0], n, g);
  }

  /** A routed whole-GPU placement is on an admissible candidate with the memory that is then reserved. */
  lemma RoutedCandidate(s: State, pod: Pod, es: seq<Entry>) returns (c: R.GPUCandidate)
    requires RoutedDecision(s, pod, FullGPUs(es))
    ensures R.IsFullCandidate(s, c, A.RoutedMemory(pod, JobOf(pod))) && A.Admits(c, IsSharedGPUPod(pod))
    ensures es == [Entry(c.nodeName, c.gpuUUID, GetGPUMemory(pod), false)]
  {
    var memoryMB, shared := A.RoutedMemory(pod, JobOf(pod)), IsSharedGPUPod(pod);
    var first := A.FirstPool(s, pod, memoryMB);
    var pool := if A.PoolHas(s, first, memoryMB, shared) then first else A.OtherPool(first);
    var r :| A.BestInPool(s, r, pool, memoryMB, shared)
      && FullGPUs(es) == if r.isMIG then OneMIG(r.nodeName, r.device) else FullGPUs([Entry(r.nodeName, r.device, GetGPUMemory(pod), false)]);
    assert pool == A.PoolFull;
    c :| A.IsBestFull(s, c, memoryMB, shared) && r.nodeName == c.nodeName && r.device == c.gpuUUID;
  }

  /** Entries of one node with distinct ids and equal amounts touch each GPU at most once. */
  lemma {:induction false} SpreadOnce(es: seq<Entry>, nodeName: string, memoryMB: int, n: string, g: string)
    requires forall i :: 0 <= i < |es| ==> es[i] == Entry(nodeName, es[i].gpuUUID, memoryMB, false)
    requires forall i, j :: 0 <= i < j < |es| ==> es[i].gpuUUID != es[j].gpuUUID
    ensures var used := exists i :: 0 <= i < |es| && es[i].nodeName == n && es[i].gpuUUID == g;
            Sum(es, MemOn(n, g)) == (if used then memoryMB else 0) && Sum(es, CountOn(n, g)) == (if used then 1 else 0)
  {
    if es != [] {
      SpreadOnce(es[1..], nodeName, memoryMB, n, g);
      if es[0].nodeName == n && es[0].gpuUUID == g {
        assert forall i :: 0 <= i < |es[1..]| ==> es[1..][i] == es[i + 1];
      } else if i :| 0 <= i < |es| && es[i].nodeName == n && es[i].gpuUUID == g {
        assert es[1..][i - 1] == es[i];
      }
    }
  }

  lemma SeveralFitGPUs(s: State, hw: Hardware, pod: Pod, es: seq<Entry>, n: string, g: string)
    requires NodesOK(s, hw) && GetGPUCount(pod) > 0 && GangDecision(s, pod, es)
    ensures Fits(s, es, hw, !IsSharedGPUPod(pod), n, g)
  {
    var view: seq<Node>, ps: seq<GPUPlacement> :| IsViewOf(view, s) && es == PlacementEntries(ps)
      && GangPlaced(view, ps, GetGPUCount(pod), RequiredOf(pod), IsSharedGPUPod(pod));
    ViewIsWellNamed(view, s, hw);
    GangEntriesFit(s, hw, view, ps, GetGPUCount(pod), RequiredOf(pod), IsSharedGPUPod(pod), n, g);
  }

  lemma GangEntriesFit(s: State, hw: Hardware, view: seq<Node>, ps: seq<GPUPlacement>, k: int, requiredMB: int, shared: bool,
                       n: string, g: string)
    requires NodesOK(s, hw) && IsViewOf(view, s) && WellNamed(view) && GangPlaced(view, ps, k, requiredMB, shared)
    ensures Fits(s, PlacementEntries(ps), hw, !shared, n, g)
  {
    var es := PlacementEntries(ps);
    var name, ids := ps[0].nodeName, PlacementIDs(ps);
    PlacedIDsAreDistinct(view, name, ids, k, requiredMB, shared);
    assert forall i :: 0 <= i < k ==> es[i].gpuUUID == ids[i];
    SpreadOnce(es, name, requiredMB, n, g);
    if i :| 0 <= i < |es| && es[i].nodeName == n && es[i].gpuUUID == g {
      var a, b := PlacedIDExists(view, name, ids, k, requiredMB, shared, i);
      UsedIsEligible(view, name, ids, k, requiredMB, shared, a, b);
      ViewShows(view, s, hw, a, b);
    }
  }

  /** The pod shares GPUs beyond one-GPU MPS placements. */
  predicate StacksPods(pod: Pod) {
    IsSharedGPUPod(pod) && GetGPUCount(pod) > 1
  }

  lemma DecisionFits(s: State, hw: Hardware, pod: Pod, preferred: seq<string>, es: seq<Entry>, n: string, g: string)
    requires NodesOK(s, hw) && IsDecision(s, pod, preferred, FullGPUs(es))
    ensures Fits(s, es, hw, !StacksPods(pod), n, g)
  {
    hide Fits, GangDecision, DisaggDecision, RoutedDecision, NodesOK;
    if GetGPUCount(pod) > 1 {
      SeveralFitGPUs(s, hw, pod, es, n, g);
    } else if GetDisaggIntent(pod).isDisagg {
      DisaggFitsGPU(s, hw, pod, preferred, es, n, g);
    } else {
      RoutedFitsGPU(s, hw, pod, es, n, g);
    }
  }

  lemma GangIsFull(s: State, pod: Pod, es: seq<Entry>)
    requires GetGPUMemory(pod) >= 0 && GetGPUCount(pod) > 0 && GangDecision(s, pod, es)
    ensures FullGPUEntries(es)
  {
    hide IsViewOf, Places, RequiredMB, GetGPUMemory, GetGPUCount, GetMemoryMode;
    var view: seq<Node>, ps: seq<GPUPlacement> :| IsViewOf(view, s) && es == PlacementEntries(ps)
      && GangPlaced(view, ps, GetGPUCount(pod), RequiredOf(pod), IsSharedGPUPod(pod));
    RequiredIsNonNegative(GetGPUMemory(pod), GetGPUCount(pod), GetMemoryMode(pod));
  }

  lemma DisaggIsFull(s: State, pod: Pod, preferred: seq<string>, es: seq<Entry>)
    requires GetGPUMemory(pod) >= 0 && DisaggDecision(s, pod, preferred, es)
    ensures FullGPUEntries(es)
  {
    hide IsViewOf, D.IsDisaggChoice, GetGPUMemory;
  }

  lemma DecisionIsFull(s: State, pod: Pod, preferred: seq<string>, es: seq<Entry>)
    requires GetGPUMemory(pod) >= 0 && IsDecision(s, pod, preferred, FullGPUs(es))
    ensures FullGPUEntries(es)
  {
    hide GangDecision, DisaggDecision, RoutedDecision, GetGPUMemory, GetGPUCount;
    if GetGPUCount(pod) > 1 {
      GangIsFull(s, pod, es);
    } else if GetDisaggIntent(pod).isDisagg {
      DisaggIsFull(s, pod, preferred, es);
    } else {
      hide R.IsFullCandidate, A.Admits, A.RoutedMemory;
      var c := RoutedCandidate(s, pod, es);
    }
  }

  lemma RequiredIsNonNegative(memoryMB: int, k: int, mode: MemoryMode)
    requires memoryMB >= 0 && k > 0
    ensures RequiredMB(memoryMB, k, mode) >= 0
  {
  }

  // ---------- Gangs fit ----------

  /** What the first n placements of a plan hold on GPU (node, g). */
  function PlannedMemory(ps: seq<PodPlacement>, n: nat, node: string, g: string): int
    requires n <= |ps|
  {
    if n == 0 then 0 else PlannedMemory(ps, n - 1, node, g) + Sum(EntriesFor(ps[n - 1]), MemOn(node, g))
  }

  function PlannedPods(ps: seq<PodPlacement>, n: nat, node: string, g: string): int
    requires n <= |ps|
  {
    if n == 0 then 0 else PlannedPods(ps, n - 1, node, g) + Sum(EntriesFor(ps[n - 1]), CountOn(node, g))
  }

  /** The shadow shows the plan: start plus planned memory and pods. */
  lemma {:induction false} ShadowShowsPlan(view: seq<Node>, ps: seq<PodPlacement>, n: nat, a: int, b: int)
    requires n <= |ps| && ValidIndex(view, a, b)
    ensures ValidIndex(ShadowAfter(view, ps, n), a, b)
    ensures var g := view[a].gpus[b];
            var h := ShadowAfter(view, ps, n)[a].gpus[b];
            && ShadowAfter(view, ps, n)[a].name == view[a].name && h.id == g.id && h.totalMB == g.totalMB
            && h.usedMB == g.usedMB + PlannedMemory(ps, n, view[a].name, g.id)
            && h.allocatedPods == g.allocatedPods + PlannedPods(ps, n, view[a].name, g.id)
  {
    if n > 0 {
      ShadowShowsPlan(view, ps, n - 1, a, b);
      var p := ps[n - 1];
      var before := ShadowAfter(view, ps, n - 1);
      ChargeShowsEntries(before, p, a, b);
    }
  }

  lemma ChargeShowsEntries(nodes: seq<Node>, p: PodPlacement, a: int, b: int)
    requires ValidIndex(nodes, a, b)
    ensures var charged := Charge(nodes, p.nodeName, p.gpuIDs, p.memoryMB);
            && charged[a].name == nodes[a].name && |charged[a].gpus| == |nodes[a].gpus|
            && charged[a].gpus[b] == AddEntries(nodes[a].gpus[b], nodes[a].name, EntriesFor(p))
  {
    var g := nodes[a].gpus[b];
    assert EntriesFor(p)[..|p.gpuIDs|] == EntriesFor(p);
    if nodes[a].name == p.nodeName {
      ChargeIsEntries(g, p, |p.gpuIDs|);
    } else {
      EntriesElsewhere(EntriesFor(p), nodes[a].name, g.id);
    }
  }

  /** A plan holds something only on GPUs of the view. */
  lemma {:induction false} PlannedOnView(view: seq<Node>, pods: seq<PodRef>, jobs: seq<Job>, ps: seq<PodPlacement>, n: nat, node: string, g: string)
    requires WellNamed(view) && ValidPlan(view, pods, jobs, ps) && n <= |ps|
    requires forall a, b :: ValidIndex(view, a, b) ==> view[a].name != node || view[a].gpus[b].id != g
    ensures PlannedMemory(ps, n, node, g) == 0 && PlannedPods(ps, n, node, g) == 0
  {
    if n > 0 {
      PlannedOnView(view, pods, jobs, ps, n - 1, node, g);
      var p := ps[n - 1];
      var shadow := ShadowAfter(view, ps, n - 1);
      assert ValidStep(view, pods, jobs, ps, n - 1);
      ShadowHardware(view, pods, jobs, ps, n - 1);
      forall i | 0 <= i < |p.gpuIDs|
        ensures EntriesFor(p)[i].nodeName != node || EntriesFor(p)[i].gpuUUID != g
      {
        var a, b := PlacedIDExists(shadow, p.nodeName, p.gpuIDs, GPUCountOf(jobs[n - 1]), jobs[n - 1].memoryMB, jobs[n - 1].shared, i);
        assert ValidIndex(view, a, b);
      }
      EntriesElsewhere(EntriesFor(p), node, g);
    }
  }

  /** A gang without shared pods leaves at most one pod on every GPU that started with at most one. */
  lemma {:induction false} ShadowStaysExclusive(view: seq<Node>, pods: seq<PodRef>, jobs: seq<Job>, ps: seq<PodPlacement>, n: nat, a: int, b: int)
    requires WellNamed(view) && ValidPlan(view, pods, jobs, ps) && n <= |ps| && ValidIndex(view, a, b)
    requires forall i :: 0 <= i < |jobs| ==> !jobs[i].shared
    requires view[a].gpus[b].allocatedPods <= 1
    ensures ValidIndex(ShadowAfter(view, ps, n), a, b) && ShadowAfter(view, ps, n)[a].gpus[b].allocatedPods <= 1
  {
    if n > 0 {
      ShadowStaysExclusive(view, pods, jobs, ps, n - 1, a, b);
      ShadowHardware(view, pods, jobs, ps, n);
      ShadowHardware(view, pods, jobs, ps, n - 1);
      var before := ShadowAfter(view, ps, n - 1);
      var p := ps[n - 1];
      assert ValidStep(view, pods, jobs, ps, n - 1);
      ChargeAt(before, p.nodeName, p.gpuIDs, p.memoryMB, a, b);
      if Uses(before, a, b, p.nodeName, p.gpuIDs) {
        UsedIsEligible(before, p.nodeName, p.gpuIDs, GPUCountOf(jobs[n - 1]), jobs[n - 1].memoryMB, jobs[n - 1].shared, a, b);
      }
    }
  }

  ghost predicate NoneShared(pods: seq<Pod>) {
    forall i :: 0 <= i < |pods| ==> !IsSharedGPUPod(pods[i])
  }

  /** What a gang may add to GPU (n, g). */
  ghost predicate GangFitsOn(s: State, ps: seq<PodPlacement>, hw: Hardware, exclusive: bool, n: string, g: string) {
    && s.Reserved(n, g) + PlannedMemory(ps, |ps|, n, g) <= hw.total(n, g)
    && (exclusive && s.PodCount(n, g) <= 1 ==> s.PodCount(n, g) + PlannedPods(ps, |ps|, n, g) <= 1)
  }

  lemma ViewWithinCapacity(view: seq<Node>, s: State, hw: Hardware)
    requires NodesOK(s, hw) && IsViewOf(view, s) && WithinTotals(s, hw)
    ensures WithinCapacity(view)
  {
    forall a, b | ValidIndex(view, a, b)
      ensures view[a].gpus[b].usedMB <= view[a].gpus[b].totalMB
    {
      ViewShows(view, s, hw, a, b);
    }
  }

  lemma GangFitsAt(s: State, hw: Hardware, view: seq<Node>, pods: seq<Pod>, ps: seq<PodPlacement>, a: int, b: int)
    requires NodesOK(s, hw) && WithinTotals(s, hw) && IsViewOf(view, s) && WellNamed(view)
    requires ValidPlan(view, RefsOf(pods), JobsOf(pods), ps) && ValidIndex(view, a, b)
    requires forall i :: 0 <= i < |pods| ==> GetGPUMemory(pods[i]) >= 0
    ensures GangFitsOn(s, ps, hw, NoneShared(pods), view[a].name, view[a].gpus[b].id)
  {
    ViewShows(view, s, hw, a, b);
    ViewWithinCapacity(view, s, hw);
    hide IsViewOf, NodesOK, WithinTotals, WellNamed;
    ShadowShowsPlan(view, ps, |ps|, a, b);
    PlanKeepsCapacity(view, RefsOf(pods), JobsOf(pods), ps, |ps|);
    if NoneShared(pods) && view[a].gpus[b].allocatedPods <= 1 {
      ShadowStaysExclusive(view, RefsOf(pods), JobsOf(pods), ps, |ps|, a, b);
    }
  }

  lemma GangFitsGPU(s: State, hw: Hardware, pods: seq<Pod>, ps: seq<PodPlacement>, n: string, g: string)
    requires NodesOK(s, hw) && WithinTotals(s, hw) && IsGangPlan(s, pods, ps)
    requires forall i :: 0 <= i < |pods| ==> GetGPUMemory(pods[i]) >= 0
    ensures GangFitsOn(s, ps, hw, NoneShared(pods), n, g)
  {
    var view: seq<Node> :| IsViewOf(view, s) && ValidPlan(view, RefsOf(pods), JobsOf(pods), ps);
    ViewIsWellNamed(view, s, hw);
    if a, b :| ValidIndex(view, a, b) && view[a].name == n && view[a].gpus[b].id == g {
      GangFitsAt(s, hw, view, pods, ps, a, b);
    } else {
      hide ValidPlan, IsViewOf, NodesOK, WellNamed;
      PlannedOnView(view, RefsOf(pods), JobsOf(pods), ps, |ps|, n, g);
      assert s.Reserved(n, g) <= hw.total(n, g);
    }
  }

  /** The commit loop adds at most what the plan holds, whichever binds fail. */
  lemma {:induction false} CommittedBound(s: State, ps: seq<PodPlacement>, binds: seq<bool>, i: nat, n: string, g: string)
    requires s.reservations.Keys == s.podCounts.Keys
    requires i <= |ps| == |binds| && LedgerOK(s) && Sensible(ps)
    ensures LedgerOK(Committed(s, ps, binds, i))
    ensures Committed(s, ps, binds, i).Reserved(n, g) <= s.Reserved(n, g) + PlannedMemory(ps, i, n, g)
    ensures Committed(s, ps, binds, i).PodCount(n, g) <= s.PodCount(n, g) + PlannedPods(ps, i, n, g)
  {
    hide LedgerOK, Release, MarkUpTo, FullGPUEntries;
    if i > 0 {
      CommittedBound(s, ps, binds, i - 1, n, g);
      EntriesAreFull(ps[i - 1]);
      MarksBound(Committed(s, ps, binds, i - 1), EntriesFor(ps[i - 1]), KeyOf(ps[i - 1]), binds[i - 1], n, g);
    }
  }

  lemma PlansAreSensible(s: State, pods: seq<Pod>, ps: seq<PodPlacement>)
    requires IsGangPlan(s, pods, ps) && forall i :: 0 <= i < |pods| ==> GetGPUMemory(pods[i]) >= 0
    ensures Sensible(ps)
  {
    var view: seq<Node> :| IsViewOf(view, s) && ValidPlan(view, RefsOf(pods), JobsOf(pods), ps);
    forall i | 0 <= i < |ps|
      ensures ps[i].memoryMB >= 0 && |ps[i].gpuIDs| > 0
    {
      assert ValidStep(view, RefsOf(pods), JobsOf(pods), ps, i);
    }
  }

  // ---------- Steps ----------

  /** The part of the invariant every step keeps. */
  ghost predicate Inv(s: State, hw: Hardware) {
    LedgerOK(s) && NodesOK(s, hw) && WithinTotals(s, hw)
  }

  lemma PlaceBound(s: State, hw: Hardware, e: Event, n: string, g: string)
    requires s.reservations.Keys == s.podCounts.Keys
    requires LedgerOK(s) && NodesOK(s, hw) && e.EvPlace? && Enabled(s, e, hw)
    requires s.Reserved(n, g) <= hw.total(n, g)
    ensures LedgerOK(Next(s, e)) && Next(s, e).Reserved(n, g) <= hw.total(n, g)
    ensures !StacksPods(e.pod) && !hw.mps(n, g) && s.PodCount(n, g) <= 1 ==> Next(s, e).PodCount(n, g) <= 1
  {
    var key := PodKey(e.pod.namespace, e.pod.name);
    match e.decision
    case FullGPUs(es) =>
      DecisionIsFull(s, e.pod, e.preferred, es);
      DecisionFits(s, hw, e.pod, e.preferred, es, n, g);
      hide LedgerOK, NodesOK, Enabled, IsDecision;
      MarksBound(s, es, key, e.bound, n, g);
      CountsAreNonNegative(es, n, g);
      SumNonNegativeEntries(es, n, g);
    case OneMIG(node, uuid) =>
      var t := MarkMIG(s, node, uuid, GetGPUMemory(e.pod), key);
      MarkMIGOK(s, node, uuid, GetGPUMemory(e.pod), key);
      assert t.Reserved(n, g) == s.Reserved(n, g) && t.PodCount(n, g) == s.PodCount(n, g);
      hide LedgerOK, NodesOK, Enabled, IsDecision, MarkMIG;
      ReleaseOK(t, key);
      ReleaseLowers(t, key, n, g);
  }

  lemma SumNonNegativeEntries(es: seq<Entry>, n: string, g: string)
    requires FullGPUEntries(es)
    ensures Sum(es, MemOn(n, g)) >= 0
  {
    SumNonNegative(es, MemOn(n, g));
  }

  lemma GangBound(s: State, hw: Hardware, e: Event, n: string, g: string)
    requires s.reservations.Keys == s.podCounts.Keys
    requires LedgerOK(s) && NodesOK(s, hw) && WithinTotals(s, hw) && e.EvGang? && Enabled(s, e, hw)
    requires |e.placements| == |e.binds|
    ensures LedgerOK(Next(s, e)) && Next(s, e).Reserved(n, g) <= hw.total(n, g)
    ensures NoneShared(e.pods) && s.PodCount(n, g) <= 1 ==> Next(s, e).PodCount(n, g) <= 1
  {
    PlansAreSensible(s, e.pods, e.placements);
    GangFitsGPU(s, hw, e.pods, e.placements, n, g);
    hide LedgerOK, NodesOK, WithinTotals, IsGangPlan;
    CommittedBound(s, e.placements, e.binds, |e.placements|, n, g);
  }

  /** Shared pods ask for one GPU and stay out of gangs. */
  ghost predicate SharesOnlyOneGPU(e: Event) {
    && (e.EvPlace? ==> !StacksPods(e.pod))
    && (e.EvGang? ==> NoneShared(e.pods))
  }

  lemma TablesBound(s: State, hw: Hardware, e: Event, n: string, g: string)
    requires s.reservations.Keys == s.podCounts.Keys
    requires e.EvGang? ==> |e.placements| == |e.binds|
    requires Inv(s, hw) && Enabled(s, e, hw)
    ensures LedgerOK(Next(s, e)) && Next(s, e).Reserved(n, g) <= hw.total(n, g)
    ensures SharesOnlyOneGPU(e) && !hw.mps(n, g) && s.PodCount(n, g) <= 1 ==> Next(s, e).PodCount(n, g) <= 1
  {
    assert s.Reserved(n, g) <= hw.total(n, g);
    match e
    case EvReport(node, hasNVLink, gpus, now) => SameLedger(s, Next(s, e));
    case EvStale(threshold, now) => SameLedger(s, Next(s, e));
    case EvRelease(key) =>
      ReleaseOK(s, key);
      ReleaseLowers(s, key, n, g);
    case EvPlace(_, _, _, _) => PlaceBound(s, hw, e, n, g);
    case EvGang(_, _, _) => GangBound(s, hw, e, n, g);
  }

  // ---------- Nodes through a step ----------

  lemma SetMIGKeepsReports(nodes: map<string, NodeGPUs>, n: string, uuid: string, available: bool, m: string, hw: Hardware)
    requires m in nodes && ReportOK(m, nodes[m].gpus, hw)
    ensures ReportOK(m, SetMIG(nodes, n, uuid, available)[m].gpus, hw)
  {
  }

  lemma {:induction false} ReleaseUpToMachines(s: State, es: seq<Entry>, i: nat, hw: Hardware)
    requires i <= |es| && s.reservations.Keys == s.podCounts.Keys && NodesOK(s, hw)
    ensures NodesOK(ReleaseUpTo(s, es, i), hw)
  {
    hide NodesOK, ReleaseEntry;
    if i > 0 {
      ReleaseUpToMachines(s, es, i - 1, hw);
      assert ReleaseUpTo(s, es, i) == ReleaseEntry(ReleaseUpTo(s, es, i - 1), es[i - 1]);
      hide ReleaseUpTo;
      ReleaseEntryMachines(ReleaseUpTo(s, es, i - 1), es[i - 1], hw);
    }
  }

  lemma ReleaseEntryMachines(t: State, e: Entry, hw: Hardware)
    requires t.reservations.Keys == t.podCounts.Keys && NodesOK(t, hw)
    ensures NodesOK(ReleaseEntry(t, e), hw)
  {
    if e.isMIG {
      hide ReportOK, SetMIG;
      forall m | m in t.nodes
        ensures ReportOK(m, SetMIG(t.nodes, e.nodeName, e.gpuUUID, true)[m].gpus, hw)
      {
        SetMIGKeepsReports(t.nodes, e.nodeName, e.gpuUUID, true, m, hw);
      }
    }
  }

  lemma ReleaseMachines(s: State, key: string, hw: Hardware)
    requires s.reservations.Keys == s.podCounts.Keys && NodesOK(s, hw)
    ensures NodesOK(Release(s, key), hw)
  {
    if key in s.allocs {
      ReleaseUpToMachines(s, s.allocs[key], |s.allocs[key]|, hw);
    }
  }

  lemma {:induction false} CommittedMachines(s: State, ps: seq<PodPlacement>, binds: seq<bool>, i: nat, hw: Hardware)
    requires i <= |ps| == |binds| && s.reservations.Keys == s.podCounts.Keys && NodesOK(s, hw)
    ensures NodesOK(Committed(s, ps, binds, i), hw)
  {
    hide NodesOK, CommitOne;
    if i > 0 {
      CommittedMachines(s, ps, binds, i - 1, hw);
      CommitOneMachines(Committed(s, ps, binds, i - 1), ps[i - 1], binds[i - 1], hw);
    }
  }

  lemma CommitOneMachines(s: State, p: PodPlacement, bound: bool, hw: Hardware)
    requires s.reservations.Keys == s.podCounts.Keys && NodesOK(s, hw)
    ensures NodesOK(CommitOne(s, p, bound), hw)
  {
    ReleaseMachines(MarkUpTo(s, EntriesFor(p), |p.gpuIDs|, KeyOf(p)), KeyOf(p), hw);
  }

  lemma PlaceMachines(s: State, d: Decision, memoryMB: int, key: string, bound: bool, hw: Hardware)
    requires s.reservations.Keys == s.podCounts.Keys && NodesOK(s, hw)
    ensures NodesOK(Place(s, d, memoryMB, key, bound), hw)
  {
    match d
    case FullGPUs(es) => ReleaseMachines(MarkUpTo(s, es, |es|, key), key, hw);
    case OneMIG(n, uuid) =>
      var t := MarkMIG(s, n, uuid, memoryMB, key);
      forall m | m in t.nodes
        ensures ReportOK(m, t.nodes[m].gpus, hw)
      {
        SetMIGKeepsReports(s.nodes, n, uuid, false, m, hw);
      }
      ReleaseMachines(t, key, hw);
  }

  lemma NextMachines(s: State, e: Event, hw: Hardware)
    requires s.reservations.Keys == s.podCounts.Keys && NodesOK(s, hw) && Enabled(s, e, hw)
    requires e.EvGang? ==> |e.placements| == |e.binds|
    ensures NodesOK(Next(s, e), hw)
  {
    hide ReportOK, Release, Place, Committed;
    match e
    case EvReport(n, hasNVLink, gpus, now) =>
    case EvStale(threshold, now) =>
    case EvRelease(key) => ReleaseMachines(s, key, hw);
    case EvPlace(pod, _, d, bound) => PlaceMachines(s, d, GetGPUMemory(pod), PodKey(pod.namespace, pod.name), bound, hw);
    case EvGang(_, ps, binds) => CommittedMachines(s, ps, binds, |ps|, hw);
  }

  // ---------- Runs ----------

  ghost predicate IsRun(run: seq<State>, events: seq<Event>, hw: Hardware) {
    && |run| == |events| + 1
    && (forall i :: 0 <= i < |run| ==> run[i].reservations.Keys == run[i].podCounts.Keys)
    && (forall i :: 0 <= i < |events| ==> IsStep(run[i], events[i], run[i + 1], hw))
  }

  ghost predicate IsStep(s: State, e: Event, r: State, hw: Hardware) {
    && s.reservations.Keys == s.podCounts.Keys
    && Enabled(s, e, hw)
    && (e.EvGang? ==> |e.placements| == |e.binds|)
    && r == Next(s, e)
  }

  lemma StepKeepsInv(s: State, e: Event, r: State, hw: Hardware)
    requires Inv(s, hw) && IsStep(s, e, r, hw)
    ensures Inv(r, hw)
    ensures SharesOnlyOneGPU(e) && Exclusive(s, hw) ==> Exclusive(r, hw)
  {
    NextMachines(s, e, hw);
    TablesBound(s, hw, e, "", "");
    hide Next, Enabled, LedgerOK, NodesOK;
    forall n, g
      ensures r.Reserved(n, g) <= hw.total(n, g)
      ensures SharesOnlyOneGPU(e) && !hw.mps(n, g) && s.PodCount(n, g) <= 1 ==> r.PodCount(n, g) <= 1
    {
      TablesBound(s, hw, e, n, g);
    }
  }

  /** Capacity over whole runs: no sequence of placements, gangs, failed binds, releases and reports ever reserves more
      of a GPU than it has. */
  lemma {:induction false} CapacityOverRuns(run: seq<State>, events: seq<Event>, hw: Hardware, i: nat)
    requires IsRun(run, events, hw) && Inv(run[0], hw) && i < |run|
    ensures Inv(run[i], hw)
  {
    if i > 0 {
      hide Inv;
      CapacityOverRuns(run, events, hw, i - 1);
      assert IsStep(run[i - 1], events[i - 1], run[i], hw);
      StepKeepsInv(run[i - 1], events[i - 1], run[i], hw);
    }
  }
}
