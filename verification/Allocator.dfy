/** internal/allocator/allocator.go and routing.go: routing a one-GPU pod to a MIG instance or a whole GPU. */
module Allocator {
  import opened Collections
  import opened Types
  import opened Text
  import opened Pods
  import opened Ledger
  import opened R = Registry

  datatype Pool = PoolMIG | PoolFull | PoolAuto

  datatype Classification = Classification(pool: Pool, memoryRequestMB: int, strict: bool)

  datatype Routed = Routed(nodeName: string, device: string, isMIG: bool)

  const POOL_LABEL := "gpu-scheduler.io/pool"
  const FALLBACK_LABEL := "gpu-scheduler.io/allow-fallback"

  /** The spellings strconv.ParseBool reads as true. */
  const TRUE_WORDS := {"1", "t", "T", "TRUE", "true", "True"}

  function ClassifyJob(pod: Pod): Classification {
    var pool := if POOL_LABEL !in pod.labels then PoolAuto
                else if pod.labels[POOL_LABEL] == "mig" then PoolMIG
                else if pod.labels[POOL_LABEL] == "full" then PoolFull
                else PoolAuto;
    var fallback := FALLBACK_LABEL in pod.labels && pod.labels[FALLBACK_LABEL] in TRUE_WORDS;
    Classification(pool, ExtractGPUMemoryRequest(pod), pool != PoolAuto && !fallback)
  }

  function ExtractGPUMemoryRequest(pod: Pod): int {
    match pod.Number(MEMORY_IO)
    case Some(memory) => memory
    case None => 0
  }

  /** The memory routing checks: the classification's, or the job's when that is zero. */
  function RoutedMemory(pod: Pod, job: Job): int {
    if ClassifyJob(pod).memoryRequestMB == 0 then job.memoryMB else ClassifyJob(pod).memoryRequestMB
  }

  /** The memory that routing checks is the memory that is later reserved. */
  lemma RoutedMemoryIsReserved(pod: Pod)
    ensures RoutedMemory(pod, JobOf(pod)) == JobOf(pod).memoryMB
  {
  }

  function OtherPool(pool: Pool): Pool {
    if pool == PoolMIG then PoolFull else PoolMIG
  }

  // ---------- Choosing within a pool ----------

  predicate BetterFull(preferShared: bool, a: GPUCandidate, b: GPUCandidate) {
    if a.freeMB == b.freeMB then (if preferShared then a.podCount > b.podCount else a.podCount < b.podCount)
    else a.freeMB < b.freeMB
  }

  predicate BetterMIG(preferShared: bool, a: MIGCandidate, b: MIGCandidate) {
    if a.memoryMB == b.memoryMB then (if preferShared then a.podCount > b.podCount else a.podCount < b.podCount)
    else a.memoryMB < b.memoryMB
  }

  method SelectBestMIG(candidates: seq<MIGCandidate>, preferShared: bool) returns (best: Option<MIGCandidate>)
    ensures best.None? <==> candidates == []
    ensures best.Some? ==> best.value in candidates && forall c :: c in candidates ==> !BetterMIG(preferShared, c, best.value)
  {
    if candidates == [] {
      return None;
    }
    var sorted := SortSlice(candidates, (a: MIGCandidate, b: MIGCandidate) => BetterMIG(preferShared, a, b));
    assert forall c :: c in candidates <==> c in multiset(candidates);
    assert forall c :: c in sorted <==> c in multiset(sorted);
    return Some(sorted[0]);
  }

  method SelectBestFullGPU(candidates: seq<GPUCandidate>, preferShared: bool) returns (best: Option<GPUCandidate>)
    ensures best.None? <==> candidates == []
    ensures best.Some? ==> best.value in candidates && forall c :: c in candidates ==> !BetterFull(preferShared, c, best.value)
  {
    if candidates == [] {
      return None;
    }
    var sorted := SortSlice(candidates, (a: GPUCandidate, b: GPUCandidate) => BetterFull(preferShared, a, b));
    assert forall c :: c in candidates <==> c in multiset(candidates);
    assert forall c :: c in sorted <==> c in multiset(sorted);
    return Some(sorted[0]);
  }

  // ---------- Pools ----------

  /** A whole GPU may take the pod: shared pods go to MPS GPUs, others to a GPU without MPS and without pods. */
  predicate Admits(c: GPUCandidate, shared: bool) {
    if shared then c.mpsEnabled else !c.mpsEnabled && c.podCount == 0
  }

  ghost predicate FullPoolHas(s: State, memoryMB: int, shared: bool) {
    exists c :: IsFullCandidate(s, c, memoryMB) && Admits(c, shared)
  }

  ghost predicate MIGPoolHas(s: State, memoryMB: int) {
    exists c :: IsMIGCandidate(s, c, memoryMB)
  }

  ghost predicate PoolHas(s: State, pool: Pool, memoryMB: int, shared: bool) {
    match pool
    case PoolMIG => MIGPoolHas(s, memoryMB)
    case PoolFull => FullPoolHas(s, memoryMB, shared)
    case PoolAuto => false
  }

  /** The pool tried first: an explicit label, or MIG when some instance fits. */
  ghost function FirstPool(s: State, pod: Pod, memoryMB: int): Pool {
    if ClassifyJob(pod).pool != PoolAuto then ClassifyJob(pod).pool
    else if MIGPoolHas(s, memoryMB) then PoolMIG
    else PoolFull
  }

  /** c is the tightest admissible whole GPU. */
  ghost predicate IsBestFull(s: State, c: GPUCandidate, memoryMB: int, shared: bool) {
    && IsFullCandidate(s, c, memoryMB) && Admits(c, shared)
    && forall d :: IsFullCandidate(s, d, memoryMB) && Admits(d, shared) ==> !BetterFull(shared, d, c)
  }

  ghost predicate IsBestMIG(s: State, c: MIGCandidate, memoryMB: int, shared: bool) {
    && IsMIGCandidate(s, c, memoryMB)
    && forall d :: IsMIGCandidate(s, d, memoryMB) ==> !BetterMIG(shared, d, c)
  }

  /** r is the best device of the pool. */
  ghost predicate BestInPool(s: State, r: Routed, pool: Pool, memoryMB: int, shared: bool) {
    match pool
    case PoolMIG => r.isMIG && exists c :: IsBestMIG(s, c, memoryMB, shared) && r.nodeName == c.nodeName && r.device == c.migUUID
    case PoolFull => !r.isMIG && exists c :: IsBestFull(s, c, memoryMB, shared) && r.nodeName == c.nodeName && r.device == c.gpuUUID
    case PoolAuto => false
  }

  class Allocator {
    const registry: R.Registry

    constructor (registry: R.Registry)
      ensures this.registry == registry
    {
      this.registry := registry;
    }

    method AutoSelectPool(memoryMB: int) returns (pool: Pool)
      requires registry.Valid()
      ensures pool == if MIGPoolHas(registry.Value(), memoryMB) then PoolMIG else PoolFull
    {
      var candidates := registry.FindAvailableMIG(memoryMB);
      if candidates != [] {
        assert candidates[0] in candidates;
        return PoolMIG;
      }
      return PoolFull;
    }

    method AllocateFromMIG(memoryMB: int, shared: bool) returns (r: Option<Routed>)
      requires registry.Valid()
      ensures r.Some? <==> MIGPoolHas(registry.Value(), memoryMB)
      ensures r.Some? ==> BestInPool(registry.Value(), r.value, PoolMIG, memoryMB, shared)
    {
      var candidates := registry.FindAvailableMIG(memoryMB);
      var best := SelectBestMIG(candidates, shared);
      if best.None? {
        return None;
      }
      assert IsBestMIG(registry.Value(), best.value, memoryMB, shared);
      return Some(Routed(best.value.nodeName, best.value.migUUID, true));
    }

    method AllocateFromFullGPU(memoryMB: int, shared: bool) returns (r: Option<Routed>)
      requires registry.Valid()
      ensures r.Some? <==> FullPoolHas(registry.Value(), memoryMB, shared)
      ensures r.Some? ==> BestInPool(registry.Value(), r.value, PoolFull, memoryMB, shared)
    {
      var candidates: seq<GPUCandidate>;
      if shared {
        candidates := registry.FindAvailableMPSGPU(memoryMB);
      } else {
        candidates := registry.FindAvailableNonMPSGPU(memoryMB);
      }
      var best := SelectBestFullGPU(candidates, shared);
      if best.None? {
        return None;
      }
      assert IsBestFull(registry.Value(), best.value, memoryMB, shared);
      return Some(Routed(best.value.nodeName, best.value.gpuUUID, false));
    }

    method TryPool(pool: Pool, memoryMB: int, shared: bool) returns (r: Option<Routed>)
      requires registry.Valid()
      ensures r.Some? <==> PoolHas(registry.Value(), pool, memoryMB, shared)
      ensures r.Some? ==> BestInPool(registry.Value(), r.value, pool, memoryMB, shared)
    {
      match pool
      case PoolMIG => r := AllocateFromMIG(memoryMB, shared);
      case PoolFull => r := AllocateFromFullGPU(memoryMB, shared);
      case PoolAuto => r := None;
    }

    /** Succeeds exactly when the first pool, or without strict mode the other one, has a device, and then answers
        with the best device of the first of them that has one. */
    method AllocateWithRouting(pod: Pod, job: Job) returns (r: Option<Routed>)
      requires registry.Valid()
      ensures var s, memoryMB, shared := registry.Value(), RoutedMemory(pod, job), IsSharedGPUPod(pod);
              var first := FirstPool(s, pod, memoryMB);
              && (r.Some? <==> PoolHas(s, first, memoryMB, shared)
                               || (!ClassifyJob(pod).strict && PoolHas(s, OtherPool(first), memoryMB, shared)))
              && (r.Some? ==> BestInPool(s, r.value, if PoolHas(s, first, memoryMB, shared) then first else OtherPool(first),
                                         memoryMB, shared))
    {
      var classification := ClassifyJob(pod);
      var memoryMB := RoutedMemory(pod, job);
      var shared := IsSharedGPUPod(pod);
      var preferred := classification.pool;
      if preferred == PoolAuto {
        preferred := AutoSelectPool(memoryMB);
      }
      assert preferred == FirstPool(registry.Value(), pod, memoryMB);
      hide PoolHas, BestInPool, FirstPool;
      r := TryPool(preferred, memoryMB, shared);
      if r.Some? || classification.strict {
        return;
      }
      r := TryPool(OtherPool(preferred), memoryMB, shared);
    }
  }
}
