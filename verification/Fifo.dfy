/** internal/allocator/fifo.go: first-fit placement, feasible exactly when best-fit is. */
module Fifo {
  import opened Collections
  import opened Types

  /** Node i, GPU j is the first eligible GPU in scan order. */
  ghost predicate IsFirstGPU(nodes: seq<Node>, i: int, j: int, requiredMB: int, shared: bool) {
    && 0 <= i < |nodes| && 0 <= j < |nodes[i].gpus|
    && Eligible(nodes[i].gpus[j], requiredMB, shared)
    && (forall b :: 0 <= b < j ==> !Eligible(nodes[i].gpus[b], requiredMB, shared))
    && (forall a, b :: 0 <= a < i && 0 <= b < |nodes[a].gpus| ==> !Eligible(nodes[a].gpus[b], requiredMB, shared))
  }

  method Schedule(job: Job, nodes: seq<Node>) returns (r: Result<SchedulingResult, ScheduleError>)
    ensures r.Ok? <==> SomeGPUFits(nodes, job.memoryMB, job.shared)
    ensures r.Err? ==> r.error == if nodes == [] then NoNodes else NoCapacity
    ensures r.Ok? ==> exists i, j :: IsFirstGPU(nodes, i, j, job.memoryMB, job.shared)
                        && r.value == SchedulingResult(nodes[i].name, [nodes[i].gpus[j].id])
  {
    if nodes == [] {
      return Err(NoNodes);
    }
    for i := 0 to |nodes|
      invariant forall a, b :: 0 <= a < i && 0 <= b < |nodes[a].gpus| ==> !Eligible(nodes[a].gpus[b], job.memoryMB, job.shared)
    {
      for j := 0 to |nodes[i].gpus|
        invariant forall b :: 0 <= b < j ==> !Eligible(nodes[i].gpus[b], job.memoryMB, job.shared)
      {
        if Eligible(nodes[i].gpus[j], job.memoryMB, job.shared) {
          assert IsFirstGPU(nodes, i, j, job.memoryMB, job.shared);
          return Ok(SchedulingResult(nodes[i].name, [nodes[i].gpus[j].id]));
        }
      }
    }
    return Err(NoCapacity);
  }

  /** Node i is the first that fits, and placements are its first k eligible GPUs. */
  ghost predicate IsFirstGang(nodes: seq<Node>, i: int, placements: seq<GPUPlacement>, k: int, requiredMB: int, shared: bool) {
    && 0 <= i < |nodes| && 0 <= k
    && NodeFits(nodes[i], k, requiredMB, shared)
    && (forall a :: 0 <= a < i ==> !NodeFits(nodes[a], k, requiredMB, shared))
    && placements == PlacementsOn(nodes[i].name, EligibleGPUs(nodes[i].gpus, requiredMB, shared)[..k], requiredMB)
  }

  lemma PlacementsAppend(name: string, gpus: seq<GPU>, g: GPU, requiredMB: int)
    ensures PlacementsOn(name, gpus + [g], requiredMB) == PlacementsOn(name, gpus, requiredMB) + [GPUPlacement(name, g.id, requiredMB)]
  {
  }

  lemma PlacementsOfNone(name: string, requiredMB: int)
    ensures PlacementsOn(name, [], requiredMB) == []
  {
  }

  lemma EnoughIsPrefix(node: Node, j: nat, k: nat, requiredMB: int, shared: bool)
    requires j <= |node.gpus| && |EligibleUpTo(node.gpus, j, requiredMB, shared)| == k
    ensures NodeFits(node, k, requiredMB, shared)
    ensures EligibleUpTo(node.gpus, j, requiredMB, shared) == EligibleGPUs(node.gpus, requiredMB, shared)[..k]
  {
    hide Eligible, EligibleUpTo;
    EligibleOfPrefix(node.gpus, j, |node.gpus|, requiredMB, shared);
  }

  /** The inner loop: collect placements on one node until there are k of them. */
  method CollectUpTo(node: Node, k: nat, requiredMB: int, shared: bool) returns (placements: seq<GPUPlacement>)
    requires k > 0
    ensures |placements| >= k <==> NodeFits(node, k, requiredMB, shared)
    ensures |placements| >= k ==>
              placements == PlacementsOn(node.name, EligibleGPUs(node.gpus, requiredMB, shared)[..k], requiredMB)
  {
    assert EligibleUpTo(node.gpus, 0, requiredMB, shared) == [];
    assert EligibleGPUs(node.gpus, requiredMB, shared) == EligibleUpTo(node.gpus, |node.gpus|, requiredMB, shared);
    hide Eligible, EligibleUpTo, EligibleGPUs, PlacementsOn;
    placements := [];
    PlacementsOfNone(node.name, requiredMB);
    ghost var chosen: seq<GPU> := [];
    for j := 0 to |node.gpus|
      invariant |placements| == |chosen| < k && chosen == EligibleUpTo(node.gpus, j, requiredMB, shared)
      invariant placements == PlacementsOn(node.name, chosen, requiredMB)
    {
      var gpu := node.gpus[j];
      EligibleNext(node.gpus, j, requiredMB, shared);
      if Eligible(gpu, requiredMB, shared) {
        placements := placements + [GPUPlacement(node.name, gpu.id, requiredMB)];
        PlacementsAppend(node.name, chosen, gpu, requiredMB);
        chosen := chosen + [gpu];
        if |placements| >= k {
          EnoughIsPrefix(node, j + 1, k, requiredMB, shared);
          return;
        }
      }
    }
  }

  /** Same outcome condition as BinPacker.ScheduleGang for the three named modes; nothing of a node that did not
      fit is left in the result. */
  method ScheduleGang(job: Job, nodes: seq<Node>, k: int, mode: MemoryMode)
    returns (r: Result<seq<GPUPlacement>, ScheduleError>)
    ensures r.Ok? <==> k > 0 && mode != OtherMode
                       && SomeNodeFits(nodes, k, RequiredMB(job.memoryMB, k, mode), job.shared)
    ensures r.Err? ==> r.error == if nodes == [] then NoNodes
                                  else if k <= 0 then BadGPUCount
                                  else if mode == OtherMode then UnsupportedMode
                                  else NoCapacity
    ensures r.Ok? ==> k > 0 && exists i :: IsFirstGang(nodes, i, r.value, k, RequiredMB(job.memoryMB, k, mode), job.shared)
  {
    if nodes == [] {
      return Err(NoNodes);
    }
    if k <= 0 {
      return Err(BadGPUCount);
    }
    if mode == OtherMode {
      return Err(UnsupportedMode);
    }
    var requiredMB := RequiredMB(job.memoryMB, k, mode);
    var placements: seq<GPUPlacement> := [];
    var n := 0;
    while n < |nodes|
      invariant 0 <= n <= |nodes|
      invariant |placements| < k
      invariant forall a :: 0 <= a < n ==> !NodeFits(nodes[a], k, requiredMB, job.shared)
    {
      if |nodes[n].gpus| >= k {
        placements := CollectUpTo(nodes[n], k, requiredMB, job.shared);
        if |placements| >= k {
          break;
        }
      }
      n := n + 1;
    }
    if |placements| < k {
      return Err(NoCapacity);
    }
    assert IsFirstGang(nodes, n, placements, k, requiredMB, job.shared);
    return Ok(placements);
  }
}
