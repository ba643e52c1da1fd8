/** internal/allocator/strategy.go: the interface both schedulers implement, and the contract its callers rely on. */
module Strategy {
  import opened Collections
  import opened Types
  import BinPacker
  import Fifo

  /** queue.defaultPolicy of the configuration. */
  datatype Policy = BinPack | FirstFit

  /** The ids are those of k eligible GPUs of one node, each position used at most once. */
  ghost predicate Places(nodes: seq<Node>, nodeName: string, gpuIDs: seq<string>, k: int, requiredMB: int, shared: bool) {
    exists node, chosen :: PlacesOn(nodes, node, chosen, nodeName, gpuIDs, k, requiredMB, shared)
  }

  ghost predicate PlacesOn(nodes: seq<Node>, node: Node, chosen: seq<GPU>, nodeName: string, gpuIDs: seq<string>,
                           k: int, requiredMB: int, shared: bool)
  {
    && node in nodes && node.name == nodeName
    && IsChoice(node, chosen, k, requiredMB, shared)
    && gpuIDs == IDs(chosen)
  }

  function IDs(gpus: seq<GPU>): (r: seq<string>) {
    seq(|gpus|, i requires 0 <= i < |gpus| => gpus[i].id)
  }

  function PlacementIDs(placements: seq<GPUPlacement>): (r: seq<string>) {
    seq(|placements|, i requires 0 <= i < |placements| => placements[i].gpuID)
  }

  /** What a gang result promises: k placements of the required memory on one node, on GPUs chosen by Places. */
  ghost predicate GangPlaced(nodes: seq<Node>, placements: seq<GPUPlacement>, k: int, requiredMB: int, shared: bool) {
    && k > 0 && |placements| == k
    && (forall i :: 0 <= i < k ==> placements[i].memoryMB == requiredMB && placements[i].nodeName == placements[0].nodeName)
    && Places(nodes, placements[0].nodeName, PlacementIDs(placements), k, requiredMB, shared)
  }

  lemma PlacementsOnArePlaced(nodes: seq<Node>, node: Node, chosen: seq<GPU>, k: int, requiredMB: int, shared: bool)
    requires k > 0 && node in nodes && IsChoice(node, chosen, k, requiredMB, shared)
    ensures GangPlaced(nodes, PlacementsOn(node.name, chosen, requiredMB), k, requiredMB, shared)
  {
    var placements := PlacementsOn(node.name, chosen, requiredMB);
    assert PlacementIDs(placements) == IDs(chosen);
    assert PlacesOn(nodes, node, chosen, node.name, IDs(chosen), k, requiredMB, shared);
  }

  lemma OneGPUIsPlaced(nodes: seq<Node>, i: int, g: GPU, requiredMB: int, shared: bool)
    requires 0 <= i < |nodes| && g in nodes[i].gpus && Eligible(g, requiredMB, shared)
    ensures Places(nodes, nodes[i].name, [g.id], 1, requiredMB, shared)
  {
    assert g in multiset(nodes[i].gpus);
    EligibleCount(nodes[i].gpus, requiredMB, shared, g);
    assert IDs([g]) == [g.id];
    assert PlacesOn(nodes, nodes[i], [g], nodes[i].name, [g.id], 1, requiredMB, shared);
  }

  /** The first k eligible GPUs are a choice. */
  lemma FirstEligibleIsChoice(node: Node, k: nat, requiredMB: int, shared: bool)
    requires NodeFits(node, k, requiredMB, shared)
    ensures IsChoice(node, EligibleGPUs(node.gpus, requiredMB, shared)[..k], k, requiredMB, shared)
  {
    var eligible := EligibleGPUs(node.gpus, requiredMB, shared);
    assert eligible == eligible[..k] + eligible[k..];
  }

  /** The GPUs that the policy takes: a least-waste choice over all nodes, or the first k eligible GPUs of the first node
      that fits. */
  ghost predicate PolicyChoice(policy: Policy, nodes: seq<Node>, node: Node, chosen: seq<GPU>, k: int, requiredMB: int, shared: bool) {
    match policy
    case BinPack => BinPacker.OptimalGang(nodes, node, chosen, k, requiredMB, shared)
    case FirstFit =>
      && 0 <= k && IsFirstFitting(nodes, node, k, requiredMB, shared)
      && chosen == EligibleGPUs(node.gpus, requiredMB, shared)[..k]
  }

  ghost predicate IsFirstFitting(nodes: seq<Node>, node: Node, k: int, requiredMB: int, shared: bool) {
    && NodeFits(node, k, requiredMB, shared)
    && exists i :: 0 <= i < |nodes| && nodes[i] == node && forall a :: 0 <= a < i ==> !NodeFits(nodes[a], k, requiredMB, shared)
  }

  ghost predicate PolicyPlaced(policy: Policy, nodes: seq<Node>, placements: seq<GPUPlacement>, k: int, requiredMB: int, shared: bool) {
    exists node, chosen ::
      PolicyChoice(policy, nodes, node, chosen, k, requiredMB, shared) && placements == PlacementsOn(node.name, chosen, requiredMB)
  }

  lemma PolicyChoiceIsChoice(policy: Policy, nodes: seq<Node>, node: Node, chosen: seq<GPU>, k: int, requiredMB: int, shared: bool)
    requires PolicyChoice(policy, nodes, node, chosen, k, requiredMB, shared)
    ensures node in nodes && IsChoice(node, chosen, k, requiredMB, shared)
  {
    if policy == FirstFit {
      FirstEligibleIsChoice(node, k, requiredMB, shared);
    }
  }

  /** Either policy places a one-GPU job exactly when some GPU fits, and only on an eligible GPU. */
  method Schedule(policy: Policy, job: Job, nodes: seq<Node>) returns (r: Result<SchedulingResult, ScheduleError>)
    ensures r.Ok? <==> SomeGPUFits(nodes, job.memoryMB, job.shared)
    ensures r.Ok? ==> |r.value.gpuIDs| == 1 && Places(nodes, r.value.nodeName, r.value.gpuIDs, 1, job.memoryMB, job.shared)
  {
    match policy
    case BinPack =>
      r := BinPacker.Schedule(job, nodes);
      if r.Ok? {
        ghost var best :| BinPacker.IsBestGPU(nodes, best, job.memoryMB, job.shared)
                          && r.value == SchedulingResult(best.nodeName, [best.gpu.id]);
        ghost var i :| 0 <= i < |nodes| && nodes[i].name == best.nodeName && best.gpu in nodes[i].gpus;
        OneGPUIsPlaced(nodes, i, best.gpu, job.memoryMB, job.shared);
      }
    case FirstFit =>
      r := Fifo.Schedule(job, nodes);
      if r.Ok? {
        ghost var i, j :| Fifo.IsFirstGPU(nodes, i, j, job.memoryMB, job.shared)
                          && r.value == SchedulingResult(nodes[i].name, [nodes[i].gpus[j].id]);
        OneGPUIsPlaced(nodes, i, nodes[i].gpus[j], job.memoryMB, job.shared);
      }
  }

  /** Same feasibility, two algorithms: in a named memory mode both policies succeed exactly when some node has
      k eligible GPUs. */
  method ScheduleGang(policy: Policy, job: Job, nodes: seq<Node>, k: int, mode: MemoryMode)
    returns (r: Result<seq<GPUPlacement>, ScheduleError>)
    ensures mode != OtherMode ==>
              (r.Ok? <==> k > 0 && SomeNodeFits(nodes, k, RequiredMB(job.memoryMB, k, mode), job.shared))
    ensures r.Ok? ==> k > 0 && GangPlaced(nodes, r.value, k, RequiredMB(job.memoryMB, k, mode), job.shared)
    ensures r.Ok? ==> PolicyPlaced(policy, nodes, r.value, k, RequiredMB(job.memoryMB, k, mode), job.shared)
  {
    match policy
    case BinPack =>
      r := BinPacker.ScheduleGang(job, nodes, k, mode);
      if r.Ok? {
        ghost var requiredMB := RequiredMB(job.memoryMB, k, mode);
        ghost var node, chosen :| BinPacker.OptimalGang(nodes, node, chosen, k, requiredMB, job.shared)
                                  && r.value == PlacementsOn(node.name, chosen, requiredMB);
        ByPolicy(policy, nodes, node, chosen, r.value, k, requiredMB, job.shared);
      }
    case FirstFit =>
      r := Fifo.ScheduleGang(job, nodes, k, mode);
      if r.Ok? {
        ghost var requiredMB := RequiredMB(job.memoryMB, k, mode);
        ghost var i :| Fifo.IsFirstGang(nodes, i, r.value, k, requiredMB, job.shared);
        ByPolicy(policy, nodes, nodes[i], EligibleGPUs(nodes[i].gpus, requiredMB, job.shared)[..k], r.value, k, requiredMB, job.shared);
      }
  }

  lemma ByPolicy(policy: Policy, nodes: seq<Node>, node: Node, chosen: seq<GPU>, placements: seq<GPUPlacement>,
                 k: int, requiredMB: int, shared: bool)
    requires k > 0 && PolicyChoice(policy, nodes, node, chosen, k, requiredMB, shared)
    requires placements == PlacementsOn(node.name, chosen, requiredMB)
    ensures GangPlaced(nodes, placements, k, requiredMB, shared) && PolicyPlaced(policy, nodes, placements, k, requiredMB, shared)
  {
    PolicyChoiceIsChoice(policy, nodes, node, chosen, k, requiredMB, shared);
    PlacementsOnArePlaced(nodes, node, chosen, k, requiredMB, shared);
  }
}
