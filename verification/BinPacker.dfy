/** internal/allocator/binpack.go: best-fit placement of one-GPU jobs and of multi-GPU jobs. */
module BinPacker {
  import opened Collections
  import opened Types

  datatype Candidate = Candidate(nodeName: string, gpu: GPU, waste: int)

  datatype GangCandidate = GangCandidate(nodeName: string, gpus: seq<GPU>, totalWaste: int)

  /** Memory left over on a GPU after the request. */
  function WasteOf(requiredMB: int): GPU -> int {
    (g: GPU) => g.AvailableMB() - requiredMB
  }

  function TotalWaste(gpus: seq<GPU>, requiredMB: int): int {
    Sum(gpus, WasteOf(requiredMB))
  }

  /** The memory that nobody uses on these GPUs, before the request. */
  function FreeMB(gpus: seq<GPU>): int {
    if gpus == [] then 0 else gpus[0].totalMB - gpus[0].usedMB + FreeMB(gpus[1..])
  }

  /** The waste of a choice is its free memory less what is asked for. */
  lemma {:induction false} WasteIsFreeMemory(gpus: seq<GPU>, requiredMB: int)
    ensures TotalWaste(gpus, requiredMB) == FreeMB(gpus) - |gpus| * requiredMB
  {
    if gpus != [] {
      WasteIsFreeMemory(gpus[1..], requiredMB);
    }
  }

  // ---------- One GPU ----------

  /** Less waste is better; between equals the busier GPU. */
  predicate BetterFit(a: Candidate, b: Candidate) {
    a.waste < b.waste || (a.waste == b.waste && a.gpu.utilization > b.gpu.utilization)
  }

  ghost predicate IsCandidate(nodes: seq<Node>, c: Candidate, requiredMB: int, shared: bool) {
    && Eligible(c.gpu, requiredMB, shared)
    && c.waste == WasteOf(requiredMB)(c.gpu)
    && exists i :: 0 <= i < |nodes| && nodes[i].name == c.nodeName && c.gpu in nodes[i].gpus
  }

  method FindCandidates(requiredMB: int, nodes: seq<Node>, shared: bool)
    returns (r: Result<seq<Candidate>, ScheduleError>)
    ensures r.Ok? <==> SomeGPUFits(nodes, requiredMB, shared)
    ensures r.Err? ==> r.error == NoCapacity
    ensures r.Ok? ==> r.value != [] && forall c :: c in r.value ==> IsCandidate(nodes, c, requiredMB, shared)
    ensures r.Ok? ==> forall i, g :: 0 <= i < |nodes| && g in nodes[i].gpus && Eligible(g, requiredMB, shared)
                        ==> Candidate(nodes[i].name, g, WasteOf(requiredMB)(g)) in r.value
  {
    var candidates: seq<Candidate> := [];
    for n := 0 to |nodes|
      invariant forall c :: c in candidates ==> IsCandidate(nodes, c, requiredMB, shared)
      invariant forall i, g :: 0 <= i < n && g in nodes[i].gpus && Eligible(g, requiredMB, shared)
                  ==> Candidate(nodes[i].name, g, WasteOf(requiredMB)(g)) in candidates
    {
      var gpus := nodes[n].gpus;
      for k := 0 to |gpus|
        invariant forall c :: c in candidates ==> IsCandidate(nodes, c, requiredMB, shared)
        invariant forall i, g :: 0 <= i < n && g in nodes[i].gpus && Eligible(g, requiredMB, shared)
                    ==> Candidate(nodes[i].name, g, WasteOf(requiredMB)(g)) in candidates
        invariant forall g :: g in gpus[..k] && Eligible(g, requiredMB, shared)
                    ==> Candidate(nodes[n].name, g, WasteOf(requiredMB)(g)) in candidates
      {
        if Eligible(gpus[k], requiredMB, shared) {
          candidates := candidates + [Candidate(nodes[n].name, gpus[k], WasteOf(requiredMB)(gpus[k]))];
        }
      }
      assert gpus[..|gpus|] == gpus;
    }
    if candidates == [] {
      return Err(NoCapacity);
    }
    assert candidates[0] in candidates;
    return Ok(candidates);
  }

  method SelectBestFit(candidates: seq<Candidate>) returns (best: Candidate)
    requires candidates != []
    ensures best in candidates
    ensures forall c :: c in candidates ==> !BetterFit(c, best)
  {
    best := candidates[0];
    for i := 1 to |candidates|
      invariant best in candidates
      invariant forall j :: 0 <= j < i ==> !BetterFit(candidates[j], best)
    {
      if BetterFit(candidates[i], best) {
        best := candidates[i];
      }
    }
  }

  /** The chosen GPU is eligible, and every eligible GPU of any node has more free memory, or as much and is no busier. */
  ghost predicate IsBestGPU(nodes: seq<Node>, best: Candidate, requiredMB: int, shared: bool) {
    && IsCandidate(nodes, best, requiredMB, shared)
    && forall i, g :: 0 <= i < |nodes| && g in nodes[i].gpus && Eligible(g, requiredMB, shared)
         ==> var free, least := g.totalMB - g.usedMB, best.gpu.totalMB - best.gpu.usedMB;
             free > least || (free == least && g.utilization <= best.gpu.utilization)
  }

  method Schedule(job: Job, nodes: seq<Node>) returns (r: Result<SchedulingResult, ScheduleError>)
    ensures r.Ok? <==> SomeGPUFits(nodes, job.memoryMB, job.shared)
    ensures r.Err? ==> r.error == if nodes == [] then NoNodes else NoCapacity
    ensures r.Ok? ==> exists best :: IsBestGPU(nodes, best, job.memoryMB, job.shared)
                        && r.value == SchedulingResult(best.nodeName, [best.gpu.id])
  {
    if nodes == [] {
      return Err(NoNodes);
    }
    var found := FindCandidates(job.memoryMB, nodes, job.shared);
    if found.Err? {
      return Err(found.error);
    }
    var best := SelectBestFit(found.value);
    assert IsBestGPU(nodes, best, job.memoryMB, job.shared);
    return Ok(SchedulingResult(best.nodeName, [best.gpu.id]));
  }

  // ---------- Several GPUs of one node ----------

  /** c offers k eligible GPUs of the node, and no k eligible GPUs of that node waste less. */
  ghost predicate IsBestOfNode(node: Node, c: GangCandidate, k: int, requiredMB: int, shared: bool) {
    && c.nodeName == node.name
    && IsChoice(node, c.gpus, k, requiredMB, shared)
    && c.totalWaste == TotalWaste(c.gpus, requiredMB)
    && forall choice :: IsChoice(node, choice, k, requiredMB, shared) ==> c.totalWaste <= TotalWaste(choice, requiredMB)
  }

  method CollectEligible(gpus: seq<GPU>, requiredMB: int, shared: bool) returns (eligible: seq<GPU>)
    ensures eligible == EligibleGPUs(gpus, requiredMB, shared)
  {
    eligible := [];
    for i := 0 to |gpus|
      invariant eligible == EligibleUpTo(gpus, i, requiredMB, shared)
    {
      if Eligible(gpus[i], requiredMB, shared) {
        eligible := eligible + [gpus[i]];
      }
    }
  }

  /** Sort the eligible GPUs by waste and take the first k. */
  method BestOfNode(node: Node, eligible: seq<GPU>, k: nat, requiredMB: int, shared: bool) returns (c: GangCandidate)
    requires eligible == EligibleGPUs(node.gpus, requiredMB, shared) && k <= |eligible|
    ensures IsBestOfNode(node, c, k, requiredMB, shared)
  {
    var sorted := SortSlice(eligible, (a: GPU, b: GPU) => WasteOf(requiredMB)(a) < WasteOf(requiredMB)(b));
    var gpus: seq<GPU> := [];
    var totalWaste := 0;
    for i := 0 to k
      invariant gpus == sorted[..i]
      invariant totalWaste == TotalWaste(gpus, requiredMB)
    {
      SumAppend(gpus, sorted[i], WasteOf(requiredMB));
      gpus := gpus + [sorted[i]];
      totalWaste := totalWaste + WasteOf(requiredMB)(sorted[i]);
    }
    c := GangCandidate(node.name, gpus, totalWaste);
    SortedPrefixIsBest(node, sorted, k, requiredMB, shared);
  }

  lemma SortedPrefixIsBest(node: Node, sorted: seq<GPU>, k: nat, requiredMB: int, shared: bool)
    requires multiset(sorted) == multiset(EligibleGPUs(node.gpus, requiredMB, shared))
    requires Ascending(sorted, WasteOf(requiredMB)) && k <= |sorted|
    ensures IsChoice(node, sorted[..k], k, requiredMB, shared)
    ensures forall choice :: IsChoice(node, choice, k, requiredMB, shared)
              ==> TotalWaste(sorted[..k], requiredMB) <= TotalWaste(choice, requiredMB)
  {
    assert sorted == sorted[..k] + sorted[k..];
    forall choice | IsChoice(node, choice, k, requiredMB, shared)
      ensures TotalWaste(sorted[..k], requiredMB) <= TotalWaste(choice, requiredMB)
    {
      PrefixIsLeast(sorted, choice, WasteOf(requiredMB));
    }
  }

  /** The nodes among the first n that can host the gang, in order. */
  function Fitting(nodes: seq<Node>, n: nat, k: int, requiredMB: int, shared: bool): seq<Node>
    requires n <= |nodes|
  {
    if n == 0 then []
    else if NodeFits(nodes[n - 1], k, requiredMB, shared) then Fitting(nodes, n - 1, k, requiredMB, shared) + [nodes[n - 1]]
    else Fitting(nodes, n - 1, k, requiredMB, shared)
  }

  lemma {:induction false} FittingFits(nodes: seq<Node>, n: nat, k: int, requiredMB: int, shared: bool, node: Node)
    requires n <= |nodes|
    ensures node in Fitting(nodes, n, k, requiredMB, shared) <==> node in nodes[..n] && NodeFits(node, k, requiredMB, shared)
  {
    if n > 0 {
      FittingFits(nodes, n - 1, k, requiredMB, shared, node);
      assert nodes[..n] == nodes[..n - 1] + [nodes[n - 1]];
    }
  }

  /** One optimum for each of these nodes, in their order. */
  ghost predicate AreBestOf(candidates: seq<GangCandidate>, nodes: seq<Node>, k: int, requiredMB: int, shared: bool) {
    |candidates| == |nodes| && forall i :: 0 <= i < |nodes| ==> IsBestOfNode(nodes[i], candidates[i], k, requiredMB, shared)
  }

  /** The candidates found so far: one optimum for each of the first n nodes that fits. */
  ghost predicate Collected(candidates: seq<GangCandidate>, nodes: seq<Node>, n: nat, k: int, requiredMB: int, shared: bool)
    requires n <= |nodes|
  {
    AreBestOf(candidates, Fitting(nodes, n, k, requiredMB, shared), k, requiredMB, shared)
  }

  method FindGangCandidates(k: nat, requiredMB: int, nodes: seq<Node>, shared: bool)
    returns (r: Result<seq<GangCandidate>, ScheduleError>)
    ensures r.Ok? <==> SomeNodeFits(nodes, k, requiredMB, shared)
    ensures r.Err? ==> r.error == NoCapacity
    ensures r.Ok? ==> r.value != [] && Collected(r.value, nodes, |nodes|, k, requiredMB, shared)
  {
    var candidates: seq<GangCandidate> := [];
    for n := 0 to |nodes|
      invariant Collected(candidates, nodes, n, k, requiredMB, shared)
    {
      hide IsBestOfNode;
      if |nodes[n].gpus| >= k {
        var eligible := CollectEligible(nodes[n].gpus, requiredMB, shared);
        if |eligible| >= k {
          var c := BestOfNode(nodes[n], eligible, k, requiredMB, shared);
          candidates := candidates + [c];
        }
      }
    }
    CollectedDecides(candidates, nodes, k, requiredMB, shared);
    if candidates == [] {
      return Err(NoCapacity);
    }
    return Ok(candidates);
  }

  lemma CollectedDecides(candidates: seq<GangCandidate>, nodes: seq<Node>, k: nat, requiredMB: int, shared: bool)
    requires Collected(candidates, nodes, |nodes|, k, requiredMB, shared)
    ensures candidates != [] <==> SomeNodeFits(nodes, k, requiredMB, shared)
  {
    hide Fitting, NodeFits, IsBestOfNode;
    var fitting := Fitting(nodes, |nodes|, k, requiredMB, shared);
    assert nodes[..|nodes|] == nodes;
    if candidates != [] {
      FittingFits(nodes, |nodes|, k, requiredMB, shared, fitting[0]);
      var i :| 0 <= i < |nodes| && nodes[i] == fitting[0];
    }
    if i :| 0 <= i < |nodes| && NodeFits(nodes[i], k, requiredMB, shared) {
      FittingFits(nodes, |nodes|, k, requiredMB, shared, nodes[i]);
    }
  }

  method SelectGangSchedulerBestFit(candidates: seq<GangCandidate>) returns (best: GangCandidate)
    requires candidates != []
    ensures best in candidates
    ensures forall c :: c in candidates ==> best.totalWaste <= c.totalWaste
  {
    best := candidates[0];
    for i := 1 to |candidates|
      invariant best in candidates
      invariant forall j :: 0 <= j < i ==> best.totalWaste <= candidates[j].totalWaste
    {
      if candidates[i].totalWaste < best.totalWaste {
        best := candidates[i];
      }
    }
  }

  /** chosen are k eligible GPUs of node, and no k eligible GPUs of any single node have less free memory in total. */
  ghost predicate OptimalGang(nodes: seq<Node>, node: Node, chosen: seq<GPU>, k: int, requiredMB: int, shared: bool) {
    && node in nodes
    && IsChoice(node, chosen, k, requiredMB, shared)
    && forall other, choice :: other in nodes && IsChoice(other, choice, k, requiredMB, shared)
         ==> FreeMB(chosen) <= FreeMB(choice)
  }

  /** The optimality theorem: success exactly when some node has k eligible GPUs, and then the choice is optimal
      over all choices on all nodes. */
  method ScheduleGang(job: Job, nodes: seq<Node>, k: int, mode: MemoryMode)
    returns (r: Result<seq<GPUPlacement>, ScheduleError>)
    ensures r.Ok? <==> k > 0 && SomeNodeFits(nodes, k, RequiredMB(job.memoryMB, k, mode), job.shared)
    ensures r.Err? ==> r.error == if k <= 0 then BadGPUCount else NoCapacity
    ensures r.Ok? ==> k > 0 && var requiredMB := RequiredMB(job.memoryMB, k, mode);
                      exists node, chosen :: OptimalGang(nodes, node, chosen, k, requiredMB, job.shared)
                        && r.value == PlacementsOn(node.name, chosen, requiredMB)
  {
    if k <= 0 {
      return Err(BadGPUCount);
    }
    var requiredMB := RequiredMB(job.memoryMB, k, mode);
    var found := FindGangCandidates(k, requiredMB, nodes, job.shared);
    if found.Err? {
      return Err(found.error);
    }
    var best := CheapestCandidate(found.value);
    ghost var node := ArgminIsOptimal(nodes, found.value, best, k, requiredMB, job.shared);
    var placements := Emit(best, requiredMB);
    return Ok(placements);
  }

  /** Sort by total waste, then scan for the least. */
  method CheapestCandidate(found: seq<GangCandidate>) returns (best: GangCandidate)
    requires found != []
    ensures best in found
    ensures forall c :: c in found ==> best.totalWaste <= c.totalWaste
  {
    var candidates := SortSlice(found, (a: GangCandidate, b: GangCandidate) => a.totalWaste < b.totalWaste);
    assert forall c :: c in found <==> c in multiset(found);
    assert forall c :: c in candidates <==> c in multiset(candidates);
    best := SelectGangSchedulerBestFit(candidates);
  }

  method Emit(best: GangCandidate, requiredMB: int) returns (placements: seq<GPUPlacement>)
    ensures placements == PlacementsOn(best.nodeName, best.gpus, requiredMB)
  {
    placements := [];
    for i := 0 to |best.gpus|
      invariant placements == PlacementsOn(best.nodeName, best.gpus[..i], requiredMB)
    {
      placements := placements + [GPUPlacement(best.nodeName, best.gpus[i].id, requiredMB)];
    }
    assert best.gpus[..|best.gpus|] == best.gpus;
  }

  /** The least of the per-node optima is an optimum over all nodes. */
  lemma ArgminIsOptimal(nodes: seq<Node>, candidates: seq<GangCandidate>, best: GangCandidate,
                        k: nat, requiredMB: int, shared: bool) returns (node: Node)
    requires best in candidates && forall c :: c in candidates ==> best.totalWaste <= c.totalWaste
    requires Collected(candidates, nodes, |nodes|, k, requiredMB, shared)
    ensures OptimalGang(nodes, node, best.gpus, k, requiredMB, shared) && node.name == best.nodeName
  {
    hide Fitting, NodeFits, IsChoice;
    assert nodes[..|nodes|] == nodes;
    var fitting := Fitting(nodes, |nodes|, k, requiredMB, shared);
    var i :| 0 <= i < |candidates| && candidates[i] == best;
    node := fitting[i];
    FittingFits(nodes, |nodes|, k, requiredMB, shared, node);
    BestIsChoice(fitting, candidates, i, k, requiredMB, shared);
    forall other, choice | other in nodes && IsChoice(other, choice, k, requiredMB, shared)
      ensures FreeMB(best.gpus) <= FreeMB(choice)
    {
      ChoiceNeedsFit(other, choice, k, requiredMB, shared);
      FittingFits(nodes, |nodes|, k, requiredMB, shared, other);
      LeastIsAtMost(fitting, candidates, best, i, other, choice, k, requiredMB, shared);
    }
  }

  lemma BestIsChoice(fitting: seq<Node>, candidates: seq<GangCandidate>, i: nat, k: nat, requiredMB: int, shared: bool)
    requires AreBestOf(candidates, fitting, k, requiredMB, shared) && i < |candidates|
    ensures |candidates[i].gpus| == k && IsChoice(fitting[i], candidates[i].gpus, k, requiredMB, shared)
  {
  }

  lemma LeastIsAtMost(fitting: seq<Node>, candidates: seq<GangCandidate>, best: GangCandidate, i: nat, other: Node, choice: seq<GPU>,
                      k: nat, requiredMB: int, shared: bool)
    requires AreBestOf(candidates, fitting, k, requiredMB, shared)
    requires i < |candidates| && candidates[i] == best && forall c :: c in candidates ==> best.totalWaste <= c.totalWaste
    requires other in fitting && IsChoice(other, choice, k, requiredMB, shared)
    ensures TotalWaste(best.gpus, requiredMB) <= TotalWaste(choice, requiredMB)
    ensures |best.gpus| == |choice| && FreeMB(best.gpus) <= FreeMB(choice)
  {
    BestIsChoice(fitting, candidates, i, k, requiredMB, shared);
    WasteIsFreeMemory(best.gpus, requiredMB);
    WasteIsFreeMemory(choice, requiredMB);
    assert |choice| == k;
    hide IsChoice, TotalWaste, FreeMB;
    var j :| 0 <= j < |fitting| && fitting[j] == other;
    assert best.totalWaste <= candidates[j].totalWaste <= TotalWaste(choice, requiredMB);
  }
}
