/** internal/scheduler/watcher.go: choosing a whole, unshared GPU for a prefill or decode pod. */
module Disagg {
  import opened Collections
  import opened Types

  datatype DisaggCandidate = DisaggCandidate(nodeName: string, gpuID: string, freeMB: int)

  predicate IsDisaggGPU(g: GPU, memoryMB: int) {
    g.healthy && !g.mps && g.allocatedPods <= 0 && g.AvailableMB() >= memoryMB
  }

  ghost predicate IsCandidate(nodes: seq<Node>, c: DisaggCandidate, memoryMB: int) {
    exists i, g :: 0 <= i < |nodes| && g in nodes[i].gpus && IsDisaggGPU(g, memoryMB)
      && c == DisaggCandidate(nodes[i].name, g.id, g.AvailableMB())
  }

  ghost predicate NodeOffers(nodes: seq<Node>, name: string, memoryMB: int) {
    exists c :: IsCandidate(nodes, c, memoryMB) && c.nodeName == name
  }

  /** c is the tightest candidate of the first preferred node that offers one, or of all nodes if none does. */
  ghost predicate IsDisaggChoice(nodes: seq<Node>, preferred: seq<string>, memoryMB: int, c: DisaggCandidate) {
    && IsCandidate(nodes, c, memoryMB)
    && if exists i :: 0 <= i < |preferred| && NodeOffers(nodes, preferred[i], memoryMB)
       then exists i :: 0 <= i < |preferred| && c.nodeName == preferred[i]
              && (forall j :: 0 <= j < i ==> !NodeOffers(nodes, preferred[j], memoryMB))
              && (forall d :: IsCandidate(nodes, d, memoryMB) && d.nodeName == preferred[i] ==> c.freeMB <= d.freeMB)
       else forall d :: IsCandidate(nodes, d, memoryMB) ==> c.freeMB <= d.freeMB
  }

  method CollectCandidates(nodes: seq<Node>, memoryMB: int) returns (r: seq<DisaggCandidate>)
    ensures forall c :: c in r <==> IsCandidate(nodes, c, memoryMB)
  {
    r := [];
    for n := 0 to |nodes|
      invariant forall c :: c in r ==> IsCandidate(nodes, c, memoryMB)
      invariant forall i, g :: 0 <= i < n && g in nodes[i].gpus && IsDisaggGPU(g, memoryMB)
                  ==> DisaggCandidate(nodes[i].name, g.id, g.AvailableMB()) in r
    {
      var gpus := nodes[n].gpus;
      for k := 0 to |gpus|
        invariant forall c :: c in r ==> IsCandidate(nodes, c, memoryMB)
        invariant forall i, g :: 0 <= i < n && g in nodes[i].gpus && IsDisaggGPU(g, memoryMB)
                    ==> DisaggCandidate(nodes[i].name, g.id, g.AvailableMB()) in r
        invariant forall b :: 0 <= b < k && IsDisaggGPU(gpus[b], memoryMB)
                    ==> DisaggCandidate(nodes[n].name, gpus[b].id, gpus[b].AvailableMB()) in r
      {
        if IsDisaggGPU(gpus[k], memoryMB) {
          var c := DisaggCandidate(nodes[n].name, gpus[k].id, gpus[k].AvailableMB());
          assert gpus[k] in nodes[n].gpus;
          assert IsCandidate(nodes, c, memoryMB);
          r := r + [c];
        }
      }
    }
  }

  method SelectBest(candidates: seq<DisaggCandidate>) returns (best: Option<DisaggCandidate>)
    ensures best.None? <==> candidates == []
    ensures best.Some? ==> best.value in candidates && forall c :: c in candidates ==> best.value.freeMB <= c.freeMB
  {
    if candidates == [] {
      return None;
    }
    var b := candidates[0];
    for i := 1 to |candidates|
      invariant b in candidates && forall j :: 0 <= j < i ==> b.freeMB <= candidates[j].freeMB
    {
      if candidates[i].freeMB < b.freeMB {
        b := candidates[i];
      }
    }
    return Some(b);
  }

  method SelectBestForNode(candidates: seq<DisaggCandidate>, nodeName: string) returns (best: Option<DisaggCandidate>)
    ensures best.None? <==> forall c :: c in candidates ==> c.nodeName != nodeName
    ensures best.Some? ==> best.value in candidates && best.value.nodeName == nodeName
    ensures best.Some? ==> forall c :: c in candidates && c.nodeName == nodeName ==> best.value.freeMB <= c.freeMB
  {
    var matching: seq<DisaggCandidate> := [];
    for i := 0 to |candidates|
      invariant forall c :: c in matching ==> c in candidates && c.nodeName == nodeName
      invariant forall j :: 0 <= j < i && candidates[j].nodeName == nodeName ==> candidates[j] in matching
    {
      if candidates[i].nodeName == nodeName {
        matching := matching + [candidates[i]];
      }
    }
    best := SelectBest(matching);
  }

  method SelectDisaggFullGPUCandidate(nodes: seq<Node>, preferred: seq<string>, memoryMB: int) returns (r: Option<DisaggCandidate>)
    ensures r.None? <==> forall c :: !IsCandidate(nodes, c, memoryMB)
    ensures r.Some? ==> IsDisaggChoice(nodes, preferred, memoryMB, r.value)
  {
    var candidates := CollectCandidates(nodes, memoryMB);
    hide IsCandidate;
    if candidates == [] {
      return None;
    }
    assert candidates[0] in candidates;
    for i := 0 to |preferred|
      invariant forall j :: 0 <= j < i ==> !NodeOffers(nodes, preferred[j], memoryMB)
    {
      r := SelectBestForNode(candidates, preferred[i]);
      if r.Some? {
        assert NodeOffers(nodes, preferred[i], memoryMB);
        return;
      }
    }
    r := SelectBest(candidates);
  }
}
