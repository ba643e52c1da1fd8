/** internal/gpu/registry.go: the registry object. Each method is one critical section of its mutex. */
module Registry {
  import opened Collections
  import opened Types
  import opened Ledger
  import opened Pods

  datatype GPUCandidate = GPUCandidate(nodeName: string, gpuUUID: string, freeMB: int, podCount: int, mpsEnabled: bool)

  datatype MIGCandidate = MIGCandidate(nodeName: string, gpuUUID: string, migUUID: string, memoryMB: int, podCount: int)

  // ---------- What the searches look for ----------

  /** A whole GPU with enough unreserved memory. */
  predicate FitsFull(s: State, n: string, g: GPUInfo, minMB: int) {
    !g.migEnabled && g.healthy && ReportedFree(g) - s.Reserved(n, g.uuid) >= minMB
  }

  function FullCandidate(s: State, n: string, g: GPUInfo): GPUCandidate {
    GPUCandidate(n, g.uuid, ReportedFree(g) - s.Reserved(n, g.uuid), s.PodCount(n, g.uuid), g.mpsEnabled)
  }

  ghost predicate IsFullCandidate(s: State, c: GPUCandidate, minMB: int) {
    c.nodeName in s.nodes && exists g :: g in s.nodes[c.nodeName].gpus && FitsFull(s, c.nodeName, g, minMB) && c == FullCandidate(s, c.nodeName, g)
  }

  /** cs lists the fitting GPUs that satisfy p, and no others. */
  ghost predicate FullCandidates(s: State, cs: seq<GPUCandidate>, minMB: int, p: GPUCandidate -> bool) {
    && (forall c :: c in cs ==> IsFullCandidate(s, c, minMB) && p(c))
    && (forall n, g :: n in s.nodes && g in s.nodes[n].gpus && FitsFull(s, n, g, minMB) && p(FullCandidate(s, n, g))
          ==> FullCandidate(s, n, g) in cs)
  }

  const AnyGPU := (c: GPUCandidate) => true
  const MPSOnly := (c: GPUCandidate) => c.mpsEnabled
  const FreeNonMPS := (c: GPUCandidate) => !c.mpsEnabled && c.podCount == 0

  predicate FitsMIG(g: GPUInfo, m: MIGInstance, minMB: int) {
    g.migEnabled && g.healthy && m.available && m.memoryMB >= minMB
  }

  function MIGCandidateOf(s: State, n: string, g: GPUInfo, m: MIGInstance): MIGCandidate {
    MIGCandidate(n, g.uuid, m.uuid, m.memoryMB, s.PodCount(n, g.uuid))
  }

  ghost predicate IsMIGCandidate(s: State, c: MIGCandidate, minMB: int) {
    && c.nodeName in s.nodes
    && exists g, m :: g in s.nodes[c.nodeName].gpus && m in g.migInstances && FitsMIG(g, m, minMB)
         && c == MIGCandidateOf(s, c.nodeName, g, m)
  }

  ghost predicate MIGCandidates(s: State, cs: seq<MIGCandidate>, minMB: int) {
    && (forall c :: c in cs ==> IsMIGCandidate(s, c, minMB))
    && (forall n, g, m :: n in s.nodes && g in s.nodes[n].gpus && m in g.migInstances && FitsMIG(g, m, minMB)
          ==> MIGCandidateOf(s, n, g, m) in cs)
  }

  /** Mark from the state in which node n has its row. */
  lemma MarkFromRow(s: State, row: State, n: string, g: string, memoryMB: int, key: string)
    requires s.reservations.Keys == s.podCounts.Keys && row == WithRow(s, n)
    ensures n in row.reservations && n in row.podCounts
    ensures var reservations := Store(row.reservations, n, g, Lookup(row.reservations, n, g) + memoryMB);
            var podCounts := Store(row.podCounts, n, g, Lookup(row.podCounts, n, g) + 1);
            && reservations.Keys == podCounts.Keys
            && Mark(s, n, g, memoryMB, key)
               == row.(reservations := reservations, podCounts := podCounts,
                       allocs := row.allocs[key := row.EntriesOf(key) + [Entry(n, g, memoryMB, false)]])
  {
    RowReads(s, row, n, g);
    hide Lookup, WithRow;
  }

  lemma RowReads(s: State, row: State, n: string, g: string)
    requires row == WithRow(s, n)
    ensures n in row.reservations && row.Reserved(n, g) == s.Reserved(n, g) && row.allocs == s.allocs
    ensures s.reservations.Keys == s.podCounts.Keys ==> n in row.podCounts && row.PodCount(n, g) == s.PodCount(n, g)
  {
  }

  class Registry {
    var nodes: map<string, NodeGPUs>
    var lastSeen: map<string, int>
    var reservations: Table
    var podCounts: Table
    var allocs: map<string, seq<Entry>>

    /** The two tables get and lose rows together. */
    ghost predicate Valid()
      reads this
    {
      reservations.Keys == podCounts.Keys
    }

    function Value(): State
      reads this
    {
      State(nodes, lastSeen, reservations, podCounts, allocs)
    }

    constructor ()
      ensures Valid() && Value() == EMPTY
    {
      nodes, lastSeen, reservations, podCounts, allocs := map[], map[], map[], map[], map[];
    }

    method UpdateFromReport(n: string, hasNVLink: bool, gpus: seq<GPUInfo>, now: int)
      requires Valid()
      modifies this
      ensures Valid() && Value() == Report(old(Value()), n, hasNVLink, gpus, now)
      ensures n in nodes && nodes[n].gpus == gpus && nodes[n].hasNVLink == hasNVLink && n in lastSeen && lastSeen[n] == now
    {
      lastSeen := lastSeen[n := now];
      nodes := nodes[n := NodeGPUs(hasNVLink, now, gpus)];
    }

    method RemoveStaleNodes(threshold: int, now: int)
      requires Valid()
      modifies this
      ensures Valid() && Value() == RemoveStale(old(Value()), threshold, now)
      ensures forall n :: n in nodes <==> n in old(nodes) && (n in old(lastSeen) ==> now - old(lastSeen)[n] < threshold)
    {
      var todo := lastSeen.Keys;
      ghost var gone: set<string> := {};
      while todo != {}
        invariant gone !! todo && gone + todo <= old(lastSeen).Keys
        invariant lastSeen == old(lastSeen) - gone && nodes == old(nodes) - gone
        invariant gone == StaleNodes(old(Value()), threshold, now) - todo
        invariant reservations == old(reservations) && podCounts == old(podCounts) && allocs == old(allocs)
        decreases todo
      {
        var n :| n in todo;
        if now - lastSeen[n] >= threshold {
          lastSeen := lastSeen - {n};
          nodes := nodes - {n};
          gone := gone + {n};
        }
        todo := todo - {n};
      }
    }

    method MarkGPUAllocatedForPod(n: string, g: string, memoryMB: int, namespace: string, podName: string)
      requires Valid()
      modifies this
      ensures Valid() && Value() == Mark(old(Value()), n, g, memoryMB, PodKey(namespace, podName))
    {
      var podKey := PodKey(namespace, podName);
      if n !in reservations {
        reservations := reservations[n := map[]];
        podCounts := podCounts[n := map[]];
      }
      ghost var row := Value();
      MarkFromRow(old(Value()), row, n, g, memoryMB, podKey);
      hide PodKey, Lookup, Store, Mark, WithRow;
      reservations := Store(reservations, n, g, Lookup(reservations, n, g) + memoryMB);
      podCounts := Store(podCounts, n, g, Lookup(podCounts, n, g) + 1);
      var entries := if podKey in allocs then allocs[podKey] else [];
      allocs := allocs[podKey := entries + [Entry(n, g, memoryMB, false)]];
    }

    /** Set the availability of every MIG instance of node n that has this uuid. */
    method SetMIGAvailability(n: string, uuid: string, available: bool)
      modifies this`nodes
      ensures nodes == SetMIG(old(nodes), n, uuid, available)
    {
      if n in nodes {
        var gpus := nodes[n].gpus;
        for i := 0 to |gpus|
          invariant |gpus| == |old(nodes)[n].gpus|
          invariant forall a :: 0 <= a < i ==> gpus[a] == SetMIGInGPU(old(nodes)[n].gpus[a], uuid, available)
          invariant forall a :: i <= a < |gpus| ==> gpus[a] == old(nodes)[n].gpus[a]
        {
          var instances := gpus[i].migInstances;
          for j := 0 to |instances|
            invariant |instances| == |gpus[i].migInstances|
            invariant forall b :: 0 <= b < j ==> instances[b] == SetMIGInstance(gpus[i].migInstances[b], uuid, available)
            invariant forall b :: j <= b < |instances| ==> instances[b] == gpus[i].migInstances[b]
          {
            if instances[j].uuid == uuid {
              instances := instances[j := instances[j].(available := available)];
            }
          }
          assert SetMIGInGPU(gpus[i], uuid, available).migInstances == instances;
          gpus := gpus[i := gpus[i].(migInstances := instances)];
        }
        assert gpus == SetMIGInGPUs(old(nodes)[n].gpus, uuid, available);
        nodes := nodes[n := nodes[n].(gpus := gpus)];
      }
    }

    method MarkMIGAllocatedForPod(n: string, uuid: string, memoryMB: int, namespace: string, podName: string)
      requires Valid()
      modifies this
      ensures Valid() && Value() == MarkMIG(old(Value()), n, uuid, memoryMB, PodKey(namespace, podName))
    {
      var podKey := PodKey(namespace, podName);
      SetMIGAvailability(n, uuid, false);
      var entries := if podKey in allocs then allocs[podKey] else [];
      allocs := allocs[podKey := entries + [Entry(n, uuid, memoryMB, true)]];
    }

    /** The loop body of ReleasePod. */
    method ReleaseOne(e: Entry)
      requires Valid()
      modifies this`nodes, this`reservations, this`podCounts
      ensures Valid() && Value() == ReleaseEntry(old(Value()), e)
    {
      if e.isMIG {
        SetMIGAvailability(e.nodeName, e.gpuUUID, true);
      } else if e.nodeName in reservations {
        Subtract(e.nodeName, e.gpuUUID, e.memoryMB);
      }
    }

    /** Take one pod's memory off a reservation, clamping at zero. */
    method Subtract(n: string, g: string, memoryMB: int)
      requires n in reservations && n in podCounts
      modifies this`reservations, this`podCounts
      ensures var left := Lookup(old(reservations), n, g) - memoryMB;
              && reservations == Store(old(reservations), n, g, if left < 0 then 0 else left)
              && podCounts == Store(old(podCounts), n, g, if left < 0 then 0 else Lookup(old(podCounts), n, g) - 1)
    {
      var left := Lookup(reservations, n, g) - memoryMB;
      var count := Lookup(podCounts, n, g) - 1;
      StoreTwice(reservations, n, g, left, 0);
      StoreTwice(podCounts, n, g, count, 0);
      hide Store, Lookup;
      reservations := Store(reservations, n, g, left);
      podCounts := Store(podCounts, n, g, count);
      if Lookup(reservations, n, g) < 0 {
        reservations := Store(reservations, n, g, 0);
        podCounts := Store(podCounts, n, g, 0);
      }
    }

    method ReleasePod(namespace: string, podName: string)
      requires Valid()
      modifies this
      ensures Valid() && Value() == Release(old(Value()), PodKey(namespace, podName))
    {
      var podKey := PodKey(namespace, podName);
      if podKey !in allocs {
        return;
      }
      var entries := allocs[podKey];
      ghost var start := Value();
      for i := 0 to |entries|
        invariant Valid() && Value() == ReleaseUpTo(start, entries, i)
      {
        ReleaseOne(entries[i]);
        hide ReleaseEntry;
      }
      allocs := allocs - {podKey};
    }

    method GetNodes() returns (r: seq<Node>)
      requires Valid()
      ensures IsViewOf(r, Value())
    {
      r := [];
      var todo := nodes.Keys;
      while todo != {}
        invariant todo <= nodes.Keys && UniqueNames(r)
        invariant forall i :: 0 <= i < |r| ==> r[i].name in nodes && r[i].name !in todo && r[i] == NodeView(Value(), r[i].name)
        invariant forall n :: n in nodes && n !in todo ==> exists i :: 0 <= i < |r| && r[i].name == n
        decreases todo
      {
        var n :| n in todo;
        var infos := nodes[n].gpus;
        var gpus: seq<GPU> := [];
        for j := 0 to |infos|
          invariant gpus == NodeView(Value(), n).gpus[..j]
        {
          gpus := gpus + [GPUView(Value(), n, infos[j])];
        }
        ghost var before := r;
        r := r + [Node(n, gpus)];
        todo := todo - {n};
        assert r[|before|].name == n;
        forall m | m in nodes && m !in todo
          ensures exists i :: 0 <= i < |r| && r[i].name == m
        {
          if m != n {
            var i :| 0 <= i < |before| && before[i].name == m;
            assert r[i].name == m;
          }
        }
      }
    }

    method FindAvailableFullGPU(minMB: int) returns (r: seq<GPUCandidate>)
      requires Valid()
      ensures FullCandidates(Value(), r, minMB, AnyGPU)
    {
      r := [];
      var todo := nodes.Keys;
      while todo != {}
        invariant todo <= nodes.Keys
        invariant forall c :: c in r ==> IsFullCandidate(Value(), c, minMB)
        invariant forall n, g :: n in nodes && n !in todo && g in nodes[n].gpus && FitsFull(Value(), n, g, minMB)
                    ==> FullCandidate(Value(), n, g) in r
        decreases todo
      {
        var n :| n in todo;
        var onNode := FullGPUsOf(n, minMB);
        r := r + onNode;
        todo := todo - {n};
      }
    }

    /** The inner loop of FindAvailableFullGPU. */
    method FullGPUsOf(n: string, minMB: int) returns (r: seq<GPUCandidate>)
      requires n in nodes
      ensures forall c :: c in r ==> IsFullCandidate(Value(), c, minMB)
      ensures forall g :: g in nodes[n].gpus && FitsFull(Value(), n, g, minMB) ==> FullCandidate(Value(), n, g) in r
    {
      r := [];
      var gpus := nodes[n].gpus;
      for j := 0 to |gpus|
        invariant forall c :: c in r ==> IsFullCandidate(Value(), c, minMB)
        invariant forall a :: 0 <= a < j && FitsFull(Value(), n, gpus[a], minMB) ==> FullCandidate(Value(), n, gpus[a]) in r
      {
        if FitsFull(Value(), n, gpus[j], minMB) {
          r := r + [FullCandidate(Value(), n, gpus[j])];
        }
      }
    }

    method FindAvailableMPSGPU(minMB: int) returns (r: seq<GPUCandidate>)
      requires Valid()
      ensures FullCandidates(Value(), r, minMB, MPSOnly)
    {
      var all := FindAvailableFullGPU(minMB);
      r := [];
      for i := 0 to |all|
        invariant forall c :: c in r ==> c in all && c.mpsEnabled
        invariant forall a :: 0 <= a < i && all[a].mpsEnabled ==> all[a] in r
      {
        if all[i].mpsEnabled {
          r := r + [all[i]];
        }
      }
    }

    method FindAvailableNonMPSGPU(minMB: int) returns (r: seq<GPUCandidate>)
      requires Valid()
      ensures FullCandidates(Value(), r, minMB, FreeNonMPS)
    {
      var all := FindAvailableFullGPU(minMB);
      r := [];
      for i := 0 to |all|
        invariant forall c :: c in r ==> c in all && !c.mpsEnabled && c.podCount == 0
        invariant forall a :: 0 <= a < i && !all[a].mpsEnabled && all[a].podCount == 0 ==> all[a] in r
      {
        if !all[i].mpsEnabled && all[i].podCount == 0 {
          r := r + [all[i]];
        }
      }
    }

    method FindAvailableMIG(minMB: int) returns (r: seq<MIGCandidate>)
      requires Valid()
      ensures MIGCandidates(Value(), r, minMB)
    {
      r := [];
      var todo := nodes.Keys;
      while todo != {}
        invariant todo <= nodes.Keys
        invariant forall c :: c in r ==> IsMIGCandidate(Value(), c, minMB)
        invariant forall n, g, m :: n in nodes && n !in todo && g in nodes[n].gpus && m in g.migInstances && FitsMIG(g, m, minMB)
                    ==> MIGCandidateOf(Value(), n, g, m) in r
        decreases todo
      {
        var n :| n in todo;
        var gpus := nodes[n].gpus;
        for j := 0 to |gpus|
          invariant forall c :: c in r ==> IsMIGCandidate(Value(), c, minMB)
          invariant forall n', g, m :: n' in nodes && n' !in todo && g in nodes[n'].gpus && m in g.migInstances && FitsMIG(g, m, minMB)
                      ==> MIGCandidateOf(Value(), n', g, m) in r
          invariant forall a, m :: 0 <= a < j && m in gpus[a].migInstances && FitsMIG(gpus[a], m, minMB)
                      ==> MIGCandidateOf(Value(), n, gpus[a], m) in r
        {
          var onGPU := MIGsOf(n, gpus[j], minMB);
          r := r + onGPU;
        }
        todo := todo - {n};
      }
    }

    /** The innermost loop of FindAvailableMIG. */
    method MIGsOf(n: string, g: GPUInfo, minMB: int) returns (r: seq<MIGCandidate>)
      requires n in nodes && g in nodes[n].gpus
      ensures forall c :: c in r ==> IsMIGCandidate(Value(), c, minMB)
      ensures forall m :: m in g.migInstances && FitsMIG(g, m, minMB) ==> MIGCandidateOf(Value(), n, g, m) in r
    {
      r := [];
      for j := 0 to |g.migInstances|
        invariant forall c :: c in r ==> IsMIGCandidate(Value(), c, minMB)
        invariant forall a :: 0 <= a < j && FitsMIG(g, g.migInstances[a], minMB) ==> MIGCandidateOf(Value(), n, g, g.migInstances[a]) in r
      {
        if FitsMIG(g, g.migInstances[j], minMB) {
          r := r + [MIGCandidateOf(Value(), n, g, g.migInstances[j])];
        }
      }
    }
  }

  lemma StoreTwice(t: Table, n: string, g: string, v: int, w: int)
    requires n in t
    ensures Lookup(Store(t, n, g, v), n, g) == v
    ensures n in Store(t, n, g, v)
    ensures Store(Store(t, n, g, v), n, g, w) == Store(t, n, g, w)
  {
    assert t[n][g := v][g := w] == t[n][g := w];
    assert t[n := t[n][g := v]][n := t[n][g := w]] == t[n := t[n][g := w]];
  }
}
