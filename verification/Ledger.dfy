/** internal/gpu/registry.go as a value: what each locked operation does to the registry's maps. */
module Ledger {
  import opened Collections
  import opened Types

  datatype MIGInstance = MIGInstance(uuid: string, memoryMB: int, available: bool)

  datatype GPUInfo = GPUInfo(uuid: string, totalMB: int, usedMB: int, freeMB: int, utilization: int,
                             healthy: bool, mpsEnabled: bool, migEnabled: bool, migInstances: seq<MIGInstance>)

  datatype NodeGPUs = NodeGPUs(hasNVLink: bool, reportedAt: int, gpus: seq<GPUInfo>)

  datatype Entry = Entry(nodeName: string, gpuUUID: string, memoryMB: int, isMIG: bool)

  /** nodeName -> gpuUUID -> number; a missing entry reads as 0, as in Go. */
  type Table = map<string, map<string, int>>

  function Lookup(t: Table, n: string, g: string): int {
    if n in t && g in t[n] then t[n][g] else 0
  }

  function Store(t: Table, n: string, g: string, v: int): Table
    requires n in t
  {
    t[n := t[n][g := v]]
  }

  datatype State = State(nodes: map<string, NodeGPUs>, lastSeen: map<string, int>,
                         reservations: Table, podCounts: Table, allocs: map<string, seq<Entry>>)
  {
    function Reserved(n: string, g: string): int { Lookup(reservations, n, g) }
    function PodCount(n: string, g: string): int { Lookup(podCounts, n, g) }
    function EntriesOf(key: string): seq<Entry> { if key in allocs then allocs[key] else [] }
  }

  const EMPTY := State(map[], map[], map[], map[], map[])

  // ---------- Operations ----------

  function Report(s: State, n: string, hasNVLink: bool, gpus: seq<GPUInfo>, now: int): State {
    s.(lastSeen := s.lastSeen[n := now], nodes := s.nodes[n := NodeGPUs(hasNVLink, now, gpus)])
  }

  function StaleNodes(s: State, threshold: int, now: int): set<string> {
    set n | n in s.lastSeen && now - s.lastSeen[n] >= threshold
  }

  function RemoveStale(s: State, threshold: int, now: int): State {
    s.(lastSeen := s.lastSeen - StaleNodes(s, threshold, now), nodes := s.nodes - StaleNodes(s, threshold, now))
  }

  /** The tables with a row for node n. */
  function WithRow(s: State, n: string): State {
    if n in s.reservations then s
    else s.(reservations := s.reservations[n := map[]], podCounts := s.podCounts[n := map[]])
  }

  function Mark(s: State, n: string, g: string, memoryMB: int, key: string): State
    requires s.reservations.Keys == s.podCounts.Keys
  {
    var t := WithRow(s, n);
    t.(reservations := Store(t.reservations, n, g, s.Reserved(n, g) + memoryMB),
       podCounts := Store(t.podCounts, n, g, s.PodCount(n, g) + 1),
       allocs := s.allocs[key := s.EntriesOf(key) + [Entry(n, g, memoryMB, false)]])
  }

  function SetMIGInstance(m: MIGInstance, uuid: string, available: bool): MIGInstance {
    if m.uuid == uuid then m.(available := available) else m
  }

  function SetMIGInGPU(g: GPUInfo, uuid: string, available: bool): GPUInfo {
    g.(migInstances := seq(|g.migInstances|, i requires 0 <= i < |g.migInstances| => SetMIGInstance(g.migInstances[i], uuid, available)))
  }

  function SetMIGInGPUs(gpus: seq<GPUInfo>, uuid: string, available: bool): (r: seq<GPUInfo>)
    ensures |r| == |gpus|
  {
    seq(|gpus|, i requires 0 <= i < |gpus| => SetMIGInGPU(gpus[i], uuid, available))
  }

  function SetMIG(nodes: map<string, NodeGPUs>, n: string, uuid: string, available: bool): (r: map<string, NodeGPUs>)
    ensures r.Keys == nodes.Keys
  {
    if n !in nodes then nodes
    else nodes[n := nodes[n].(gpus := SetMIGInGPUs(nodes[n].gpus, uuid, available))]
  }

  function MarkMIG(s: State, n: string, uuid: string, memoryMB: int, key: string): State {
    s.(nodes := SetMIG(s.nodes, n, uuid, false),
       allocs := s.allocs[key := s.EntriesOf(key) + [Entry(n, uuid, memoryMB, true)]])
  }

  /** One entry of a released pod; a reservation that would turn negative is clamped together with its count. */
  function ReleaseEntry(s: State, e: Entry): (r: State)
    requires s.reservations.Keys == s.podCounts.Keys
    ensures r.reservations.Keys == r.podCounts.Keys == s.reservations.Keys
    ensures r.allocs == s.allocs && r.lastSeen == s.lastSeen && r.nodes.Keys == s.nodes.Keys
  {
    if e.isMIG then s.(nodes := SetMIG(s.nodes, e.nodeName, e.gpuUUID, true))
    else if e.nodeName !in s.reservations then s
    else
      var left := s.Reserved(e.nodeName, e.gpuUUID) - e.memoryMB;
      var count := s.PodCount(e.nodeName, e.gpuUUID) - 1;
      s.(reservations := Store(s.reservations, e.nodeName, e.gpuUUID, if left < 0 then 0 else left),
         podCounts := Store(s.podCounts, e.nodeName, e.gpuUUID, if left < 0 then 0 else count))
  }

  /** The first n entries released, in order. */
  function ReleaseUpTo(s: State, es: seq<Entry>, n: nat): (r: State)
    requires n <= |es| && s.reservations.Keys == s.podCounts.Keys
    ensures r.reservations.Keys == r.podCounts.Keys == s.reservations.Keys
    ensures r.allocs == s.allocs && r.lastSeen == s.lastSeen && r.nodes.Keys == s.nodes.Keys
  {
    if n == 0 then s else ReleaseEntry(ReleaseUpTo(s, es, n - 1), es[n - 1])
  }

  function Release(s: State, key: string): State
    requires s.reservations.Keys == s.podCounts.Keys
  {
    if key !in s.allocs then s
    else
      var r := ReleaseUpTo(s, s.allocs[key], |s.allocs[key]|);
      r.(allocs := s.allocs - {key})
  }

  /** A release takes the memory and one pod off the entry's GPU, or, where less is reserved, leaves nothing and no pod there;
      every other GPU keeps both. */
  lemma ReleaseGivesBack(s: State, e: Entry, n: string, g: string)
    requires s.reservations.Keys == s.podCounts.Keys && !e.isMIG && e.nodeName in s.reservations
    ensures var r, here, left := ReleaseEntry(s, e), n == e.nodeName && g == e.gpuUUID, s.Reserved(n, g) - e.memoryMB;
            && (!here ==> r.Reserved(n, g) == s.Reserved(n, g) && r.PodCount(n, g) == s.PodCount(n, g))
            && (here && left >= 0 ==> r.Reserved(n, g) == left && r.PodCount(n, g) == s.PodCount(n, g) - 1)
            && (here && left < 0 ==> r.Reserved(n, g) == 0 && r.PodCount(n, g) == 0)
  {
  }

  // ---------- The view handed to the scheduler ----------

  function GPUView(s: State, n: string, g: GPUInfo): GPU {
    GPU(g.uuid, g.totalMB, s.Reserved(n, g.uuid), g.utilization as real, g.healthy, s.PodCount(n, g.uuid), g.mpsEnabled)
  }

  function NodeView(s: State, n: string): Node
    requires n in s.nodes
  {
    var gpus := s.nodes[n].gpus;
    Node(n, seq(|gpus|, i requires 0 <= i < |gpus| => GPUView(s, n, gpus[i])))
  }

  /** nodes lists the view of every registered node once, in some order. */
  ghost predicate IsViewOf(nodes: seq<Node>, s: State) {
    && UniqueNames(nodes)
    && (forall i :: 0 <= i < |nodes| ==> nodes[i].name in s.nodes && nodes[i] == NodeView(s, nodes[i].name))
    && (forall n :: n in s.nodes ==> exists i :: 0 <= i < |nodes| && nodes[i].name == n)
  }

  /** Reported free memory; a report without it is read as total minus used. */
  function ReportedFree(g: GPUInfo): int {
    if g.freeMB == 0 && g.totalMB > g.usedMB then g.totalMB - g.usedMB else g.freeMB
  }

  // ---------- The ledger invariant ----------

  function MemOn(n: string, g: string): Entry -> int {
    (e: Entry) => if !e.isMIG && e.nodeName == n && e.gpuUUID == g then e.memoryMB else 0
  }

  function CountOn(n: string, g: string): Entry -> int {
    (e: Entry) => if !e.isMIG && e.nodeName == n && e.gpuUUID == g then 1 else 0
  }

  ghost function Weights(allocs: map<string, seq<Entry>>, weight: Entry -> int): map<string, int> {
    map k | k in allocs :: Sum(allocs[k], weight)
  }

  /** The sum of a weight over the entries of all pods. */
  ghost function Held(allocs: map<string, seq<Entry>>, weight: Entry -> int): int {
    SumMap(Weights(allocs, weight))
  }

  /** Both tables are the sums over the pods' records, whatever the signs. */
  ghost predicate Agrees(s: State) {
    && s.reservations.Keys == s.podCounts.Keys
    && (forall n, g :: s.Reserved(n, g) == Held(s.allocs, MemOn(n, g)))
    && (forall n, g :: s.PodCount(n, g) == Held(s.allocs, CountOn(n, g)))
    && (forall k, e :: k in s.allocs && e in s.allocs[k] && !e.isMIG ==> e.nodeName in s.reservations)
  }

  ghost predicate NonNegative(s: State) {
    forall k, e :: k in s.allocs && e in s.allocs[k] && !e.isMIG ==> e.memoryMB >= 0
  }

  ghost predicate LedgerOK(s: State) {
    Agrees(s) && NonNegative(s)
  }

  lemma HeldPut(allocs: map<string, seq<Entry>>, key: string, es: seq<Entry>, weight: Entry -> int)
    ensures Held(allocs[key := es], weight)
         == Held(allocs, weight) - (if key in allocs then Sum(allocs[key], weight) else 0) + Sum(es, weight)
  {
    assert Weights(allocs[key := es], weight) == Weights(allocs, weight)[key := Sum(es, weight)];
    SumMapPut(Weights(allocs, weight), key, Sum(es, weight));
  }

  lemma HeldRemove(allocs: map<string, seq<Entry>>, key: string, weight: Entry -> int)
    requires key in allocs
    ensures Held(allocs - {key}, weight) == Held(allocs, weight) - Sum(allocs[key], weight)
  {
    assert Weights(allocs - {key}, weight) == Weights(allocs, weight) - {key};
    SumMapRemove(Weights(allocs, weight), key);
  }

  lemma {:induction false} SumNonNegative(es: seq<Entry>, weight: Entry -> int)
    requires forall e :: e in es ==> weight(e) >= 0
    ensures Sum(es, weight) >= 0
  {
    if es != [] {
      assert es[0] in es;
      assert forall e :: e in es[1..] ==> e in es;
      SumNonNegative(es[1..], weight);
    }
  }

  lemma HeldNonNegative(allocs: map<string, seq<Entry>>, weight: Entry -> int)
    requires forall k, e :: k in allocs && e in allocs[k] ==> weight(e) >= 0
    ensures Held(allocs, weight) >= 0
  {
    forall k | k in allocs
      ensures Sum(allocs[k], weight) >= 0
    {
      SumNonNegative(allocs[k], weight);
    }
    SumMapNonNegative(Weights(allocs, weight));
  }

  lemma EmptyIsOK()
    ensures LedgerOK(EMPTY)
  {
    forall weight: Entry -> int
      ensures Held(EMPTY.allocs, weight) == 0
    {
      assert Weights(map[], weight) == map[];
    }
  }

  // ---------- Marking ----------

  lemma MarkEffect(s: State, n: string, g: string, memoryMB: int, key: string, n': string, g': string)
    requires s.reservations.Keys == s.podCounts.Keys
    ensures Mark(s, n, g, memoryMB, key).Reserved(n', g') == s.Reserved(n', g') + MemOn(n', g')(Entry(n, g, memoryMB, false))
    ensures Mark(s, n, g, memoryMB, key).PodCount(n', g') == s.PodCount(n', g') + CountOn(n', g')(Entry(n, g, memoryMB, false))
  {
  }

  lemma HeldAppend(s: State, key: string, e: Entry, weight: Entry -> int)
    ensures Held(s.allocs[key := s.EntriesOf(key) + [e]], weight) == Held(s.allocs, weight) + weight(e)
  {
    HeldPut(s.allocs, key, s.EntriesOf(key) + [e], weight);
    SumAppend(s.EntriesOf(key), e, weight);
  }

  /** Marking keeps the ledger in step with its records, for any amount. */
  lemma MarkAgrees(s: State, n: string, g: string, memoryMB: int, key: string)
    requires Agrees(s)
    ensures Agrees(Mark(s, n, g, memoryMB, key))
  {
    var r := Mark(s, n, g, memoryMB, key);
    RecordedNodes(s, Entry(n, g, memoryMB, false), key, r);
    assert r.reservations.Keys == r.podCounts.Keys;
    hide Held, MemOn, CountOn, Mark;
    forall n', g'
      ensures r.Reserved(n', g') == Held(r.allocs, MemOn(n', g')) && r.PodCount(n', g') == Held(r.allocs, CountOn(n', g'))
    {
      MarkAgreesAt(s, n, g, memoryMB, key, n', g');
    }
  }

  lemma MarkAgreesAt(s: State, n: string, g: string, memoryMB: int, key: string, n': string, g': string)
    requires s.reservations.Keys == s.podCounts.Keys
    requires s.Reserved(n', g') == Held(s.allocs, MemOn(n', g')) && s.PodCount(n', g') == Held(s.allocs, CountOn(n', g'))
    ensures var r := Mark(s, n, g, memoryMB, key);
            r.Reserved(n', g') == Held(r.allocs, MemOn(n', g')) && r.PodCount(n', g') == Held(r.allocs, CountOn(n', g'))
  {
    MarkEffect(s, n, g, memoryMB, key, n', g');
    HeldAppend(s, key, Entry(n, g, memoryMB, false), MemOn(n', g'));
    HeldAppend(s, key, Entry(n, g, memoryMB, false), CountOn(n', g'));
  }

  lemma RecordedNodes(s: State, e: Entry, key: string, r: State)
    requires forall k, f :: k in s.allocs && f in s.allocs[k] && !f.isMIG ==> f.nodeName in s.reservations
    requires r.allocs == s.allocs[key := s.EntriesOf(key) + [e]]
    requires s.reservations.Keys <= r.reservations.Keys && (e.isMIG || e.nodeName in r.reservations)
    ensures forall k, f :: k in r.allocs && f in r.allocs[k] && !f.isMIG ==> f.nodeName in r.reservations
  {
    forall k, f | k in r.allocs && f in r.allocs[k] && !f.isMIG
      ensures f.nodeName in r.reservations
    {
      if k == key && f != e {
        assert f in s.EntriesOf(key);
      }
    }
  }

  lemma MarkMIGAgrees(s: State, n: string, uuid: string, memoryMB: int, key: string)
    requires Agrees(s)
    ensures Agrees(MarkMIG(s, n, uuid, memoryMB, key))
  {
    var e := Entry(n, uuid, memoryMB, true);
    var r := MarkMIG(s, n, uuid, memoryMB, key);
    RecordedNodes(s, e, key, r);
    forall n', g'
      ensures r.Reserved(n', g') == Held(r.allocs, MemOn(n', g'))
      ensures r.PodCount(n', g') == Held(r.allocs, CountOn(n', g'))
    {
      HeldAppend(s, key, e, MemOn(n', g'));
      HeldAppend(s, key, e, CountOn(n', g'));
      assert r.Reserved(n', g') == s.Reserved(n', g') && r.PodCount(n', g') == s.PodCount(n', g');
    }
  }

  // ---------- Releasing ----------

  /** The reservation of (n, g) after i entries if nothing were clamped. */
  ghost function Exact(s: State, es: seq<Entry>, i: nat, n: string, g: string): int
    requires i <= |es|
  {
    s.Reserved(n, g) - Sum(es[..i], MemOn(n, g))
  }

  /** Releasing entry i (in the state the first i left) does not reach the clamp. */
  ghost predicate NoClamp(s: State, es: seq<Entry>, i: nat)
    requires i < |es| && s.reservations.Keys == s.podCounts.Keys
  {
    var e := es[i];
    !e.isMIG && e.nodeName in s.reservations ==> ReleaseUpTo(s, es, i).Reserved(e.nodeName, e.gpuUUID) >= e.memoryMB
  }

  ghost predicate NeverClamped(s: State, es: seq<Entry>, i: nat)
    requires i <= |es| && s.reservations.Keys == s.podCounts.Keys
  {
    forall j :: 0 <= j < i ==> NoClamp(s, es, j)
  }

  ghost predicate Recorded(s: State, es: seq<Entry>) {
    forall e :: e in es && !e.isMIG ==> e.nodeName in s.reservations
  }

  lemma ReleaseEntryEffect(s: State, e: Entry, n: string, g: string)
    requires s.reservations.Keys == s.podCounts.Keys
    requires !e.isMIG ==> e.nodeName in s.reservations
    ensures ReleaseEntry(s, e).Reserved(n, g) >= s.Reserved(n, g) - MemOn(n, g)(e)
    ensures if !e.isMIG && n == e.nodeName && g == e.gpuUUID && s.Reserved(n, g) < e.memoryMB
            then ReleaseEntry(s, e).Reserved(n, g) > s.Reserved(n, g) - MemOn(n, g)(e)
            else ReleaseEntry(s, e).Reserved(n, g) == s.Reserved(n, g) - MemOn(n, g)(e)
                 && ReleaseEntry(s, e).PodCount(n, g) == s.PodCount(n, g) - CountOn(n, g)(e)
  {
  }

  lemma ReleaseNext(s: State, es: seq<Entry>, i: nat, n: string, g: string)
    requires i < |es| && s.reservations.Keys == s.podCounts.Keys && Recorded(s, es) && NoClamp(s, es, i)
    ensures ReleaseUpTo(s, es, i + 1).Reserved(n, g) == ReleaseUpTo(s, es, i).Reserved(n, g) - MemOn(n, g)(es[i])
    ensures ReleaseUpTo(s, es, i + 1).PodCount(n, g) == ReleaseUpTo(s, es, i).PodCount(n, g) - CountOn(n, g)(es[i])
  {
    var t := ReleaseUpTo(s, es, i);
    assert ReleaseUpTo(s, es, i + 1) == ReleaseEntry(t, es[i]);
    ReleaseEntryEffect(t, es[i], n, g);
    hide ReleaseUpTo, ReleaseEntry;
  }

  /** Without a clamp, the tables go down by exactly what the entries hold. */
  lemma {:induction false} ReleaseUpToEffect(s: State, es: seq<Entry>, i: nat, n: string, g: string)
    requires i <= |es| && s.reservations.Keys == s.podCounts.Keys && Recorded(s, es)
    requires NeverClamped(s, es, i)
    ensures ReleaseUpTo(s, es, i).Reserved(n, g) == s.Reserved(n, g) - Sum(es[..i], MemOn(n, g))
    ensures ReleaseUpTo(s, es, i).PodCount(n, g) == s.PodCount(n, g) - Sum(es[..i], CountOn(n, g))
  {
    if i == 0 {
      assert es[..0] == [];
    } else {
      hide NoClamp, ReleaseUpTo, MemOn, CountOn;
      ReleaseUpToEffect(s, es, i - 1, n, g);
      ReleaseNext(s, es, i - 1, n, g);
      TakeNext(es, i - 1, MemOn(n, g));
      TakeNext(es, i - 1, CountOn(n, g));
    }
  }

  /** What the first i releases left reserved beyond the exact amount. */
  ghost function Excess(s: State, es: seq<Entry>, i: nat, n: string, g: string): int
    requires i <= |es| && s.reservations.Keys == s.podCounts.Keys
  {
    ReleaseUpTo(s, es, i).Reserved(n, g) - Exact(s, es, i, n, g)
  }

  /** One more entry never lowers the excess, and a clamp raises it. */
  lemma ExcessStep(s: State, es: seq<Entry>, i: nat, n: string, g: string)
    requires i < |es| && s.reservations.Keys == s.podCounts.Keys && Recorded(s, es)
    ensures Excess(s, es, i + 1, n, g) >= Excess(s, es, i, n, g)
    ensures !NoClamp(s, es, i) && n == es[i].nodeName && g == es[i].gpuUUID ==> Excess(s, es, i + 1, n, g) > Excess(s, es, i, n, g)
  {
    var t := ReleaseUpTo(s, es, i);
    assert ReleaseUpTo(s, es, i + 1) == ReleaseEntry(t, es[i]);
    ReleaseEntryEffect(t, es[i], n, g);
    TakeNext(es, i, MemOn(n, g));
  }

  lemma {:induction false} ExcessGrows(s: State, es: seq<Entry>, j: nat, i: nat, n: string, g: string)
    requires j <= i <= |es| && s.reservations.Keys == s.podCounts.Keys && Recorded(s, es)
    ensures Excess(s, es, i, n, g) >= Excess(s, es, j, n, g)
    decreases i
  {
    if j < i {
      ExcessGrows(s, es, j, i - 1, n, g);
      ExcessStep(s, es, i - 1, n, g);
    }
  }

  /** Exactly when no entry reaches the clamp, releasing a pod keeps the ledger in step with its records. */
  lemma ReleaseAgreesExactly(s: State, key: string)
    requires Agrees(s) && key in s.allocs
    ensures Agrees(Release(s, key)) <==> NeverClamped(s, s.allocs[key], |s.allocs[key]|)
  {
    var es := s.allocs[key];
    if NeverClamped(s, es, |es|) {
      ReleaseAgrees(s, key);
    } else {
      var j :| 0 <= j < |es| && !NoClamp(s, es, j);
      ClampBreaksAgreement(s, key, j);
    }
  }

  lemma ClampBreaksAgreement(s: State, key: string, j: nat)
    requires Agrees(s) && key in s.allocs && j < |s.allocs[key]| && !NoClamp(s, s.allocs[key], j)
    ensures !Agrees(Release(s, key))
  {
    var es := s.allocs[key];
    var n, g := es[j].nodeName, es[j].gpuUUID;
    ClampLeavesExcess(s, es, j);
    HeldRemove(s.allocs, key, MemOn(n, g));
    assert Release(s, key).Reserved(n, g) > Held(Release(s, key).allocs, MemOn(n, g)) by {
      assert es[..|es|] == es;
    }
  }

  lemma ClampLeavesExcess(s: State, es: seq<Entry>, j: nat)
    requires s.reservations.Keys == s.podCounts.Keys && Recorded(s, es)
    requires j < |es| && !NoClamp(s, es, j)
    ensures Excess(s, es, |es|, es[j].nodeName, es[j].gpuUUID) > 0
  {
    var n, g := es[j].nodeName, es[j].gpuUUID;
    ExcessGrows(s, es, 0, j, n, g);
    assert es[..0] == [];
    ExcessStep(s, es, j, n, g);
    ExcessGrows(s, es, j + 1, |es|, n, g);
  }

  lemma ReleaseAgrees(s: State, key: string)
    requires Agrees(s) && key in s.allocs
    requires NeverClamped(s, s.allocs[key], |s.allocs[key]|)
    ensures Agrees(Release(s, key))
  {
    var es := s.allocs[key];
    var r := Release(s, key);
    assert es[..|es|] == es;
    forall n, g
      ensures r.Reserved(n, g) == Held(r.allocs, MemOn(n, g)) && r.PodCount(n, g) == Held(r.allocs, CountOn(n, g))
    {
      ReleaseUpToEffect(s, es, |es|, n, g);
      HeldRemove(s.allocs, key, MemOn(n, g));
      HeldRemove(s.allocs, key, CountOn(n, g));
    }
  }

  /** With non-negative records the clamp never fires. */
  lemma {:induction false} NonNegativeNeverClamps(s: State, key: string, i: nat)
    requires LedgerOK(s) && key in s.allocs && i <= |s.allocs[key]|
    ensures NeverClamped(s, s.allocs[key], i)
  {
    hide LedgerOK, NoClamp;
    if i > 0 {
      NonNegativeNeverClamps(s, key, i - 1);
      NextIsCovered(s, key, i - 1);
    }
  }

  lemma NextIsCovered(s: State, key: string, i: nat)
    requires LedgerOK(s) && key in s.allocs && i < |s.allocs[key]|
    requires NeverClamped(s, s.allocs[key], i)
    ensures NoClamp(s, s.allocs[key], i)
  {
    var es := s.allocs[key];
    var e := es[i];
    if !e.isMIG {
      ReleaseUpToEffect(s, es, i, e.nodeName, e.gpuUUID);
      MemoryIsCovered(s, key, i + 1, e.nodeName, e.gpuUUID);
      TakeNext(es, i, MemOn(e.nodeName, e.gpuUUID));
    }
  }

  lemma MemoryIsCovered(s: State, key: string, i: nat, n: string, g: string)
    requires LedgerOK(s) && key in s.allocs && i <= |s.allocs[key]|
    ensures Sum(s.allocs[key][..i], MemOn(n, g)) <= s.Reserved(n, g)
  {
    PartIsAtMostHeld(s, key, i, MemOn(n, g));
  }

  /** The first i entries of one pod weigh at most all entries of all pods. */
  lemma PartIsAtMostHeld(s: State, key: string, i: nat, weight: Entry -> int)
    requires key in s.allocs && i <= |s.allocs[key]|
    requires forall k, e :: k in s.allocs && e in s.allocs[k] ==> weight(e) >= 0
    ensures Sum(s.allocs[key][..i], weight) <= Held(s.allocs, weight)
  {
    var es := s.allocs[key];
    assert es == es[..i] + es[i..];
    SumConcat(es[..i], es[i..], weight);
    SumNonNegative(es[i..], weight);
    HeldRemove(s.allocs, key, weight);
    HeldNonNegative(s.allocs - {key}, weight);
  }

  lemma ReleaseOK(s: State, key: string)
    requires LedgerOK(s)
    ensures LedgerOK(Release(s, key))
  {
    if key in s.allocs {
      NonNegativeNeverClamps(s, key, |s.allocs[key]|);
      ReleaseAgrees(s, key);
    }
  }

  lemma MarkOK(s: State, n: string, g: string, memoryMB: int, key: string)
    requires LedgerOK(s) && memoryMB >= 0
    ensures LedgerOK(Mark(s, n, g, memoryMB, key))
  {
    MarkAgrees(s, n, g, memoryMB, key);
    var r := Mark(s, n, g, memoryMB, key);
    forall k, f | k in r.allocs && f in r.allocs[k] && !f.isMIG
      ensures f.memoryMB >= 0
    {
      if k == key && f != Entry(n, g, memoryMB, false) {
        assert f in s.EntriesOf(key);
      }
    }
  }

  lemma MarkMIGOK(s: State, n: string, uuid: string, memoryMB: int, key: string)
    requires LedgerOK(s)
    ensures LedgerOK(MarkMIG(s, n, uuid, memoryMB, key))
  {
    MarkMIGAgrees(s, n, uuid, memoryMB, key);
    var r := MarkMIG(s, n, uuid, memoryMB, key);
    forall k, f | k in r.allocs && f in r.allocs[k] && !f.isMIG
      ensures f.memoryMB >= 0
    {
      assert f in s.EntriesOf(k);
    }
  }
}
