/** The memory of the pods that really run on a GPU. Eviction gives a victim's reservation back at once, while the victim
    may run on: its deletion failed, or it is still terminating. The scheduler awaits its victims: it starts no pass while
    one of them still exists. */
module RunningMemory {
  import opened Collections
  import opened Types
  import opened Pods
  import opened Ledger
  import opened LedgerRuns
  import opened GangPlanner
  import opened Commit
  import opened Watcher
  import opened PlacementRuns
  import P = Preemption

  /** The registry, what the pods running on the nodes hold, the evicted pods that are awaited, and whether a scheduling
      pass is under way. */
  datatype World = World(registry: State, running: map<string, seq<Entry>>, awaited: set<string>, inPass: bool)

  /** Begin lists the pods of the cluster; when it defers, it may have dropped some awaited keys that are gone. */
  datatype Event =
    | Begin(listed: set<string>, dropped: set<string>)
    | Finish
    | Start(key: string, entries: seq<Entry>)
    | Evict(key: string)
    | End(key: string)

  /** What the running pods hold on a GPU. */
  ghost function Physical(w: World, n: string, g: string): int {
    Held(w.running, MemOn(n, g))
  }

  /** What those of them hold that the registry has no record of. */
  ghost function Unrecorded(w: World, n: string, g: string): int {
    Held(w.running - w.registry.allocs.Keys, MemOn(n, g))
  }

  /** Running pods exist in the cluster. Pods start and are evicted in a pass only; they start under new names, on whole
      GPUs, with reservations that stay within every GPU's memory. */
  ghost predicate Enabled(w: World, e: Event, hw: Hardware)
    requires w.registry.reservations.Keys == w.registry.podCounts.Keys
  {
    match e
    case Begin(listed, dropped) => !w.inPass && w.running.Keys <= listed && dropped <= w.awaited - listed
    case Finish => w.inPass
    case Start(key, es) =>
      && w.inPass && key !in w.running && key !in w.registry.allocs && key !in w.awaited
      && es != [] && FullGPUEntries(es) && WithinTotals(MarkUpTo(w.registry, es, |es|, key), hw)
    case Evict(key) => w.inPass
    case End(key) => true
  }

  /** A pass begins unless an awaited pod is still listed. Evict gives the reservation back and awaits the pod; only End
      takes it off its GPUs. */
  function Next(w: World, e: Event): (r: World)
    requires w.registry.reservations.Keys == w.registry.podCounts.Keys
    ensures r.registry.reservations.Keys == r.registry.podCounts.Keys
  {
    match e
    case Begin(listed, dropped) =>
      if w.awaited * listed == {} then w.(awaited := {}, inPass := true) else w.(awaited := w.awaited - dropped)
    case Finish => w.(inPass := false)
    case Start(key, es) => w.(registry := MarkUpTo(w.registry, es, |es|, key), running := w.running[key := es])
    case Evict(key) => w.(registry := Release(w.registry, key), awaited := w.awaited + {key})
    case End(key) => w.(registry := Release(w.registry, key), running := w.running - {key}, awaited := w.awaited - {key})
  }

  // ---------- Every running pod is recorded or awaited ----------

  /** Every record is that of a running pod, and of none that is awaited. */
  ghost predicate RecordsRun(w: World) {
    forall k :: k in w.registry.allocs ==> k in w.running && w.running[k] == w.registry.allocs[k] && k !in w.awaited
  }

  ghost predicate EntriesCount(w: World) {
    forall k :: k in w.running ==> FullGPUEntries(w.running[k])
  }

  ghost predicate RecordedOrAwaited(w: World) {
    forall k :: k in w.running ==> k in w.registry.allocs || k in w.awaited
  }

  ghost predicate Inv(w: World, hw: Hardware) {
    && LedgerOK(w.registry) && WithinTotals(w.registry, hw)
    && RecordsRun(w) && EntriesCount(w) && RecordedOrAwaited(w)
  }

  ghost predicate WithinMemory(w: World, hw: Hardware) {
    forall n, g :: Physical(w, n, g) <= hw.total(n, g)
  }

  lemma StepKeepsInv(w: World, e: Event, hw: Hardware)
    requires Inv(w, hw)
    ensures w.registry.reservations.Keys == w.registry.podCounts.Keys
    ensures Enabled(w, e, hw) ==> Inv(Next(w, e), hw)
  {
    assert w.registry.reservations.Keys == w.registry.podCounts.Keys;
    hide Inv, Next;
    if Enabled(w, e, hw) {
      match e
      case Begin(listed, dropped) => PassKeepsInv(w, e, hw);
      case Finish => PassKeepsInv(w, e, hw);
      case Start(key, es) => StartKeepsInv(w, key, es, hw);
      case Evict(key) => LeavingKeepsInv(w, e, key, hw);
      case End(key) => LeavingKeepsInv(w, e, key, hw);
    }
  }

  lemma PassKeepsInv(w: World, e: Event, hw: Hardware)
    requires Inv(w, hw) && w.registry.reservations.Keys == w.registry.podCounts.Keys && Enabled(w, e, hw) && (e.Begin? || e.Finish?)
    ensures Inv(Next(w, e), hw)
  {
    hide LedgerOK, WithinTotals, FullGPUEntries, MarkUpTo, Release;
  }

  lemma LeavingKeepsInv(w: World, e: Event, key: string, hw: Hardware)
    requires Inv(w, hw) && w.registry.reservations.Keys == w.registry.podCounts.Keys && (e == Evict(key) || e == End(key))
    ensures Inv(Next(w, e), hw)
  {
    hide LedgerOK, WithinTotals, FullGPUEntries, MarkUpTo, Release;
    ReleaseKeeps(w, key, hw);
  }

  lemma StartKeepsInv(w: World, key: string, es: seq<Entry>, hw: Hardware)
    requires Inv(w, hw) && w.registry.reservations.Keys == w.registry.podCounts.Keys && Enabled(w, Start(key, es), hw)
    ensures Inv(Next(w, Start(key, es)), hw)
  {
    hide LedgerOK, FullGPUEntries, MarkUpTo, WithinTotals;
    StartedRegistry(w.registry, key, es);
  }

  lemma StartedRegistry(s: State, key: string, es: seq<Entry>)
    requires LedgerOK(s) && s.reservations.Keys == s.podCounts.Keys && key !in s.allocs && es != [] && FullGPUEntries(es)
    ensures LedgerOK(MarkUpTo(s, es, |es|, key)) && MarkUpTo(s, es, |es|, key).allocs == s.allocs[key := es]
  {
    hide LedgerOK, FullGPUEntries, MarkUpTo;
    MarkUpToOK(s, es, |es|, key);
    MarkUpToRecords(s, es, |es|, key);
    assert es[..|es|] == es && s.EntriesOf(key) + es == es;
  }

  lemma ReleaseKeeps(w: World, key: string, hw: Hardware)
    requires Inv(w, hw)
    ensures w.registry.reservations.Keys == w.registry.podCounts.Keys && LedgerOK(Release(w.registry, key))
    ensures WithinTotals(Release(w.registry, key), hw) && Release(w.registry, key).allocs == w.registry.allocs - {key}
  {
    assert w.registry.reservations.Keys == w.registry.podCounts.Keys;
    ReleaseOK(w.registry, key);
    hide LedgerOK;
    forall n, g
      ensures Release(w.registry, key).Reserved(n, g) <= hw.total(n, g)
    {
      ReleaseLowers(w.registry, key, n, g);
      assert w.registry.Reserved(n, g) <= hw.total(n, g);
    }
    if key !in w.registry.allocs {
      assert w.registry.allocs - {key} == w.registry.allocs;
    }
  }

  // ---------- Running memory is reservations plus what is unrecorded ----------

  lemma {:induction false} HeldSplits(running: map<string, seq<Entry>>, recorded: map<string, seq<Entry>>, weight: Entry -> int)
    requires forall k :: k in recorded ==> k in running && running[k] == recorded[k]
    ensures Held(running, weight) == Held(recorded, weight) + Held(running - recorded.Keys, weight)
    decreases |recorded|
  {
    if recorded == map[] {
      assert Weights(recorded, weight) == map[];
      assert running - recorded.Keys == running;
    } else {
      var k :| k in recorded;
      HeldRemove(running, k, weight);
      HeldRemove(recorded, k, weight);
      HeldSplits(running - {k}, recorded - {k}, weight);
      assert running - {k} - (recorded - {k}).Keys == running - recorded.Keys;
    }
  }

  lemma PhysicalIs(w: World, hw: Hardware, n: string, g: string)
    requires Inv(w, hw)
    ensures Physical(w, n, g) == w.registry.Reserved(n, g) + Unrecorded(w, n, g)
  {
    HeldSplits(w.running, w.registry.allocs, MemOn(n, g));
  }

  lemma HeldWithOne(running: map<string, seq<Entry>>, key: string, es: seq<Entry>, weight: Entry -> int)
    requires key !in running
    ensures Held(running[key := es], weight) == Held(running, weight) + Sum(es, weight)
  {
    HeldPut(running, key, es, weight);
    assert running - {key} == running;
  }

  /** After a start, a GPU's running memory is its reservations plus what was unrecorded before. */
  lemma StartedPhysical(w: World, key: string, es: seq<Entry>, hw: Hardware, n: string, g: string)
    requires Inv(w, hw) && w.registry.reservations.Keys == w.registry.podCounts.Keys && Enabled(w, Start(key, es), hw)
    ensures Physical(Next(w, Start(key, es)), n, g) == Next(w, Start(key, es)).registry.Reserved(n, g) + Unrecorded(w, n, g)
  {
    PhysicalIs(w, hw, n, g);
    HeldWithOne(w.running, key, es, MemOn(n, g));
    MarkUpToTables(w.registry, es, |es|, key, n, g);
    assert es[..|es|] == es;
  }

  // ---------- Exactly when starts keep memory ----------

  /** No awaited pod that still runs holds GPU memory. */
  ghost predicate AwaitedHoldNothing(w: World) {
    forall k, e :: k in w.awaited && k in w.running && e in w.running[k] ==> e.memoryMB == 0
  }

  ghost predicate NothingUnrecorded(w: World) {
    forall n, g :: Unrecorded(w, n, g) == 0
  }

  /** Every start that the reservations allow keeps the running memory within every GPU's total. */
  ghost predicate StartsKeepMemory(w: World, hw: Hardware)
    requires w.registry.reservations.Keys == w.registry.podCounts.Keys
  {
    forall key, es :: Enabled(w, Start(key, es), hw) ==> WithinMemory(Next(w, Start(key, es)), hw)
  }

  lemma {:induction false} ZeroSum(es: seq<Entry>, weight: Entry -> int)
    requires forall e :: e in es ==> weight(e) == 0
    ensures Sum(es, weight) == 0
  {
    if es != [] {
      assert es[0] in es && forall e :: e in es[1..] ==> e in es;
      ZeroSum(es[1..], weight);
    }
  }

  lemma {:induction false} ZeroSumMap(m: map<string, int>)
    requires forall k :: k in m ==> m[k] == 0
    ensures SumMap(m) == 0
    decreases |m|
  {
    if m != map[] {
      var k :| k in m;
      SumMapRemove(m, k);
      ZeroSumMap(m - {k});
    }
  }

  lemma NothingHeld(running: map<string, seq<Entry>>, n: string, g: string)
    requires forall k, e :: k in running && e in running[k] ==> e.memoryMB == 0
    ensures Held(running, MemOn(n, g)) == 0
  {
    forall k | k in running
      ensures Sum(running[k], MemOn(n, g)) == 0
    {
      ZeroSum(running[k], MemOn(n, g));
    }
    ZeroSumMap(Weights(running, MemOn(n, g)));
  }

  /** A pod that holds memory on a GPU shows in the sum. */
  lemma SomethingHeld(running: map<string, seq<Entry>>, k: string, e: Entry)
    requires k in running && e in running[k] && e.memoryMB > 0
    requires forall i :: i in running ==> FullGPUEntries(running[i])
    ensures Held(running, MemOn(e.nodeName, e.gpuUUID)) > 0
  {
    var weight := MemOn(e.nodeName, e.gpuUUID);
    HeldRemove(running, k, weight);
    HeldNonNegative(running - {k}, weight);
    var i :| 0 <= i < |running[k]| && running[k][i] == e;
    SumRemove(running[k], i, weight);
    SumNonNegative(running[k][..i] + running[k][i + 1..], weight);
  }

  lemma AwaitedAreUnrecorded(w: World, hw: Hardware)
    requires Inv(w, hw)
    ensures NothingUnrecorded(w) <==> AwaitedHoldNothing(w)
  {
    var rest := w.running - w.registry.allocs.Keys;
    assert forall k :: k in rest <==> k in w.running && k in w.awaited;
    hide LedgerOK, WithinTotals, Held;
    if AwaitedHoldNothing(w) {
      forall n, g
        ensures Unrecorded(w, n, g) == 0
      {
        NothingHeld(rest, n, g);
      }
    }
    if k, e :| k in w.awaited && k in w.running && e in w.running[k] && e.memoryMB != 0 {
      var i :| 0 <= i < |w.running[k]| && w.running[k][i] == e;
      SomethingHeld(rest, k, e);
      assert Unrecorded(w, e.nodeName, e.gpuUUID) > 0;
    }
  }

  lemma {:induction false} FreshKey(used: set<string>) returns (key: string)
    ensures forall k :: k in used ==> |k| < |key|
    decreases |used|
  {
    if used == {} {
      key := "";
    } else {
      var k :| k in used;
      var other := FreshKey(used - {k});
      key := if |other| > |k| then other else k + "x";
      assert used == (used - {k}) + {k};
    }
  }

  /** A pod that takes all memory that is not reserved overfills a GPU on which something runs unrecorded. */
  lemma FullStartOverfills(w: World, hw: Hardware, n: string, g: string) returns (key: string, es: seq<Entry>)
    requires Inv(w, hw) && w.registry.reservations.Keys == w.registry.podCounts.Keys && w.inPass && Unrecorded(w, n, g) > 0
    ensures Enabled(w, Start(key, es), hw) && !WithinMemory(Next(w, Start(key, es)), hw)
  {
    key := FreshKey(w.running.Keys + w.registry.allocs.Keys + w.awaited);
    assert w.registry.Reserved(n, g) <= hw.total(n, g);
    es := [Entry(n, g, hw.total(n, g) - w.registry.Reserved(n, g), false)];
    FullReservation(w.registry, hw, key, es, n, g);
    hide LedgerOK, WithinTotals, MarkUpTo, Held;
    StartedPhysical(w, key, es, hw, n, g);
    assert Physical(Next(w, Start(key, es)), n, g) > hw.total(n, g);
  }

  lemma FullReservation(s: State, hw: Hardware, key: string, es: seq<Entry>, n: string, g: string)
    requires s.reservations.Keys == s.podCounts.Keys && WithinTotals(s, hw)
    requires es == [Entry(n, g, hw.total(n, g) - s.Reserved(n, g), false)]
    ensures FullGPUEntries(es) && WithinTotals(MarkUpTo(s, es, |es|, key), hw)
    ensures MarkUpTo(s, es, |es|, key).Reserved(n, g) == hw.total(n, g)
  {
    assert s.Reserved(n, g) <= hw.total(n, g);
    assert es == [es[0]] && es[..|es|] == es;
    forall n', g'
      ensures MarkUpTo(s, es, |es|, key).Reserved(n', g') == s.Reserved(n', g') + MemOn(n', g')(es[0])
    {
      MarkUpToTables(s, es, |es|, key, n', g');
      OneEntry(es[0], n', g');
    }
  }

  /** In a pass, every start that the reservations allow keeps the memory of the running pods within every GPU's total if
      and only if no pod evicted in this pass is still running with GPU memory. */
  lemma StartsKeepMemoryExactly(w: World, hw: Hardware)
    requires Inv(w, hw) && w.inPass
    ensures w.registry.reservations.Keys == w.registry.podCounts.Keys
    ensures StartsKeepMemory(w, hw) <==> AwaitedHoldNothing(w)
  {
    assert w.registry.reservations.Keys == w.registry.podCounts.Keys;
    AwaitedAreUnrecorded(w, hw);
    hide LedgerOK, AwaitedHoldNothing, Enabled, Next, WithinMemory, Unrecorded;
    if NothingUnrecorded(w) {
      forall key, es | Enabled(w, Start(key, es), hw)
        ensures WithinMemory(Next(w, Start(key, es)), hw)
      {
        StartKeepsMemory(w, hw, key, es);
      }
    } else {
      var n, g :| Unrecorded(w, n, g) != 0;
      UnrecordedNonNegative(w, hw, n, g);
      var key, es := FullStartOverfills(w, hw, n, g);
      assert Enabled(w, Start(key, es), hw);
    }
  }

  lemma UnrecordedNonNegative(w: World, hw: Hardware, n: string, g: string)
    requires Inv(w, hw)
    ensures Unrecorded(w, n, g) >= 0
  {
    hide LedgerOK, WithinTotals;
    HeldNonNegative(w.running - w.registry.allocs.Keys, MemOn(n, g));
  }

  lemma StartKeepsMemory(w: World, hw: Hardware, key: string, es: seq<Entry>)
    requires Inv(w, hw) && NothingUnrecorded(w)
    ensures w.registry.reservations.Keys == w.registry.podCounts.Keys
    ensures Enabled(w, Start(key, es), hw) ==> WithinMemory(Next(w, Start(key, es)), hw)
  {
    assert w.registry.reservations.Keys == w.registry.podCounts.Keys;
    if Enabled(w, Start(key, es), hw) {
      hide LedgerOK, MarkUpTo, Held;
      forall n, g
        ensures Physical(Next(w, Start(key, es)), n, g) <= hw.total(n, g)
      {
        StartedPhysical(w, key, es, hw, n, g);
        assert Unrecorded(w, n, g) == 0;
        assert MarkUpTo(w.registry, es, |es|, key).Reserved(n, g) <= hw.total(n, g);
      }
    }
  }

  // ---------- Runs ----------

  ghost predicate IsRun(run: seq<World>, events: seq<Event>, hw: Hardware) {
    && |run| == |events| + 1
    && (forall i :: 0 <= i < |run| ==> run[i].registry.reservations.Keys == run[i].registry.podCounts.Keys)
    && (forall i :: 0 <= i < |events| ==> Enabled(run[i], events[i], hw) && run[i + 1] == Next(run[i], events[i]))
  }

  /** Over every run, each running pod is recorded or awaited. */
  lemma {:induction false} InvOverRuns(run: seq<World>, events: seq<Event>, hw: Hardware, i: nat)
    requires IsRun(run, events, hw) && Inv(run[0], hw) && i < |run|
    ensures Inv(run[i], hw)
  {
    hide Inv, Next, Enabled;
    if i > 0 {
      InvOverRuns(run, events, hw, i - 1);
      StepKeepsInv(run[i - 1], events[i - 1], hw);
    }
  }

  /** A pass that is not deferred begins with nothing unrecorded. */
  lemma PassBeginsRecorded(w: World, e: Event, hw: Hardware)
    requires Inv(w, hw) && w.registry.reservations.Keys == w.registry.podCounts.Keys
    requires e.Begin? && Enabled(w, e, hw) && Next(w, e).inPass
    ensures Next(w, e).awaited == {} && NothingUnrecorded(Next(w, e))
  {
    StepKeepsInv(w, e, hw);
    hide LedgerOK, WithinTotals;
    AwaitedAreUnrecorded(Next(w, e), hw);
  }

  lemma OthersKeepMemory(w: World, e: Event, hw: Hardware)
    requires Inv(w, hw) && WithinMemory(w, hw) && !e.Start?
    ensures w.registry.reservations.Keys == w.registry.podCounts.Keys && WithinMemory(Next(w, e), hw)
  {
    assert w.registry.reservations.Keys == w.registry.podCounts.Keys;
    forall n, g
      ensures Physical(Next(w, e), n, g) <= Physical(w, n, g)
    {
      if e.End? && e.key in w.running {
        HeldRemove(w.running, e.key, MemOn(n, g));
        SumNonNegativeEntries(w.running[e.key], n, g);
      } else if e.End? {
        assert w.running - {e.key} == w.running;
      }
    }
  }

  /** Memory holds over every run in which each pod starts while no awaited pod runs with GPU memory. */
  lemma {:induction false} MemoryOverRuns(run: seq<World>, events: seq<Event>, hw: Hardware, i: nat)
    requires IsRun(run, events, hw) && Inv(run[0], hw) && WithinMemory(run[0], hw) && i < |run|
    requires forall j :: 0 <= j < |events| && events[j].Start? ==> AwaitedHoldNothing(run[j])
    ensures WithinMemory(run[i], hw)
  {
    hide Inv, WithinMemory, Enabled, Next, AwaitedHoldNothing;
    if i > 0 {
      MemoryOverRuns(run, events, hw, i - 1);
      InvOverRuns(run, events, hw, i - 1);
      if events[i - 1].Start? {
        AwaitedAreUnrecorded(run[i - 1], hw);
        StartKeepsMemory(run[i - 1], hw, events[i - 1].key, events[i - 1].entries);
      } else {
        OthersKeepMemory(run[i - 1], events[i - 1], hw);
      }
    }
  }

  /** Some pod was evicted before event i in the same pass. */
  ghost predicate EvictedInPass(events: seq<Event>, i: nat)
    requires i <= |events|
  {
    exists j :: 0 <= j < i && events[j].Evict? && forall m :: j < m < i ==> !events[m].Begin?
  }

  /** In a pass, awaited pods were evicted in this pass. */
  lemma {:induction false} AwaitedInPass(run: seq<World>, events: seq<Event>, hw: Hardware, i: nat)
    requires IsRun(run, events, hw) && !run[0].inPass && i < |run|
    ensures run[i].inPass && run[i].awaited != {} ==> EvictedInPass(events, i)
  {
    hide FullGPUEntries, WithinTotals, MarkUpTo, Release;
    if i > 0 && run[i].inPass && run[i].awaited != {} {
      AwaitedInPass(run, events, hw, i - 1);
      if !events[i - 1].Evict? {
        var j :| 0 <= j < i - 1 && events[j].Evict? && forall m :: j < m < i - 1 ==> !events[m].Begin?;
      }
    }
  }

  /** Memory holds over every run in which no pod is placed after an eviction of its own pass. */
  lemma MemoryWithoutLatePlacement(run: seq<World>, events: seq<Event>, hw: Hardware, i: nat)
    requires IsRun(run, events, hw) && Inv(run[0], hw) && WithinMemory(run[0], hw) && !run[0].inPass && i < |run|
    requires forall j :: 0 <= j < |events| && events[j].Start? ==> !EvictedInPass(events, j)
    ensures WithinMemory(run[i], hw)
  {
    forall j | 0 <= j < |events| && events[j].Start?
      ensures AwaitedHoldNothing(run[j])
    {
      AwaitedInPass(run, events, hw, j);
      assert Enabled(run[j], events[j], hw);
    }
    MemoryOverRuns(run, events, hw, i);
  }

  // ---------- An awaited pod that does not go ----------

  ghost predicate NeverEnds(events: seq<Event>, k: string) {
    forall i :: 0 <= i < |events| ==> events[i] != End(k)
  }

  /** While an awaited pod runs on outside a pass, as it does when its deletion failed, no pass begins: nothing is placed
      and nothing evicted. */
  lemma {:induction false} AwaitedPodStopsScheduling(run: seq<World>, events: seq<Event>, hw: Hardware, k: string, i: nat)
    requires IsRun(run, events, hw) && NeverEnds(events, k) && i < |run|
    requires !run[0].inPass && k in run[0].awaited && k in run[0].running
    ensures !run[i].inPass && k in run[i].awaited && k in run[i].running
    ensures i < |events| ==> !events[i].Start? && !events[i].Evict?
  {
    hide FullGPUEntries, WithinTotals, MarkUpTo, Release;
    if i > 0 {
      AwaitedPodStopsScheduling(run, events, hw, k, i - 1);
      assert events[i - 1] != End(k);
    }
    if i < |events| {
      assert Enabled(run[i], events[i], hw);
    }
  }

  // ---------- The scheduler's steps ----------

  /** Waiting for the evicted pods at the start of a pass is the step Begin: what it leaves in the awaited keys and whether
      it lets the pass go on. */
  lemma AwaitIsBegin(w: World, hw: Hardware, listed: set<string>, left: set<string>, proceed: bool)
    requires w.registry.reservations.Keys == w.registry.podCounts.Keys && !w.inPass && w.running.Keys <= listed
    requires w.awaited * listed <= left <= w.awaited && (proceed ==> left == {})
    requires proceed <==> w.awaited * listed == {}
    ensures Enabled(w, Begin(listed, w.awaited - left), hw)
    ensures Next(w, Begin(listed, w.awaited - left)) == w.(awaited := left, inPass := proceed)
  {
    assert w.awaited - (w.awaited - left) == left;
  }

  /** A bound one-pod placement on whole GPUs is such a start. */
  lemma PlacementIsStart(w: World, hw: Hardware, pod: Pod, preferred: seq<string>, es: seq<Entry>)
    requires Inv(w, hw) && NodesOK(w.registry, hw) && GetGPUMemory(pod) >= 0 && w.inPass
    requires IsDecision(w.registry, pod, preferred, FullGPUs(es)) && es != []
    requires var key := PodKey(pod.namespace, pod.name); key !in w.running && key !in w.awaited
    ensures w.registry.reservations.Keys == w.registry.podCounts.Keys
    ensures var key := PodKey(pod.namespace, pod.name);
            && Enabled(w, Start(key, es), hw)
            && Next(w, Start(key, es)).registry == Place(w.registry, FullGPUs(es), GetGPUMemory(pod), key, true)
  {
    var s, key := w.registry, PodKey(pod.namespace, pod.name);
    assert s.reservations.Keys == s.podCounts.Keys && key !in s.allocs;
    DecisionIsFull(s, pod, preferred, es);
    hide LedgerOK, NodesOK, IsDecision, GetGPUMemory, FullGPUEntries, MarkUpTo, PodKey;
    forall n, g
      ensures MarkUpTo(s, es, |es|, key).Reserved(n, g) <= hw.total(n, g)
    {
      StartStaysWithin(s, hw, pod, preferred, es, key, n, g);
    }
  }

  lemma StartStaysWithin(s: State, hw: Hardware, pod: Pod, preferred: seq<string>, es: seq<Entry>, key: string, n: string, g: string)
    requires s.reservations.Keys == s.podCounts.Keys && NodesOK(s, hw) && WithinTotals(s, hw)
    requires IsDecision(s, pod, preferred, FullGPUs(es)) && FullGPUEntries(es)
    ensures MarkUpTo(s, es, |es|, key).Reserved(n, g) <= hw.total(n, g)
  {
    DecisionFits(s, hw, pod, preferred, es, n, g);
    MarkUpToTables(s, es, |es|, key, n, g);
    assert s.Reserved(n, g) <= hw.total(n, g) && es[..|es|] == es;
  }

  lemma {:induction false} PlannedGrows(ps: seq<PodPlacement>, i: nat, n: nat, node: string, g: string)
    requires i <= n <= |ps| && Sensible(ps)
    ensures PlannedMemory(ps, i, node, g) <= PlannedMemory(ps, n, node, g)
    decreases n
  {
    if i < n {
      PlannedGrows(ps, i, n - 1, node, g);
      EntriesAreFull(ps[n - 1]);
      SumNonNegativeEntries(EntriesFor(ps[n - 1]), node, g);
    }
  }

  /** A bound gang member is such a start, whichever binds failed before it. */
  lemma MemberIsStart(w: World, s: State, hw: Hardware, pods: seq<Pod>, ps: seq<PodPlacement>, binds: seq<bool>, i: nat)
    requires LedgerOK(s) && NodesOK(s, hw) && WithinTotals(s, hw) && IsGangPlan(s, pods, ps)
    requires forall j :: 0 <= j < |pods| ==> GetGPUMemory(pods[j]) >= 0
    requires s.reservations.Keys == s.podCounts.Keys && |binds| == |ps| && i < |ps|
    requires Inv(w, hw) && w.inPass && w.registry == Committed(s, ps, binds, i)
    requires KeyOf(ps[i]) !in w.running && KeyOf(ps[i]) !in w.awaited
    ensures w.registry.reservations.Keys == w.registry.podCounts.Keys
    ensures Enabled(w, Start(KeyOf(ps[i]), EntriesFor(ps[i])), hw)
    ensures Next(w, Start(KeyOf(ps[i]), EntriesFor(ps[i]))).registry == CommitOne(w.registry, ps[i], true)
  {
    PlansAreSensible(s, pods, ps);
    EntriesAreFull(ps[i]);
    var es, key := EntriesFor(ps[i]), KeyOf(ps[i]);
    assert |ps[i].gpuIDs| > 0 && |es| == |ps[i].gpuIDs|;
    assert key !in w.registry.allocs;
    hide LedgerOK, NodesOK, IsGangPlan, Committed, FullGPUEntries, MarkUpTo, KeyOf, Sensible;
    forall n, g
      ensures MarkUpTo(w.registry, es, |es|, key).Reserved(n, g) <= hw.total(n, g)
    {
      MemberStaysWithin(s, hw, pods, ps, binds, i, key, n, g);
    }
  }

  lemma MemberStaysWithin(s: State, hw: Hardware, pods: seq<Pod>, ps: seq<PodPlacement>, binds: seq<bool>, i: nat, key: string,
                          n: string, g: string)
    requires LedgerOK(s) && NodesOK(s, hw) && WithinTotals(s, hw) && IsGangPlan(s, pods, ps) && Sensible(ps)
    requires forall j :: 0 <= j < |pods| ==> GetGPUMemory(pods[j]) >= 0
    requires s.reservations.Keys == s.podCounts.Keys && |binds| == |ps| && i < |ps|
    ensures MarkUpTo(Committed(s, ps, binds, i), EntriesFor(ps[i]), |EntriesFor(ps[i])|, key).Reserved(n, g) <= hw.total(n, g)
  {
    var es := EntriesFor(ps[i]);
    EntriesAreFull(ps[i]);
    GangFitsGPU(s, hw, pods, ps, n, g);
    hide LedgerOK, NodesOK, WithinTotals, IsGangPlan, Committed, MarkUpTo, Sensible, FullGPUEntries;
    CommittedBound(s, ps, binds, i, n, g);
    PlannedGrows(ps, i + 1, |ps|, n, g);
    MarkUpToTables(Committed(s, ps, binds, i), es, |es|, key, n, g);
    assert es[..|es|] == es;
  }

  /** The world after the first n victims were evicted. */
  function AllEvicted(w: World, victims: seq<P.Candidate>, n: nat): (r: World)
    requires n <= |victims| && w.registry.reservations.Keys == w.registry.podCounts.Keys
    ensures r.registry.reservations.Keys == r.registry.podCounts.Keys
  {
    if n == 0 then w
    else Next(AllEvicted(w, victims, n - 1), Evict(PodKey(victims[n - 1].pod.namespace, victims[n - 1].pod.name)))
  }

  /** What making room leaves behind is one eviction after the other, whichever deletions succeeded: the reservations are
      gone, the keys are awaited, and the pods run on. */
  lemma {:induction false} VictimsAreEvicted(w: World, pending: map<string, int>, victims: seq<P.Candidate>, n: nat, now: int)
    requires n <= |victims| && w.registry.reservations.Keys == w.registry.podCounts.Keys && w.awaited == pending.Keys
    ensures var r := AllEvicted(w, victims, n);
            && r.registry == ReleaseVictims(w.registry, victims, n)
            && r.awaited == Waited(pending, victims, n, now).Keys
            && r.running == w.running && r.inPass == w.inPass
  {
    hide Release;
    if n > 0 {
      VictimsAreEvicted(w, pending, victims, n - 1, now);
    }
  }
}
