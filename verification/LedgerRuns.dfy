/** The registry's ledger over arbitrary runs of its operations, and the undo of a placement. */
module LedgerRuns {
  import opened Collections
  import opened Types
  import opened Ledger

  datatype Op =
    | OpReport(n: string, hasNVLink: bool, gpus: seq<GPUInfo>, now: int)
    | OpStale(threshold: int, now: int)
    | OpMark(n: string, g: string, memoryMB: int, key: string)
    | OpMarkMIG(n: string, uuid: string, memoryMB: int, key: string)
    | OpRelease(key: string)

  function Apply(s: State, op: Op): State
    requires s.reservations.Keys == s.podCounts.Keys
  {
    match op
    case OpReport(n, hasNVLink, gpus, now) => Report(s, n, hasNVLink, gpus, now)
    case OpStale(threshold, now) => RemoveStale(s, threshold, now)
    case OpMark(n, g, memoryMB, key) => Mark(s, n, g, memoryMB, key)
    case OpMarkMIG(n, uuid, memoryMB, key) => MarkMIG(s, n, uuid, memoryMB, key)
    case OpRelease(key) => Release(s, key)
  }

  function Run(s: State, ops: seq<Op>, i: nat): (r: State)
    requires i <= |ops| && s.reservations.Keys == s.podCounts.Keys
    ensures r.reservations.Keys == r.podCounts.Keys
  {
    if i == 0 then s else Apply(Run(s, ops, i - 1), ops[i - 1])
  }

  ghost predicate AsksNonNegative(op: Op) {
    op.OpMark? ==> op.memoryMB >= 0
  }

  /** If op releases a recorded pod in state s, no entry reaches the clamp. */
  ghost predicate ReleasesExactly(s: State, op: Op)
    requires s.reservations.Keys == s.podCounts.Keys
  {
    op.OpRelease? && op.key in s.allocs ==> NeverClamped(s, s.allocs[op.key], |s.allocs[op.key]|)
  }

  lemma ApplyOK(s: State, op: Op)
    requires LedgerOK(s) && AsksNonNegative(op)
    ensures LedgerOK(Apply(s, op))
  {
    match op
    case OpReport(n, hasNVLink, gpus, now) => SameLedger(s, Report(s, n, hasNVLink, gpus, now));
    case OpStale(threshold, now) => SameLedger(s, RemoveStale(s, threshold, now));
    case OpMark(n, g, memoryMB, key) => MarkOK(s, n, g, memoryMB, key);
    case OpMarkMIG(n, uuid, memoryMB, key) => MarkMIGOK(s, n, uuid, memoryMB, key);
    case OpRelease(key) => ReleaseOK(s, key);
  }

  lemma SameLedger(s: State, r: State)
    requires LedgerOK(s)
    requires r.reservations == s.reservations && r.podCounts == s.podCounts && r.allocs == s.allocs
    ensures LedgerOK(r)
  {
    forall n, g
      ensures r.Reserved(n, g) == Held(r.allocs, MemOn(n, g)) && r.PodCount(n, g) == Held(r.allocs, CountOn(n, g))
    {
      assert s.Reserved(n, g) == Held(s.allocs, MemOn(n, g));
      assert s.PodCount(n, g) == Held(s.allocs, CountOn(n, g));
    }
  }

  /** Over every run of marks of non-negative amounts, releases, reports and stale-node removals, both tables are the
      sums over the pods' records at every point, and no release reaches the clamp. */
  lemma {:induction false} LedgerEqualsRecords(s: State, ops: seq<Op>, i: nat)
    requires LedgerOK(s) && i <= |ops|
    requires forall j :: 0 <= j < |ops| ==> AsksNonNegative(ops[j])
    ensures LedgerOK(Run(s, ops, i))
    ensures i < |ops| ==> ReleasesExactly(Run(s, ops, i), ops[i])
  {
    if i > 0 {
      LedgerEqualsRecords(s, ops, i - 1);
      ApplyOK(Run(s, ops, i - 1), ops[i - 1]);
    }
    var r := Run(s, ops, i);
    if i < |ops| && ops[i].OpRelease? && ops[i].key in r.allocs {
      NonNegativeNeverClamps(r, ops[i].key, |r.allocs[ops[i].key]|);
    }
  }

  /** With a negative request in the run the law fails: pod a's release clamps and the ledger forgets pod b. */
  lemma NegativeRequestBreaksLedger()
    ensures var ops := [OpMark("n", "g", 5, "a"), OpMark("n", "g", -10, "b"), OpRelease("a")];
            !Agrees(Run(EMPTY, ops, 3))
  {
    var ops := [OpMark("n", "g", 5, "a"), OpMark("n", "g", -10, "b"), OpRelease("a")];
    var s1 := Mark(EMPTY, "n", "g", 5, "a");
    var s2 := Mark(s1, "n", "g", -10, "b");
    assert Agrees(s2) by {
      hide Mark;
      EmptyIsOK();
      MarkAgrees(EMPTY, "n", "g", 5, "a");
      MarkAgrees(s1, "n", "g", -10, "b");
    }
    assert Run(EMPTY, ops, 3) == Release(s2, "a") by {
      hide Mark, Release;
      RunThree(EMPTY, ops);
    }
    ReleaseBelowZero(s2, "a", Entry("n", "g", 5, false));
  }

  lemma RunThree(s: State, ops: seq<Op>)
    requires |ops| == 3 && s.reservations.Keys == s.podCounts.Keys
    requires ops[0].OpMark? && ops[1].OpMark? && ops[2].OpRelease?
    ensures var t := Mark(s, ops[0].n, ops[0].g, ops[0].memoryMB, ops[0].key);
            Run(s, ops, 3) == Release(Mark(t, ops[1].n, ops[1].g, ops[1].memoryMB, ops[1].key), ops[2].key)
  {
    hide Mark, Release;
    assert Run(s, ops, 1) == Apply(Run(s, ops, 0), ops[0]);
    assert Run(s, ops, 2) == Apply(Run(s, ops, 1), ops[1]);
  }

  lemma ReleaseBelowZero(s: State, key: string, e: Entry)
    requires Agrees(s) && key in s.allocs && s.allocs[key] == [e] && !e.isMIG
    requires s.Reserved(e.nodeName, e.gpuUUID) < e.memoryMB
    ensures !Agrees(Release(s, key))
  {
    assert e in s.allocs[key];
    assert !NoClamp(s, s.allocs[key], 0);
    ReleaseAgreesExactly(s, key);
  }

  // ---------- Mark, then roll back ----------

  /** The first i of a pod's reservations made, in order. */
  function MarkUpTo(s: State, es: seq<Entry>, i: nat, key: string): (r: State)
    requires i <= |es| && s.reservations.Keys == s.podCounts.Keys
    ensures r.reservations.Keys == r.podCounts.Keys
    ensures r.nodes == s.nodes && r.lastSeen == s.lastSeen
  {
    if i == 0 then s
    else
      var e := es[i - 1];
      Mark(MarkUpTo(s, es, i - 1, key), e.nodeName, e.gpuUUID, e.memoryMB, key)
  }

  ghost predicate FullGPUEntries(es: seq<Entry>) {
    forall i :: 0 <= i < |es| ==> !es[i].isMIG && es[i].memoryMB >= 0
  }

  lemma {:induction false} MarkUpToOK(s: State, es: seq<Entry>, i: nat, key: string)
    requires s.reservations.Keys == s.podCounts.Keys
    requires i <= |es| && LedgerOK(s) && FullGPUEntries(es)
    ensures LedgerOK(MarkUpTo(s, es, i, key))
  {
    hide Mark, LedgerOK;
    if i > 0 {
      MarkUpToOK(s, es, i - 1, key);
      var e := es[i - 1];
      MarkOK(MarkUpTo(s, es, i - 1, key), e.nodeName, e.gpuUUID, e.memoryMB, key);
    }
  }

  lemma MarkRecord(s: State, e: Entry, key: string)
    requires s.reservations.Keys == s.podCounts.Keys && !e.isMIG
    ensures Mark(s, e.nodeName, e.gpuUUID, e.memoryMB, key).allocs == s.allocs[key := s.EntriesOf(key) + [e]]
  {
    assert e == Entry(e.nodeName, e.gpuUUID, e.memoryMB, false);
  }

  /** Only the pod's own record grows, by the entries marked. */
  lemma {:induction false} MarkUpToRecords(s: State, es: seq<Entry>, i: nat, key: string)
    requires i <= |es| && s.reservations.Keys == s.podCounts.Keys && FullGPUEntries(es)
    ensures MarkUpTo(s, es, i, key).allocs == if i == 0 then s.allocs else s.allocs[key := s.EntriesOf(key) + es[..i]]
  {
    hide Mark;
    if i > 0 {
      MarkUpToRecords(s, es, i - 1, key);
      var before := MarkUpTo(s, es, i - 1, key);
      MarkRecord(before, es[i - 1], key);
      assert before.EntriesOf(key) + [es[i - 1]] == s.EntriesOf(key) + es[..i] by {
        assert es[..i] == es[..i - 1] + [es[i - 1]];
        assert before.EntriesOf(key) == s.EntriesOf(key) + es[..i - 1];
      }
    }
  }

  lemma {:induction false} MarkUpToTables(s: State, es: seq<Entry>, i: nat, key: string, n: string, g: string)
    requires i <= |es| && s.reservations.Keys == s.podCounts.Keys && FullGPUEntries(es)
    ensures MarkUpTo(s, es, i, key).Reserved(n, g) == s.Reserved(n, g) + Sum(es[..i], MemOn(n, g))
    ensures MarkUpTo(s, es, i, key).PodCount(n, g) == s.PodCount(n, g) + Sum(es[..i], CountOn(n, g))
  {
    if i > 0 {
      MarkUpToTables(s, es, i - 1, key, n, g);
      var e := es[i - 1];
      MarkEffect(MarkUpTo(s, es, i - 1, key), e.nodeName, e.gpuUUID, e.memoryMB, key, n, g);
      assert e == Entry(e.nodeName, e.gpuUUID, e.memoryMB, false);
      TakeNext(es, i - 1, MemOn(n, g));
      TakeNext(es, i - 1, CountOn(n, g));
    }
  }

  /** The two registries look the same to every reader of nodes, reservations, counts and records. */
  ghost predicate SameView(s: State, r: State) {
    && r.nodes == s.nodes && r.lastSeen == s.lastSeen && r.allocs == s.allocs
    && (forall n, g :: r.Reserved(n, g) == s.Reserved(n, g))
    && (forall n, g :: r.PodCount(n, g) == s.PodCount(n, g))
  }

  /** Reserving GPUs for a pod without records and rolling the placement back leaves no trace. */
  lemma MarkThenRollbackRestoresView(s: State, es: seq<Entry>, key: string)
    requires LedgerOK(s) && FullGPUEntries(es) && key !in s.allocs
    ensures s.reservations.Keys == s.podCounts.Keys
    ensures SameView(s, Release(MarkUpTo(s, es, |es|, key), key))
  {
    if es != [] {
      assert s.reservations.Keys == s.podCounts.Keys;
      hide LedgerOK, SameView, Release, MarkUpTo, FullGPUEntries;
      MarkUpToOK(s, es, |es|, key);
      MarkUpToRecords(s, es, |es|, key);
      assert s.EntriesOf(key) + es[..|es|] == es;
      RollbackOf(s, MarkUpTo(s, es, |es|, key), es, key);
    }
  }

  lemma NoneIsMIG(es: seq<Entry>)
    requires FullGPUEntries(es)
    ensures forall j :: 0 <= j < |es| ==> !es[j].isMIG
  {
  }

  lemma RollbackOf(s: State, t: State, es: seq<Entry>, key: string)
    requires s.reservations.Keys == s.podCounts.Keys && FullGPUEntries(es) && key !in s.allocs
    requires t == MarkUpTo(s, es, |es|, key) && LedgerOK(t) && t.allocs == s.allocs[key := es]
    ensures SameView(s, Release(t, key))
  {
    hide LedgerOK, Mark, MarkUpTo, ReleaseEntry, FullGPUEntries;
    NoneIsMIG(es);
    ReleaseKeepsNodes(t, es, |es|);
    assert s.allocs[key := es] - {key} == s.allocs;
    assert Release(t, key).nodes == s.nodes && Release(t, key).lastSeen == s.lastSeen && Release(t, key).allocs == s.allocs;
    hide Release, ReleaseUpTo;
    forall n, g
      ensures Release(t, key).Reserved(n, g) == s.Reserved(n, g) && Release(t, key).PodCount(n, g) == s.PodCount(n, g)
    {
      RollbackTables(s, es, key, n, g);
    }
  }

  lemma RollbackTables(s: State, es: seq<Entry>, key: string, n: string, g: string)
    requires s.reservations.Keys == s.podCounts.Keys && FullGPUEntries(es)
    requires var t := MarkUpTo(s, es, |es|, key); LedgerOK(t) && key in t.allocs && t.allocs[key] == es
    ensures var r := Release(MarkUpTo(s, es, |es|, key), key);
            r.Reserved(n, g) == s.Reserved(n, g) && r.PodCount(n, g) == s.PodCount(n, g)
  {
    hide LedgerOK, NeverClamped, Mark, MarkUpTo, MemOn, CountOn, Sum, FullGPUEntries, Release;
    var t := MarkUpTo(s, es, |es|, key);
    NonNegativeNeverClamps(t, key, |es|);
    MarkUpToTables(s, es, |es|, key, n, g);
    ReleasedTables(t, key, n, g);
  }

  lemma ReleasedTables(t: State, key: string, n: string, g: string)
    requires LedgerOK(t) && key in t.allocs && NeverClamped(t, t.allocs[key], |t.allocs[key]|)
    ensures var es := t.allocs[key];
            var r := Release(t, key);
            && r.Reserved(n, g) == t.Reserved(n, g) - Sum(es[..|es|], MemOn(n, g))
            && r.PodCount(n, g) == t.PodCount(n, g) - Sum(es[..|es|], CountOn(n, g))
  {
    ReleaseUpToEffect(t, t.allocs[key], |t.allocs[key]|, n, g);
    hide ReleaseUpTo, NeverClamped, Sum;
  }

  lemma {:induction false} ReleaseKeepsNodes(s: State, es: seq<Entry>, i: nat)
    requires i <= |es| && s.reservations.Keys == s.podCounts.Keys && forall j :: 0 <= j < |es| ==> !es[j].isMIG
    ensures ReleaseUpTo(s, es, i).nodes == s.nodes
  {
    if i > 0 {
      ReleaseKeepsNodes(s, es, i - 1);
    }
  }

  /** Releasing a pod twice is releasing it once. */
  lemma ReleaseIsIdempotent(s: State, key: string)
    requires s.reservations.Keys == s.podCounts.Keys
    ensures Release(Release(s, key), key) == Release(s, key)
    ensures key !in Release(s, key).allocs
  {
  }
}
