/** internal/scheduler/gang.go: sorting pending pods into standalone pods, ready gangs and timed-out gangs. */
module GangCollector {
  import opened Collections
  import opened Pods

  datatype GangState = GangState(id: string, size: int, pods: seq<Pod>, createdAt: int)

  /** The empty string: no gang. */
  function GetGangID(pod: Pod): string {
    match pod.Annotation("gpu-scheduler/gang-id")
    case Some(id) => id
    case None => ""
  }

  function GetGangSize(pod: Pod): nat {
    match pod.Number("gpu-scheduler/gang-size")
    case Some(size) => if size > 0 then size else 0
    case None => 0
  }

  /** The pods among the first n with this gang id, in order. */
  function Members(pods: seq<Pod>, n: nat, id: string): seq<Pod>
    requires n <= |pods|
  {
    if n == 0 then []
    else Members(pods, n - 1, id) + (if GetGangID(pods[n - 1]) == id then [pods[n - 1]] else [])
  }

  function Gang(pods: seq<Pod>, id: string): seq<Pod> {
    Members(pods, |pods|, id)
  }

  function Earliest(members: seq<Pod>): (r: int)
    requires members != []
    ensures exists p :: p in members && p.created == r
    ensures forall p :: p in members ==> r <= p.created
  {
    var last := members[|members| - 1];
    if |members| == 1 then last.created
    else
      var rest := members[..|members| - 1];
      assert forall p :: p in members ==> p in rest || p == last;
      var r := Earliest(rest);
      assert forall p :: p in rest ==> p in members;
      if last.created < r then last.created else r
  }

  function StateOf(id: string, members: seq<Pod>): GangState
    requires members != []
  {
    GangState(id, GetGangSize(members[0]), members, Earliest(members))
  }

  ghost predicate IsGang(pods: seq<Pod>, id: string) {
    id != "" && Gang(pods, id) != []
  }

  /** As many pods as the gang's first pod asks for. */
  predicate IsComplete(pods: seq<Pod>, id: string) {
    var members := Gang(pods, id);
    members != [] && |members| >= GetGangSize(members[0])
  }

  predicate IsTimedOut(pods: seq<Pod>, id: string, now: int, timeout: int) {
    Gang(pods, id) != [] && !IsComplete(pods, id) && now - Earliest(Gang(pods, id)) > timeout
  }

  ghost predicate Distinct<T>(s: seq<T>) {
    forall i, j :: 0 <= i < j < |s| ==> s[i] != s[j]
  }

  lemma MembersGrow(pods: seq<Pod>, n: nat, id: string)
    requires n < |pods|
    ensures Members(pods, n + 1, id) == if GetGangID(pods[n]) == id then Members(pods, n, id) + [pods[n]] else Members(pods, n, id)
  {
  }

  class Collector {
    const timeout: int

    constructor (timeout: int)
      ensures this.timeout == timeout
    {
      this.timeout := timeout;
    }

    /** The first loop: gangs by id, each with its pods in order. */
    method Group(pods: seq<Pod>) returns (gangs: map<string, GangState>, standalone: seq<Pod>)
      ensures standalone == Gang(pods, "")
      ensures IsGrouping(gangs, pods, |pods|)
    {
      gangs, standalone := map[], [];
      for i := 0 to |pods|
        invariant standalone == Members(pods, i, "")
        invariant IsGrouping(gangs, pods, i)
      {
        hide IsGrouping, Members, StateOf;
        var pod := pods[i];
        var id := GetGangID(pod);
        var before := gangs;
        MembersGrow(pods, i, "");
        if id == "" {
          standalone := standalone + [pod];
          KeepGrouping(gangs, pods, i);
          continue;
        }
        var state := if id in gangs then gangs[id] else GangState(id, GetGangSize(pod), [], pod.created);
        state := state.(pods := state.pods + [pod]);
        if pod.created < state.createdAt {
          state := state.(createdAt := pod.created);
        }
        gangs := gangs[id := state];
        GrownState(before, pods, i);
        PutGrouping(before, pods, i);
      }
    }

    /** Whatever the order in which the map is walked: exactly the complete gangs are ready, once each, with all their
        pods, and exactly the incomplete gangs that are too old are timed out, once each. */
    method Collect(pods: seq<Pod>, now: int)
      returns (ready: seq<GangState>, standalone: seq<Pod>, timedOut: seq<string>)
      ensures standalone == Gang(pods, "")
      ensures forall g :: g in ready <==> IsGang(pods, g.id) && IsComplete(pods, g.id) && g == StateOf(g.id, Gang(pods, g.id))
      ensures forall id :: id in timedOut <==> id != "" && IsTimedOut(pods, id, now, timeout)
      ensures Distinct(ready) && Distinct(timedOut)
    {
      var gangs;
      gangs, standalone := Group(pods);
      ready, timedOut := SortOut(gangs, now);
      hide Members;
    }

    /** The second loop, in some order. */
    method SortOut(gangs: map<string, GangState>, now: int) returns (ready: seq<GangState>, timedOut: seq<string>)
      requires forall id :: id in gangs ==> gangs[id].id == id
      ensures forall g :: g in ready <==> g.id in gangs && g == gangs[g.id] && |g.pods| >= g.size
      ensures forall id :: id in timedOut <==> id in gangs && |gangs[id].pods| < gangs[id].size && now - gangs[id].createdAt > timeout
      ensures Distinct(ready) && Distinct(timedOut)
    {
      ready, timedOut := [], [];
      var left := gangs.Keys;
      while left != {}
        invariant left <= gangs.Keys
        invariant forall g :: g in ready <==> g.id in gangs && g.id !in left && g == gangs[g.id] && |g.pods| >= g.size
        invariant forall id :: id in timedOut <==> id in gangs && id !in left && |gangs[id].pods| < gangs[id].size
                                                   && now - gangs[id].createdAt > timeout
        invariant Distinct(ready) && Distinct(timedOut)
        decreases |left|
      {
        var id :| id in left;
        var state := gangs[id];
        if |state.pods| >= state.size {
          ready := ready + [state];
        } else if now - state.createdAt > timeout {
          timedOut := timedOut + [state.id];
        }
        left := left - {id};
      }
    }
  }

  ghost predicate IsGrouping(gangs: map<string, GangState>, pods: seq<Pod>, n: nat)
    requires n <= |pods|
  {
    && (forall id :: id in gangs <==> id != "" && Members(pods, n, id) != [])
    && (forall id :: id in gangs ==> gangs[id] == StateOf(id, Members(pods, n, id)))
  }

  function Grown(gangs: map<string, GangState>, pod: Pod): GangState {
    var id := GetGangID(pod);
    var state := if id in gangs then gangs[id] else GangState(id, GetGangSize(pod), [], pod.created);
    state.(pods := state.pods + [pod], createdAt := if pod.created < state.createdAt then pod.created else state.createdAt)
  }

  lemma GrownState(gangs: map<string, GangState>, pods: seq<Pod>, i: nat)
    requires i < |pods| && IsGrouping(gangs, pods, i) && GetGangID(pods[i]) != ""
    ensures Members(pods, i + 1, GetGangID(pods[i])) != []
    ensures Grown(gangs, pods[i]) == StateOf(GetGangID(pods[i]), Members(pods, i + 1, GetGangID(pods[i])))
  {
    var id := GetGangID(pods[i]);
    var members := Members(pods, i, id);
    MembersGrow(pods, i, id);
    EarliestOfAppend(members, pods[i]);
    hide Members, Earliest;
    assert id in gangs <==> members != [];
    if members != [] {
      assert (members + [pods[i]])[0] == members[0];
      assert gangs[id] == StateOf(id, members);
    }
  }

  /** A gang with another id stays as it is. */
  lemma OthersStay(pods: seq<Pod>, i: nat, id: string)
    requires i < |pods| && id != GetGangID(pods[i])
    ensures Members(pods, i + 1, id) == Members(pods, i, id)
  {
    MembersGrow(pods, i, id);
  }

  lemma KeepGrouping(gangs: map<string, GangState>, pods: seq<Pod>, i: nat)
    requires i < |pods| && IsGrouping(gangs, pods, i) && GetGangID(pods[i]) == ""
    ensures IsGrouping(gangs, pods, i + 1)
  {
    hide Members, StateOf, GetGangID;
    forall id | id != ""
      ensures Members(pods, i + 1, id) == Members(pods, i, id)
    {
      OthersStay(pods, i, id);
    }
  }

  lemma PutGrouping(gangs: map<string, GangState>, pods: seq<Pod>, i: nat)
    requires i < |pods| && IsGrouping(gangs, pods, i) && GetGangID(pods[i]) != ""
    ensures IsGrouping(gangs[GetGangID(pods[i]) := Grown(gangs, pods[i])], pods, i + 1)
  {
    hide Members, StateOf, Grown, GetGangID;
    var key := GetGangID(pods[i]);
    GrownState(gangs, pods, i);
    forall id | id != key
      ensures Members(pods, i + 1, id) == Members(pods, i, id)
    {
      OthersStay(pods, i, id);
    }
  }

  lemma EarliestOfAppend(members: seq<Pod>, pod: Pod)
    ensures Earliest(members + [pod]) ==
            if members == [] || pod.created < Earliest(members) then pod.created else Earliest(members)
  {
    assert (members + [pod])[..|members|] == members;
  }

  // ---------- Collection is a partition ----------

  /** Order is kept: a pod stands in its gang behind the members that came before it. */
  lemma {:induction false} MemberAt(pods: seq<Pod>, n: nat, i: nat)
    requires i < n <= |pods|
    ensures var id := GetGangID(pods[i]);
            |Members(pods, i, id)| < |Members(pods, n, id)| && Members(pods, n, id)[|Members(pods, i, id)|] == pods[i]
  {
    if i < n - 1 {
      MemberAt(pods, n - 1, i);
    }
  }

  lemma {:induction false} MembersKeep(pods: seq<Pod>, n: nat, id: string, p: Pod)
    requires n <= |pods|
    ensures multiset(Members(pods, n, id))[p] == if GetGangID(p) == id then multiset(pods[..n])[p] else 0
  {
    if n > 0 {
      var last := pods[n - 1];
      assert pods[..n] == pods[..n - 1] + [last];
      MembersKeep(pods, n - 1, id, p);
      CountAfterAppend(pods[..n - 1], last, p);
      CountAfterAppend(Members(pods, n - 1, id), last, p);
      MembersGrow(pods, n - 1, id);
      hide Members, GetGangID;
    }
  }

  /** All pods of these gangs. */
  ghost function Gathered(pods: seq<Pod>, ids: set<string>): multiset<Pod>
    decreases |ids|
  {
    if ids == {} then multiset{}
    else
      var id :| id in ids;
      multiset(Gang(pods, id)) + Gathered(pods, ids - {id})
  }

  lemma {:induction false} GatheredKeeps(pods: seq<Pod>, ids: set<string>, p: Pod)
    ensures Gathered(pods, ids)[p] == if GetGangID(p) in ids then multiset(pods)[p] else 0
    decreases |ids|
  {
    if ids != {} {
      var id :| id in ids && Gathered(pods, ids) == multiset(Gang(pods, id)) + Gathered(pods, ids - {id});
      GatheredKeeps(pods, ids - {id}, p);
      assert pods[..|pods|] == pods;
      MembersKeep(pods, |pods|, id, p);
      assert Gathered(pods, ids)[p] == multiset(Gang(pods, id))[p] + Gathered(pods, ids - {id})[p];
    }
  }

  ghost function GangIDs(pods: seq<Pod>): set<string> {
    set i | 0 <= i < |pods| && GetGangID(pods[i]) != "" :: GetGangID(pods[i])
  }

  ghost function CompleteIDs(pods: seq<Pod>): set<string> {
    set id | id in GangIDs(pods) && IsComplete(pods, id)
  }

  /** A gang id is one that some pod carries. */
  lemma GangIDsAreGangs(pods: seq<Pod>, id: string)
    ensures id in GangIDs(pods) <==> IsGang(pods, id)
  {
    if id in GangIDs(pods) {
      var i :| 0 <= i < |pods| && GetGangID(pods[i]) == id;
      MemberAt(pods, |pods|, i);
    }
    if IsGang(pods, id) {
      MembersKeep(pods, |pods|, id, Gang(pods, id)[0]);
      assert Gang(pods, id)[0] in multiset(Gang(pods, id));
      assert Gang(pods, id)[0] in multiset(pods[..|pods|]);
    }
  }

  /** Every pending pod goes, once, to the standalone pods, to one ready gang or to one incomplete gang. */
  lemma CollectionIsPartition(pods: seq<Pod>)
    ensures multiset(pods)
         == multiset(Gang(pods, "")) + Gathered(pods, CompleteIDs(pods)) + Gathered(pods, GangIDs(pods) - CompleteIDs(pods))
  {
    forall p
      ensures multiset(pods)[p]
           == (multiset(Gang(pods, "")) + Gathered(pods, CompleteIDs(pods)) + Gathered(pods, GangIDs(pods) - CompleteIDs(pods)))[p]
    {
      assert pods[..|pods|] == pods;
      MembersKeep(pods, |pods|, "", p);
      GatheredKeeps(pods, CompleteIDs(pods), p);
      GatheredKeeps(pods, GangIDs(pods) - CompleteIDs(pods), p);
      if p in multiset(pods) {
        assert p in pods;
      }
    }
  }

  /** A gang is the pods whose annotation names it, and it is ready when they are as many as the first one's annotation
      asks for; a size that is missing, not a number or not positive asks for nothing. */
  lemma GangByAnnotation(pods: seq<Pod>, id: string, p: Pod)
    requires id != ""
    ensures p in Gang(pods, id) <==> p in pods && p.Says("gpu-scheduler/gang-id", id)
    ensures Gang(pods, id) != [] ==>
              var size := Gang(pods, id)[0].Number("gpu-scheduler/gang-size");
              IsComplete(pods, id) <==> size.None? || |Gang(pods, id)| >= size.value
  {
    assert pods[..|pods|] == pods;
    MembersKeep(pods, |pods|, id, p);
    assert p in pods <==> p in multiset(pods);
    assert p in Gang(pods, id) <==> p in multiset(Gang(pods, id));
  }
}
