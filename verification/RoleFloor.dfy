/** The role floor for one handled action. */
module RoleFloor {
  import opened Collections
  import opened Text
  import opened Pods
  import opened ControlPlane
  import opened Drain
  import opened Cluster
  import opened Rebalancer
  import opened Scaling

  // ---------- Counting ----------

  function CountIf<T>(s: seq<T>, n: nat, p: T -> bool): nat
    requires n <= |s|
  {
    if n == 0 then 0 else CountIf(s, n - 1, p) + One(s[n - 1], p)
  }

  function One<T>(x: T, p: T -> bool): nat {
    if p(x) then 1 else 0
  }

  lemma {:induction false} CountPrefix<T>(s: seq<T>, t: seq<T>, n: nat, p: T -> bool)
    requires n <= |s| && n <= |t| && forall i :: 0 <= i < n ==> s[i] == t[i]
    ensures CountIf(s, n, p) == CountIf(t, n, p)
  {
    if n > 0 {
      CountPrefix(s, t, n - 1, p);
    }
  }

  lemma CountAppend<T>(s: seq<T>, x: T, p: T -> bool)
    ensures CountIf(s + [x], |s| + 1, p) == CountIf(s, |s|, p) + One(x, p)
  {
    CountPrefix(s + [x], s, |s|, p);
  }

  lemma {:induction false} CountPut<T>(s: seq<T>, n: nat, i: nat, x: T, p: T -> bool)
    requires n <= |s| && i < |s|
    ensures CountIf(s[i := x], n, p) == CountIf(s, n, p) + (if i < n then One(x, p) - One(s[i], p) else 0)
  {
    if n > 0 {
      CountPut(s, n - 1, i, x, p);
    }
  }

  lemma {:induction false} CountRemove<T>(s: seq<T>, n: nat, i: nat, p: T -> bool)
    requires i < n <= |s|
    ensures CountIf(s[..i] + s[i + 1..], n - 1, p) == CountIf(s, n, p) - One(s[i], p)
  {
    if n == i + 1 {
      CountPrefix(s[..i] + s[i + 1..], s, i, p);
    } else {
      CountRemove(s, n - 1, i, p);
    }
  }

  function Serving(ns: string, group: string, role: Role): ClusterPod -> bool {
    (p: ClusterPod) => IsServing(p, ns, group, role)
  }

  lemma {:induction false} CandidatesCount(pods: seq<ClusterPod>, n: nat, ns: string, group: string, role: Role)
    requires n <= |pods|
    ensures |Candidates(pods, n, ns, group, role)| == CountIf(pods, n, Serving(ns, group, role))
  {
    if n > 0 {
      CandidatesCount(pods, n - 1, ns, group, role);
    }
  }

  // ---------- What each change does to the ready, undrained pods of a role ----------

  /** The cluster's pod with this namespace and name serves the role. */
  predicate ServesAs(pods: seq<ClusterPod>, key: ClusterPod, ns: string, group: string, role: Role) {
    var i := Position(pods, key);
    i.Some? && IsServing(pods[i.value], ns, group, role)
  }

  function ServesOne(pods: seq<ClusterPod>, key: ClusterPod, ns: string, group: string, role: Role): nat {
    if ServesAs(pods, key, ns, group, role) then 1 else 0
  }

  lemma TrueIsDraining(p: ClusterPod, stamp: string)
    ensures IsDraining(MarkPod(p, stamp).spec)
  {
    assert TrimLeft("true") == "true" && TrimRight("true") == "true";
    assert ToLower("true") == "true";
  }

  lemma MarkCounts(pods: seq<ClusterPod>, key: ClusterPod, stamp: string, ns: string, group: string, role: Role)
    ensures CountServing(Marked(pods, key, stamp), ns, group, role)
         == CountServing(pods, ns, group, role) - ServesOne(pods, key, ns, group, role)
  {
    var i := Position(pods, key);
    CandidatesCount(pods, |pods|, ns, group, role);
    if i.Some? {
      var q := MarkPod(pods[i.value], stamp);
      TrueIsDraining(pods[i.value], stamp);
      CandidatesCount(pods[i.value := q], |pods|, ns, group, role);
      CountPut(pods, |pods|, i.value, q, Serving(ns, group, role));
    }
  }

  lemma DeleteCounts(pods: seq<ClusterPod>, key: ClusterPod, ns: string, group: string, role: Role)
    ensures CountServing(Without(pods, key), ns, group, role)
         == CountServing(pods, ns, group, role) - ServesOne(pods, key, ns, group, role)
  {
    var i := Position(pods, key);
    CandidatesCount(pods, |pods|, ns, group, role);
    if i.Some? {
      CandidatesCount(Without(pods, key), |pods| - 1, ns, group, role);
      CountRemove(pods, |pods|, i.value, Serving(ns, group, role));
    }
  }

  lemma AddCounts(pods: seq<ClusterPod>, p: ClusterPod, ns: string, group: string, role: Role)
    ensures CountServing(pods + [p], ns, group, role) >= CountServing(pods, ns, group, role)
  {
    CandidatesCount(pods, |pods|, ns, group, role);
    CandidatesCount(pods + [p], |pods| + 1, ns, group, role);
    CountAppend(pods, p, Serving(ns, group, role));
  }

  lemma ClearCounts(pods: seq<ClusterPod>, key: ClusterPod, ns: string, group: string, role: Role)
    ensures CountServing(Cleared(pods, key), ns, group, role) >= CountServing(pods, ns, group, role)
  {
    var i := Position(pods, key);
    CandidatesCount(pods, |pods|, ns, group, role);
    if i.Some? {
      var q := ClearPod(pods[i.value]);
      CandidatesCount(pods[i.value := q], |pods|, ns, group, role);
      CountPut(pods, |pods|, i.value, q, Serving(ns, group, role));
    }
  }

  // ---------- The role floor ----------

  lemma {:induction false} PositionAfterPut(pods: seq<ClusterPod>, i: nat, k: nat, q: ClusterPod, key: ClusterPod)
    requires i < |pods| && k <= |pods| && SamePod(pods[i], q)
    ensures PositionFrom(pods[i := q], k, key) == PositionFrom(pods, k, key)
    decreases |pods| - k
  {
    if k < |pods| {
      PositionAfterPut(pods, i, k + 1, q, key);
    }
  }

  lemma {:induction false} PositionOfSamePod(pods: seq<ClusterPod>, k: nat, a: ClusterPod, b: ClusterPod)
    requires k <= |pods| && SamePod(a, b)
    ensures PositionFrom(pods, k, a) == PositionFrom(pods, k, b)
    decreases |pods| - k
  {
    if k < |pods| {
      PositionOfSamePod(pods, k + 1, a, b);
    }
  }

  /** After the mark, the marked pod serves nothing and every other pod what it served before. */
  lemma MarkServes(pods: seq<ClusterPod>, t: ClusterPod, v: ClusterPod, stamp: string, ns: string, group: string, role: Role)
    requires Position(pods, t).Some?
    ensures ServesAs(Marked(pods, t, stamp), v, ns, group, role)
       <==> ServesAs(pods, v, ns, group, role) && !SamePod(v, t)
  {
    var i := Position(pods, t).value;
    TrueIsDraining(pods[i], stamp);
    PositionAfterPut(pods, i, 0, MarkPod(pods[i], stamp), v);
    if SamePod(v, t) {
      PositionOfSamePod(pods, 0, v, t);
    }
  }

  /** The target is the cluster's own ready pod of the role, and not the last one. */
  lemma TargetServes(t: ClusterPod, pods: seq<ClusterPod>, ns: string, group: string, role: Role)
    requires DistinctPods(pods) && IsTarget(t, pods, ns, group, role)
    ensures Position(pods, t).Some? && pods[Position(pods, t).value] == t
    ensures IsServing(t, ns, group, role) && CountServing(pods, ns, group, role) > 1
  {
    CandidatesServe(pods, |pods|, ns, group, role, t);
    assert pods == pods[..|pods|];
    var i: nat :| i < |pods| && pods[i] == t;
    var j := Position(pods, t).value;
    assert SamePod(pods[i], pods[j]) && SamePod(pods[j], pods[i]);
  }

  lemma ClearPodUndoesMark(p: ClusterPod, stamp: string)
    ensures ClearPod(MarkPod(p, stamp)) == ClearPod(p)
  {
    assert MarkPod(p, stamp).spec.annotations - {DRAINING, DRAIN_STARTED} == p.spec.annotations - {DRAINING, DRAIN_STARTED};
  }

  lemma ClearedServes(p: ClusterPod, ns: string, group: string, role: Role)
    requires !IsDraining(p.spec)
    ensures IsServing(ClearPod(p), ns, group, role) <==> IsServing(p, ns, group, role)
  {
    hide ToLower, TrimSpace;
  }

  lemma ClearKeepsCount(pods: seq<ClusterPod>, t: ClusterPod, ns: string, group: string, role: Role)
    requires Position(pods, t).Some? && !IsDraining(pods[Position(pods, t).value].spec)
    ensures CountServing(Cleared(pods, t), ns, group, role) == CountServing(pods, ns, group, role)
  {
    hide IsServing, IsDraining, ClearPod;
    var i := Position(pods, t).value;
    var q := ClearPod(pods[i]);
    ClearedServes(pods[i], ns, group, role);
    CandidatesCount(pods, |pods|, ns, group, role);
    CandidatesCount(pods[i := q], |pods|, ns, group, role);
    CountPut(pods, |pods|, i, q, Serving(ns, group, role));
  }

  /** Clearing takes a mark back: exactly the two drain annotations are gone, and every role serves as before. */
  lemma ClearUndoesMark(pods: seq<ClusterPod>, t: ClusterPod, stamp: string, ns: string, group: string, role: Role)
    requires Position(pods, t).Some? && !IsDraining(pods[Position(pods, t).value].spec)
    ensures Cleared(Marked(pods, t, stamp), t) == Cleared(pods, t)
    ensures CountServing(Cleared(Marked(pods, t, stamp), t), ns, group, role) == CountServing(pods, ns, group, role)
  {
    ClearKeepsCount(pods, t, ns, group, role);
    ClearOfMark(pods, t, stamp);
  }

  lemma ClearOfMark(pods: seq<ClusterPod>, t: ClusterPod, stamp: string)
    requires Position(pods, t).Some?
    ensures Cleared(Marked(pods, t, stamp), t) == Cleared(pods, t)
  {
    var i := Position(pods, t).value;
    PositionAfterPut(pods, i, 0, MarkPod(pods[i], stamp), t);
    ClearPodUndoesMark(pods[i], stamp);
    hide MarkPod, ClearPod, Position, PositionFrom;
  }

  /** The script deletes the only pod the role has left besides the drained one. */
  ghost predicate TakesLast(pods: seq<ClusterPod>, ns: string, group: string, role: Role, action: Action,
                            target: Option<ClusterPod>, o: Outcome) {
    && ScriptRuns(action, target, o) && o.effect.Deletes? && ServesAs(pods, o.effect.pod, ns, group, role)
    && (RemovalRole(action).Some? ==> !SamePod(o.effect.pod, target.value))
    && CountServing(pods, ns, group, role) == (if RemovalRole(action) == Some(role) then 2 else 1)
  }

  ghost predicate IsTargetOf(action: Action, target: Option<ClusterPod>, pods: seq<ClusterPod>, ns: string, group: string) {
    RemovalRole(action).Some? && target.Some? ==> IsTarget(target.value, pods, ns, group, RemovalRole(action).value)
  }

  lemma AppliedCounts(pods: seq<ClusterPod>, effect: Effect, ns: string, group: string, role: Role)
    ensures effect.NoEffect? ==> CountServing(Applied(pods, effect), ns, group, role) == CountServing(pods, ns, group, role)
    ensures effect.Adds? ==> CountServing(Applied(pods, effect), ns, group, role) >= CountServing(pods, ns, group, role)
    ensures effect.Deletes? ==>
              CountServing(Applied(pods, effect), ns, group, role)
              == CountServing(pods, ns, group, role) - ServesOne(pods, effect.pod, ns, group, role)
  {
    match effect
    case NoEffect =>
    case Adds(p) => AddCounts(pods, p, ns, group, role);
    case Deletes(p) => DeleteCounts(pods, p, ns, group, role);
  }

  /** Marking takes one pod off the target's role and none off any other. */
  lemma TargetCounts(pods: seq<ClusterPod>, t: ClusterPod, stamp: string, ns: string, group: string, of: Role, role: Role)
    requires DistinctPods(pods) && IsTarget(t, pods, ns, group, of)
    ensures CountServing(Marked(pods, t, stamp), ns, group, role)
         == CountServing(pods, ns, group, role) - (if role == of then 1 else 0)
  {
    TargetServes(t, pods, ns, group, of);
    MarkCounts(pods, t, stamp, ns, group, role);
  }

  /** Handling an action leaves a served role served exactly when the script does not delete its last undrained pod. A
      drain that fails, is cleared, or cannot be cleared never costs the role its floor. */
  lemma RoleFloorExactly(pods: seq<ClusterPod>, ns: string, group: string, role: Role, action: Action,
                         target: Option<ClusterPod>, stamp: string, o: Outcome)
    requires DistinctPods(pods) && IsTargetOf(action, target, pods, ns, group)
    requires CountServing(pods, ns, group, role) >= 1
    ensures CountServing(Handled(pods, action, target, stamp, o), ns, group, role) >= 1
       <==> !TakesLast(pods, ns, group, role, action, target, o)
  {
    hide CountServing, ServesAs, IsTarget, Marked, Cleared, Position;
    if RemovalRole(action).None? {
      AppliedCounts(pods, o.effect, ns, group, role);
    } else if o.scriptAvailable && target.Some? && o.markOK {
      RemovalFloor(pods, ns, group, role, action, target.value, stamp, o);
    }
  }

  lemma RemovalFloor(pods: seq<ClusterPod>, ns: string, group: string, role: Role, action: Action,
                     t: ClusterPod, stamp: string, o: Outcome)
    requires DistinctPods(pods) && RemovalRole(action).Some? && IsTarget(t, pods, ns, group, RemovalRole(action).value)
    requires CountServing(pods, ns, group, role) >= 1 && o.scriptAvailable && o.markOK
    ensures CountServing(Handled(pods, action, Some(t), stamp, o), ns, group, role) >= 1
       <==> !TakesLast(pods, ns, group, role, action, Some(t), o)
  {
    hide CountServing, ServesAs, IsTarget, Marked, Cleared, DistinctPods, Drains;
    var of := RemovalRole(action).value;
    var marked := Marked(pods, t, stamp);
    TargetServes(t, pods, ns, group, of);
    TargetCounts(pods, t, stamp, ns, group, of, role);
    AppliedCounts(marked, o.effect, ns, group, role);
    ClearCounts(marked, t, ns, group, role);
    if o.effect.Deletes? {
      MarkServes(pods, t, o.effect.pod, stamp, ns, group, role);
    }
  }

  /** A script that always deletes one fixed pod, as a removal script must that is not told the target: with two ready
      pods of which the other is newer, it empties the role. */
  lemma FixedScriptEmptiesRole(pods: seq<ClusterPod>, ns: string, group: string, action: Action, target: ClusterPod,
                               fixed: ClusterPod, stamp: string, o: Outcome)
    requires DistinctPods(pods) && RemovalRole(action).Some? && IsTarget(target, pods, ns, group, RemovalRole(action).value)
    requires CountServing(pods, ns, group, RemovalRole(action).value) == 2
    requires fixed in pods && IsServing(fixed, ns, group, RemovalRole(action).value) && Newer(target, fixed)
    requires ScriptRuns(action, Some(target), o) && o.effect == Deletes(fixed)
    ensures CountServing(Handled(pods, action, Some(target), stamp, o), ns, group, RemovalRole(action).value) == 0
  {
    var role := RemovalRole(action).value;
    var i: nat :| i < |pods| && pods[i] == fixed;
    var j := Position(pods, fixed).value;
    assert SamePod(pods[i], pods[j]) && SamePod(pods[j], pods[i]);
    LessIsTotal(fixed.spec.name, fixed.spec.name);
    TargetServes(target, pods, ns, group, role);
    assert ServesAs(pods, fixed, ns, group, role);
    assert !SamePod(fixed, target);
    RemovalFloor(pods, ns, group, role, action, target, stamp, o);
  }
}
