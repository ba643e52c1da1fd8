/** cmd/scheduler/main.go: checking and executing the rebalancer's decisions. */
module Scaling {
  import opened Collections
  import opened Text
  import opened Pods
  import opened ControlPlane
  import opened Drain
  import opened Cluster
  import opened Rebalancer

  // ---------- Pods of a role ----------

  predicate InRole(p: ClusterPod, ns: string, group: string, role: Role) {
    && p.spec.namespace == ns && p.spec.Says("gpu-scheduler/workflow", "inference")
    && GetModelGroup(p.spec) == group && GetRole(p.spec) == role
  }

  predicate IsInProgress(p: ClusterPod, ns: string, group: string, role: Role) {
    InRole(p, ns, group, role) && !p.Terminated() && !p.ready
  }

  predicate IsMarked(p: ClusterPod, ns: string, group: string, role: Role) {
    InRole(p, ns, group, role) && !p.Terminated() && IsDraining(p.spec)
  }

  /** Ready and not draining: what the role can serve with. */
  predicate IsServing(p: ClusterPod, ns: string, group: string, role: Role) {
    InRole(p, ns, group, role) && !p.Terminated() && !IsDraining(p.spec) && p.ready
  }

  function Candidates(pods: seq<ClusterPod>, n: nat, ns: string, group: string, role: Role): seq<ClusterPod>
    requires n <= |pods|
  {
    if n == 0 then []
    else
      Candidates(pods, n - 1, ns, group, role) + (if IsServing(pods[n - 1], ns, group, role) then [pods[n - 1]] else [])
  }

  function CountServing(pods: seq<ClusterPod>, ns: string, group: string, role: Role): nat {
    |Candidates(pods, |pods|, ns, group, role)|
  }

  // ---------- The scale-down target ----------

  /** Later creation first; between equals the greater name. */
  predicate Newer(a: ClusterPod, b: ClusterPod) {
    if a.spec.created == b.spec.created then Less(b.spec.name, a.spec.name) else a.spec.created > b.spec.created
  }

  lemma NewerIsOrder()
    ensures StrictWeakOrder(Newer)
  {
    forall a: ClusterPod, b: ClusterPod | Newer(a, b)
      ensures !Newer(b, a)
    {
      LessIsTotal(a.spec.name, b.spec.name);
    }
    forall a: ClusterPod, b: ClusterPod, c: ClusterPod | !Newer(b, a) && !Newer(c, b)
      ensures !Newer(c, a)
    {
      NewerStep(a, b, c);
    }
  }

  lemma NewerStep(a: ClusterPod, b: ClusterPod, c: ClusterPod)
    requires !Newer(b, a) && !Newer(c, b)
    ensures !Newer(c, a)
  {
    if a.spec.created == b.spec.created && b.spec.created == c.spec.created {
      NotLessIsTransitive(c.spec.name, b.spec.name, a.spec.name);
    }
  }

  ghost predicate IsTarget(t: ClusterPod, pods: seq<ClusterPod>, ns: string, group: string, role: Role) {
    var candidates := Candidates(pods, |pods|, ns, group, role);
    && |candidates| > 1 && t in candidates
    && forall c :: c in candidates ==> !Newer(c, t)
  }

  lemma {:induction false} CandidatesServe(pods: seq<ClusterPod>, n: nat, ns: string, group: string, role: Role, p: ClusterPod)
    requires n <= |pods|
    ensures p in Candidates(pods, n, ns, group, role) <==> p in pods[..n] && IsServing(p, ns, group, role)
  {
    if n > 0 {
      CandidatesServe(pods, n - 1, ns, group, role, p);
      assert pods[..n] == pods[..n - 1] + [pods[n - 1]];
    }
  }

  /** However the sort orders equal elements, the target is the same pod. */
  lemma TargetIsUnique(t: ClusterPod, u: ClusterPod, pods: seq<ClusterPod>, ns: string, group: string, role: Role)
    requires DistinctPods(pods) && IsTarget(t, pods, ns, group, role) && IsTarget(u, pods, ns, group, role)
    ensures t == u
  {
    CandidatesServe(pods, |pods|, ns, group, role, t);
    CandidatesServe(pods, |pods|, ns, group, role, u);
    LessIsTotal(t.spec.name, u.spec.name);
    assert pods == pods[..|pods|];
    var i: nat :| i < |pods| && pods[i] == t;
    var j: nat :| j < |pods| && pods[j] == u;
    assert SamePod(pods[i], pods[j]) && SamePod(pods[j], pods[i]);
  }

  method SelectScaleDownTarget(pods: seq<ClusterPod>, ns: string, group: string, role: Role)
    returns (target: Option<ClusterPod>)
    ensures target.Some? <==> CountServing(pods, ns, group, role) > 1
    ensures target.Some? ==> IsTarget(target.value, pods, ns, group, role)
  {
    var candidates: seq<ClusterPod> := [];
    for i := 0 to |pods|
      invariant candidates == Candidates(pods, i, ns, group, role)
    {
      var p := pods[i];
      if p.Terminated() {
        continue;
      }
      if !InRole(p, ns, group, role) {
        continue;
      }
      if IsDraining(p.spec) {
        continue;
      }
      if !p.ready {
        continue;
      }
      candidates := candidates + [p];
    }
    if |candidates| <= 1 {
      return None;
    }
    NewerIsOrder();
    var sorted := SortSlice(candidates, Newer);
    assert sorted[0] in multiset(sorted);
    forall c | c in candidates
      ensures !Newer(c, sorted[0])
    {
      assert c in multiset(sorted);
      var k :| 0 <= k < |sorted| && sorted[k] == c;
      LessIsTotal(c.spec.name, c.spec.name);
    }
    return Some(sorted[0]);
  }

  // ---------- Deduplication ----------

  /** The worker count or a pod that is already on its way blocks an addition, a pod that is already draining blocks a
      removal, and everything else is blocked. */
  predicate Blocked(pods: seq<ClusterPod>, ns: string, policy: Policy, action: Action, workers: seq<WorkerInfo>) {
    match action
    case AddDecode => Count(workers, Decode) >= policy.maxDecode || HasInProgress(pods, ns, policy.name, Decode)
    case AddPrefill => Count(workers, Prefill) >= policy.maxPrefill || HasInProgress(pods, ns, policy.name, Prefill)
    case RemoveDecode => HasDraining(pods, ns, policy.name, Decode)
    case RemovePrefill => HasDraining(pods, ns, policy.name, Prefill)
    case _ => true
  }

  predicate HasInProgress(pods: seq<ClusterPod>, ns: string, group: string, role: Role) {
    exists i :: 0 <= i < |pods| && IsInProgress(pods[i], ns, group, role)
  }

  predicate HasDraining(pods: seq<ClusterPod>, ns: string, group: string, role: Role) {
    exists i :: 0 <= i < |pods| && IsMarked(pods[i], ns, group, role)
  }

  method FindInProgress(pods: seq<ClusterPod>, ns: string, group: string, role: Role) returns (found: bool)
    ensures found == HasInProgress(pods, ns, group, role)
  {
    for i := 0 to |pods|
      invariant forall j :: 0 <= j < i ==> !IsInProgress(pods[j], ns, group, role)
    {
      if !InRole(pods[i], ns, group, role) {
        continue;
      }
      if pods[i].Terminated() {
        continue;
      }
      if pods[i].ready {
        continue;
      }
      return true;
    }
    return false;
  }

  method FindDraining(pods: seq<ClusterPod>, ns: string, group: string, role: Role) returns (found: bool)
    ensures found == HasDraining(pods, ns, group, role)
  {
    for i := 0 to |pods|
      invariant forall j :: 0 <= j < i ==> !IsMarked(pods[j], ns, group, role)
    {
      if pods[i].Terminated() {
        continue;
      }
      if !InRole(pods[i], ns, group, role) {
        continue;
      }
      if IsDraining(pods[i].spec) {
        return true;
      }
    }
    return false;
  }

  /** Err: the pods could not be listed. */
  method CheckDeduplication(pods: seq<ClusterPod>, listOK: bool, ns: string, policy: Policy, action: Action,
                            workers: seq<WorkerInfo>) returns (r: Result<bool, ()>)
    ensures r == Ok(false) <==> listOK && !Blocked(pods, ns, policy, action, workers)
    ensures r.Err? ==> !listOK
  {
    var prefill, decode := 0, 0;
    for i := 0 to |workers|
      invariant prefill == CountRole(workers, i, Prefill) && decode == CountRole(workers, i, Decode)
    {
      match workers[i].role
      case Prefill => prefill := prefill + 1;
      case Decode => decode := decode + 1;
      case _ =>
    }
    var found: bool;
    match action {
      case AddDecode =>
        if decode >= policy.maxDecode {
          return Ok(true);
        }
        found := FindInProgress(pods, ns, policy.name, Decode);
      case AddPrefill =>
        if prefill >= policy.maxPrefill {
          return Ok(true);
        }
        found := FindInProgress(pods, ns, policy.name, Prefill);
      case RemoveDecode => found := FindDraining(pods, ns, policy.name, Decode);
      case RemovePrefill => found := FindDraining(pods, ns, policy.name, Prefill);
      case _ => return Ok(true);
    }
    if !listOK {
      return Err(());
    }
    return Ok(found);
  }

  // ---------- Changes to the cluster ----------

  function PositionFrom(pods: seq<ClusterPod>, i: nat, key: ClusterPod): (r: Option<nat>)
    requires i <= |pods|
    ensures r.Some? ==> i <= r.value < |pods| && SamePod(pods[r.value], key)
    ensures r.None? ==> forall j :: i <= j < |pods| ==> !SamePod(pods[j], key)
    decreases |pods| - i
  {
    if i == |pods| then None else if SamePod(pods[i], key) then Some(i) else PositionFrom(pods, i + 1, key)
  }

  /** Where the cluster keeps the pod with this namespace and name. */
  function Position(pods: seq<ClusterPod>, key: ClusterPod): (r: Option<nat>)
    ensures r.Some? ==> r.value < |pods| && SamePod(pods[r.value], key)
    ensures r.None? ==> forall j :: 0 <= j < |pods| ==> !SamePod(pods[j], key)
  {
    PositionFrom(pods, 0, key)
  }

  function MarkPod(p: ClusterPod, stamp: string): ClusterPod {
    p.(spec := p.spec.(annotations := p.spec.annotations[DRAINING := "true"][DRAIN_STARTED := stamp]))
  }

  function ClearPod(p: ClusterPod): ClusterPod {
    p.(spec := p.spec.(annotations := p.spec.annotations - {DRAINING, DRAIN_STARTED}))
  }

  function Marked(pods: seq<ClusterPod>, key: ClusterPod, stamp: string): seq<ClusterPod> {
    match Position(pods, key)
    case None => pods
    case Some(i) => pods[i := MarkPod(pods[i], stamp)]
  }

  function Cleared(pods: seq<ClusterPod>, key: ClusterPod): seq<ClusterPod> {
    match Position(pods, key)
    case None => pods
    case Some(i) => pods[i := ClearPod(pods[i])]
  }

  function Without(pods: seq<ClusterPod>, key: ClusterPod): seq<ClusterPod> {
    match Position(pods, key)
    case None => pods
    case Some(i) => pods[..i] + pods[i + 1..]
  }

  /** What the execution script does to the cluster. It is told the action and the group, not the drained pod. */
  datatype Effect = NoEffect | Adds(pod: ClusterPod) | Deletes(pod: ClusterPod)

  function Applied(pods: seq<ClusterPod>, effect: Effect): seq<ClusterPod> {
    match effect
    case NoEffect => pods
    case Adds(p) => pods + [p]
    case Deletes(p) => Without(pods, p)
  }

  /** The outcomes of the calls that leave the scheduler; polls are the proxy's answers while draining. */
  datatype Outcome = Outcome(scriptAvailable: bool, listOK: bool, markOK: bool, polls: seq<Poll>, clearOK: bool, effect: Effect)

  function RemovalRole(action: Action): Option<Role> {
    match action
    case RemoveDecode => Some(Decode)
    case RemovePrefill => Some(Prefill)
    case _ => None
  }

  predicate Executable(action: Action) {
    action in {AddDecode, AddPrefill, RemoveDecode, RemovePrefill}
  }

  /** Some answer does not show the worker busy, after answers that all did. */
  ghost predicate Drains(polls: seq<Poll>, id: string) {
    exists n: nat :: n < |polls| && polls[n].PollAnswer? && !ShowsBusy(polls[n].stats, id) && AllBusy(polls, n, id)
  }

  /** The script runs: for a removal only once the target is marked and drained. */
  ghost predicate ScriptRuns(action: Action, target: Option<ClusterPod>, o: Outcome) {
    && o.scriptAvailable && Executable(action)
    && (RemovalRole(action).Some? ==> target.Some? && o.markOK && Drains(o.polls, target.value.Key()))
  }

  /** The cluster after an action was handled. */
  ghost function Handled(pods: seq<ClusterPod>, action: Action, target: Option<ClusterPod>, stamp: string, o: Outcome): seq<ClusterPod> {
    if RemovalRole(action).None? then if ScriptRuns(action, target, o) then Applied(pods, o.effect) else pods
    else if !o.scriptAvailable || target.None? || !o.markOK then pods
    else
      var marked := Marked(pods, target.value, stamp);
      if ScriptRuns(action, target, o) then Applied(marked, o.effect)
      else if o.clearOK then Cleared(marked, target.value)
      else marked
  }

  /** main.go's Scheduler, with the cluster's pods in place of the API server. */
  class Scheduler {
    const rebalancer: Rebalancer
    const ns: string
    var pods: seq<ClusterPod>

    constructor (rebalancer: Rebalancer, ns: string, pods: seq<ClusterPod>)
      ensures this.rebalancer == rebalancer && this.ns == ns && this.pods == pods
    {
      this.rebalancer := rebalancer;
      this.ns := ns;
      this.pods := pods;
    }

    method MarkPodDraining(target: ClusterPod, stamp: string)
      modifies this
      ensures pods == Marked(old(pods), target, stamp)
    {
      var i := Position(pods, target);
      if i.Some? {
        var latest := pods[i.value];
        var annotations := latest.spec.annotations;
        annotations := annotations[DRAINING := "true"];
        annotations := annotations[DRAIN_STARTED := stamp];
        pods := pods[i.value := latest.(spec := latest.spec.(annotations := annotations))];
      }
    }

    method ClearPodDraining(target: ClusterPod)
      modifies this
      ensures pods == Cleared(old(pods), target)
    {
      var i := Position(pods, target);
      if i.Some? {
        var latest := pods[i.value];
        var annotations := latest.spec.annotations - {DRAINING};
        annotations := annotations - {DRAIN_STARTED};
        assert annotations == latest.spec.annotations - {DRAINING, DRAIN_STARTED};
        pods := pods[i.value := latest.(spec := latest.spec.(annotations := annotations))];
      }
    }

    method HandleRebalancerAction(group: string, action: Action, stamp: string, o: Outcome) returns (target: Option<ClusterPod>)
      modifies this
      ensures target.Some? <==> RemovalRole(action).Some? && o.scriptAvailable && o.listOK
                                && CountServing(old(pods), ns, group, RemovalRole(action).value) > 1
      ensures target.Some? ==> IsTarget(target.value, old(pods), ns, group, RemovalRole(action).value)
      ensures pods == Handled(old(pods), action, target, stamp, o)
    {
      target := None;
      var requiresDrain, role := false, Unknown;
      match action {
        case AddDecode =>
        case AddPrefill =>
        case RemoveDecode => requiresDrain, role := true, Decode;
        case RemovePrefill => requiresDrain, role := true, Prefill;
        case _ => return;
      }
      if !o.scriptAvailable {
        return;
      }
      if requiresDrain {
        if !o.listOK {
          return;
        }
        target := SelectScaleDownTarget(pods, ns, group, role);
        if target.None? {
          return;
        }
        if !o.markOK {
          return;
        }
        MarkPodDraining(target.value, stamp);
        var id := target.value.Key();
        var drained := WaitForWorkerInflightZero(id, o.polls);
        if !drained.Drained? {
          assert !Drains(o.polls, id);
          if o.clearOK {
            ClearPodDraining(target.value);
          }
          return;
        }
        assert AllBusy(o.polls, drained.after, id);
      }
      pods := Applied(pods, o.effect);
    }

    /** One policy in one tick: evaluate, check, execute. listOK belongs to the check's own pod list. */
    method ProcessPolicy(policy: Policy, report: Option<PressureReport>, workers: seq<WorkerInfo>, now: int,
                         listOK: bool, stamp: string, o: Outcome)
      returns (executed: Option<Action>, target: Option<ClusterPod>)
      modifies this, rebalancer
      ensures executed.Some? <==>
              && report.Some? && listOK
              && var d := Evaluated(rebalancer.settings, old(rebalancer.TimersOf(policy.name)),
                                    Input(policy, report.value, workers, now)).1;
                 d.action != NoAction && !d.dryRun && !Blocked(old(pods), ns, policy, d.action, workers)
      ensures executed.Some? ==>
                executed.value == Evaluated(rebalancer.settings, old(rebalancer.TimersOf(policy.name)),
                                            Input(policy, report.value, workers, now)).1.action
      ensures executed.Some? && target.Some? ==>
                RemovalRole(executed.value).Some?
                && IsTarget(target.value, old(pods), ns, policy.name, RemovalRole(executed.value).value)
      ensures pods == if executed.Some? then Handled(old(pods), executed.value, target, stamp, o) else old(pods)
    {
      executed, target := None, None;
      if report.None? {
        return;
      }
      var decision := rebalancer.Evaluate(policy, report.value, workers, now);
      if decision.action == NoAction {
        return;
      }
      if decision.dryRun {
        return;
      }
      var blocked := CheckDeduplication(pods, listOK, ns, policy, decision.action, workers);
      if blocked.Err? || blocked.value {
        return;
      }
      executed := Some(decision.action);
      target := HandleRebalancerAction(policy.name, decision.action, stamp, o);
    }
  }
}
