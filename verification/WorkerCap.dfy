/** The worker cap for one addition: what the check counts, and exactly when that is enough. */
module WorkerCap {
  import opened Collections
  import opened Text
  import opened Pods
  import opened ControlPlane
  import opened Cluster
  import opened Rebalancer
  import opened Scaling
  import opened RoleFloor

  // ---------- Live pods and counted workers ----------

  predicate IsLive(p: ClusterPod, group: string, role: Role) {
    GetModelGroup(p.spec) == group && GetRole(p.spec) == role && !p.Terminated()
  }

  function Live(group: string, role: Role): ClusterPod -> bool {
    (p: ClusterPod) => IsLive(p, group, role)
  }

  function CountLive(pods: seq<ClusterPod>, group: string, role: Role): nat {
    CountIf(pods, |pods|, Live(group, role))
  }

  function OfGroup(workers: seq<WorkerInfo>, n: nat, group: string): seq<WorkerInfo>
    requires n <= |workers|
  {
    if n == 0 then []
    else OfGroup(workers, n - 1, group) + (if workers[n - 1].modelGroup == group then [workers[n - 1]] else [])
  }

  /** The scheduler, its registered nodes and one group's policy. */
  datatype Setup = Setup(ns: string, scheduler: string, nodes: map<string, bool>, policy: Policy)
  {
    function GroupWorkers(pods: seq<ClusterPod>): seq<WorkerInfo> {
      var workers := Workers(pods, scheduler, nodes);
      OfGroup(workers, |workers|, policy.name)
    }

    function Max(role: Role): int {
      if role == Prefill then policy.maxPrefill else policy.maxDecode
    }
  }

  method SelectGroup(workers: seq<WorkerInfo>, group: string) returns (r: seq<WorkerInfo>)
    ensures r == OfGroup(workers, |workers|, group)
  {
    r := [];
    for i := 0 to |workers|
      invariant r == OfGroup(workers, i, group)
    {
      if workers[i].modelGroup == group {
        r := r + [workers[i]];
      }
    }
  }

  lemma {:induction false} CountRoleIsCount(workers: seq<WorkerInfo>, n: nat, role: Role)
    requires n <= |workers|
    ensures CountRole(workers, n, role) == CountIf(workers, n, (w: WorkerInfo) => w.role == role)
  {
    if n > 0 {
      CountRoleIsCount(workers, n - 1, role);
    }
  }

  function RoleOf(group: string, role: Role): WorkerInfo -> bool {
    (w: WorkerInfo) => w.modelGroup == group && w.role == role
  }

  function HasRole(role: Role): WorkerInfo -> bool {
    (w: WorkerInfo) => w.role == role
  }

  lemma {:induction false} GroupCount(workers: seq<WorkerInfo>, n: nat, group: string, role: Role)
    requires n <= |workers|
    ensures var g := OfGroup(workers, n, group); CountIf(g, |g|, HasRole(role)) == CountIf(workers, n, RoleOf(group, role))
  {
    if n > 0 {
      GroupCount(workers, n - 1, group, role);
      var before := OfGroup(workers, n - 1, group);
      CountAppend(before, workers[n - 1], HasRole(role));
      assert before + [] == before;
    }
  }

  function WorkerPod(nodes: map<string, bool>, group: string, role: Role): ClusterPod -> bool {
    (p: ClusterPod) => IsWorker(p, nodes) && GetModelGroup(p.spec) == group && GetRole(p.spec) == role
  }

  lemma {:induction false} WorkersCount(pods: seq<ClusterPod>, n: nat, nodes: map<string, bool>, group: string, role: Role)
    requires n <= |pods|
    ensures var ws := WorkersUpTo(pods, n, nodes);
            CountIf(ws, |ws|, RoleOf(group, role)) == CountIf(pods, n, WorkerPod(nodes, group, role))
  {
    hide GetRole, GetModelGroup, IsDraining, GetEndpoint;
    if n > 0 {
      WorkersCount(pods, n - 1, nodes, group, role);
      var before := WorkersUpTo(pods, n - 1, nodes);
      assert before + [] == before;
      if IsWorker(pods[n - 1], nodes) {
        CountAppend(before, WorkerOf(pods[n - 1], nodes), RoleOf(group, role));
      }
    }
  }

  function Both(scheduler: string, p: ClusterPod -> bool): ClusterPod -> bool {
    (x: ClusterPod) => IsRunning(x, scheduler) && p(x)
  }

  lemma {:induction false} RunningCount(pods: seq<ClusterPod>, n: nat, scheduler: string, p: ClusterPod -> bool)
    requires n <= |pods|
    ensures var rs := RunningUpTo(pods, n, scheduler); CountIf(rs, |rs|, p) == CountIf(pods, n, Both(scheduler, p))
  {
    if n > 0 {
      RunningCount(pods, n - 1, scheduler, p);
      var before := RunningUpTo(pods, n - 1, scheduler);
      CountAppend(before, pods[n - 1], p);
      assert before + [] == before;
    }
  }

  lemma {:induction false} CountSame<T>(s: seq<T>, n: nat, p: T -> bool, q: T -> bool)
    requires n <= |s| && forall i :: 0 <= i < n ==> p(s[i]) == q(s[i])
    ensures CountIf(s, n, p) == CountIf(s, n, q)
  {
    if n > 0 {
      CountSame(s, n - 1, p, q);
    }
  }

  /** The worker count of the check counts the running pods of the role on registered nodes. */
  lemma CountedWorkers(x: Setup, pods: seq<ClusterPod>, role: Role)
    ensures Count(x.GroupWorkers(pods), role)
         == CountIf(pods, |pods|, Both(x.scheduler, WorkerPod(x.nodes, x.policy.name, role)))
  {
    var running := RunningUpTo(pods, |pods|, x.scheduler);
    var workers := WorkersUpTo(running, |running|, x.nodes);
    var group := OfGroup(workers, |workers|, x.policy.name);
    CountRoleIsCount(group, |group|, role);
    CountSame(group, |group|, (w: WorkerInfo) => w.role == role, HasRole(role));
    GroupCount(workers, |workers|, x.policy.name, role);
    WorkersCount(running, |running|, x.nodes, x.policy.name, role);
    RunningCount(pods, |pods|, x.scheduler, WorkerPod(x.nodes, x.policy.name, role));
  }

  // ---------- The worker cap ----------

  function AddOf(role: Role): Action
    requires role == Prefill || role == Decode
  {
    if role == Prefill then AddPrefill else AddDecode
  }

  /** The pod is in the worker list that the check counts. */
  predicate IsCounted(x: Setup, p: ClusterPod) {
    IsRunning(p, x.scheduler) && IsWorker(p, x.nodes)
  }

  ghost predicate AllCounted(x: Setup, pods: seq<ClusterPod>, role: Role) {
    forall i :: 0 <= i < |pods| && IsLive(pods[i], x.policy.name, role) ==> IsCounted(x, pods[i])
  }

  /** Either the check sees a pod of the role on its way, or it counts every live pod of the role. */
  ghost predicate SeesEnough(x: Setup, pods: seq<ClusterPod>, role: Role) {
    HasInProgress(pods, x.ns, x.policy.name, role) || AllCounted(x, pods, role)
  }

  function CountedOf(x: Setup, role: Role): ClusterPod -> bool {
    Both(x.scheduler, WorkerPod(x.nodes, x.policy.name, role))
  }

  lemma CountedIsLive(x: Setup, p: ClusterPod, role: Role)
    ensures CountedOf(x, role)(p) <==> IsLive(p, x.policy.name, role) && IsCounted(x, p)
  {
    var worker := WorkerPod(x.nodes, x.policy.name, role);
    assert worker(p) <==> IsWorker(p, x.nodes) && GetModelGroup(p.spec) == x.policy.name && GetRole(p.spec) == role;
    assert Both(x.scheduler, worker)(p) <==> IsRunning(p, x.scheduler) && worker(p);
  }

  /** The check's count is at most the number of live pods, and equal to it exactly when all of them are counted. */
  lemma CountedAtMostLive(x: Setup, pods: seq<ClusterPod>, role: Role)
    ensures Count(x.GroupWorkers(pods), role) <= CountLive(pods, x.policy.name, role)
    ensures Count(x.GroupWorkers(pods), role) == CountLive(pods, x.policy.name, role) <==> AllCounted(x, pods, role)
  {
    CountedWorkers(x, pods, role);
    hide IsLive, IsCounted;
    forall i | 0 <= i < |pods|
      ensures CountedOf(x, role)(pods[i]) <==> IsLive(pods[i], x.policy.name, role) && IsCounted(x, pods[i])
    {
      CountedIsLive(x, pods[i], role);
    }
    CountExactly(pods, |pods|, CountedOf(x, role), Live(x.policy.name, role));
  }

  lemma {:induction false} CountExactly<T>(s: seq<T>, n: nat, p: T -> bool, q: T -> bool)
    requires n <= |s| && forall i :: 0 <= i < n && p(s[i]) ==> q(s[i])
    ensures CountIf(s, n, p) <= CountIf(s, n, q)
    ensures CountIf(s, n, p) == CountIf(s, n, q) <==> forall i :: 0 <= i < n && q(s[i]) ==> p(s[i])
  {
    if n > 0 {
      CountExactly(s, n - 1, p, q);
    }
  }

  function WithMax(policy: Policy, role: Role, max: int): Policy {
    if role == Prefill then policy.(maxPrefill := max) else policy.(maxDecode := max)
  }

  ghost predicate Unblocked(x: Setup, pods: seq<ClusterPod>, role: Role, max: int)
    requires role == Prefill || role == Decode
  {
    !Blocked(pods, x.ns, WithMax(x.policy, role, max), AddOf(role), x.GroupWorkers(pods))
  }

  /** Whatever the maximum, an addition that nothing blocks starts below it. */
  ghost predicate StartsBelowEveryMax(x: Setup, pods: seq<ClusterPod>, role: Role)
    requires role == Prefill || role == Decode
  {
    forall max :: Unblocked(x, pods, role, max) ==> CountLive(pods, x.policy.name, role) < max
  }

  /** Whatever the maximum, adding p to at most that many live pods leaves at most that many. */
  ghost predicate AddKeepsEveryMax(x: Setup, pods: seq<ClusterPod>, role: Role, p: ClusterPod)
    requires role == Prefill || role == Decode
  {
    forall max :: Unblocked(x, pods, role, max) && CountLive(pods, x.policy.name, role) <= max
      ==> CountLive(pods + [p], x.policy.name, role) <= max
  }

  lemma UnblockedIs(x: Setup, pods: seq<ClusterPod>, role: Role, max: int)
    requires role == Prefill || role == Decode
    ensures Unblocked(x, pods, role, max)
       <==> Count(x.GroupWorkers(pods), role) < max && !HasInProgress(pods, x.ns, x.policy.name, role)
  {
  }

  /** The worker cap holds exactly when the check sees enough: for every maximum, additions start below it, and adding a
      pod of the role does not exceed it, if and only if a pod is on its way or every live pod of the role is counted. */
  lemma CapHoldsExactly(x: Setup, pods: seq<ClusterPod>, role: Role, p: ClusterPod)
    requires role == Prefill || role == Decode
    requires IsLive(p, x.policy.name, role)
    ensures StartsBelowEveryMax(x, pods, role) <==> SeesEnough(x, pods, role)
    ensures AddKeepsEveryMax(x, pods, role, p) <==> SeesEnough(x, pods, role)
  {
    var counted, live := Count(x.GroupWorkers(pods), role), CountLive(pods, x.policy.name, role);
    CountedAtMostLive(x, pods, role);
    CountAppend(pods, p, Live(x.policy.name, role));
    assert CountLive(pods + [p], x.policy.name, role) == live + 1;
    hide Unblocked, HasInProgress, AllCounted, CountLive, Count;
    forall max
      ensures Unblocked(x, pods, role, max) <==> counted < max && !HasInProgress(pods, x.ns, x.policy.name, role)
    {
      UnblockedIs(x, pods, role, max);
    }
    assert !SeesEnough(x, pods, role) ==> Unblocked(x, pods, role, live);
  }

  /** An addition that nothing blocks starts below the maximum, if the check sees enough. */
  lemma UnblockedIsBelowMax(x: Setup, pods: seq<ClusterPod>, role: Role)
    requires role == Prefill || role == Decode
    requires SeesEnough(x, pods, role) && !Blocked(pods, x.ns, x.policy, AddOf(role), x.GroupWorkers(pods))
    ensures CountLive(pods, x.policy.name, role) < x.Max(role)
  {
    CountedAtMostLive(x, pods, role);
  }
}
