/** Which pods serve, in terms of their own annotations and status: as workers that the router may choose, and as pods of a
    role that a removal may take. */
module ServingPods {
  import opened Collections
  import opened Text
  import opened Pods
  import opened ControlPlane
  import opened Router
  import opened Drain
  import opened Rebalancer
  import opened Cluster
  import opened Scaling

  // ---------- What a pod says of itself ----------

  predicate HasRole(p: ClusterPod, role: Role) {
    match role
    case Prefill => p.spec.Says("gpu-scheduler/inference-role", "prefill")
    case Decode => p.spec.Says("gpu-scheduler/inference-role", "decode")
    case Unified => p.spec.Says("gpu-scheduler/inference-role", "unified")
    case Unknown => false
  }

  /** The annotation without surrounding white space; empty when there is none. */
  function Trimmed(p: ClusterPod, key: string): string {
    if key in p.spec.annotations then TrimSpace(p.spec.annotations[key]) else ""
  }

  predicate IsLeaving(p: ClusterPod) {
    "gpu-scheduler/draining" in p.spec.annotations && ToLower(TrimSpace(p.spec.annotations["gpu-scheduler/draining"])) == "true"
  }

  // ---------- Pods as workers ----------

  /** A running, ready, undrained pod of this scheduler on a registered node, with the role, the group and an endpoint;
      prefill and decode pods need a group and a node with NVLink. */
  ghost predicate CanServe(p: ClusterPod, scheduler: string, nodes: map<string, bool>, group: string, role: Role) {
    && p.phase == Running && p.ready && !IsLeaving(p) && p.spec.schedulerName == scheduler
    && p.spec.nodeName != "" && p.spec.nodeName in nodes
    && HasRole(p, role) && Trimmed(p, "gpu-scheduler/model-group") == group && Trimmed(p, "gpu-scheduler/inference-endpoint") != ""
    && (role in {Prefill, Decode} ==> group != "" && nodes[p.spec.nodeName])
  }

  lemma WorkerServes(p: ClusterPod, scheduler: string, nodes: map<string, bool>, group: string, role: Role)
    ensures CanServe(p, scheduler, nodes, group, role)
        <==> (IsRunning(p, scheduler) && IsWorker(p, nodes)
              && var w := WorkerOf(p, nodes);
                 w.role == role && role != Unknown && w.modelGroup == group && w.state == Ready && w.routable && w.endpoint != ""
                 && (role in {Prefill, Decode} ==> w.gpu2gpu))
  {
    hide TrimSpace, ToLower;
  }

  lemma {:induction false} RunningHolds(pods: seq<ClusterPod>, n: nat, scheduler: string, p: ClusterPod)
    requires n <= |pods|
    ensures p in RunningUpTo(pods, n, scheduler) <==> p in pods[..n] && IsRunning(p, scheduler)
  {
    if n > 0 {
      RunningHolds(pods, n - 1, scheduler, p);
      assert pods[..n] == pods[..n - 1] + [pods[n - 1]];
    }
  }

  lemma {:induction false} WorkersHold(pods: seq<ClusterPod>, n: nat, nodes: map<string, bool>, p: ClusterPod)
    requires n <= |pods| && p in pods[..n] && IsWorker(p, nodes)
    ensures WorkerOf(p, nodes) in WorkersUpTo(pods, n, nodes)
  {
    assert pods[..n] == pods[..n - 1] + [pods[n - 1]];
    if p != pods[n - 1] {
      WorkersHold(pods, n - 1, nodes, p);
    }
  }

  /** The router may choose a worker of this name for a role of the group exactly when the pod of that name can serve. */
  lemma RoutedPodsExactly(pods: seq<ClusterPod>, scheduler: string, nodes: map<string, bool>, group: string, role: Role, id: string)
    ensures (exists w :: Offers(Workers(pods, scheduler, nodes), group, role, w) && w.id == id)
        <==> (exists p :: p in pods && p.Key() == id && CanServe(p, scheduler, nodes, group, role))
  {
    hide IsRunning, IsWorker, CanServe, TrimSpace, ToLower;
    var running := RunningUpTo(pods, |pods|, scheduler);
    assert pods[..|pods|] == pods && running[..|running|] == running;
    if w :| Offers(Workers(pods, scheduler, nodes), group, role, w) && w.id == id {
      WorkerIsFromPods(running, |running|, nodes, w);
      var p :| p in running && IsWorker(p, nodes) && w == WorkerOf(p, nodes);
      RunningHolds(pods, |pods|, scheduler, p);
      WorkerServes(p, scheduler, nodes, group, role);
    }
    if p :| p in pods && p.Key() == id && CanServe(p, scheduler, nodes, group, role) {
      WorkerServes(p, scheduler, nodes, group, role);
      RunningHolds(pods, |pods|, scheduler, p);
      WorkersHold(running, |running|, nodes, p);
      assert Offers(Workers(pods, scheduler, nodes), group, role, WorkerOf(p, nodes));
    }
  }

  // ---------- Pods that a removal may take ----------

  /** A live, ready, undrained inference pod of the role in the group and namespace. */
  ghost predicate IsInService(p: ClusterPod, ns: string, group: string, role: Role) {
    && p.spec.namespace == ns && p.spec.Says("gpu-scheduler/workflow", "inference") && HasRole(p, role)
    && Trimmed(p, "gpu-scheduler/model-group") == group
    && p.phase != Succeeded && p.phase != Failed && p.ready && !IsLeaving(p)
  }

  lemma ServiceIsServing(p: ClusterPod, ns: string, group: string, role: Role)
    requires role != Unknown
    ensures IsServing(p, ns, group, role) <==> IsInService(p, ns, group, role)
  {
    hide TrimSpace, ToLower;
  }

  /** The pod that a removal drains is in service and the last created of those in service, the one with the greatest name
      among several of the same age. */
  lemma TargetIsNewest(t: ClusterPod, pods: seq<ClusterPod>, ns: string, group: string, role: Role)
    requires IsTarget(t, pods, ns, group, role) && role != Unknown
    ensures t in pods && IsInService(t, ns, group, role)
    ensures forall p :: p in pods && IsInService(p, ns, group, role) ==>
              (p.spec.created < t.spec.created
               || (p.spec.created == t.spec.created && (p.spec.name == t.spec.name || Less(p.spec.name, t.spec.name))))
  {
    assert pods[..|pods|] == pods;
    hide IsServing, IsInService;
    CandidatesServe(pods, |pods|, ns, group, role, t);
    ServiceIsServing(t, ns, group, role);
    forall p | p in pods && IsInService(p, ns, group, role)
      ensures !Newer(p, t)
      ensures p.spec.name == t.spec.name || Less(p.spec.name, t.spec.name) || Less(t.spec.name, p.spec.name)
    {
      ServiceIsServing(p, ns, group, role);
      CandidatesServe(pods, |pods|, ns, group, role, p);
      LessIsTotal(p.spec.name, t.spec.name);
    }
  }

  /** A removal takes a pod of the role it names, and no other action takes one. */
  lemma RemovalTakesItsRole(action: Action, t: ClusterPod, pods: seq<ClusterPod>, ns: string, group: string)
    requires RemovalRole(action).Some? && IsTarget(t, pods, ns, group, RemovalRole(action).value)
    ensures action == RemoveDecode || action == RemovePrefill
    ensures t in pods && IsInService(t, ns, group, if action == RemoveDecode then Decode else Prefill)
  {
    TargetIsNewest(t, pods, ns, group, RemovalRole(action).value);
    hide IsTarget, IsInService;
  }

  /** The answer lists the worker, and its first entry for it has requests in flight. */
  ghost predicate ListsRequests(stats: seq<WorkerStat>, id: string) {
    exists i :: 0 <= i < |stats| && IsFirstEntry(stats, i, id) && stats[i].inflight != 0
  }

  predicate IsFirstEntry(stats: seq<WorkerStat>, i: nat, id: string)
    requires i < |stats|
  {
    stats[i].id == id && forall j :: 0 <= j < i ==> stats[j].id != id
  }

  lemma BusyIsListed(stats: seq<WorkerStat>, id: string)
    ensures ShowsBusy(stats, id) <==> ListsRequests(stats, id)
  {
    if i :| 0 <= i < |stats| && stats[i].id == id && stats[i].inflight != 0 && forall j :: 0 <= j < i ==> stats[j].id != id {
      assert IsFirstEntry(stats, i, id);
    }
    if i: nat :| i < |stats| && IsFirstEntry(stats, i, id) && stats[i].inflight != 0 {
      assert stats[i].id == id;
    }
  }

  /** Handling a removal takes a pod from the cluster only after the target was marked and some answer listed no request on
      it; handling any action adds one only if the script does. */
  lemma OnlyDrainedPodsGo(pods: seq<ClusterPod>, action: Action, target: Option<ClusterPod>, stamp: string, o: Outcome)
    ensures |Handled(pods, action, target, stamp, o)| < |pods| && (action == RemoveDecode || action == RemovePrefill) ==>
              o.scriptAvailable && o.effect.Deletes? && target.Some? && o.markOK
              && exists n :: 0 <= n < |o.polls| && o.polls[n].PollAnswer? && !ListsRequests(o.polls[n].stats, target.value.Key())
    ensures |Handled(pods, action, target, stamp, o)| > |pods| ==>
              o.scriptAvailable && o.effect.Adds? && action in {AddDecode, AddPrefill, RemoveDecode, RemovePrefill}
  {
    hide ShowsBusy, ListsRequests, Position;
    if target.Some? {
      forall n | 0 <= n < |o.polls| && o.polls[n].PollAnswer?
        ensures ShowsBusy(o.polls[n].stats, target.value.Key()) <==> ListsRequests(o.polls[n].stats, target.value.Key())
      {
        BusyIsListed(o.polls[n].stats, target.value.Key());
      }
    }
  }
}
