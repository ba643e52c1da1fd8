/** cmd/scheduler/main.go: what the rebalancer sees of the pods in the cluster. */
module Cluster {
  import opened Collections
  import opened Text
  import opened Pods
  import opened ControlPlane
  import opened DrainRuns

  datatype PodPhase = Pending | Running | Succeeded | Failed | UnknownPhase

  datatype ClusterPod = ClusterPod(spec: Pod, phase: PodPhase, ready: bool)
  {
    function Key(): string {
      PodKey(spec.namespace, spec.name)
    }

    predicate Terminated() {
      phase == Succeeded || phase == Failed
    }
  }

  const DRAINING := "gpu-scheduler/draining"
  const DRAIN_STARTED := "gpu-scheduler/drain-started-at"

  predicate IsDraining(pod: Pod) {
    match pod.Annotation(DRAINING)
    case Some(value) => ToLower(TrimSpace(value)) == "true"
    case None => false
  }

  function GetEndpoint(pod: Pod): string {
    match pod.Annotation("gpu-scheduler/inference-endpoint")
    case Some(value) => TrimSpace(value)
    case None => ""
  }

  // ---------- Workers ----------

  /** nodes: the registered nodes, with their NVLink flag. */
  predicate IsRunning(p: ClusterPod, scheduler: string) {
    p.spec.schedulerName == scheduler && p.phase == Running && p.spec.nodeName != "" && p.ready
  }

  predicate IsWorker(p: ClusterPod, nodes: map<string, bool>) {
    p.spec.nodeName in nodes && GetRole(p.spec) != Unknown
  }

  function WorkerOf(p: ClusterPod, nodes: map<string, bool>): WorkerInfo
    requires IsWorker(p, nodes)
  {
    var endpoint, group, role, draining := GetEndpoint(p.spec), GetModelGroup(p.spec), GetRole(p.spec), IsDraining(p.spec);
    WorkerInfo(p.Key(), role, if draining then Draining else Ready,
               endpoint != "" && (role == Unified || group != "") && !draining,
               nodes[p.spec.nodeName], endpoint, group)
  }

  function RunningUpTo(pods: seq<ClusterPod>, n: nat, scheduler: string): seq<ClusterPod>
    requires n <= |pods|
  {
    if n == 0 then []
    else RunningUpTo(pods, n - 1, scheduler) + (if IsRunning(pods[n - 1], scheduler) then [pods[n - 1]] else [])
  }

  function WorkersUpTo(pods: seq<ClusterPod>, n: nat, nodes: map<string, bool>): seq<WorkerInfo>
    requires n <= |pods|
  {
    if n == 0 then []
    else WorkersUpTo(pods, n - 1, nodes) + (if IsWorker(pods[n - 1], nodes) then [WorkerOf(pods[n - 1], nodes)] else [])
  }

  /** The inference workers of the cluster. */
  function Workers(pods: seq<ClusterPod>, scheduler: string, nodes: map<string, bool>): seq<WorkerInfo> {
    var running := RunningUpTo(pods, |pods|, scheduler);
    WorkersUpTo(running, |running|, nodes)
  }

  method GetRunningPods(pods: seq<ClusterPod>, scheduler: string) returns (r: seq<ClusterPod>)
    ensures r == RunningUpTo(pods, |pods|, scheduler)
  {
    r := [];
    for i := 0 to |pods|
      invariant r == RunningUpTo(pods, i, scheduler)
    {
      var p := pods[i];
      if p.spec.schedulerName != scheduler {
        continue;
      }
      if p.phase != Running {
        continue;
      }
      if p.spec.nodeName == "" {
        continue;
      }
      if !p.ready {
        continue;
      }
      r := r + [p];
    }
  }

  method CollectInferenceWorkers(pods: seq<ClusterPod>, scheduler: string, nodes: map<string, bool>)
    returns (r: seq<WorkerInfo>)
    ensures r == Workers(pods, scheduler, nodes)
  {
    var running := GetRunningPods(pods, scheduler);
    r := [];
    for i := 0 to |running|
      invariant r == WorkersUpTo(running, i, nodes)
    {
      var p := running[i];
      var role, endpoint, group := GetRole(p.spec), GetEndpoint(p.spec), GetModelGroup(p.spec);
      if p.spec.nodeName !in nodes {
        continue;
      }
      if role == Unknown {
        continue;
      }
      var routable := endpoint != "";
      if role == Prefill || role == Decode {
        routable := routable && group != "";
      }
      var state := Ready;
      if IsDraining(p.spec) {
        routable := false;
        state := Draining;
      }
      r := r + [WorkerInfo(p.Key(), role, state, routable, nodes[p.spec.nodeName], endpoint, group)];
    }
  }

  /** The keys of pods that carry the draining mark. */
  function MarkedKeys(pods: seq<ClusterPod>): set<string> {
    set i | 0 <= i < |pods| && IsDraining(pods[i].spec) :: pods[i].Key()
  }

  /** Namespace and name identify a pod, and a namespace contains no slash. */
  ghost predicate DistinctPods(pods: seq<ClusterPod>) {
    && (forall i :: 0 <= i < |pods| ==> '/' !in pods[i].spec.namespace)
    && (forall i, j :: 0 <= i < j < |pods| ==> !SamePod(pods[i], pods[j]))
  }

  predicate SamePod(a: ClusterPod, b: ClusterPod) {
    a.spec.namespace == b.spec.namespace && a.spec.name == b.spec.name
  }

  lemma {:induction false} RunningIsFromPods(pods: seq<ClusterPod>, n: nat, scheduler: string, p: ClusterPod)
    requires n <= |pods| && p in RunningUpTo(pods, n, scheduler)
    ensures exists i :: 0 <= i < n && pods[i] == p
  {
    if !(IsRunning(pods[n - 1], scheduler) && p == pods[n - 1]) {
      RunningIsFromPods(pods, n - 1, scheduler, p);
    }
  }

  lemma {:induction false} WorkerIsFromPods(pods: seq<ClusterPod>, n: nat, nodes: map<string, bool>, w: WorkerInfo)
    requires n <= |pods| && w in WorkersUpTo(pods, n, nodes)
    ensures exists i :: 0 <= i < n && IsWorker(pods[i], nodes) && w == WorkerOf(pods[i], nodes)
  {
    if !(IsWorker(pods[n - 1], nodes) && w == WorkerOf(pods[n - 1], nodes)) {
      WorkerIsFromPods(pods, n - 1, nodes, w);
    }
  }

  lemma OnePodPerKey(pods: seq<ClusterPod>, i: nat, j: nat)
    requires DistinctPods(pods) && i < |pods| && j < |pods| && pods[i].Key() == pods[j].Key()
    ensures i == j
  {
    PodKeyIsInjective(pods[i].spec.namespace, pods[i].spec.name, pods[j].spec.namespace, pods[j].spec.name);
  }

  /** The worker list shows every marked pod as draining: the drain protocol's Fetch step is what the scheduler does. */
  lemma WorkersListDraining(pods: seq<ClusterPod>, scheduler: string, nodes: map<string, bool>)
    requires DistinctPods(pods)
    ensures Lists(MarkedKeys(pods), Workers(pods, scheduler, nodes))
  {
    var running := RunningUpTo(pods, |pods|, scheduler);
    var workers := Workers(pods, scheduler, nodes);
    forall k | 0 <= k < |workers| && workers[k].id in MarkedKeys(pods)
      ensures workers[k].state == Draining && !workers[k].routable
    {
      WorkerIsFromPods(running, |running|, nodes, workers[k]);
      var p :| p in running && IsWorker(p, nodes) && workers[k] == WorkerOf(p, nodes);
      RunningIsFromPods(pods, |pods|, scheduler, p);
      var i: nat :| i < |pods| && pods[i] == p;
      var j: nat :| j < |pods| && IsDraining(pods[j].spec) && workers[k].id == pods[j].Key();
      OnePodPerKey(pods, i, j);
    }
  }
}
