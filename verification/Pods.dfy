/** internal/scheduler/helpers.go: what the scheduler reads from a pod. */
module Pods {
  import opened Collections
  import opened Types
  import opened Text

  /** Resource quantities of the first container that names them are given as numbers. */
  datatype Pod = Pod(namespace: string, name: string,
                     annotations: map<string, string>, labels: map<string, string>, created: int,
                     gpuMemoryRequestMB: Option<int>, gpuLimit: Option<int>,
                     nodeName: string, schedulerName: string, preferredNode: Option<string>)
  {
    function Annotation(key: string): Option<string> {
      if key in annotations then Some(annotations[key]) else None
    }

    /** An annotation that parses as a number. */
    function Number(key: string): Option<int> {
      match Annotation(key)
      case Some(value) => Atoi(value)
      case None => None
    }

    predicate Says(key: string, value: string) {
      Annotation(key) == Some(value)
    }
  }

  function PodKey(namespace: string, podName: string): string {
    namespace + "/" + podName
  }

  /** Keys identify pods, because a namespace contains no slash. */
  lemma {:induction false} PodKeyIsInjective(ns1: string, p1: string, ns2: string, p2: string)
    requires '/' !in ns1 && '/' !in ns2
    requires PodKey(ns1, p1) == PodKey(ns2, p2)
    ensures ns1 == ns2 && p1 == p2
  {
    var k := PodKey(ns1, p1);
    assert k[|ns1|] == '/' && k[|ns2|] == '/';
    assert |ns1| == |ns2|;
    assert ns1 == k[..|ns1|] == ns2;
    assert p1 == k[|ns1| + 1..] == p2;
  }

  datatype WorkflowType = WorkflowType(name: string, priority: int)

  datatype WorkflowConfig = WorkflowConfig(types: seq<WorkflowType>, defaultPriority: int)

  const MEMORY_IO := "gpu-scheduler.io/memory-mb"
  const MEMORY := "gpu-scheduler/memory-mb"
  const SHARED := "gpu-scheduler/shared"
  const PRIORITY := "gpu-scheduler/priority"
  const ORIGINAL_PRIORITY := "gpu-scheduler/original-priority"
  const PREEMPT_COUNT := "gpu-scheduler/preempt-count"
  const AUTO_RESUME := "gpu-scheduler/auto-resume"
  const ASSIGNED_GPUS := "gpu-scheduler/assigned-gpus"
  const ALLOCATION_TYPE := "gpu-scheduler/allocation-type"

  /** The first memory annotation present decides; if it does not parse, the other one is not consulted. */
  function GetGPUMemory(pod: Pod): int {
    var value := if MEMORY_IO in pod.annotations then pod.Annotation(MEMORY_IO) else pod.Annotation(MEMORY);
    var parsed := if value.Some? then Atoi(value.value) else None;
    match parsed
    case Some(memory) => memory
    case None => if pod.gpuMemoryRequestMB.Some? then pod.gpuMemoryRequestMB.value else 0
  }

  function GetGPUCount(pod: Pod): int {
    var annotated := pod.Number("gpu-scheduler/gpu-count");
    if annotated.Some? && annotated.value > 0 then annotated.value
    else if pod.gpuLimit.Some? then pod.gpuLimit.value
    else 1
  }

  function GetMemoryMode(pod: Pod): MemoryMode {
    if pod.Says("gpu-scheduler/memory-mode", "total") then TotalMemory
    else if pod.Says("gpu-scheduler/memory-mode", "none") then NoMemory
    else PerGPU
  }

  predicate IsSharedGPUPod(pod: Pod) {
    pod.Says(SHARED, "true")
  }

  function GetWorkflow(pod: Pod): string {
    var w := pod.Annotation("gpu-scheduler/workflow");
    if w == Some("build") || w == Some("training") then w.value else "inference"
  }

  function FindWorkflow(types: seq<WorkflowType>, name: string): Option<WorkflowType> {
    if types == [] then None
    else if types[0].name == name then Some(types[0])
    else FindWorkflow(types[1..], name)
  }

  function GetPriority(pod: Pod, cfg: WorkflowConfig): int {
    match pod.Number(PRIORITY)
    case Some(priority) => priority
    case None =>
      match FindWorkflow(cfg.types, GetWorkflow(pod))
      case Some(w) => w.priority
      case None => cfg.defaultPriority
  }

  predicate GetAutoResume(pod: Pod) {
    pod.Says(AUTO_RESUME, "true")
  }

  function GetPreemptCount(pod: Pod): int {
    match pod.Number(PREEMPT_COUNT)
    case Some(count) => count
    case None => 0
  }

  /** -1 stands for "none recorded". */
  function GetOriginalPriority(pod: Pod): int {
    match pod.Number(ORIGINAL_PRIORITY)
    case Some(priority) => priority
    case None => -1
  }

  function JobOf(pod: Pod): Job {
    Job(GetGPUMemory(pod), GetGPUCount(pod), IsSharedGPUPod(pod))
  }

  // ---------- What is written is read ----------

  /** The pod with this annotation set. */
  function Annotated(pod: Pod, key: string, value: string): Pod {
    pod.(annotations := pod.annotations[key := value])
  }

  /** A memory written under the first name is read, whatever the second says; under the second name it is read when the
      first is absent; with neither, the resource request counts. */
  lemma MemoryIsRead(pod: Pod, memory: int)
    ensures GetGPUMemory(Annotated(pod, "gpu-scheduler.io/memory-mb", Itoa(memory))) == memory
    ensures "gpu-scheduler.io/memory-mb" !in pod.annotations ==>
              GetGPUMemory(Annotated(pod, "gpu-scheduler/memory-mb", Itoa(memory))) == memory
    ensures "gpu-scheduler.io/memory-mb" !in pod.annotations && "gpu-scheduler/memory-mb" !in pod.annotations ==>
              GetGPUMemory(pod) == if pod.gpuMemoryRequestMB.Some? then pod.gpuMemoryRequestMB.value else 0
  {
    ItoaRoundTrip(memory);
    assert |"gpu-scheduler.io/memory-mb"| == 26 && |"gpu-scheduler/memory-mb"| == 23;
  }

  /** A positive GPU count is read; otherwise the GPU limit counts, or one. */
  lemma CountIsRead(pod: Pod, count: int)
    ensures GetGPUCount(Annotated(pod, "gpu-scheduler/gpu-count", Itoa(count)))
         == if count > 0 then count else if pod.gpuLimit.Some? then pod.gpuLimit.value else 1
    ensures "gpu-scheduler/gpu-count" !in pod.annotations ==>
              GetGPUCount(pod) == if pod.gpuLimit.Some? then pod.gpuLimit.value else 1
  {
    ItoaRoundTrip(count);
  }

  /** The workflow of a pod: training and build are named, everything else is inference. */
  function WorkflowName(pod: Pod): string {
    if pod.Says("gpu-scheduler/workflow", "training") then "training"
    else if pod.Says("gpu-scheduler/workflow", "build") then "build"
    else "inference"
  }

  lemma PriorityIsRead(pod: Pod, priority: int, cfg: WorkflowConfig)
    ensures GetPriority(Annotated(pod, "gpu-scheduler/priority", Itoa(priority)), cfg) == priority
  {
    ItoaRoundTrip(priority);
  }

  /** Without a written priority, the first configured workflow of the pod's name gives it. */
  lemma PriorityOfWorkflow(pod: Pod, cfg: WorkflowConfig, i: nat)
    requires "gpu-scheduler/priority" !in pod.annotations
    requires i < |cfg.types| && cfg.types[i].name == WorkflowName(pod) && forall j :: 0 <= j < i ==> cfg.types[j].name != WorkflowName(pod)
    ensures GetPriority(pod, cfg) == cfg.types[i].priority
  {
    assert GetWorkflow(pod) == WorkflowName(pod);
    FirstWorkflow(cfg.types, WorkflowName(pod), i);
  }

  /** Without a configured workflow either, the default counts. */
  lemma PriorityByDefault(pod: Pod, cfg: WorkflowConfig)
    requires "gpu-scheduler/priority" !in pod.annotations
    requires forall j :: 0 <= j < |cfg.types| ==> cfg.types[j].name != WorkflowName(pod)
    ensures GetPriority(pod, cfg) == cfg.defaultPriority
  {
    assert GetWorkflow(pod) == WorkflowName(pod);
    NoWorkflow(cfg.types, WorkflowName(pod));
  }

  lemma {:induction false} FirstWorkflow(types: seq<WorkflowType>, name: string, i: nat)
    requires i < |types| && types[i].name == name && forall j :: 0 <= j < i ==> types[j].name != name
    ensures FindWorkflow(types, name) == Some(types[i])
  {
    if i > 0 {
      FirstWorkflow(types[1..], name, i - 1);
    }
  }

  lemma {:induction false} NoWorkflow(types: seq<WorkflowType>, name: string)
    requires forall j :: 0 <= j < |types| ==> types[j].name != name
    ensures FindWorkflow(types, name).None?
  {
    if types != [] {
      NoWorkflow(types[1..], name);
    }
  }
}
