/** internal/scheduler/webhook.go: the JSON Patch that gives a shared pod access to the GPUs. */
module Webhook {
  import opened Collections
  import opened Text
  import opened JsonPatch
  import opened Pods

  const GPU_RESOURCE := "nvidia.com/gpu"
  const VISIBLE := "NVIDIA_VISIBLE_DEVICES"
  const PINNED := "CUDA_MPS_PINNED_DEVICE_MEM_LIMIT"
  const PIPE := "CUDA_MPS_PIPE_DIRECTORY"
  const PIPE_DIR := "/tmp/nvidia-mps"

  // ---------- The pod as decoded from the admission request ----------

  /** What the patch depends on: env names, number of mounts, and whether the GPU resource is requested. */
  datatype ContainerView = ContainerView(env: seq<string>, mounts: nat, gpuLimit: bool, gpuRequest: bool)

  datatype PodView = PodView(containers: seq<ContainerView>, initContainers: seq<ContainerView>, volumes: nat)

  /** A list member; absent and null both mean the empty list, anything but a list does not decode. */
  function ListOf(m: map<string, Json>, key: string): Option<seq<Json>> {
    if key !in m || m[key].Null? then Some([])
    else if m[key].Arr? then Some(m[key].items)
    else None
  }

  /** An object member; absent and null both mean the empty object. */
  function ObjectOf(m: map<string, Json>, key: string): Option<map<string, Json>> {
    if key !in m || m[key].Null? then Some(map[])
    else if m[key].Obj? then Some(m[key].members)
    else None
  }

  /** The name of an env entry. */
  function EnvName(e: Json): Option<string> {
    if !e.Obj? then None
    else if "name" !in e.members then Some("")
    else if e.members["name"].Str? then Some(e.members["name"].s)
    else None
  }

  function EnvNames(es: seq<Json>): (r: Option<seq<string>>)
    ensures r.Some? ==> |r.value| == |es|
  {
    if es == [] then Some([])
    else
      match (EnvName(es[0]), EnvNames(es[1..]))
      case (Some(n), Some(rest)) => Some([n] + rest)
      case _ => None
  }

  /** Whether resources.<kind> names the GPU resource. */
  function NamesGPU(c: map<string, Json>, kind: string): Option<bool> {
    match ObjectOf(c, "resources")
    case None => None
    case Some(resources) =>
      match ObjectOf(resources, kind)
      case None => None
      case Some(quantities) => Some(GPU_RESOURCE in quantities)
  }

  function DecodeContainer(c: Json): Option<ContainerView> {
    if !c.Obj? then None
    else
      match (ListOf(c.members, "env"), ListOf(c.members, "volumeMounts"), NamesGPU(c.members, "limits"), NamesGPU(c.members, "requests"))
      case (Some(env), Some(mounts), Some(limit), Some(request)) =>
        (match EnvNames(env)
         case Some(names) => Some(ContainerView(names, |mounts|, limit, request))
         case None => None)
      case _ => None
  }

  function DecodeContainers(cs: seq<Json>): (r: Option<seq<ContainerView>>)
    ensures r.Some? ==> |r.value| == |cs| && forall i :: 0 <= i < |cs| ==> DecodeContainer(cs[i]) == Some(r.value[i])
  {
    if cs == [] then Some([])
    else
      match (DecodeContainer(cs[0]), DecodeContainers(cs[1..]))
      case (Some(c), Some(rest)) => Some([c] + rest)
      case _ => None
  }

  function DecodeSpec(spec: map<string, Json>): Option<PodView> {
    match (ListOf(spec, "containers"), ListOf(spec, "initContainers"), ListOf(spec, "volumes"))
    case (Some(cs), Some(inits), Some(volumes)) =>
      (match (DecodeContainers(cs), DecodeContainers(inits))
       case (Some(a), Some(b)) => Some(PodView(a, b, |volumes|))
       case _ => None)
    case _ => None
  }

  /** json.Unmarshal into a Pod; an absent spec decodes to an empty one. */
  function Decode(doc: Json): Option<PodView> {
    if !doc.Obj? then None
    else
      match ObjectOf(doc.members, "spec")
      case Some(spec) => DecodeSpec(spec)
      case None => None
  }

  /** An object of strings; a null value decodes to the empty string, anything else does not decode. */
  function StringsOf(m: map<string, Json>): Option<map<string, string>> {
    if exists k :: k in m && !m[k].Str? && !m[k].Null? then None
    else Some(map k | k in m :: if m[k].Str? then m[k].s else "")
  }

  /** metadata.annotations */
  function AnnotationsOf(doc: Json): Option<map<string, string>> {
    if !doc.Obj? then None
    else
      match ObjectOf(doc.members, "metadata")
      case None => None
      case Some(metadata) =>
        match ObjectOf(metadata, "annotations")
        case None => None
        case Some(annotations) => StringsOf(annotations)
  }

  /** What the annotation getters see of the pod; the two resource quantities are given as numbers. */
  function RequestedPod(annotations: map<string, string>, memoryRequestMB: Option<int>, gpuLimit: Option<int>): Pod {
    Pod("", "", annotations, map[], 0, memoryRequestMB, gpuLimit, "", "", None)
  }

  // ---------- Values that are injected ----------

  function EnvVar(name: string, value: string): Json {
    Obj(map["name" := Str(name), "value" := Str(value)])
  }

  /** The variables a container lacks, in order; limit is the pinned-memory limit of the pod. */
  function MissingEnvs(names: seq<string>, limit: string): seq<Json> {
    (if VISIBLE in names then [] else [EnvVar(VISIBLE, "all")])
      + (if PINNED in names then [] else [EnvVar(PINNED, limit)])
      + (if PIPE in names then [] else [EnvVar(PIPE, PIPE_DIR)])
  }

  function MissingInitEnvs(names: seq<string>): seq<Json> {
    if VISIBLE in names then [] else [EnvVar(VISIBLE, "all")]
  }

  const GPU_INFO_MOUNT := Obj(map["name" := Str("gpu-info"), "readOnly" := Bool(true), "mountPath" := Str("/etc/gpu-info")])
  const MPS_MOUNT := Obj(map["name" := Str("nvidia-mps"), "mountPath" := Str(PIPE_DIR)])

  const GPU_VOLUME := Obj(map["name" := Str("gpu-info"), "downwardAPI" := Obj(map["items" := Arr([Obj(map[
    "path" := Str("assigned-gpus"),
    "fieldRef" := Obj(map["fieldPath" := Str("metadata.annotations['gpu-scheduler/assigned-gpus']")])])])])])
  const MPS_VOLUME := Obj(map["name" := Str("nvidia-mps"), "hostPath" := Obj(map["path" := Str(PIPE_DIR)])])

  /** "0=<mem>M,1=<mem>M,..." for the first n devices. */
  function LimitParts(memMB: int, n: nat): string {
    if n == 0 then []
    else LimitParts(memMB, n - 1) + (if n == 1 then "" else ",") + Itoa(n - 1) + "=" + Itoa(memMB) + "M"
  }

  function MpsMemoryLimit(memMB: int, gpuCount: int): string {
    if gpuCount <= 1 then "0=" + Itoa(memMB) + "M" else LimitParts(memMB, gpuCount)
  }

  // ---------- The patch ----------

  function At(list: string, i: nat, tail: string): string {
    "/spec/" + list + "/" + Itoa(i) + "/" + tail
  }

  /** One add per new variable, or one add of the whole list when there was none. */
  function EnvPatch(path: string, had: bool, envs: seq<Json>): (ops: seq<PatchOp>) {
    if !had && envs != [] then [AddOp(path, Arr(envs))]
    else seq(|envs|, i requires 0 <= i < |envs| => AddOp(path + "/-", envs[i]))
  }

  function MountPatch(path: string, had: bool): PatchOp {
    if had then AddOp(path + "/-", GPU_INFO_MOUNT) else AddOp(path, Arr([GPU_INFO_MOUNT]))
  }

  function RemovePatch(c: ContainerView, i: nat): seq<PatchOp> {
    (if c.gpuLimit then [RemoveOp(At("containers", i, "resources/limits/nvidia.com~1gpu"))] else [])
      + (if c.gpuRequest then [RemoveOp(At("containers", i, "resources/requests/nvidia.com~1gpu"))] else [])
  }

  function EnvPatches(cs: seq<ContainerView>, n: nat, limit: string): seq<PatchOp>
    requires n <= |cs|
  {
    if n == 0 then []
    else EnvPatches(cs, n - 1, limit)
           + EnvPatch(At("containers", n - 1, "env"), cs[n - 1].env != [], MissingEnvs(cs[n - 1].env, limit))
  }

  function InitEnvPatches(cs: seq<ContainerView>, n: nat): seq<PatchOp>
    requires n <= |cs|
  {
    if n == 0 then []
    else InitEnvPatches(cs, n - 1)
           + EnvPatch(At("initContainers", n - 1, "env"), cs[n - 1].env != [], MissingInitEnvs(cs[n - 1].env))
  }

  function MountPatches(list: string, cs: seq<ContainerView>, n: nat): seq<PatchOp>
    requires n <= |cs|
  {
    if n == 0 then [] else MountPatches(list, cs, n - 1) + [MountPatch(At(list, n - 1, "volumeMounts"), cs[n - 1].mounts > 0)]
  }

  function MpsMountPatches(n: nat): seq<PatchOp> {
    if n == 0 then [] else MpsMountPatches(n - 1) + [AddOp(At("containers", n - 1, "volumeMounts/-"), MPS_MOUNT)]
  }

  function RemovePatches(cs: seq<ContainerView>, n: nat): seq<PatchOp>
    requires n <= |cs|
  {
    if n == 0 then [] else RemovePatches(cs, n - 1) + RemovePatch(cs[n - 1], n - 1)
  }

  function VolumePatches(had: bool): seq<PatchOp> {
    [if had then AddOp("/spec/volumes/-", GPU_VOLUME) else AddOp("/spec/volumes", Arr([GPU_VOLUME])),
     AddOp("/spec/volumes/-", MPS_VOLUME)]
  }

  /** All operations, in the order they are emitted. */
  function PatchList(pod: PodView, limit: string): seq<PatchOp> {
    EnvPatches(pod.containers, |pod.containers|, limit)
      + InitEnvPatches(pod.initContainers, |pod.initContainers|)
      + VolumePatches(pod.volumes > 0)
      + MountPatches("containers", pod.containers, |pod.containers|)
      + MountPatches("initContainers", pod.initContainers, |pod.initContainers|)
      + MpsMountPatches(|pod.containers|)
      + RemovePatches(pod.containers, |pod.containers|)
  }

  // ---------- The generator ----------

  method HasEnv(names: seq<string>, name: string) returns (b: bool)
    ensures b <==> name in names
  {
    for i := 0 to |names|
      invariant name !in names[..i]
    {
      if names[i] == name {
        return true;
      }
    }
    return false;
  }

  method BuildLimit(memMB: int, gpuCount: int) returns (s: string)
    ensures s == MpsMemoryLimit(memMB, gpuCount)
  {
    if gpuCount <= 1 {
      return "0=" + Itoa(memMB) + "M";
    }
    s := "";
    for i := 0 to gpuCount
      invariant s == LimitParts(memMB, i)
    {
      s := s + (if i == 0 then "" else ",") + Itoa(i) + "=" + Itoa(memMB) + "M";
    }
  }

  /** The new variables of one container, found one by one. */
  method NewEnvs(names: seq<string>, limit: string) returns (envs: seq<Json>)
    ensures envs == MissingEnvs(names, limit)
  {
    envs := [];
    var hasVisible := HasEnv(names, VISIBLE);
    if !hasVisible {
      envs := envs + [EnvVar(VISIBLE, "all")];
    }
    var hasPinned := HasEnv(names, PINNED);
    if !hasPinned {
      envs := envs + [EnvVar(PINNED, limit)];
    }
    var hasPipe := HasEnv(names, PIPE);
    if !hasPipe {
      envs := envs + [EnvVar(PIPE, PIPE_DIR)];
    }
  }

  method AppendEnvs(patches: seq<PatchOp>, path: string, had: bool, envs: seq<Json>) returns (r: seq<PatchOp>)
    ensures r == patches + EnvPatch(path, had, envs)
  {
    r := patches;
    if !had && envs != [] {
      r := r + [AddOp(path, Arr(envs))];
    } else {
      for i := 0 to |envs|
        invariant r == patches + EnvPatch(path, true, envs)[..i]
      {
        r := r + [AddOp(path + "/-", envs[i])];
      }
      assert EnvPatch(path, true, envs)[..|envs|] == EnvPatch(path, true, envs);
    }
  }

  method EnvPhase(cs: seq<ContainerView>, limit: string) returns (patches: seq<PatchOp>)
    ensures patches == EnvPatches(cs, |cs|, limit)
  {
    patches := [];
    for ci := 0 to |cs|
      invariant patches == EnvPatches(cs, ci, limit)
    {
      var envs := NewEnvs(cs[ci].env, limit);
      patches := AppendEnvs(patches, At("containers", ci, "env"), cs[ci].env != [], envs);
    }
  }

  method InitEnvPhase(cs: seq<ContainerView>) returns (patches: seq<PatchOp>)
    ensures patches == InitEnvPatches(cs, |cs|)
  {
    patches := [];
    for i := 0 to |cs|
      invariant patches == InitEnvPatches(cs, i)
    {
      var hasVisible := HasEnv(cs[i].env, VISIBLE);
      if hasVisible {
        continue;
      }
      patches := AppendEnvs(patches, At("initContainers", i, "env"), cs[i].env != [], [EnvVar(VISIBLE, "all")]);
    }
  }

  method MountPhase(list: string, cs: seq<ContainerView>) returns (patches: seq<PatchOp>)
    ensures patches == MountPatches(list, cs, |cs|)
  {
    patches := [];
    for i := 0 to |cs|
      invariant patches == MountPatches(list, cs, i)
    {
      if cs[i].mounts == 0 {
        patches := patches + [AddOp(At(list, i, "volumeMounts"), Arr([GPU_INFO_MOUNT]))];
      } else {
        patches := patches + [AddOp(At(list, i, "volumeMounts") + "/-", GPU_INFO_MOUNT)];
      }
    }
  }

  method MpsMountPhase(n: nat) returns (patches: seq<PatchOp>)
    ensures patches == MpsMountPatches(n)
  {
    patches := [];
    for i := 0 to n
      invariant patches == MpsMountPatches(i)
    {
      patches := patches + [AddOp(At("containers", i, "volumeMounts/-"), MPS_MOUNT)];
    }
  }

  method RemovePhase(cs: seq<ContainerView>) returns (patches: seq<PatchOp>)
    ensures patches == RemovePatches(cs, |cs|)
  {
    patches := [];
    for i := 0 to |cs|
      invariant patches == RemovePatches(cs, i)
    {
      ghost var before := patches;
      if cs[i].gpuLimit {
        patches := patches + [RemoveOp(At("containers", i, "resources/limits/nvidia.com~1gpu"))];
      }
      if cs[i].gpuRequest {
        patches := patches + [RemoveOp(At("containers", i, "resources/requests/nvidia.com~1gpu"))];
      }
      assert patches == before + RemovePatch(cs[i], i);
    }
  }

  method BuildSharedGPUPatches(pod: PodView, memMB: int, gpuCount: int) returns (patches: seq<PatchOp>)
    ensures patches == PatchList(pod, MpsMemoryLimit(memMB, gpuCount))
  {
    var limit := BuildLimit(memMB, gpuCount);
    var env := EnvPhase(pod.containers, limit);
    var initEnv := InitEnvPhase(pod.initContainers);
    patches := env + initEnv;
    if pod.volumes == 0 {
      patches := patches + [AddOp("/spec/volumes", Arr([GPU_VOLUME]))];
    } else {
      patches := patches + [AddOp("/spec/volumes/-", GPU_VOLUME)];
    }
    patches := patches + [AddOp("/spec/volumes/-", MPS_VOLUME)];
    assert patches == env + initEnv + VolumePatches(pod.volumes > 0);
    var mounts := MountPhase("containers", pod.containers);
    var initMounts := MountPhase("initContainers", pod.initContainers);
    var mpsMounts := MpsMountPhase(|pod.containers|);
    var removes := RemovePhase(pod.containers);
    patches := patches + mounts + initMounts + mpsMounts + removes;
  }

  /** mutate: only pods whose annotations ask for sharing are patched, with the limit that their memory and GPU count
      give; everything else is allowed unchanged. */
  method Mutate(kind: string, doc: Json, memoryRequestMB: Option<int>, gpuLimit: Option<int>) returns (patches: seq<PatchOp>)
    ensures kind != "Pod" || Decode(doc).None? || AnnotationsOf(doc).None? ==> patches == []
    ensures kind == "Pod" && Decode(doc).Some? && AnnotationsOf(doc).Some? ==>
              var pod := RequestedPod(AnnotationsOf(doc).value, memoryRequestMB, gpuLimit);
              patches == if !IsSharedGPUPod(pod) then []
                         else PatchList(Decode(doc).value, MpsMemoryLimit(GetGPUMemory(pod), GetGPUCount(pod)))
  {
    patches := [];
    if kind != "Pod" {
      return;
    }
    var decoded, annotations := Decode(doc), AnnotationsOf(doc);
    if decoded.None? || annotations.None? {
      return;
    }
    var pod := RequestedPod(annotations.value, memoryRequestMB, gpuLimit);
    if SHARED !in annotations.value || annotations.value[SHARED] != "true" {
      return;
    }
    patches := BuildSharedGPUPatches(decoded.value, GetGPUMemory(pod), GetGPUCount(pod));
  }
}
