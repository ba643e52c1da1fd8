/** What a shared pod's containers hold after the webhook's patch, entry by entry and in the words of the cluster. */
module Injected {
  import opened Collections
  import opened Text
  import opened JsonPatch
  import opened Webhook
  import opened WebhookMeaning
  import opened WebhookTheorem

  // ---------- Variables ----------

  /** How many of the entries carry this name. */
  function Named(es: seq<Json>, name: string): nat {
    if es == [] then 0 else (if EnvName(es[0]) == Some(name) then 1 else 0) + Named(es[1..], name)
  }

  /** Behind the old entries, the variable stands once and with this value if it was missing, and not at all if it was not. */
  predicate Adds(added: seq<Json>, before: seq<string>, name: string, value: string) {
    var entry := Obj(map["name" := Str(name), "value" := Str(value)]);
    if name in before then Named(added, name) == 0 else Named(added, name) == 1 && entry in added
  }

  lemma {:induction false} NamedConcat(a: seq<Json>, b: seq<Json>, name: string)
    ensures Named(a + b, name) == Named(a, name) + Named(b, name)
  {
    if a == [] {
      assert a + b == b;
    } else {
      assert (a + b)[1..] == a[1..] + b;
      NamedConcat(a[1..], b, name);
    }
  }

  lemma NamedOne(name: string, value: string, other: string)
    ensures Named([EnvVar(name, value)], other) == if name == other then 1 else 0
    ensures Named([], other) == 0
  {
    assert [EnvVar(name, value)][1..] == [];
  }

  lemma NamesDiffer()
    ensures VISIBLE == "NVIDIA_VISIBLE_DEVICES" && PINNED == "CUDA_MPS_PINNED_DEVICE_MEM_LIMIT" && PIPE == "CUDA_MPS_PIPE_DIRECTORY"
    ensures VISIBLE != PINNED && VISIBLE != PIPE && PINNED != PIPE
  {
    assert |VISIBLE| == 22 && |PINNED| == 32 && |PIPE| == 23;
  }

  /** The added variables are counted part by part. */
  lemma NamedMissing(names: seq<string>, limit: string, name: string)
    ensures Named(MissingEnvs(names, limit), name)
         == (if name == VISIBLE && VISIBLE !in names then 1 else 0) + (if name == PINNED && PINNED !in names then 1 else 0)
            + (if name == PIPE && PIPE !in names then 1 else 0)
  {
    var a: seq<Json> := if VISIBLE in names then [] else [EnvVar(VISIBLE, "all")];
    var b: seq<Json> := if PINNED in names then [] else [EnvVar(PINNED, limit)];
    var c: seq<Json> := if PIPE in names then [] else [EnvVar(PIPE, PIPE_DIR)];
    NamedOne(VISIBLE, "all", name);
    NamedOne(PINNED, limit, name);
    NamedOne(PIPE, PIPE_DIR, name);
    NamedConcat(a, b, name);
    NamedConcat(a + b, c, name);
  }

  /** The variables that an app container gets. */
  predicate GetsVariables(added: seq<Json>, before: seq<string>, limit: string) {
    && Adds(added, before, "NVIDIA_VISIBLE_DEVICES", "all")
    && Adds(added, before, "CUDA_MPS_PINNED_DEVICE_MEM_LIMIT", limit)
    && Adds(added, before, "CUDA_MPS_PIPE_DIRECTORY", "/tmp/nvidia-mps")
    && forall e :: e in added ==>
         EnvName(e) in {Some("NVIDIA_VISIBLE_DEVICES"), Some("CUDA_MPS_PINNED_DEVICE_MEM_LIMIT"), Some("CUDA_MPS_PIPE_DIRECTORY")}
  }

  /** The one variable that an init container gets. */
  predicate GetsVisible(added: seq<Json>, before: seq<string>) {
    && Adds(added, before, "NVIDIA_VISIBLE_DEVICES", "all")
    && forall e :: e in added ==> EnvName(e) == Some("NVIDIA_VISIBLE_DEVICES")
  }

  lemma MissingAreAdded(names: seq<string>, limit: string)
    ensures GetsVariables(MissingEnvs(names, limit), names, limit)
  {
    NamesDiffer();
    NamedMissing(names, limit, VISIBLE);
    NamedMissing(names, limit, PINNED);
    NamedMissing(names, limit, PIPE);
  }

  // ---------- Containers ----------

  /** What mounting a volume looks like. */
  function Mount(volume: string, path: string, readOnly: bool): Json {
    if readOnly then Obj(map["name" := Str(volume), "readOnly" := Bool(true), "mountPath" := Str(path)])
    else Obj(map["name" := Str(volume), "mountPath" := Str(path)])
  }

  /** The variables of a container's env list. */
  function EnvOf(c: Json): seq<Json>
    requires DecodeContainer(c).Some?
  {
    ListOf(c.members, "env").value
  }

  function MountsOf(c: Json): seq<Json>
    requires DecodeContainer(c).Some?
  {
    ListOf(c.members, "volumeMounts").value
  }

  /** An app container afterwards: behind its own variables each missing one of the three, once and with its value; behind
      its own mounts the GPU information, read-only, and the MPS pipe. */
  lemma ContainerGets(c: Json, limit: string)
    requires DecodeContainer(c).Some?
    ensures var t := TransformContainer(c, limit).members;
            && ListOf(t, "env").Some? && EnvOf(c) <= ListOf(t, "env").value
            && GetsVariables(ListOf(t, "env").value[|EnvOf(c)|..], DecodeContainer(c).value.env, limit)
            && ListOf(t, "volumeMounts")
                 == Some(MountsOf(c) + [Mount("gpu-info", "/etc/gpu-info", true), Mount("nvidia-mps", "/tmp/nvidia-mps", false)])
  {
    TransformedContainer(c, limit);
    var names := DecodeContainer(c).value.env;
    MissingAreAdded(names, limit);
    hide MissingEnvs, GetsVariables, TransformContainer;
    var after := ListOf(TransformContainer(c, limit).members, "env").value;
    assert after[|EnvOf(c)|..] == MissingEnvs(names, limit);
  }

  /** An init container afterwards: it sees the GPUs and their information, and neither the MPS pipe nor a limit; its other
      members, the GPU resource included, stay. */
  lemma InitContainerGets(c: Json)
    requires DecodeContainer(c).Some?
    ensures var t := TransformInitContainer(c).members;
            && ListOf(t, "env").Some? && EnvOf(c) <= ListOf(t, "env").value
            && GetsVisible(ListOf(t, "env").value[|EnvOf(c)|..], DecodeContainer(c).value.env)
            && ListOf(t, "volumeMounts") == Some(MountsOf(c) + [Mount("gpu-info", "/etc/gpu-info", true)])
            && SameExcept(c.members, t, {"env", "volumeMounts"})
  {
    var names := DecodeContainer(c).value.env;
    ExtendedTwice(c.members, MissingInitEnvs(names), [GPU_INFO_MOUNT]);
    NamesDiffer();
    NamedOne(VISIBLE, "all", VISIBLE);
    hide EnvNames, NamesGPU, Extended;
    var after := ListOf(TransformInitContainer(c).members, "env").value;
    assert after[|EnvOf(c)|..] == MissingInitEnvs(names);
  }

  /** What resources.<kind> says of a resource. */
  function QuantityOf(m: Members, kind: string, resource: string): Option<Json> {
    match ObjectOf(m, "resources")
    case None => None
    case Some(resources) =>
      match ObjectOf(resources, kind)
      case None => None
      case Some(quantities) => if resource in quantities then Some(quantities[resource]) else None
  }

  /** The GPU resource is gone from the limits or requests, and every other resource stays as it was. */
  ghost predicate LosesGPU(before: Members, after: Members, kind: string) {
    forall resource :: QuantityOf(after, kind, resource) == if resource == "nvidia.com/gpu" then None else QuantityOf(before, kind, resource)
  }

  lemma GPUIsLost(m: Members, kind: string, other: string)
    requires NamesGPU(m, kind).Some? && NamesGPU(m, other).Some? && kind != other
    ensures LosesGPU(m, WithoutGPU(m, kind), kind)
    ensures forall resource :: QuantityOf(WithoutGPU(m, kind), other, resource) == QuantityOf(m, other, resource)
    ensures NamesGPU(WithoutGPU(m, kind), other).Some?
  {
    OtherKindStays(m, kind, other);
  }

  lemma BothAreLost(m: Members)
    requires NamesGPU(m, "limits").Some? && NamesGPU(m, "requests").Some?
    ensures LosesGPU(m, WithoutGPU(WithoutGPU(m, "limits"), "requests"), "limits")
    ensures LosesGPU(m, WithoutGPU(WithoutGPU(m, "limits"), "requests"), "requests")
  {
    GPUIsLost(m, "limits", "requests");
    GPUIsGone(m, "limits");
    var l := WithoutGPU(m, "limits");
    OtherKindStays(m, "limits", "requests");
    GPUIsLost(l, "requests", "limits");
    hide WithoutGPU, QuantityOf, NamesGPU;
  }

  lemma ResourcesDecide(m: Members, t: Members, kind: string)
    requires SameExcept(m, t, {"env", "volumeMounts"})
    ensures forall resource :: QuantityOf(t, kind, resource) == QuantityOf(m, kind, resource)
  {
    assert |"resources"| == 9 && |"env"| == 3 && |"volumeMounts"| == 12;
    assert "resources" in m <==> "resources" in t;
  }

  lemma ContainerLosesGPU(c: Json, limit: string)
    requires DecodeContainer(c).Some?
    ensures LosesGPU(c.members, TransformContainer(c, limit).members, "limits")
    ensures LosesGPU(c.members, TransformContainer(c, limit).members, "requests")
  {
    hide Extended, MissingEnvs, NamesGPU, EnvNames, WithoutGPU, QuantityOf;
    var m := c.members;
    var envs := MissingEnvs(DecodeContainer(c).value.env, limit);
    ExtendedTwice(m, envs, [GPU_INFO_MOUNT, MPS_MOUNT]);
    var t := Extended(Extended(m, "env", envs), "volumeMounts", [GPU_INFO_MOUNT, MPS_MOUNT]);
    SameResources(m, t);
    ResourcesDecide(m, t, "limits");
    ResourcesDecide(m, t, "requests");
    BothAreLost(t);
  }

  // ---------- The memory limit ----------

  function Part(memMB: int, i: nat): string {
    Itoa(i) + "=" + Itoa(memMB) + "M"
  }

  function Parts(memMB: int, n: nat): seq<string> {
    seq(n, i requires 0 <= i < n => Part(memMB, i))
  }

  /** A part without separators at the end, behind a separator. */
  lemma {:induction false} SplitLast(a: string, last: string, sep: char)
    requires sep !in last
    ensures Split(a + [sep] + last, sep) == Split(a, sep) + [last]
  {
    var s := a + [sep] + last;
    if a == [] {
      assert s[1..] == last;
      SplitPlain(last, sep);
    } else {
      assert s[1..] == a[1..] + [sep] + last;
      SplitLast(a[1..], last, sep);
    }
  }

  lemma PartHasNoComma(memMB: int, i: nat)
    ensures ',' !in Part(memMB, i)
  {
    ItoaHasNo(i, ',');
    ItoaHasNo(memMB, ',');
  }

  lemma Joined(before: string, device: string, memory: string)
    ensures before + "," + device + "=" + memory + "M" == before + [','] + (device + "=" + memory + "M")
    ensures "" + "" + device + "=" + memory + "M" == device + "=" + memory + "M"
  {
  }

  lemma {:induction false} LimitSplits(memMB: int, n: nat)
    requires n > 0
    ensures Split(LimitParts(memMB, n), ',') == Parts(memMB, n)
  {
    hide Itoa, Split;
    PartHasNoComma(memMB, n - 1);
    var before := LimitParts(memMB, n - 1);
    Joined(before, Itoa(n - 1), Itoa(memMB));
    if n == 1 {
      SplitPlain(Part(memMB, 0), ',');
    } else {
      LimitSplits(memMB, n - 1);
      SplitLast(before, Part(memMB, n - 1), ',');
      assert Parts(memMB, n) == Parts(memMB, n - 1) + [Part(memMB, n - 1)];
    }
  }

  /** The limit names each device of the pod once, in order, with the pod's memory; a count below one means one device. */
  lemma LimitPerDevice(memMB: int, gpuCount: int)
    ensures var n := if gpuCount <= 1 then 1 else gpuCount;
            var parts := Split(MpsMemoryLimit(memMB, gpuCount), ',');
            |parts| == n && forall i :: 0 <= i < n ==> parts[i] == Itoa(i) + "=" + Itoa(memMB) + "M"
  {
    if gpuCount <= 1 {
      assert Itoa(0) == "0";
      hide Itoa, Split;
      PartHasNoComma(memMB, 0);
      assert MpsMemoryLimit(memMB, gpuCount) == Part(memMB, 0);
      SplitPlain(Part(memMB, 0), ',');
    } else {
      LimitSplits(memMB, gpuCount);
    }
  }

  // ---------- The patched pod ----------

  /** The members of the pod's spec. */
  function SpecOf(doc: Json): Members
    requires HasSpec(doc)
  {
    doc.members["spec"].members
  }

  /** What the patch does to one container of the list. */
  ghost predicate ContainerPatched(before: Json, after: Json, limit: string)
    requires DecodeContainer(before).Some?
  {
    && after.Obj? && ListOf(after.members, "env").Some? && EnvOf(before) <= ListOf(after.members, "env").value
    && GetsVariables(ListOf(after.members, "env").value[|EnvOf(before)|..], DecodeContainer(before).value.env, limit)
    && ListOf(after.members, "volumeMounts")
         == Some(MountsOf(before) + [Mount("gpu-info", "/etc/gpu-info", true), Mount("nvidia-mps", "/tmp/nvidia-mps", false)])
    && LosesGPU(before.members, after.members, "limits") && LosesGPU(before.members, after.members, "requests")
    && SameExcept(before.members, after.members, {"env", "volumeMounts", "resources"})
  }

  ghost predicate InitContainerPatched(before: Json, after: Json)
    requires DecodeContainer(before).Some?
  {
    && after.Obj? && ListOf(after.members, "env").Some? && EnvOf(before) <= ListOf(after.members, "env").value
    && GetsVisible(ListOf(after.members, "env").value[|EnvOf(before)|..], DecodeContainer(before).value.env)
    && ListOf(after.members, "volumeMounts") == Some(MountsOf(before) + [Mount("gpu-info", "/etc/gpu-info", true)])
    && SameExcept(before.members, after.members, {"env", "volumeMounts"})
  }

  /** The volume that shows the pod its assigned GPUs, from its own annotation. */
  const GPU_INFO_VOLUME := Obj(map["name" := Str("gpu-info"), "downwardAPI" := Obj(map["items" := Arr([Obj(map[
    "path" := Str("assigned-gpus"),
    "fieldRef" := Obj(map["fieldPath" := Str("metadata.annotations['gpu-scheduler/assigned-gpus']")])])])])])

  /** The volume with the MPS pipe of the node. */
  const MPS_PIPE_VOLUME := Obj(map["name" := Str("nvidia-mps"), "hostPath" := Obj(map["path" := Str("/tmp/nvidia-mps")])])

  /** Lists of decoded containers, one patched into the other position by position. */
  ghost predicate ContainersPatched(before: seq<Json>, after: seq<Json>, limit: string) {
    |after| == |before| && forall i :: 0 <= i < |before| ==> DecodeContainer(before[i]).Some? && ContainerPatched(before[i], after[i], limit)
  }

  ghost predicate InitContainersPatched(before: seq<Json>, after: seq<Json>) {
    |after| == |before| && forall i :: 0 <= i < |before| ==> DecodeContainer(before[i]).Some? && InitContainerPatched(before[i], after[i])
  }

  /** The pod as patched: all containers and init containers as they should be, both volumes behind the pod's own, and
      everything else as it was. */
  ghost predicate PodPatched(before: Json, after: Json, limit: string)
    requires HasSpec(before)
  {
    && HasSpec(after) && SameExcept(before.members, after.members, {"spec"})
    && SameExcept(SpecOf(before), SpecOf(after), {"containers", "initContainers", "volumes"})
    && ListOf(SpecOf(before), "volumes").Some?
    && ListOf(SpecOf(after), "volumes") == Some(ListOf(SpecOf(before), "volumes").value + [GPU_INFO_VOLUME, MPS_PIPE_VOLUME])
    && ListOf(SpecOf(before), "containers").Some? && ListOf(SpecOf(after), "containers").Some?
    && ContainersPatched(ListOf(SpecOf(before), "containers").value, ListOf(SpecOf(after), "containers").value, limit)
    && ListOf(SpecOf(before), "initContainers").Some? && ListOf(SpecOf(after), "initContainers").Some?
    && InitContainersPatched(ListOf(SpecOf(before), "initContainers").value, ListOf(SpecOf(after), "initContainers").value)
  }

  lemma AllPatched(before: seq<Json>, after: seq<Json>, limit: string)
    requires |after| == |before|
    requires forall i :: 0 <= i < |before| ==> DecodeContainer(before[i]).Some? && after[i] == TransformContainer(before[i], limit)
    ensures ContainersPatched(before, after, limit)
  {
    hide TransformContainer, DecodeContainer, ContainerPatched;
    forall i | 0 <= i < |before|
      ensures DecodeContainer(before[i]).Some? && ContainerPatched(before[i], after[i], limit)
    {
      ContainerIsPatched(before[i], limit);
    }
  }

  lemma AllInitPatched(before: seq<Json>, after: seq<Json>)
    requires |after| == |before|
    requires forall i :: 0 <= i < |before| ==> DecodeContainer(before[i]).Some? && after[i] == TransformInitContainer(before[i])
    ensures InitContainersPatched(before, after)
  {
    hide TransformInitContainer, DecodeContainer, InitContainerPatched;
    forall i | 0 <= i < |before|
      ensures DecodeContainer(before[i]).Some? && InitContainerPatched(before[i], after[i])
    {
      InitContainerIsPatched(before[i]);
    }
  }

  /** The lists of the spec decode element by element. */
  lemma SpecDecodes(doc: Json)
    requires HasSpec(doc) && Decode(doc).Some?
    ensures ListOf(SpecOf(doc), "volumes").Some?
    ensures ListOf(SpecOf(doc), "containers").Some? && AllDecode(ListOf(SpecOf(doc), "containers").value, Decode(doc).value.containers)
    ensures ListOf(SpecOf(doc), "initContainers").Some?
         && AllDecode(ListOf(SpecOf(doc), "initContainers").value, Decode(doc).value.initContainers)
  {
    SpecParts(SpecOf(doc), Decode(doc).value);
  }

  lemma TransformIsPatched(doc: Json, limit: string)
    requires HasSpec(doc) && Decode(doc).Some?
    ensures PodPatched(doc, Transform(doc, limit), limit)
  {
    SpecDecodes(doc);
    TransformedPod(doc, limit);
    hide Decode, Transform, TransformContainer, TransformInitContainer, DecodeContainer, ContainersPatched, InitContainersPatched, ListOf;
    var before, after := SpecOf(doc), SpecOf(Transform(doc, limit));
    AllPatched(ListOf(before, "containers").value, ListOf(after, "containers").value, limit);
    AllInitPatched(ListOf(before, "initContainers").value, ListOf(after, "initContainers").value);
  }

  /** Applying the operations gives the patched pod. */
  lemma PatchGivesPatchedPod(doc: Json, limit: string)
    requires HasSpec(doc) && Decode(doc).Some?
    ensures ApplyPatch(doc, PatchList(Decode(doc).value, limit)).Some?
    ensures PodPatched(doc, ApplyPatch(doc, PatchList(Decode(doc).value, limit)).value, limit)
  {
    hide PatchList, Decode, Transform, PodPatched, ApplyPatch;
    PatchMeansTransform(doc, limit);
    TransformIsPatched(doc, limit);
  }

  lemma ContainerIsPatched(c: Json, limit: string)
    requires DecodeContainer(c).Some?
    ensures ContainerPatched(c, TransformContainer(c, limit), limit)
  {
    TransformedContainer(c, limit);
    ContainerGets(c, limit);
    ContainerLosesGPU(c, limit);
    hide TransformContainer, GetsVariables, DecodeContainer, LosesGPU;
  }

  lemma InitContainerIsPatched(c: Json)
    requires DecodeContainer(c).Some?
    ensures InitContainerPatched(c, TransformInitContainer(c))
  {
    InitContainerGets(c);
    assert TransformInitContainer(c).Obj?;
    hide TransformInitContainer, GetsVisible, DecodeContainer;
  }

  /** A null member decodes like an absent one, in a container and in the spec. */
  lemma NullIsAbsent(m: Members)
    ensures forall key :: key in {"env", "volumeMounts", "resources"} ==>
              DecodeContainer(Obj(m[key := Null])) == DecodeContainer(Obj(m - {key}))
    ensures forall key :: key in {"containers", "initContainers", "volumes"} ==> DecodeSpec(m[key := Null]) == DecodeSpec(m - {key})
  {
    forall key: string, kind: string
      ensures ListOf(m[key := Null], kind) == ListOf(m - {key}, kind) && ObjectOf(m[key := Null], kind) == ObjectOf(m - {key}, kind)
    {
    }
    forall key: string
      ensures DecodeContainer(Obj(m[key := Null])) == DecodeContainer(Obj(m - {key}))
      ensures DecodeSpec(m[key := Null]) == DecodeSpec(m - {key})
    {
      SameListsDecode(m[key := Null], m - {key});
    }
  }

  lemma SameListsDecode(a: Members, b: Members)
    requires forall kind :: ListOf(a, kind) == ListOf(b, kind) && ObjectOf(a, kind) == ObjectOf(b, kind)
    ensures DecodeContainer(Obj(a)) == DecodeContainer(Obj(b)) && DecodeSpec(a) == DecodeSpec(b)
  {
    hide ListOf, ObjectOf, EnvNames, DecodeContainers;
  }
}
