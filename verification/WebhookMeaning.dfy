/** What the webhook's patch list means: applied in order it never misses a target, and it is the intended change. */
module WebhookMeaning {
  import opened Collections
  import opened Text
  import opened JsonPatch
  import opened Webhook

  type Members = map<string, Json>

  // ---------- The intended transformation, on the document itself ----------

  /** A list member with items appended; the empty list of items changes nothing. */
  function Extended(m: Members, key: string, items: seq<Json>): Members
    requires ListOf(m, key).Some?
  {
    if items == [] then m else m[key := Arr(ListOf(m, key).value + items)]
  }

  /** resources.<kind> without the GPU resource. */
  function WithoutGPU(m: Members, kind: string): Members {
    match ObjectOf(m, "resources")
    case None => m
    case Some(resources) =>
      match ObjectOf(resources, kind)
      case None => m
      case Some(quantities) =>
        if GPU_RESOURCE in quantities then m["resources" := Obj(resources[kind := Obj(quantities - {GPU_RESOURCE})])] else m
  }

  function TransformContainer(c: Json, limit: string): Json
    requires DecodeContainer(c).Some?
  {
    var m := c.members;
    var envs := Extended(m, "env", MissingEnvs(DecodeContainer(c).value.env, limit));
    var mounts := Extended(envs, "volumeMounts", [GPU_INFO_MOUNT, MPS_MOUNT]);
    Obj(WithoutGPU(WithoutGPU(mounts, "limits"), "requests"))
  }

  function TransformInitContainer(c: Json): Json
    requires DecodeContainer(c).Some?
  {
    var m := c.members;
    var envs := Extended(m, "env", MissingInitEnvs(DecodeContainer(c).value.env));
    Obj(Extended(envs, "volumeMounts", [GPU_INFO_MOUNT]))
  }

  /** A list member replaced; an empty list stays as it is written. */
  function Replaced(m: Members, key: string, items: seq<Json>): Members {
    if items == [] then m else m[key := Arr(items)]
  }

  function TransformSpec(spec: Members, limit: string): Members
    requires DecodeSpec(spec).Some?
  {
    var cs := ListOf(spec, "containers").value;
    var inits := ListOf(spec, "initContainers").value;
    var a := Replaced(spec, "containers",
                      seq(|cs|, i requires 0 <= i < |cs| && DecodeContainer(cs[i]).Some? => TransformContainer(cs[i], limit)));
    var b := Replaced(a, "initContainers",
                      seq(|inits|, i requires 0 <= i < |inits| && DecodeContainer(inits[i]).Some? => TransformInitContainer(inits[i])));
    Extended(b, "volumes", [GPU_VOLUME, MPS_VOLUME])
  }

  predicate HasSpec(doc: Json) {
    doc.Obj? && "spec" in doc.members && doc.members["spec"].Obj?
  }

  function Transform(doc: Json, limit: string): Json
    requires HasSpec(doc) && Decode(doc).Some?
  {
    Obj(doc.members["spec" := Obj(TransformSpec(doc.members["spec"].members, limit))])
  }

  // ---------- The edits behind the operations ----------

  function EnvEdits(had: bool, envs: seq<Json>): seq<Edit> {
    if !had && envs != [] then [AddEdit(["env"], Arr(envs))]
    else seq(|envs|, i requires 0 <= i < |envs| => AddEdit(["env", "-"], envs[i]))
  }

  function MountEdits(had: bool): seq<Edit> {
    if had then [AddEdit(["volumeMounts", "-"], GPU_INFO_MOUNT)] else [AddEdit(["volumeMounts"], Arr([GPU_INFO_MOUNT]))]
  }

  const MPS_MOUNT_EDITS := [AddEdit(["volumeMounts", "-"], MPS_MOUNT)]

  function RemoveEdits(c: ContainerView): seq<Edit> {
    (if c.gpuLimit then [RemoveEdit(["resources", "limits", GPU_RESOURCE])] else [])
      + (if c.gpuRequest then [RemoveEdit(["resources", "requests", GPU_RESOURCE])] else [])
  }

  function VolumeEdits(had: bool): seq<Edit> {
    [if had then AddEdit(["volumes", "-"], GPU_VOLUME) else AddEdit(["volumes"], Arr([GPU_VOLUME])),
     AddEdit(["volumes", "-"], MPS_VOLUME)]
  }

  // ---------- Edits within one container ----------

  lemma AppendToList(m: Members, key: string, item: Json)
    requires key in m && m[key].Arr?
    ensures ApplyEdit(Obj(m), AddEdit([key, "-"], item)) == Some(Obj(m[key := Arr(m[key].items + [item])]))
  {
    assert [key, "-"][1..] == ["-"];
    assert Add(m[key], ["-"], item) == Some(Arr(m[key].items + [item]));
  }

  lemma {:induction false} AppendAllToList(m: Members, key: string, items: seq<Json>, i: nat)
    requires key in m && m[key].Arr? && i <= |items|
    ensures ApplyEdits(Obj(m), seq(i, j requires 0 <= j < i => AddEdit([key, "-"], items[j])))
         == Some(Obj(m[key := Arr(m[key].items + items[..i])]))
  {
    var es := seq(i, j requires 0 <= j < i => AddEdit([key, "-"], items[j]));
    if i == 0 {
      assert m[key].items + items[..0] == m[key].items;
      assert m[key := m[key]] == m;
    } else {
      AppendAllToList(m, key, items, i - 1);
      assert es == seq(i - 1, j requires 0 <= j < i - 1 => AddEdit([key, "-"], items[j])) + [AddEdit([key, "-"], items[i - 1])];
      ApplyConcat(Obj(m), es[..i - 1], [es[i - 1]]);
      assert es[..i - 1] == seq(i - 1, j requires 0 <= j < i - 1 => AddEdit([key, "-"], items[j]));
      var m' := m[key := Arr(m[key].items + items[..i - 1])];
      AppendToList(m', key, items[i - 1]);
      assert items[..i - 1] + [items[i - 1]] == items[..i];
      assert m'[key].items + [items[i - 1]] == m[key].items + items[..i];
      assert m'[key := Arr(m[key].items + items[..i])] == m[key := Arr(m[key].items + items[..i])];
    }
  }

  lemma EnvEditsMean(m: Members, envs: seq<Json>)
    requires ListOf(m, "env").Some?
    ensures ApplyEdits(Obj(m), EnvEdits(ListOf(m, "env").value != [], envs)) == Some(Obj(Extended(m, "env", envs)))
  {
    var had := ListOf(m, "env").value != [];
    if envs == [] {
      assert EnvEdits(had, envs) == [];
    } else if had {
      AppendAllToList(m, "env", envs, |envs|);
      assert envs[..|envs|] == envs;
    } else {
      assert [] + envs == envs;
      OneEdit(Obj(m), AddEdit(["env"], Arr(envs)));
    }
  }

  lemma OneEdit(doc: Json, e: Edit)
    ensures ApplyEdits(doc, [e]) == ApplyEdit(doc, e)
  {
    assert [e][1..] == [];
  }

  lemma MountEditsMean(m: Members)
    requires ListOf(m, "volumeMounts").Some?
    ensures ApplyEdits(Obj(m), MountEdits(|ListOf(m, "volumeMounts").value| > 0)) == Some(Obj(Extended(m, "volumeMounts", [GPU_INFO_MOUNT])))
  {
    var mounts := ListOf(m, "volumeMounts").value;
    if mounts == [] {
      assert mounts + [GPU_INFO_MOUNT] == [GPU_INFO_MOUNT];
      OneEdit(Obj(m), AddEdit(["volumeMounts"], Arr([GPU_INFO_MOUNT])));
    } else {
      AppendToList(m, "volumeMounts", GPU_INFO_MOUNT);
      OneEdit(Obj(m), AddEdit(["volumeMounts", "-"], GPU_INFO_MOUNT));
    }
  }

  /** "Safe to use /- here": after the gpu-info mount the list exists. */
  lemma MpsMountEditsMean(m: Members)
    requires ListOf(m, "volumeMounts").Some?
    ensures ApplyEdits(Obj(Extended(m, "volumeMounts", [GPU_INFO_MOUNT])), MPS_MOUNT_EDITS)
         == Some(Obj(Extended(m, "volumeMounts", [GPU_INFO_MOUNT, MPS_MOUNT])))
  {
    var mounts := ListOf(m, "volumeMounts").value;
    var m' := Extended(m, "volumeMounts", [GPU_INFO_MOUNT]);
    AppendToList(m', "volumeMounts", MPS_MOUNT);
    OneEdit(Obj(m'), AddEdit(["volumeMounts", "-"], MPS_MOUNT));
    assert mounts + [GPU_INFO_MOUNT] + [MPS_MOUNT] == mounts + [GPU_INFO_MOUNT, MPS_MOUNT];
    assert m'["volumeMounts" := Arr(mounts + [GPU_INFO_MOUNT, MPS_MOUNT])] == m["volumeMounts" := Arr(mounts + [GPU_INFO_MOUNT, MPS_MOUNT])];
  }

  lemma RemoveMeans(m: Members, kind: string)
    requires NamesGPU(m, kind) == Some(true)
    ensures ApplyEdit(Obj(m), RemoveEdit(["resources", kind, GPU_RESOURCE])) == Some(Obj(WithoutGPU(m, kind)))
  {
    var path := ["resources", kind, GPU_RESOURCE];
    assert path[1..] == [kind, GPU_RESOURCE];
    assert path[1..][1..] == [GPU_RESOURCE];
    var resources := m["resources"].members;
    assert Remove(resources[kind], [GPU_RESOURCE]) == Some(Obj(resources[kind].members - {GPU_RESOURCE}));
    assert Remove(Obj(resources), [kind, GPU_RESOURCE]) == Some(Obj(resources[kind := Obj(resources[kind].members - {GPU_RESOURCE})]));
  }

  /** Removing from one kind leaves the other as it was. */
  lemma OtherKindStays(m: Members, kind: string, other: string)
    requires kind != other && NamesGPU(m, kind).Some?
    ensures NamesGPU(WithoutGPU(m, kind), other) == NamesGPU(m, other)
  {
  }

  lemma RemoveEditsMean(m: Members, c: ContainerView)
    requires NamesGPU(m, "limits") == Some(c.gpuLimit) && NamesGPU(m, "requests") == Some(c.gpuRequest)
    ensures ApplyEdits(Obj(m), RemoveEdits(c)) == Some(Obj(WithoutGPU(WithoutGPU(m, "limits"), "requests")))
  {
    var limits := if c.gpuLimit then [RemoveEdit(["resources", "limits", GPU_RESOURCE])] else [];
    var requests := if c.gpuRequest then [RemoveEdit(["resources", "requests", GPU_RESOURCE])] else [];
    var m' := WithoutGPU(m, "limits");
    OtherKindStays(m, "limits", "requests");
    RemoveIfNamed(m, "limits");
    RemoveIfNamed(m', "requests");
    ApplyConcat(Obj(m), limits, requests);
  }

  lemma RemoveIfNamed(m: Members, kind: string)
    requires NamesGPU(m, kind).Some?
    ensures ApplyEdits(Obj(m), if NamesGPU(m, kind).value then [RemoveEdit(["resources", kind, GPU_RESOURCE])] else [])
         == Some(Obj(WithoutGPU(m, kind)))
  {
    if NamesGPU(m, kind).value {
      RemoveMeans(m, kind);
      OneEdit(Obj(m), RemoveEdit(["resources", kind, GPU_RESOURCE]));
    }
  }

  // ---------- The phases, list by list ----------

  /** Edits on the elements of a list member, and what they leave. */
  lemma PhaseOnList(spec: Members, key: string, local: seq<seq<Edit>>, out: seq<Json>)
    requires ListOf(spec, key).Some?
    requires |local| == |out| == |ListOf(spec, key).value|
    requires forall i :: 0 <= i < |out| ==> Nested(local[i]) && ApplyEdits(ListOf(spec, key).value[i], local[i]) == Some(out[i])
    ensures ApplyEdits(Obj(spec), Prefix(key, Each(local, |local|))) == Some(Obj(Replaced(spec, key, out)))
    ensures ListOf(Replaced(spec, key, out), key) == Some(out)
  {
    var a := ListOf(spec, key).value;
    if a == [] {
      assert Prefix(key, Each(local, |local|)) == [];
    } else {
      EachElement(a, local, out, |a|);
      assert out[..|a|] + a[|a|..] == out;
      EachIsNested(local, |local|);
      EditsUnderKey(spec, key, Each(local, |local|));
    }
  }

  lemma {:induction false} EachIsNested(local: seq<seq<Edit>>, n: nat)
    requires n <= |local|
    ensures Nested(Each(local, n))
  {
    if n > 0 {
      EachIsNested(local, n - 1);
    }
  }

  /** Container c of the request, and its state after each phase. */
  function AfterEnv(c: Json, limit: string): Json
    requires DecodeContainer(c).Some?
  {
    Obj(Extended(c.members, "env", MissingEnvs(DecodeContainer(c).value.env, limit)))
  }

  function AfterMount(c: Json, limit: string): Json
    requires DecodeContainer(c).Some?
  {
    Obj(Extended(AfterEnv(c, limit).members, "volumeMounts", [GPU_INFO_MOUNT]))
  }

  function AfterMps(c: Json, limit: string): Json
    requires DecodeContainer(c).Some?
  {
    Obj(Extended(AfterEnv(c, limit).members, "volumeMounts", [GPU_INFO_MOUNT, MPS_MOUNT]))
  }

  /** The four phases of one container, each from the state the one before left. */
  lemma ContainerPhases(c: Json, limit: string)
    requires DecodeContainer(c).Some?
    ensures var v := DecodeContainer(c).value;
            && ApplyEdits(c, EnvEdits(v.env != [], MissingEnvs(v.env, limit))) == Some(AfterEnv(c, limit))
            && ApplyEdits(AfterEnv(c, limit), MountEdits(v.mounts > 0)) == Some(AfterMount(c, limit))
            && ApplyEdits(AfterMount(c, limit), MPS_MOUNT_EDITS) == Some(AfterMps(c, limit))
            && ApplyEdits(AfterMps(c, limit), RemoveEdits(v)) == Some(TransformContainer(c, limit))
  {
    var v := DecodeContainer(c).value;
    var m := AfterEnv(c, limit).members;
    EnvEditsMean(c.members, MissingEnvs(v.env, limit));
    assert ListOf(m, "volumeMounts") == ListOf(c.members, "volumeMounts");
    MountEditsMean(m);
    MpsMountEditsMean(m);
    RemoveEditsMean(AfterMps(c, limit).members, v);
  }

  lemma InitContainerPhases(c: Json)
    requires DecodeContainer(c).Some?
    ensures var v := DecodeContainer(c).value;
            var env := Obj(Extended(c.members, "env", MissingInitEnvs(v.env)));
            && ApplyEdits(c, EnvEdits(v.env != [], MissingInitEnvs(v.env))) == Some(env)
            && ApplyEdits(env, MountEdits(v.mounts > 0)) == Some(TransformInitContainer(c))
  {
    var v := DecodeContainer(c).value;
    var m := Extended(c.members, "env", MissingInitEnvs(v.env));
    assert ListOf(m, "volumeMounts") == ListOf(c.members, "volumeMounts");
    hide EnvEdits, MountEdits, ApplyEdits, MissingInitEnvs;
    EnvEditsMean(c.members, MissingInitEnvs(v.env));
    MountEditsMean(m);
  }

  lemma VolumeEditsMean(m: Members)
    requires ListOf(m, "volumes").Some?
    ensures ApplyEdits(Obj(m), VolumeEdits(|ListOf(m, "volumes").value| > 0)) == Some(Obj(Extended(m, "volumes", [GPU_VOLUME, MPS_VOLUME])))
  {
    var volumes := ListOf(m, "volumes").value;
    var had := |volumes| > 0;
    var first := Obj(Extended(m, "volumes", [GPU_VOLUME]));
    var es := VolumeEdits(had);
    assert es == [es[0]] + [AddEdit(["volumes", "-"], MPS_VOLUME)];
    ApplyConcat(Obj(m), [es[0]], [AddEdit(["volumes", "-"], MPS_VOLUME)]);
    OneEdit(Obj(m), es[0]);
    OneEdit(first, AddEdit(["volumes", "-"], MPS_VOLUME));
    if had {
      AppendToList(m, "volumes", GPU_VOLUME);
    } else {
      assert volumes + [GPU_VOLUME] == [GPU_VOLUME];
    }
    AppendToList(first.members, "volumes", MPS_VOLUME);
    assert volumes + [GPU_VOLUME] + [MPS_VOLUME] == volumes + [GPU_VOLUME, MPS_VOLUME];
    assert first.members["volumes" := Arr(volumes + [GPU_VOLUME, MPS_VOLUME])] == m["volumes" := Arr(volumes + [GPU_VOLUME, MPS_VOLUME])];
  }
}
