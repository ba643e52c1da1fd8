/** The patch as a whole: the operations rendered as pointers, applied in order, are the transformation. */
module WebhookTheorem {
  import opened Collections
  import opened Text
  import opened JsonPatch
  import opened Webhook
  import opened WebhookMeaning

  // ---------- The edits of the whole patch ----------

  function EnvLocals(cs: seq<ContainerView>, limit: string): (r: seq<seq<Edit>>)
    ensures |r| == |cs|
  {
    seq(|cs|, i requires 0 <= i < |cs| => EnvEdits(cs[i].env != [], MissingEnvs(cs[i].env, limit)))
  }

  function InitEnvLocals(cs: seq<ContainerView>): (r: seq<seq<Edit>>)
    ensures |r| == |cs|
  {
    seq(|cs|, i requires 0 <= i < |cs| => EnvEdits(cs[i].env != [], MissingInitEnvs(cs[i].env)))
  }

  function MountLocals(cs: seq<ContainerView>): (r: seq<seq<Edit>>)
    ensures |r| == |cs|
  {
    seq(|cs|, i requires 0 <= i < |cs| => MountEdits(cs[i].mounts > 0))
  }

  function MpsLocals(n: nat): (r: seq<seq<Edit>>)
    ensures |r| == n
  {
    seq(n, i requires 0 <= i < n => MPS_MOUNT_EDITS)
  }

  function RemoveLocals(cs: seq<ContainerView>): (r: seq<seq<Edit>>)
    ensures |r| == |cs|
  {
    seq(|cs|, i requires 0 <= i < |cs| => RemoveEdits(cs[i]))
  }

  function OnList(list: string, local: seq<seq<Edit>>): seq<Edit> {
    Prefix(list, Each(local, |local|))
  }

  function SpecEdits(pod: PodView, limit: string): seq<Edit> {
    OnList("containers", EnvLocals(pod.containers, limit))
      + OnList("initContainers", InitEnvLocals(pod.initContainers))
      + VolumeEdits(pod.volumes > 0)
      + OnList("containers", MountLocals(pod.containers))
      + OnList("initContainers", MountLocals(pod.initContainers))
      + OnList("containers", MpsLocals(|pod.containers|))
      + OnList("containers", RemoveLocals(pod.containers))
  }

  // ---------- The edits mean the transformation ----------

  ghost predicate AllDecode(cs: seq<Json>, views: seq<ContainerView>) {
    |cs| == |views| && forall i :: 0 <= i < |cs| ==> DecodeContainer(cs[i]) == Some(views[i])
  }

  function EnvOut(cs: seq<Json>, limit: string): (r: seq<Json>)
    requires forall i :: 0 <= i < |cs| ==> DecodeContainer(cs[i]).Some?
    ensures |r| == |cs|
  {
    seq(|cs|, i requires 0 <= i < |cs| && DecodeContainer(cs[i]).Some? => AfterEnv(cs[i], limit))
  }

  function MountOut(cs: seq<Json>, limit: string): (r: seq<Json>)
    requires forall i :: 0 <= i < |cs| ==> DecodeContainer(cs[i]).Some?
    ensures |r| == |cs|
  {
    seq(|cs|, i requires 0 <= i < |cs| && DecodeContainer(cs[i]).Some? => AfterMount(cs[i], limit))
  }

  function MpsOut(cs: seq<Json>, limit: string): (r: seq<Json>)
    requires forall i :: 0 <= i < |cs| ==> DecodeContainer(cs[i]).Some?
    ensures |r| == |cs|
  {
    seq(|cs|, i requires 0 <= i < |cs| && DecodeContainer(cs[i]).Some? => AfterMps(cs[i], limit))
  }

  function FinalOut(cs: seq<Json>, limit: string): (r: seq<Json>)
    requires forall i :: 0 <= i < |cs| ==> DecodeContainer(cs[i]).Some?
    ensures |r| == |cs|
  {
    seq(|cs|, i requires 0 <= i < |cs| && DecodeContainer(cs[i]).Some? => TransformContainer(cs[i], limit))
  }

  function InitEnvOut(cs: seq<Json>): (r: seq<Json>)
    requires forall i :: 0 <= i < |cs| ==> DecodeContainer(cs[i]).Some?
    ensures |r| == |cs|
  {
    seq(|cs|, i requires 0 <= i < |cs| && DecodeContainer(cs[i]).Some? =>
      Obj(Extended(cs[i].members, "env", MissingInitEnvs(DecodeContainer(cs[i]).value.env))))
  }

  function InitOut(cs: seq<Json>): (r: seq<Json>)
    requires forall i :: 0 <= i < |cs| ==> DecodeContainer(cs[i]).Some?
    ensures |r| == |cs|
  {
    seq(|cs|, i requires 0 <= i < |cs| && DecodeContainer(cs[i]).Some? => TransformInitContainer(cs[i]))
  }

  /** One phase over the elements in, leaving the elements out. */
  ghost predicate PhaseOK(before: seq<Json>, local: seq<seq<Edit>>, after: seq<Json>) {
    && |before| == |local| == |after|
    && forall i :: 0 <= i < |before| ==> Nested(local[i]) && ApplyEdits(before[i], local[i]) == Some(after[i])
  }

  lemma ContainerPhasesOK(cs: seq<Json>, views: seq<ContainerView>, limit: string)
    requires AllDecode(cs, views)
    ensures PhaseOK(cs, EnvLocals(views, limit), EnvOut(cs, limit))
    ensures PhaseOK(EnvOut(cs, limit), MountLocals(views), MountOut(cs, limit))
    ensures PhaseOK(MountOut(cs, limit), MpsLocals(|views|), MpsOut(cs, limit))
    ensures PhaseOK(MpsOut(cs, limit), RemoveLocals(views), FinalOut(cs, limit))
  {
    forall i | 0 <= i < |cs|
      ensures ApplyEdits(cs[i], EnvLocals(views, limit)[i]) == Some(EnvOut(cs, limit)[i])
      ensures ApplyEdits(EnvOut(cs, limit)[i], MountLocals(views)[i]) == Some(MountOut(cs, limit)[i])
      ensures ApplyEdits(MountOut(cs, limit)[i], MpsLocals(|views|)[i]) == Some(MpsOut(cs, limit)[i])
      ensures ApplyEdits(MpsOut(cs, limit)[i], RemoveLocals(views)[i]) == Some(FinalOut(cs, limit)[i])
    {
      hide AfterEnv, AfterMount, AfterMps, TransformContainer, EnvEdits, MountEdits, RemoveEdits, ApplyEdits;
      ContainerPhases(cs[i], limit);
    }
  }

  lemma InitPhasesOK(cs: seq<Json>, views: seq<ContainerView>)
    requires AllDecode(cs, views)
    ensures PhaseOK(cs, InitEnvLocals(views), InitEnvOut(cs))
    ensures PhaseOK(InitEnvOut(cs), MountLocals(views), InitOut(cs))
  {
    forall i | 0 <= i < |cs|
      ensures ApplyEdits(cs[i], InitEnvLocals(views)[i]) == Some(InitEnvOut(cs)[i])
      ensures ApplyEdits(InitEnvOut(cs)[i], MountLocals(views)[i]) == Some(InitOut(cs)[i])
    {
      hide TransformInitContainer, EnvEdits, MountEdits, ApplyEdits;
      InitContainerPhases(cs[i]);
    }
  }

  /** A phase on one list member, after earlier edits es. */
  lemma ThenPhase(spec: Members, es: seq<Edit>, m: Members, list: string, local: seq<seq<Edit>>, out: seq<Json>)
    requires ApplyEdits(Obj(spec), es) == Some(Obj(m))
    requires ListOf(m, list).Some? && PhaseOK(ListOf(m, list).value, local, out)
    ensures ApplyEdits(Obj(spec), es + OnList(list, local)) == Some(Obj(Replaced(m, list, out)))
    ensures ListOf(Replaced(m, list, out), list) == Some(out)
    ensures forall k :: k != list ==> ListOf(Replaced(m, list, out), k) == ListOf(m, k)
  {
    PhaseOnList(m, list, local, out);
    ApplyConcat(Obj(spec), es, OnList(list, local));
  }

  lemma ThenVolumes(spec: Members, es: seq<Edit>, m: Members, had: bool)
    requires ApplyEdits(Obj(spec), es) == Some(Obj(m))
    requires ListOf(m, "volumes").Some? && had == (|ListOf(m, "volumes").value| > 0)
    ensures ApplyEdits(Obj(spec), es + VolumeEdits(had)) == Some(Obj(Extended(m, "volumes", [GPU_VOLUME, MPS_VOLUME])))
    ensures forall k :: k != "volumes" ==> ListOf(Extended(m, "volumes", [GPU_VOLUME, MPS_VOLUME]), k) == ListOf(m, k)
  {
    VolumeEditsMean(m);
    ApplyConcat(Obj(spec), es, VolumeEdits(had));
  }

  lemma SpecParts(spec: Members, pod: PodView)
    requires DecodeSpec(spec) == Some(pod)
    ensures ListOf(spec, "containers").Some? && AllDecode(ListOf(spec, "containers").value, pod.containers)
    ensures ListOf(spec, "initContainers").Some? && AllDecode(ListOf(spec, "initContainers").value, pod.initContainers)
    ensures ListOf(spec, "volumes").Some? && |ListOf(spec, "volumes").value| == pod.volumes
  {
  }

  /** The spec after all seven groups of edits. */
  function PhasedSpec(spec: Members, cs: seq<Json>, inits: seq<Json>, limit: string): Members
    requires forall i :: 0 <= i < |cs| ==> DecodeContainer(cs[i]).Some?
    requires forall i :: 0 <= i < |inits| ==> DecodeContainer(inits[i]).Some?
    requires ListOf(spec, "volumes").Some?
  {
    var m1 := Replaced(spec, "containers", EnvOut(cs, limit));
    var m2 := Replaced(m1, "initContainers", InitEnvOut(inits));
    var m3 := Extended(m2, "volumes", [GPU_VOLUME, MPS_VOLUME]);
    var m4 := Replaced(m3, "containers", MountOut(cs, limit));
    var m5 := Replaced(m4, "initContainers", InitOut(inits));
    var m6 := Replaced(m5, "containers", MpsOut(cs, limit));
    Replaced(m6, "containers", FinalOut(cs, limit))
  }

  lemma SpecEditsArePhases(spec: Members, pod: PodView, cs: seq<Json>, inits: seq<Json>, limit: string)
    requires ListOf(spec, "containers") == Some(cs) && AllDecode(cs, pod.containers)
    requires ListOf(spec, "initContainers") == Some(inits) && AllDecode(inits, pod.initContainers)
    requires ListOf(spec, "volumes").Some? && |ListOf(spec, "volumes").value| == pod.volumes
    ensures ApplyEdits(Obj(spec), SpecEdits(pod, limit)) == Some(Obj(PhasedSpec(spec, cs, inits, limit)))
  {
    ContainerPhasesOK(cs, pod.containers, limit);
    InitPhasesOK(inits, pod.initContainers);
    hide PhaseOK, ApplyEdits, ListOf, EnvOut, MountOut, MpsOut, FinalOut, InitEnvOut, InitOut, OnList, Replaced, Extended,
      EnvLocals, InitEnvLocals, MountLocals, MpsLocals, RemoveLocals, VolumeEdits;
    var e0: seq<Edit> := [];
    assert ApplyEdits(Obj(spec), e0) == Some(Obj(spec)) by { NoEdits(Obj(spec)); }
    var m1 := Replaced(spec, "containers", EnvOut(cs, limit));
    ThenPhase(spec, e0, spec, "containers", EnvLocals(pod.containers, limit), EnvOut(cs, limit));
    var e1 := e0 + OnList("containers", EnvLocals(pod.containers, limit));
    var m2 := Replaced(m1, "initContainers", InitEnvOut(inits));
    ThenPhase(spec, e1, m1, "initContainers", InitEnvLocals(pod.initContainers), InitEnvOut(inits));
    var e2 := e1 + OnList("initContainers", InitEnvLocals(pod.initContainers));
    var m3 := Extended(m2, "volumes", [GPU_VOLUME, MPS_VOLUME]);
    ThenVolumes(spec, e2, m2, pod.volumes > 0);
    var e3 := e2 + VolumeEdits(pod.volumes > 0);
    var m4 := Replaced(m3, "containers", MountOut(cs, limit));
    ThenPhase(spec, e3, m3, "containers", MountLocals(pod.containers), MountOut(cs, limit));
    var e4 := e3 + OnList("containers", MountLocals(pod.containers));
    var m5 := Replaced(m4, "initContainers", InitOut(inits));
    ThenPhase(spec, e4, m4, "initContainers", MountLocals(pod.initContainers), InitOut(inits));
    var e5 := e4 + OnList("initContainers", MountLocals(pod.initContainers));
    var m6 := Replaced(m5, "containers", MpsOut(cs, limit));
    ThenPhase(spec, e5, m5, "containers", MpsLocals(|pod.containers|), MpsOut(cs, limit));
    var e6 := e5 + OnList("containers", MpsLocals(|pod.containers|));
    ThenPhase(spec, e6, m6, "containers", RemoveLocals(pod.containers), FinalOut(cs, limit));
    assert e1 == OnList("containers", EnvLocals(pod.containers, limit));
  }

  lemma NoEdits(doc: Json)
    ensures ApplyEdits(doc, []) == Some(doc)
  {
  }

  /** The three members replaced, replaced and extended. */
  function Three(spec: Members, cs: seq<Json>, inits: seq<Json>): Members
    requires ListOf(spec, "volumes").Some?
  {
    Extended(Replaced(Replaced(spec, "containers", cs), "initContainers", inits), "volumes", [GPU_VOLUME, MPS_VOLUME])
  }

  lemma VolumesStay(spec: Members, cs: seq<Json>, inits: seq<Json>)
    ensures ListOf(Replaced(Replaced(spec, "containers", cs), "initContainers", inits), "volumes") == ListOf(spec, "volumes")
  {
  }

  /** Replacing a list again, after the other two, is replacing it once. */
  lemma ContainersAgain(spec: Members, cs: seq<Json>, inits: seq<Json>, cs': seq<Json>)
    requires ListOf(spec, "volumes").Some? && |cs| == |cs'|
    ensures Replaced(Three(spec, cs, inits), "containers", cs') == Three(spec, cs', inits)
  {
    VolumesStay(spec, cs, inits);
    VolumesStay(spec, cs', inits);
    hide ListOf;
    assert Replaced(Three(spec, cs, inits), "containers", cs').Keys == Three(spec, cs', inits).Keys;
  }

  lemma InitContainersAgain(spec: Members, cs: seq<Json>, inits: seq<Json>, inits': seq<Json>)
    requires ListOf(spec, "volumes").Some? && |inits| == |inits'|
    ensures Replaced(Three(spec, cs, inits), "initContainers", inits') == Three(spec, cs, inits')
  {
    VolumesStay(spec, cs, inits);
    VolumesStay(spec, cs, inits');
    hide ListOf;
    assert Replaced(Three(spec, cs, inits), "initContainers", inits').Keys == Three(spec, cs, inits').Keys;
  }

  /** Seven groups of edits on three members leave the last value of each. */
  lemma PhasesCollapse(spec: Members, cs: seq<Json>, inits: seq<Json>, limit: string)
    requires forall i :: 0 <= i < |cs| ==> DecodeContainer(cs[i]).Some?
    requires forall i :: 0 <= i < |inits| ==> DecodeContainer(inits[i]).Some?
    requires ListOf(spec, "volumes").Some?
    ensures PhasedSpec(spec, cs, inits, limit) == Three(spec, FinalOut(cs, limit), InitOut(inits))
  {
    VolumesStay(spec, EnvOut(cs, limit), InitEnvOut(inits));
    ContainersAgain(spec, EnvOut(cs, limit), InitEnvOut(inits), MountOut(cs, limit));
    InitContainersAgain(spec, MountOut(cs, limit), InitEnvOut(inits), InitOut(inits));
    ContainersAgain(spec, MountOut(cs, limit), InitOut(inits), MpsOut(cs, limit));
    ContainersAgain(spec, MpsOut(cs, limit), InitOut(inits), FinalOut(cs, limit));
    hide Replaced, Extended, ListOf, EnvOut, MountOut, MpsOut, FinalOut, InitEnvOut, InitOut;
  }

  lemma SpecEditsMean(spec: Members, pod: PodView, limit: string)
    requires DecodeSpec(spec) == Some(pod)
    ensures ApplyEdits(Obj(spec), SpecEdits(pod, limit)) == Some(Obj(TransformSpec(spec, limit)))
  {
    SpecParts(spec, pod);
    var cs, inits := ListOf(spec, "containers").value, ListOf(spec, "initContainers").value;
    assert forall i :: 0 <= i < |cs| ==> DecodeContainer(cs[i]).Some?;
    assert forall i :: 0 <= i < |inits| ==> DecodeContainer(inits[i]).Some?;
    hide DecodeSpec, DecodeContainer, SpecEdits, ApplyEdits, PhasedSpec;
    SpecEditsArePhases(spec, pod, cs, inits, limit);
    PhasesCollapse(spec, cs, inits, limit);
    CollapsedIsTransform(spec, cs, inits, limit);
  }

  lemma CollapsedIsTransform(spec: Members, cs: seq<Json>, inits: seq<Json>, limit: string)
    requires DecodeSpec(spec).Some?
    requires ListOf(spec, "containers") == Some(cs) && ListOf(spec, "initContainers") == Some(inits) && ListOf(spec, "volumes").Some?
    requires forall i :: 0 <= i < |cs| ==> DecodeContainer(cs[i]).Some?
    requires forall i :: 0 <= i < |inits| ==> DecodeContainer(inits[i]).Some?
    ensures Three(spec, FinalOut(cs, limit), InitOut(inits)) == TransformSpec(spec, limit)
  {
    hide DecodeSpec, DecodeContainer, TransformContainer, TransformInitContainer;
    assert FinalOut(cs, limit)
        == seq(|cs|, i requires 0 <= i < |cs| && DecodeContainer(cs[i]).Some? => TransformContainer(cs[i], limit));
    assert InitOut(inits)
        == seq(|inits|, i requires 0 <= i < |inits| && DecodeContainer(inits[i]).Some? => TransformInitContainer(inits[i]));
  }

  lemma OnListIsNested(list: string, local: seq<seq<Edit>>)
    ensures Nested(OnList(list, local))
  {
  }

  /** Applied below "spec", the edits succeed exactly when the document has a spec object. */
  lemma DocumentEdits(doc: Json, pod: PodView, limit: string)
    requires Decode(doc) == Some(pod)
    ensures ApplyEdits(doc, Prefix("spec", SpecEdits(pod, limit)))
         == if HasSpec(doc) then Some(Transform(doc, limit)) else None
  {
    if HasSpec(doc) {
      SpecEditsAreNested(pod, limit);
      EditsUnderKey(doc.members, "spec", SpecEdits(pod, limit));
      SpecEditsMean(doc.members["spec"].members, pod, limit);
    } else {
      WithoutSpec(doc, pod, limit);
    }
  }

  lemma SpecEditsAreNested(pod: PodView, limit: string)
    ensures Nested(SpecEdits(pod, limit))
  {
    OnListIsNested("containers", EnvLocals(pod.containers, limit));
    OnListIsNested("initContainers", InitEnvLocals(pod.initContainers));
    OnListIsNested("containers", MountLocals(pod.containers));
    OnListIsNested("initContainers", MountLocals(pod.initContainers));
    OnListIsNested("containers", MpsLocals(|pod.containers|));
    OnListIsNested("containers", RemoveLocals(pod.containers));
    hide OnList;
  }

  lemma WithoutSpec(doc: Json, pod: PodView, limit: string)
    requires Decode(doc) == Some(pod) && !HasSpec(doc)
    ensures ApplyEdits(doc, Prefix("spec", SpecEdits(pod, limit))) == None
  {
    assert DecodeSpec(map[]) == Some(pod);
    assert pod == PodView([], [], 0);
    var es := SpecEdits(pod, limit);
    assert es == VolumeEdits(false);
    var first := Prefix("spec", es)[0];
    assert first == AddEdit(["spec", "volumes"], Arr([GPU_VOLUME]));
    assert ["spec", "volumes"][1..] == ["volumes"];
    assert ApplyEdit(doc, first) == None;
  }

  // ---------- The operations are these edits, written as pointers ----------

  lemma RenderConcat(a: seq<Edit>, b: seq<Edit>)
    ensures RenderOps(a + b) == RenderOps(a) + RenderOps(b)
  {
  }

  lemma PrefixConcat(key: string, a: seq<Edit>, b: seq<Edit>)
    ensures Prefix(key, a + b) == Prefix(key, a) + Prefix(key, b)
  {
  }

  /** How the edits of element i of a list are written. */
  function Written(list: string, i: nat, es: seq<Edit>): (ops: seq<PatchOp>)
    ensures |ops| == |es|
  {
    RenderOps(Prefix("spec", Prefix(list, Prefix(Itoa(i), es))))
  }

  predicate Plain(token: string) {
    '~' !in token && '/' !in token
  }

  /** A plain token in front of a pointer. */
  lemma RenderPlain(token: string, rest: seq<string>)
    requires Plain(token)
    ensures RenderPointer([token] + rest) == "/" + token + RenderPointer(rest)
  {
    EscapePlain(token);
    assert ([token] + rest)[1..] == rest;
  }

  lemma PlainLists()
    ensures Plain("spec") && Plain("containers") && Plain("initContainers") && Plain("volumes")
    ensures Plain("env") && Plain("volumeMounts") && Plain("-")
  {
  }

  lemma PlainResources()
    ensures Plain("resources") && Plain("limits") && Plain("requests")
    ensures Plain("nvidia.com") && Plain("gpu")
  {
  }

  lemma PlainNames()
    ensures Plain("spec") && Plain("containers") && Plain("initContainers") && Plain("volumes")
    ensures Plain("env") && Plain("volumeMounts") && Plain("-")
    ensures Plain("resources") && Plain("limits") && Plain("requests")
    ensures Plain("nvidia.com") && Plain("gpu")
  {
    hide Plain;
    PlainLists();
    PlainResources();
  }

  lemma PathOf(list: string, i: nat, path: seq<string>, tail: string)
    requires Plain(list) && RenderPointer(path) == "/" + tail
    ensures RenderPointer(["spec"] + ([list] + ([Itoa(i)] + path))) == At(list, i, tail)
  {
    PlainNames();
    ItoaHasNo(i, '~');
    ItoaHasNo(i, '/');
    hide RenderPointer, Itoa;
    RenderPlain(Itoa(i), path);
    RenderPlain(list, [Itoa(i)] + path);
    RenderPlain("spec", [list] + ([Itoa(i)] + path));
    assert "/" + "spec" == "/spec";
    Slashes(list, Itoa(i), tail);
  }

  lemma Slashes(list: string, index: string, tail: string)
    ensures "/spec" + ("/" + list + ("/" + index + ("/" + tail))) == "/spec/" + list + "/" + index + "/" + tail
  {
  }

  lemma One(a: string)
    requires Plain(a)
    ensures RenderPointer([a]) == "/" + a
  {
    RenderPlain(a, []);
    assert [a] + [] == [a];
  }

  lemma Two(a: string, b: string, joined: string)
    requires Plain(a) && Plain(b) && joined == a + "/" + b
    ensures RenderPointer([a, b]) == "/" + joined
  {
    One(b);
    RenderPlain(a, [b]);
    assert [a] + [b] == [a, b];
    hide RenderPointer;
    assert "/" + a + ("/" + b) == "/" + joined;
  }

  lemma {:induction false} EscapeJoin(a: string, b: string)
    ensures Escape(a + b) == Escape(a) + Escape(b)
  {
    if a == [] {
      assert a + b == b;
    } else {
      assert (a + b)[1..] == a[1..] + b;
      EscapeJoin(a[1..], b);
    }
  }

  lemma EscapeSlashed(a: string, b: string)
    requires Plain(a) && Plain(b)
    ensures Escape(a + ("/" + b)) == a + ("~1" + b)
  {
    var slash := "/";
    assert Escape(slash) == "~1" by { assert slash[1..] == []; }
    EscapePlain(a);
    EscapePlain(b);
    hide Escape;
    EscapeJoin(a, slash + b);
    EscapeJoin(slash, b);
  }

  lemma GPULiterals()
    ensures GPU_RESOURCE == "nvidia.com" + ("/" + "gpu")
    ensures "nvidia.com~1gpu" == "nvidia.com" + ("~1" + "gpu")
  {
  }

  /** RFC 6901 writes the slash of the resource name as "~1". */
  lemma EscapeGPU()
    ensures Escape(GPU_RESOURCE) == "nvidia.com~1gpu"
  {
    PlainNames();
    hide Escape, Plain;
    EscapeSlashed("nvidia.com", "gpu");
    GPULiterals();
  }

  lemma GPUPath(kind: string, gpu: string, tail: string)
    requires Plain(kind) && gpu == "nvidia.com~1gpu" && tail == "resources" + ("/" + kind + ("/" + gpu))
    ensures RenderPointer(["resources", kind, GPU_RESOURCE]) == "/" + tail
  {
    PlainNames();
    EscapeGPU();
    LastToken(GPU_RESOURCE);
    hide RenderPointer, Escape, Plain;
    RenderPlain(kind, [GPU_RESOURCE]);
    RenderPlain("resources", [kind] + [GPU_RESOURCE]);
    assert ["resources"] + ([kind] + [GPU_RESOURCE]) == ["resources", kind, GPU_RESOURCE];
    SlashAssociates("resources", "/" + kind + ("/" + gpu));
  }

  lemma LastToken(token: string)
    ensures RenderPointer([token]) == "/" + Escape(token)
  {
    assert [token][1..] == [];
    assert "/" + Escape(token) + [] == "/" + Escape(token);
  }

  lemma SlashAssociates(a: string, b: string)
    ensures "/" + a + b == "/" + (a + b)
  {
  }

  // ---------- Operation lists, group by group ----------

  lemma WrittenOp(list: string, i: nat, e: Edit, tail: string)
    requires Plain(list) && RenderPointer(e.path) == "/" + tail
    ensures RenderOp(PrefixEdit("spec", PrefixEdit(list, PrefixEdit(Itoa(i), e))))
         == if e.AddEdit? then AddOp(At(list, i, tail), e.value) else RemoveOp(At(list, i, tail))
  {
    PathOf(list, i, e.path, tail);
  }

  lemma WrittenEnv(list: string, i: nat, had: bool, envs: seq<Json>)
    requires Plain(list)
    ensures Written(list, i, EnvEdits(had, envs)) == EnvPatch(At(list, i, "env"), had, envs)
  {
    var es := EnvEdits(had, envs);
    PlainNames();
    One("env");
    Two("env", "-", "env/-");
    AtDash(list, i, "env", "env/-");
    forall j | 0 <= j < |es|
      ensures Written(list, i, es)[j] == EnvPatch(At(list, i, "env"), had, envs)[j]
    {
      hide RenderPointer, At, RenderOp;
      WrittenOp(list, i, es[j], if !had && envs != [] then "env" else "env/-");
    }
  }

  lemma AtDash(list: string, i: nat, a: string, b: string)
    requires b == a + "/-"
    ensures At(list, i, a) + "/-" == At(list, i, b)
  {
  }

  lemma MountsDash()
    ensures "volumeMounts/-" == "volumeMounts" + "/-"
    ensures RenderPointer(["volumeMounts", "-"]) == "/" + "volumeMounts/-"
  {
    PlainNames();
    hide Plain, RenderPointer;
    var mounts, joined := "volumeMounts", "volumeMounts/-";
    assert joined == mounts + "/" + "-";
    Two(mounts, "-", joined);
  }

  lemma WrittenMount(list: string, i: nat, had: bool)
    requires Plain(list)
    ensures Written(list, i, MountEdits(had)) == [MountPatch(At(list, i, "volumeMounts"), had)]
  {
    var es := MountEdits(had);
    PlainNames();
    hide RenderPointer, At, RenderOp, Plain;
    One("volumeMounts");
    MountsDash();
    AtDash(list, i, "volumeMounts", "volumeMounts/-");
    WrittenOp(list, i, es[0], if had then "volumeMounts/-" else "volumeMounts");
  }

  lemma WrittenMps(i: nat)
    ensures Written("containers", i, MPS_MOUNT_EDITS) == [AddOp(At("containers", i, "volumeMounts/-"), MPS_MOUNT)]
  {
    PlainNames();
    hide RenderPointer, At, RenderOp, Plain;
    MountsDash();
    WrittenOp("containers", i, MPS_MOUNT_EDITS[0], "volumeMounts/-");
  }

  lemma GPUTails()
    ensures "resources/limits/nvidia.com~1gpu" == "resources" + ("/" + "limits" + ("/" + "nvidia.com~1gpu"))
    ensures "resources/requests/nvidia.com~1gpu" == "resources" + ("/" + "requests" + ("/" + "nvidia.com~1gpu"))
  {
  }

  lemma WrittenRemove(c: ContainerView, i: nat)
    ensures Written("containers", i, RemoveEdits(c)) == RemovePatch(c, i)
  {
    PlainNames();
    GPUTails();
    hide RenderPointer, At, RenderOp, Plain;
    var gpu, limits, requests := "nvidia.com~1gpu", "resources/limits/nvidia.com~1gpu", "resources/requests/nvidia.com~1gpu";
    GPUPath("limits", gpu, limits);
    GPUPath("requests", gpu, requests);
    WrittenOp("containers", i, RemoveEdit(["resources", "limits", GPU_RESOURCE]), limits);
    WrittenOp("containers", i, RemoveEdit(["resources", "requests", GPU_RESOURCE]), requests);
  }

  /** The operations of the first n elements, written out. */
  function WrittenEach(list: string, local: seq<seq<Edit>>, n: nat): seq<PatchOp>
    requires n <= |local|
  {
    if n == 0 then [] else WrittenEach(list, local, n - 1) + Written(list, n - 1, local[n - 1])
  }

  lemma {:induction false} EachIsWritten(list: string, local: seq<seq<Edit>>, n: nat)
    requires n <= |local|
    ensures RenderOps(Prefix("spec", Prefix(list, Each(local, n)))) == WrittenEach(list, local, n)
  {
    if n > 0 {
      EachIsWritten(list, local, n - 1);
      var a, b := Each(local, n - 1), Prefix(Itoa(n - 1), local[n - 1]);
      PrefixConcat(list, a, b);
      PrefixConcat("spec", Prefix(list, a), Prefix(list, b));
      RenderConcat(Prefix("spec", Prefix(list, a)), Prefix("spec", Prefix(list, b)));
    }
  }

  lemma {:induction false} EnvGroup(cs: seq<ContainerView>, n: nat, limit: string)
    requires n <= |cs|
    ensures WrittenEach("containers", EnvLocals(cs, limit), n) == EnvPatches(cs, n, limit)
  {
    hide Written, EnvPatch;
    if n > 0 {
      EnvGroup(cs, n - 1, limit);
      PlainNames();
      WrittenEnv("containers", n - 1, cs[n - 1].env != [], MissingEnvs(cs[n - 1].env, limit));
    }
  }

  lemma {:induction false} InitEnvGroup(cs: seq<ContainerView>, n: nat)
    requires n <= |cs|
    ensures WrittenEach("initContainers", InitEnvLocals(cs), n) == InitEnvPatches(cs, n)
  {
    hide Written, EnvPatch;
    if n > 0 {
      InitEnvGroup(cs, n - 1);
      PlainNames();
      WrittenEnv("initContainers", n - 1, cs[n - 1].env != [], MissingInitEnvs(cs[n - 1].env));
    }
  }

  lemma {:induction false} MountGroup(list: string, cs: seq<ContainerView>, n: nat)
    requires n <= |cs| && Plain(list)
    ensures WrittenEach(list, MountLocals(cs), n) == MountPatches(list, cs, n)
  {
    hide Written, MountPatch;
    if n > 0 {
      MountGroup(list, cs, n - 1);
      WrittenMount(list, n - 1, cs[n - 1].mounts > 0);
    }
  }

  lemma {:induction false} MpsGroup(k: nat, n: nat)
    requires n <= k
    ensures WrittenEach("containers", MpsLocals(k), n) == MpsMountPatches(n)
  {
    hide Written;
    if n > 0 {
      MpsGroup(k, n - 1);
      WrittenMps(n - 1);
    }
  }

  lemma {:induction false} RemoveGroup(cs: seq<ContainerView>, n: nat)
    requires n <= |cs|
    ensures WrittenEach("containers", RemoveLocals(cs), n) == RemovePatches(cs, n)
  {
    hide Written, RemovePatch, RemoveEdits;
    if n > 0 {
      RemoveGroup(cs, n - 1);
      WrittenRemove(cs[n - 1], n - 1);
    }
  }

  lemma VolumeGroup(had: bool)
    ensures RenderOps(Prefix("spec", VolumeEdits(had))) == VolumePatches(had)
  {
    PlainNames();
    One("volumes");
    Two("volumes", "-", "volumes/-");
    RenderPlain("spec", ["volumes"]);
    RenderPlain("spec", ["volumes", "-"]);
    hide RenderPointer;
    assert "/" + "spec" + ("/" + "volumes") == "/spec/volumes";
    assert "/" + "spec" + ("/" + "volumes/-") == "/spec/volumes/-";
  }

  /** A group of edits in front of more edits, and how the two are written. */
  lemma GroupsWritten(a: seq<Edit>, b: seq<Edit>)
    ensures RenderOps(Prefix("spec", a + b)) == RenderOps(Prefix("spec", a)) + RenderOps(Prefix("spec", b))
  {
    PrefixConcat("spec", a, b);
    RenderConcat(Prefix("spec", a), Prefix("spec", b));
  }

  lemma PatchIsWritten(pod: PodView, limit: string)
    ensures PatchList(pod, limit) == RenderOps(Prefix("spec", SpecEdits(pod, limit)))
  {
    var cs, inits := pod.containers, pod.initContainers;
    var e1, e2, e3 := OnList("containers", EnvLocals(cs, limit)), OnList("initContainers", InitEnvLocals(inits)), VolumeEdits(pod.volumes > 0);
    var e4, e5 := OnList("containers", MountLocals(cs)), OnList("initContainers", MountLocals(inits));
    var e6, e7 := OnList("containers", MpsLocals(|cs|)), OnList("containers", RemoveLocals(cs));
    EachIsWritten("containers", EnvLocals(cs, limit), |cs|);
    EnvGroup(cs, |cs|, limit);
    EachIsWritten("initContainers", InitEnvLocals(inits), |inits|);
    InitEnvGroup(inits, |inits|);
    VolumeGroup(pod.volumes > 0);
    PlainNames();
    EachIsWritten("containers", MountLocals(cs), |cs|);
    MountGroup("containers", cs, |cs|);
    EachIsWritten("initContainers", MountLocals(inits), |inits|);
    MountGroup("initContainers", inits, |inits|);
    EachIsWritten("containers", MpsLocals(|cs|), |cs|);
    MpsGroup(|cs|, |cs|);
    EachIsWritten("containers", RemoveLocals(cs), |cs|);
    RemoveGroup(cs, |cs|);
    hide WrittenEach, EnvPatches, InitEnvPatches, VolumePatches, MountPatches, MpsMountPatches, RemovePatches, RenderOps, Prefix, Each,
      EnvLocals, InitEnvLocals, MountLocals, MpsLocals, RemoveLocals, VolumeEdits, Plain;
    GroupsWritten(e1, e2);
    GroupsWritten(e1 + e2, e3);
    GroupsWritten(e1 + e2 + e3, e4);
    GroupsWritten(e1 + e2 + e3 + e4, e5);
    GroupsWritten(e1 + e2 + e3 + e4 + e5, e6);
    GroupsWritten(e1 + e2 + e3 + e4 + e5 + e6, e7);
  }

  // ---------- The theorem ----------

  /** For every pod document that decodes, the generated operations applied in order under RFC 6902 give exactly the
      transformed document; they fail exactly when the document has no spec object. */
  lemma PatchMeansTransform(doc: Json, limit: string)
    requires Decode(doc).Some?
    ensures ApplyPatch(doc, PatchList(Decode(doc).value, limit)) == if HasSpec(doc) then Some(Transform(doc, limit)) else None
  {
    var pod := Decode(doc).value;
    PatchIsWritten(pod, limit);
    RenderedApply(doc, Prefix("spec", SpecEdits(pod, limit)));
    DocumentEdits(doc, pod, limit);
  }

  // ---------- What the transformed pod looks like ----------

  ghost predicate SameExcept(before: Members, after: Members, keys: set<string>) {
    forall k :: k !in keys ==> (k in before <==> k in after) && (k in before ==> before[k] == after[k])
  }

  lemma {:induction false} EnvNamesConcat(a: seq<Json>, b: seq<Json>)
    requires EnvNames(a).Some? && EnvNames(b).Some?
    ensures EnvNames(a + b) == Some(EnvNames(a).value + EnvNames(b).value)
  {
    if a == [] {
      assert a + b == b;
      assert EnvNames(a).value + EnvNames(b).value == EnvNames(b).value;
    } else {
      assert (a + b)[1..] == a[1..] + b;
      EnvNamesConcat(a[1..], b);
      assert EnvNames(a).value + EnvNames(b).value == [EnvNames(a).value[0]] + (EnvNames(a).value[1..] + EnvNames(b).value);
    }
  }

  /** The injected variables are named after what was missing. */
  lemma MissingNames(names: seq<string>, limit: string)
    ensures EnvNames(MissingEnvs(names, limit)) == Some((if VISIBLE in names then [] else [VISIBLE])
              + (if PINNED in names then [] else [PINNED]) + (if PIPE in names then [] else [PIPE]))
  {
    var a: seq<Json> := if VISIBLE in names then [] else [EnvVar(VISIBLE, "all")];
    var b: seq<Json> := if PINNED in names then [] else [EnvVar(PINNED, limit)];
    var c: seq<Json> := if PIPE in names then [] else [EnvVar(PIPE, PIPE_DIR)];
    OneName(VISIBLE, "all");
    OneName(PINNED, limit);
    OneName(PIPE, PIPE_DIR);
    EnvNamesConcat(a, b);
    EnvNamesConcat(a + b, c);
  }

  lemma OneName(name: string, value: string)
    ensures EnvNames([EnvVar(name, value)]) == Some([name])
    ensures EnvNames([]) == Some([])
  {
    assert [EnvVar(name, value)][1..] == [];
    assert [name] + [] == [name];
  }

  lemma SameResources(m: Members, t: Members)
    requires SameExcept(m, t, {"env", "volumeMounts"})
    ensures NamesGPU(t, "limits") == NamesGPU(m, "limits") && NamesGPU(t, "requests") == NamesGPU(m, "requests")
  {
    assert |"resources"| == 9 && |"env"| == 3 && |"volumeMounts"| == 12;
    assert "resources" in m <==> "resources" in t;
  }

  lemma ExtendedTwice(m: Members, envs: seq<Json>, mounts: seq<Json>)
    requires ListOf(m, "env").Some? && ListOf(m, "volumeMounts").Some?
    ensures ListOf(Extended(m, "env", envs), "volumeMounts") == ListOf(m, "volumeMounts")
    ensures var t := Extended(Extended(m, "env", envs), "volumeMounts", mounts);
            && SameExcept(m, t, {"env", "volumeMounts"})
            && ListOf(t, "env") == Some(ListOf(m, "env").value + envs)
            && ListOf(t, "volumeMounts") == Some(ListOf(m, "volumeMounts").value + mounts)
  {
    assert ListOf(m, "env").value + [] == ListOf(m, "env").value;
    assert ListOf(m, "volumeMounts").value + [] == ListOf(m, "volumeMounts").value;
  }

  /** A container afterwards: the old variables first, every needed variable present once more only if it was missing,
      the two mounts behind the old ones, no GPU resource in limits or requests, and nothing else changed. */
  lemma TransformedContainer(c: Json, limit: string)
    requires DecodeContainer(c).Some?
    ensures var v := DecodeContainer(c).value;
            var t := TransformContainer(c, limit);
            && t.Obj? && SameExcept(c.members, t.members, {"env", "volumeMounts", "resources"})
            && ListOf(t.members, "env") == Some(ListOf(c.members, "env").value + MissingEnvs(v.env, limit))
            && ListOf(t.members, "volumeMounts") == Some(ListOf(c.members, "volumeMounts").value + [GPU_INFO_MOUNT, MPS_MOUNT])
            && NamesGPU(t.members, "limits") == Some(false) && NamesGPU(t.members, "requests") == Some(false)
            && (!v.gpuLimit && !v.gpuRequest ==> SameExcept(c.members, t.members, {"env", "volumeMounts"}))
  {
    hide Extended, MissingEnvs, NamesGPU, EnvNames, WithoutGPU;
    var v := DecodeContainer(c).value;
    var m := c.members;
    ExtendedTwice(m, MissingEnvs(v.env, limit), [GPU_INFO_MOUNT, MPS_MOUNT]);
    var mounts := Extended(Extended(m, "env", MissingEnvs(v.env, limit)), "volumeMounts", [GPU_INFO_MOUNT, MPS_MOUNT]);
    SameResources(m, mounts);
    ResourcesOnly(mounts);
  }

  /** Both removals change the resources member at most, and leave no GPU resource. */
  lemma ResourcesOnly(m: Members)
    requires NamesGPU(m, "limits").Some? && NamesGPU(m, "requests").Some?
    ensures var t := WithoutGPU(WithoutGPU(m, "limits"), "requests");
            && SameExcept(m, t, {"resources"})
            && NamesGPU(t, "limits") == Some(false) && NamesGPU(t, "requests") == Some(false)
            && (NamesGPU(m, "limits") == Some(false) && NamesGPU(m, "requests") == Some(false) ==> t == m)
  {
    var l := WithoutGPU(m, "limits");
    assert SameExcept(m, l, {"resources"});
    OtherKindStays(m, "limits", "requests");
    GPUIsGone(m, "limits");
    GPUIsGone(l, "requests");
    OtherKindStays(l, "requests", "limits");
    assert SameExcept(l, WithoutGPU(l, "requests"), {"resources"});
    hide NamesGPU;
  }

  lemma GPUIsGone(m: Members, kind: string)
    requires NamesGPU(m, kind).Some?
    ensures NamesGPU(WithoutGPU(m, kind), kind) == Some(false)
  {
  }

  /** All three variables are defined afterwards. */
  lemma EnvIsComplete(c: Json, limit: string)
    requires DecodeContainer(c).Some?
    ensures var names := EnvNames(ListOf(TransformContainer(c, limit).members, "env").value);
            && names.Some? && VISIBLE in names.value && PINNED in names.value && PIPE in names.value
            && DecodeContainer(c).value.env <= names.value
  {
    var v := DecodeContainer(c).value;
    TransformedContainer(c, limit);
    MissingNames(v.env, limit);
    EnvNamesConcat(ListOf(c.members, "env").value, MissingEnvs(v.env, limit));
  }

  /** The pod afterwards: every container and init container transformed in place, both volumes behind the old ones,
      and nothing else changed. */
  lemma TransformedPod(doc: Json, limit: string)
    requires HasSpec(doc) && Decode(doc).Some?
    ensures var before := doc.members["spec"].members;
            var t := Transform(doc, limit);
            && SameExcept(doc.members, t.members, {"spec"})
            && t.members["spec"].Obj?
            && var after := t.members["spec"].members;
               var cs, inits := ListOf(before, "containers").value, ListOf(before, "initContainers").value;
               && SameExcept(before, after, {"containers", "initContainers", "volumes"})
               && ListOf(after, "volumes") == Some(ListOf(before, "volumes").value + [GPU_VOLUME, MPS_VOLUME])
               && ListOf(after, "containers").Some? && |ListOf(after, "containers").value| == |cs|
               && (forall i :: 0 <= i < |cs| ==> ListOf(after, "containers").value[i] == TransformContainer(cs[i], limit))
               && ListOf(after, "initContainers").Some? && |ListOf(after, "initContainers").value| == |inits|
               && (forall i :: 0 <= i < |inits| ==> ListOf(after, "initContainers").value[i] == TransformInitContainer(inits[i]))
  {
    var before := doc.members["spec"].members;
    SpecParts(before, Decode(doc).value);
    hide DecodeContainer, TransformContainer, TransformInitContainer, DecodeSpec;
  }
}
