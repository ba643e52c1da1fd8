/** pkg/controlplane and the inference part of internal/scheduler/helpers.go. */
module ControlPlane {
  import opened Collections
  import opened Text
  import opened Pods

  datatype Role = Prefill | Decode | Unified | Unknown

  /** PressureState is a string in the source; OtherPressure stands for every unnamed value. */
  datatype PressureState = Normal | PrefillHot | DecodeHot | OtherPressure

  datatype WorkerState = Starting | Ready | Draining | Removed

  datatype WorkerInfo = WorkerInfo(id: string, role: Role, state: WorkerState, routable: bool, gpu2gpu: bool,
                                   endpoint: string, modelGroup: string)

  datatype WorkerStat = WorkerStat(id: string, inflight: int, ttft: real, itl: real)

  datatype PressureReport = PressureReport(modelGroup: string, inflight: int, ttft: real, itl: real,
                                           state: PressureState, timestamp: int)

  function GetRole(pod: Pod): Role {
    match pod.Annotation("gpu-scheduler/inference-role")
    case Some(value) =>
      if value == "prefill" then Prefill
      else if value == "decode" then Decode
      else if value == "unified" then Unified
      else Unknown
    case None => Unknown
  }

  function GetModelGroup(pod: Pod): string {
    match pod.Annotation("gpu-scheduler/model-group")
    case Some(value) => TrimSpace(value)
    case None => ""
  }

  datatype DisaggIntent = DisaggIntent(role: Role, modelGroup: string, isDisagg: bool, isValid: bool)

  function GetDisaggIntent(pod: Pod): DisaggIntent {
    var role := GetRole(pod);
    var group := GetModelGroup(pod);
    match role
    case Prefill => DisaggIntent(role, group, true, group != "" && !IsSharedGPUPod(pod))
    case Decode => DisaggIntent(role, group, true, group != "" && !IsSharedGPUPod(pod))
    case Unified => DisaggIntent(role, group, false, true)
    case Unknown => DisaggIntent(role, group, false, group == "")
  }
}
