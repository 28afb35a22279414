/** The control-side factories (MyControl.cpp): a type string selects a
    normaliser or a control, and only "uuv"/"UUV" are known. */
module MyControl {
  import opened Wrappers
  import opened Json
  import opened JsonUtil
  import opened RawCommands
  import opened Tasks
  import opened Ids
  import Normalizers
  import Controls

  /** The normalisers that exist. Only the UUV one is ever created by the
      factory; the flow-sensor one is reachable only by direct construction. */
  datatype NormalizerKind = UuvNormalizer | FlowSensorNormalizer

  /** The exact, case-sensitive type match both factories use. */
  predicate IsUuvType(typeName: string)
  {
    typeName == "uuv" || typeName == "UUV"
  }

  function CreateNormalizer(typeName: string): (n: Option<NormalizerKind>)
    ensures n.Some? <==> IsUuvType(typeName)
    ensures n.Some? ==> n.value == UuvNormalizer
  {
    if typeName == "uuv" || typeName == "UUV" then Some(UuvNormalizer) else None
  }

  /** `ICommandNormalizer::Normalize` dispatched on the normaliser's kind. */
  function Normalize(kind: NormalizerKind, cmd: RawCommand, edgeId: string, clock: IdClock): (r: Result<Task, string>)
    ensures r.Success? ==> Normalizers.Normalised(r.value, cmd, edgeId, clock) && r.value.deviceId != ""
    ensures r.Success? ==> r.value.deviceId == GetStringOr(cmd.payload, Key("device_id"), "")
    ensures r.Failure? ==> r.error != ""
  {
    match kind
    case UuvNormalizer => Normalizers.NormalizeUuv(cmd, edgeId, clock)
    case FlowSensorNormalizer => Normalizers.NormalizeFlowSensor(cmd, edgeId, clock)
  }

  method CreateControl(typeName: string) returns (c: Controls.Control?)
    ensures c != null <==> IsUuvType(typeName)
    ensures c != null ==>
              fresh(c) && c.kind == Controls.UuvControl &&
              c.deviceName == "uuv-demo" && c.simulateLatencyMs == 200
  {
    if typeName == "uuv" || typeName == "UUV" {
      c := new Controls.Control(Controls.UuvControl);
    } else {
      c := null;
    }
  }

  /** The match is case-sensitive: "Uuv" and the sensor type names select
      nothing. */
  lemma FactoriesRejectOtherSpellings()
    ensures CreateNormalizer("Uuv") == None && CreateNormalizer("uUV") == None
    ensures CreateNormalizer("wind_sensor") == None && CreateNormalizer("flow_sensor") == None
    ensures CreateNormalizer("") == None
  {
  }
}
