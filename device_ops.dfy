/** The device operation enum and the string verbs that name it. */
module DeviceOps {
  import Json

  datatype Operation =
    | Unknown
    | Reset
    | Zero
    | Enable
    | Disable
    | SetPower
    | SetPhase
    | Calibrate
    | ViewHistogram
    | SetIntensity

  /** The nine verbs that name a known operation. */
  const KnownVerbs: set<string> :=
    {"reset", "zero", "enable", "disable", "set_power", "set_phase", "calibrate", "view_histogram", "set_intensity"}

  /** `operation_from_string`: each known verb names its operation; every other string is Unknown. */
  function OperationFromString(s: string): (op: Operation)
    ensures op == Unknown <==> s !in KnownVerbs
  {
    if s == "reset" then Reset
    else if s == "zero" then Zero
    else if s == "enable" then Enable
    else if s == "disable" then Disable
    else if s == "set_power" then SetPower
    else if s == "set_phase" then SetPhase
    else if s == "calibrate" then Calibrate
    else if s == "view_histogram" then ViewHistogram
    else if s == "set_intensity" then SetIntensity
    else Unknown
  }

  /** `operation_to_string`: a known verb for each known operation, "unknown" for Unknown. */
  function OperationToString(op: Operation): (s: string)
    ensures op != Unknown <==> s in KnownVerbs
    ensures op == Unknown <==> s == "unknown"
  {
    match op
    case Reset => "reset"
    case Zero => "zero"
    case Enable => "enable"
    case Disable => "disable"
    case SetPower => "set_power"
    case SetPhase => "set_phase"
    case Calibrate => "calibrate"
    case ViewHistogram => "view_histogram"
    case SetIntensity => "set_intensity"
    case Unknown => "unknown"
  }

  /** Every operation, Unknown included (through "unknown"), survives the trip through its name. */
  lemma OperationRoundTrip(op: Operation)
    ensures OperationFromString(OperationToString(op)) == op
  {
  }

  /** Every known verb survives the trip through its operation. */
  lemma VerbRoundTrip(s: string)
    requires s in KnownVerbs
    ensures OperationToString(OperationFromString(s)) == s
  {
  }

  /** Naming is injective: two operations with the same verb are the same operation. */
  lemma OperationToStringInjective(a: Operation, b: Operation)
    requires OperationToString(a) == OperationToString(b)
    ensures a == b
  {
    OperationRoundTrip(a);
    OperationRoundTrip(b);
  }

  /**
   * The JSON command the default `perform_action(op, args)` forwards: an
   * object whose single key is the operation's verb, mapped to `args`.
   */
  function DefaultCommand(op: Operation, args: Json.Value): (cmd: Json.Value)
    ensures cmd.Obj? && |cmd.fields| == 1
    ensures forall k :: k in cmd.fields ==> OperationFromString(k) == op && cmd.fields[k] == args
  {
    Json.Obj(map[OperationToString(op) := args])
  }
}
