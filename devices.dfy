/**
 * The simulated devices: each keeps a little state, reports it in its
 * descriptor and measurement, and changes it on a JSON control command.
 *
 * A command member is read with nlohmann's `get<T>()`, which throws on a
 * value of the wrong type; a `PerformAction` that returns false is one that
 * threw, after applying the members that came before the bad one.
 */
module Devices {
  import opened Wrappers
  import opened Json
  import Physics

  /** What `if (cmd.contains(k)) x = cmd[k].get<T>()` finds: no member, a converted value, or a throw. */
  datatype Read<T> = Absent | Got(v: T) | Throws

  function ReadWith<T>(cmd: Value, key: string, conv: Value -> Option<T>): (r: Read<T>)
    ensures r.Absent? <==> !Contains(cmd, key)
    ensures r.Throws? <==> Contains(cmd, key) && conv(cmd.fields[key]).None?
    ensures r.Got? ==> Contains(cmd, key) && conv(cmd.fields[key]) == Some(r.v)
  {
    if !Contains(cmd, key) then Absent
    else match conv(cmd.fields[key])
      case Some(x) => Got(x)
      case None => Throws
  }

  /** The field after an assignment that may not happen. */
  function Update<T>(r: Read<T>, current: T): T
  {
    if r.Got? then r.v else current
  }

  /** `{"id", id}, {"type", kind}, {"status", status}`: the members every descriptor starts with. */
  predicate Describes(d: Value, id: string, kind: string, status: string)
  {
    Has(d, "id", Str(id)) && Has(d, "type", Str(kind)) && Has(d, "status", Str(status))
  }

  /** A vendor block of a descriptor's `specs`. */
  function Vendor(manufacturer: string, url: string): map<string, Value>
  {
    map["manufacturer" := Str(manufacturer), "datasheet_url" := Str(url)]
  }

  class AncillaQubit {
    const id: string
    var lastMeasurement: int
    var role: string

    constructor(id: string)
      ensures this.id == id && lastMeasurement == 0 && role == "syndrome"
    {
      this.id := id;
      lastMeasurement := 0;
      role := "syndrome";
    }

    function Type(): (t: string)
      reads this
      ensures Describes(Descriptor(), id, t, "ok")
    {
      "ancilla_qubit"
    }

    function Descriptor(): (d: Value)
      reads this
      ensures Has(d, "role", Str(role)) && |d.fields| == 4
    {
      Obj(map["id" := Str(id), "type" := Str("ancilla_qubit"), "role" := Str(role), "status" := Str("ok")])
    }

    /** `read_measurement`: `bit` stands for the random draw; the reading is kept as the last measurement. */
    method ReadMeasurement(bit: bool) returns (m: Value)
      modifies this
      ensures lastMeasurement == (if bit then 1 else 0) && role == old(role)
      ensures Has(m, "state", Int(lastMeasurement)) && Has(m, "role", Str(role))
    {
      lastMeasurement := if bit then 1 else 0;
      m := Obj(map["state" := Int(lastMeasurement), "role" := Str(role)]);
    }

    /** `perform_action`: `reset` clears the last measurement, then `set_role` must be a string. */
    method PerformAction(cmd: Value) returns (ok: bool)
      modifies this
      ensures var r := ReadWith(cmd, "set_role", AsString);
        ok == !r.Throws?
        && lastMeasurement == (if Contains(cmd, "reset") then 0 else old(lastMeasurement))
        && role == Update(r, old(role))
    {
      if Contains(cmd, "reset") {
        lastMeasurement := 0;
      }
      if Contains(cmd, "set_role") {
        var v := cmd.fields["set_role"];
        if !v.Str? {
          return false;
        }
        role := v.sval;
      }
      ok := true;
    }
  }

  class LaserController {
    const id: string
    var phase: real
    var intensity: real

    constructor(id: string)
      ensures this.id == id && phase == 0.0 && intensity == 1.0
    {
      this.id := id;
      phase := 0.0;
      intensity := 1.0;
    }

    function Type(): (t: string)
      reads this
      ensures Describes(Descriptor(), id, t, "ok")
    {
      "laser_controller"
    }

    function Descriptor(): (d: Value)
      reads this
      ensures Contains(d, "specs") && Has(d.fields["specs"], "phase_precision", Float(0.001))
    {
      Obj(map["id" := Str(id), "type" := Str("laser_controller"), "status" := Str("ok"),
               "specs" := Obj(map["phase_precision" := Float(0.001), "intensity_precision" := Float(0.01)]
                              + Vendor("Photonix Labs", "https://example.com/laser"))])
    }

    /** `read_measurement`: the current settings, under the metric names a `device.set` maps back to them. */
    function ReadMeasurement(): (m: Value)
      reads this
      ensures Has(m, "phase_rad", Float(phase)) && Has(m, "intensity", Float(intensity)) && |m.fields| == 2
    {
      Obj(map["phase_rad" := Float(phase), "intensity" := Float(intensity)])
    }

    /** `perform_action`: `set_phase`, then `set_intensity`, each any number or boolean. */
    method PerformAction(cmd: Value) returns (ok: bool)
      modifies this
      ensures var p := ReadWith(cmd, "set_phase", AsReal);
        var i := ReadWith(cmd, "set_intensity", AsReal);
        ok == (!p.Throws? && !i.Throws?)
        && phase == Update(p, old(phase))
        && intensity == (if p.Throws? then old(intensity) else Update(i, old(intensity)))
    {
      if Contains(cmd, "set_phase") {
        var x := AsReal(cmd.fields["set_phase"]);
        if x.None? {
          return false;
        }
        phase := x.value;
      }
      if Contains(cmd, "set_intensity") {
        var x := AsReal(cmd.fields["set_intensity"]);
        if x.None? {
          return false;
        }
        intensity := x.value;
      }
      ok := true;
    }
  }

  class PhotonicDetector {
    const id: string
    var darkRate: real

    constructor(id: string)
      ensures this.id == id && darkRate == 0.02
    {
      this.id := id;
      darkRate := 0.02;
    }

    function Type(): (t: string)
      reads this
      ensures Describes(Descriptor(), id, t, "ok")
    {
      "photonic_detector"
    }

    /** The descriptor reports the current dark rate among its specs. */
    function Descriptor(): (d: Value)
      reads this
      ensures Contains(d, "specs") && Has(d.fields["specs"], "dark_rate", Float(darkRate))
    {
      Obj(map["id" := Str(id), "type" := Str("photonic_detector"), "status" := Str("ok"),
               "specs" := Obj(map["dark_rate" := Float(darkRate)]
                              + Vendor("Photonix Labs", "https://example.com/detector"))])
    }

    /** `read_measurement`: `countsNoise` and `darkNoise` stand for the two normal draws. */
    function ReadMeasurement(countsNoise: real, darkNoise: real): (m: Value)
      reads this
      ensures Has(m, "counts", Float(1000.0 + countsNoise)) && Has(m, "dark_rate", Float(darkRate + darkNoise))
    {
      Obj(map["counts" := Float(1000.0 + countsNoise), "dark_rate" := Float(darkRate + darkNoise)])
    }

    /** `perform_action`: `zero` clears the dark rate whatever its value; nothing can throw. */
    method PerformAction(cmd: Value)
      modifies this
      ensures darkRate == (if Contains(cmd, "zero") then 0.0 else old(darkRate))
    {
      if Contains(cmd, "zero") {
        darkRate := 0.0;
      }
    }
  }

  class PulseSequencer {
    const id: string
    var sequenceLoaded: string
    var currentStep: int
    var running: bool

    constructor(id: string)
      ensures this.id == id && sequenceLoaded == "" && currentStep == 0 && !running
    {
      this.id := id;
      sequenceLoaded := "";
      currentStep := 0;
      running := false;
    }

    function Type(): (t: string)
      reads this
      ensures Describes(Descriptor(), id, t, if running then "running" else "idle")
    {
      "pulse_sequencer"
    }

    /** The descriptor's status follows `running` and it reports the loaded sequence. */
    function Descriptor(): (d: Value)
      reads this
      ensures Describes(d, id, "pulse_sequencer", if running then "running" else "idle")
      ensures Has(d, "sequence_loaded", Str(sequenceLoaded))
      ensures Has(d, "status", Str(if Has(ReadMeasurement(), "running", Bool(true)) then "running" else "idle"))
    {
      Obj(map["id" := Str(id), "type" := Str("pulse_sequencer"),
               "status" := Str(if running then "running" else "idle"),
               "sequence_loaded" := Str(sequenceLoaded),
               "specs" := Obj(map["max_sampling_rate_hz" := Float(10.0)]
                              + Vendor("Stone Labs: Photonix Division", "https://example.com/pulse_sequencer")),
               "metrics" := Obj(map[
                 "current_step" := Obj(map["kind" := Str("integer"), "unit" := Str("step"),
                                           "backend_unit" := Str("step"), "min" := Float(0.0)]),
                 "running" := Obj(map["kind" := Str("boolean")])])])
    }

    function ReadMeasurement(): (m: Value)
      reads this
      ensures Has(m, "current_step", Int(currentStep)) && Has(m, "running", Bool(running)) && |m.fields| == 2
    {
      Obj(map["current_step" := Int(currentStep), "running" := Bool(running)])
    }

    /**
     * `perform_action`: `load_sequence` must be a string; then `start`, then
     * `stop` (so a command with both leaves the sequencer stopped), then
     * `step` advances by one.
     */
    method PerformAction(cmd: Value) returns (ok: bool)
      modifies this
      ensures var l := ReadWith(cmd, "load_sequence", AsString);
        ok == !l.Throws?
        && sequenceLoaded == Update(l, old(sequenceLoaded))
        && running == (if l.Throws? then old(running)
                       else if Contains(cmd, "stop") then false
                       else if Contains(cmd, "start") then true
                       else old(running))
        && currentStep == old(currentStep) + (if ok && Contains(cmd, "step") then 1 else 0)
    {
      if Contains(cmd, "load_sequence") {
        var v := cmd.fields["load_sequence"];
        if !v.Str? {
          return false;
        }
        sequenceLoaded := v.sval;
      }
      if Contains(cmd, "start") {
        running := true;
      }
      if Contains(cmd, "stop") {
        running := false;
      }
      if Contains(cmd, "step") {
        currentStep := currentStep + 1;
      }
      ok := true;
    }
  }

  class QecModule {
    const id: string
    var codeType: string
    var syndrome: int
    var correctionApplied: bool

    constructor(id: string)
      ensures this.id == id && codeType == "surface" && syndrome == 0 && !correctionApplied
    {
      this.id := id;
      codeType := "surface";
      syndrome := 0;
      correctionApplied := false;
    }

    function Type(): (t: string)
      reads this
      ensures Describes(Descriptor(), id, t, "ok")
    {
      "qec_module"
    }

    function Descriptor(): (d: Value)
      reads this
      ensures Has(d, "code_type", Str(codeType))
    {
      Obj(map["id" := Str(id), "type" := Str("qec_module"), "code_type" := Str(codeType), "status" := Str("ok"),
               "specs" := Obj(map["max_sampling_rate_hz" := Float(10.0)]
                              + Vendor("Stone Labs: BlackBox Division", "https://example.com/qec_module")),
               "metrics" := Obj(map["syndrome" := Obj(map["kind" := Str("integer")]),
                                    "correction_applied" := Obj(map["kind" := Str("boolean")])])])
    }

    function ReadMeasurement(): (m: Value)
      reads this
      ensures Has(m, "syndrome", Int(syndrome)) && Has(m, "correction_applied", Bool(correctionApplied))
    {
      Obj(map["syndrome" := Int(syndrome), "correction_applied" := Bool(correctionApplied)])
    }

    /**
     * `perform_action`: `extract_syndrome` as an integer (a float is
     * truncated, a boolean is 0 or 1), then `apply_correction` as a strict
     * boolean, then `set_code_type` as a string; the first bad member stops
     * the rest.
     */
    method PerformAction(cmd: Value) returns (ok: bool)
      modifies this
      ensures var s := ReadWith(cmd, "extract_syndrome", AsInt);
        var c := ReadWith(cmd, "apply_correction", AsBool);
        var t := ReadWith(cmd, "set_code_type", AsString);
        ok == (!s.Throws? && !c.Throws? && !t.Throws?)
        && syndrome == Update(s, old(syndrome))
        && correctionApplied == (if s.Throws? then old(correctionApplied) else Update(c, old(correctionApplied)))
        && codeType == (if s.Throws? || c.Throws? then old(codeType) else Update(t, old(codeType)))
    {
      if Contains(cmd, "extract_syndrome") {
        var x := AsInt(cmd.fields["extract_syndrome"]);
        if x.None? {
          return false;
        }
        syndrome := x.value;
      }
      if Contains(cmd, "apply_correction") {
        var v := cmd.fields["apply_correction"];
        if !v.Bool? {
          return false;
        }
        correctionApplied := v.bval;
      }
      if Contains(cmd, "set_code_type") {
        var v := cmd.fields["set_code_type"];
        if !v.Str? {
          return false;
        }
        codeType := v.sval;
      }
      ok := true;
    }
  }

  /** Every entry is a classical bit. */
  predicate Bits(s: seq<int>)
  {
    forall i :: 0 <= i < |s| ==> s[i] == 0 || s[i] == 1
  }

  function Zeros(n: nat): (s: seq<int>)
    ensures |s| == n && Bits(s)
  {
    seq(n, _ => 0)
  }

  /** Every entry `q` replaced by `1 - q`. */
  function Flipped(s: seq<int>): (r: seq<int>)
    ensures |r| == |s|
  {
    seq(|s|, i requires 0 <= i < |s| => 1 - s[i])
  }

  /** Flipping keeps a register of bits a register of bits. */
  lemma FlippedBits(s: seq<int>)
    requires Bits(s)
    ensures Bits(Flipped(s))
  {
  }

  /** Applying the gate twice restores the register. */
  lemma {:induction false} FlipTwice(s: seq<int>)
    ensures Flipped(Flipped(s)) == s
  {
    assert forall i :: 0 <= i < |s| ==> Flipped(Flipped(s))[i] == 1 - (1 - s[i]);
  }

  /** A command with both `reset_all` and `apply_gate` leaves every qubit at 1. */
  lemma ResetThenFlip(n: nat)
    ensures Flipped(Zeros(n)) == seq(n, _ => 1)
  {
  }

  class QuantumRegister {
    const id: string
    const regSize: nat
    const state: array<int>

    /** The vector keeps its size and holds only bits. */
    predicate Valid()
      reads this, state
    {
      state.Length == regSize && Bits(state[..])
    }

    /** `size` is a count of qubits; the C++ vector constructor rejects a negative one. */
    constructor(id: string, size: nat)
      ensures this.id == id && regSize == size && state[..] == Zeros(size) && fresh(state) && Valid()
    {
      this.id := id;
      regSize := size;
      state := new int[size](_ => 0);
    }

    function Type(): (t: string)
      reads this
      ensures Describes(Descriptor(), id, t, "ok")
    {
      "quantum_register"
    }

    function Descriptor(): (d: Value)
      reads this
      ensures Has(d, "size", Int(regSize))
    {
      Obj(map["id" := Str(id), "type" := Str("quantum_register"), "size" := Int(regSize), "status" := Str("ok"),
               "specs" := Obj(map["max_sampling_rate_hz" := Float(2.0)]),
               "metrics" := Obj(map["state_vector" := Obj(map["kind" := Str("vector")])])])
    }

    /** `read_measurement`: the state vector, one entry per qubit, as long as the descriptor's size. */
    function ReadMeasurement(): (m: Value)
      reads this, state
      requires Valid()
      ensures Contains(m, "state_vector") && m.fields["state_vector"].Arr?
      ensures |m.fields["state_vector"].items| == regSize
      ensures forall i :: 0 <= i < regSize ==> m.fields["state_vector"].items[i] == Int(state[i])
    {
      Obj(map["state_vector" := Arr(seq(state.Length, i reads state requires 0 <= i < state.Length => Int(state[i])))])
    }

    /** `perform_action`: `reset_all` zeroes every qubit, then `apply_gate` flips every qubit. */
    method PerformAction(cmd: Value)
      requires Valid()
      modifies state
      ensures Valid()
      ensures var s := if Contains(cmd, "reset_all") then Zeros(regSize) else old(state[..]);
        state[..] == if Contains(cmd, "apply_gate") then Flipped(s) else s
    {
      if Contains(cmd, "reset_all") {
        Fill();
      }
      if Contains(cmd, "apply_gate") {
        FlipAll();
      }
    }

    /** `std::fill(state.begin(), state.end(), 0)`. */
    method Fill()
      requires Valid()
      modifies state
      ensures Valid() && state[..] == Zeros(regSize)
    {
      var i := 0;
      while i < state.Length
        invariant 0 <= i <= state.Length
        invariant forall j :: 0 <= j < i ==> state[j] == 0
      {
        state[i] := 0;
        i := i + 1;
      }
    }

    /** `for (auto& q : state) q = 1 - q;` */
    method FlipAll()
      requires Valid()
      modifies state
      ensures Valid() && state[..] == Flipped(old(state[..]))
    {
      var i := 0;
      while i < state.Length
        invariant 0 <= i <= state.Length
        invariant forall j :: 0 <= j < i ==> state[j] == 1 - old(state[j])
        invariant forall j :: i <= j < state.Length ==> state[j] == old(state[j])
      {
        state[i] := 1 - state[i];
        i := i + 1;
      }
      FlippedBits(old(state[..]));
    }
  }

  class Thermocouple {
    const id: string
    var offset: real

    constructor(id: string)
      ensures this.id == id && offset == 0.0
    {
      this.id := id;
      offset := 0.0;
    }

    function Type(): (t: string)
      reads this
      ensures Describes(Descriptor(), id, t, "ok")
    {
      "thermocouple"
    }

    function Descriptor(): (d: Value)
      reads this
      ensures Contains(d, "specs") && Has(d.fields["specs"], "range", Arr([Int(-200), Int(500)]))
    {
      Obj(map["id" := Str(id), "type" := Str("thermocouple"), "status" := Str("ok"),
               "specs" := Obj(map["precision" := Float(0.01), "range" := Arr([Int(-200), Int(500)])]
                              + Vendor("Acme Quantum Sensors", "https://example.com/thermocouple"))])
    }

    /** `read_measurement`: 300 plus the offset plus the normal draw `noise`. */
    function ReadMeasurement(noise: real): (m: Value)
      reads this
      ensures Has(m, "temperature_C", Float(300.0 + offset + noise)) && |m.fields| == 1
    {
      Obj(map["temperature_C" := Float(300.0 + offset + noise)])
    }

    /** `perform_action`: `zero` clears the offset; nothing can throw. */
    method PerformAction(cmd: Value)
      modifies this
      ensures offset == (if Contains(cmd, "zero") then 0.0 else old(offset))
    {
      if Contains(cmd, "zero") {
        offset := 0.0;
      }
    }
  }

  /** The state the cooling controller pushes into the physics engine. */
  function ControllerState(flow: real, setpoint: real): (st: Value)
    ensures Has(st, "flow_rate_Lmin", Float(flow)) && Has(st, "setpoint_K", Float(setpoint))
    ensures st.fields.Keys == {"flow_rate_Lmin", "setpoint_K"}
  {
    Obj(map["flow_rate_Lmin" := Float(flow), "setpoint_K" := Float(setpoint)])
  }

  /** The pushed flow is the flow the physics step sees for that controller; the others keep theirs. */
  lemma ControllerStateFeedsFlows(states: map<string, Value>, id: string, flow: real, setpoint: real)
    ensures Physics.Flows(states[id := ControllerState(flow, setpoint)]) == Physics.Flows(states)[id := flow]
  {
    var st := ControllerState(flow, setpoint);
    assert AsReal(st.fields["flow_rate_Lmin"]) == Some(flow);
    var l := Physics.Flows(states[id := st]);
    var r := Physics.Flows(states)[id := flow];
    assert l.Keys == r.Keys;
    forall k | k in l
      ensures l[k] == r[k]
    {
    }
  }

  class LN2CoolingController {
    const id: string
    var setpoint: real
    var flowRate: real
    const physics: Physics.PhysicsEngine?

    constructor(id: string, physics: Physics.PhysicsEngine? := null)
      ensures this.id == id && this.physics == physics && setpoint == 77.0 && flowRate == 0.0
    {
      this.id := id;
      this.physics := physics;
      setpoint := 77.0;
      flowRate := 0.0;
    }

    function Type(): (t: string)
      reads this
      ensures Describes(Descriptor(), id, t, "ok")
    {
      "ln2_cooling_controller"
    }

    /** The descriptor bounds the setpoint to [60, 300] K and the flow to 10 L/min. */
    function Descriptor(): (d: Value)
      reads this
      ensures Contains(d, "specs") && Has(d.fields["specs"], "setpoint_range_K", Arr([Int(60), Int(300)]))
      ensures Has(d.fields["specs"], "max_flow_rate", Float(10.0))
    {
      Obj(map["id" := Str(id), "type" := Str("ln2_cooling_controller"), "status" := Str("ok"),
               "specs" := Obj(map["setpoint_range_K" := Arr([Int(60), Int(300)]), "max_flow_rate" := Float(10.0),
                                  "max_sampling_rate_hz" := Float(5.0)]
                              + Vendor("Stone Labs: CryoTech division", "https://example.com/ln2controller")),
               "metrics" := Obj(map[
                 "temperature_K" := Obj(map["kind" := Str("number"), "unit" := Str("K"), "backend_unit" := Str("K"),
                                            "precision" := Float(0.1), "min" := Float(0.0), "max" := Float(500.0)]),
                 "flow_rate_Lmin" := Obj(map["kind" := Str("number"), "unit" := Str("L/min"),
                                             "backend_unit" := Str("L/min"), "precision" := Float(0.1),
                                             "min" := Float(0.0), "max" := Float(10.0)])])])
    }

    /**
     * `read_measurement`: the setpoint and flow plus the normal draws
     * `tempNoise` and `flowNoise`; the noisy flow and the exact setpoint are
     * pushed into the attached physics engine.
     */
    method ReadMeasurement(tempNoise: real, flowNoise: real) returns (m: Value)
      modifies physics
      ensures Has(m, "temperature_K", Float(setpoint + tempNoise))
      ensures Has(m, "flow_rate_Lmin", Float(flowRate + flowNoise))
      ensures physics != null ==>
        physics.controllerStates == old(physics.controllerStates)[id := ControllerState(flowRate + flowNoise, setpoint)]
        && physics.nodes == old(physics.nodes) && physics.edges == old(physics.edges)
        && physics.deviceOverrides == old(physics.deviceOverrides)
        && physics.overridesPath == old(physics.overridesPath)
        && physics.cachedState == old(physics.cachedState)
    {
      var temp := setpoint + tempNoise;
      var flow := flowRate + flowNoise;
      if physics != null {
        physics.UpdateControllerState(id, ControllerState(flow, setpoint));
      }
      m := Obj(map["temperature_K" := Float(temp), "flow_rate_Lmin" := Float(flow)]);
    }

    /**
     * `perform_action`: `set_setpoint`, then `set_flow_rate`, each any number
     * or boolean; when both read, the new settings are pushed into the
     * attached physics engine. A bad member throws before the push.
     */
    method PerformAction(cmd: Value) returns (ok: bool)
      modifies this, physics
      ensures var s := ReadWith(cmd, "set_setpoint", AsReal);
        var f := ReadWith(cmd, "set_flow_rate", AsReal);
        ok == (!s.Throws? && !f.Throws?)
        && setpoint == Update(s, old(setpoint))
        && flowRate == (if s.Throws? then old(flowRate) else Update(f, old(flowRate)))
      ensures physics != null ==>
        physics.controllerStates
          == (if ok then old(physics.controllerStates)[id := ControllerState(flowRate, setpoint)]
              else old(physics.controllerStates))
        && physics.nodes == old(physics.nodes) && physics.edges == old(physics.edges)
        && physics.deviceOverrides == old(physics.deviceOverrides)
        && physics.overridesPath == old(physics.overridesPath)
        && physics.cachedState == old(physics.cachedState)
    {
      if Contains(cmd, "set_setpoint") {
        var x := AsReal(cmd.fields["set_setpoint"]);
        if x.None? {
          return false;
        }
        setpoint := x.value;
      }
      if Contains(cmd, "set_flow_rate") {
        var x := AsReal(cmd.fields["set_flow_rate"]);
        if x.None? {
          return false;
        }
        flowRate := x.value;
      }
      if physics != null {
        physics.UpdateControllerState(id, ControllerState(flowRate, setpoint));
      }
      ok := true;
    }
  }
}
