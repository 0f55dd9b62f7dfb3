/**
 * The physics engine's bookkeeping: the override merge, the node, edge and
 * controller-state tables, and the shape of one computed step.
 */
module Physics {
  import opened Wrappers
  import opened Json
  import KeyOrder

  /**
   * `deep_merge(dest, src)`: when both are objects, keys only in `dest`
   * stay, pairs of nested objects merge recursively and every other key of
   * `src` overwrites; otherwise `src` replaces `dest`.
   */
  function DeepMerge(dest: Value, src: Value): (r: Value)
    ensures !src.Obj? || !dest.Obj? ==> r == src
    ensures src.Obj? && dest.Obj? ==> r.Obj? && r.fields.Keys == dest.fields.Keys + src.fields.Keys
    decreases src
  {
    if !src.Obj? || !dest.Obj? then src
    else
      Obj(map k | k in dest.fields.Keys + src.fields.Keys ::
        if k !in src.fields then dest.fields[k]
        else if k in dest.fields && dest.fields[k].Obj? && src.fields[k].Obj? then DeepMerge(dest.fields[k], src.fields[k])
        else src.fields[k])
  }

  /** The merged value of one key of two objects. */
  lemma DeepMergeField(dest: Value, src: Value, k: string)
    requires dest.Obj? && src.Obj? && k in dest.fields.Keys + src.fields.Keys
    ensures var r := DeepMerge(dest, src).fields[k];
      (k !in src.fields ==> r == dest.fields[k])
      && (k in src.fields && !(k in dest.fields && dest.fields[k].Obj? && src.fields[k].Obj?) ==> r == src.fields[k])
      && (k in src.fields && k in dest.fields && dest.fields[k].Obj? && src.fields[k].Obj? ==>
            r == DeepMerge(dest.fields[k], src.fields[k]))
  {
  }

  /** Merging the same overrides a second time changes nothing. */
  lemma {:induction false} DeepMergeIdempotent(dest: Value, src: Value)
    ensures DeepMerge(DeepMerge(dest, src), src) == DeepMerge(dest, src)
    decreases src
  {
    if src.Obj? && dest.Obj? {
      var once := DeepMerge(dest, src);
      var twice := DeepMerge(once, src);
      forall k | k in once.fields
        ensures twice.fields[k] == once.fields[k]
      {
        if k in src.fields && k in dest.fields && dest.fields[k].Obj? && src.fields[k].Obj? {
          DeepMergeIdempotent(dest.fields[k], src.fields[k]);
        } else if k in src.fields {
          DeepMergeSelf(src.fields[k]);
        }
      }
      assert twice.fields == once.fields;
    } else {
      DeepMergeSelf(src);
    }
  }

  /** An object is its own overrides: merging a value into itself gives it back. */
  lemma {:induction false} DeepMergeSelf(v: Value)
    ensures DeepMerge(v, v) == v
    decreases v
  {
    if v.Obj? {
      var r := DeepMerge(v, v);
      forall k | k in v.fields
        ensures r.fields[k] == v.fields[k]
      {
        DeepMergeSelf(v.fields[k]);
      }
      assert r.fields == v.fields;
    }
  }

  /** Empty overrides leave an object as it is. */
  lemma DeepMergeEmpty(dest: Value)
    requires dest.Obj?
    ensures DeepMerge(dest, Obj(map[])) == dest
  {
    assert DeepMerge(dest, Obj(map[])).fields == dest.fields;
  }

  /** The value `deep_merge` leaves under key `k` of two objects. */
  function MergedField(dest: Value, src: Value, k: string): Value
    requires dest.Obj? && src.Obj? && k in dest.fields.Keys + src.fields.Keys
    decreases src, 0
  {
    if k !in src.fields then dest.fields[k]
    else if k in dest.fields && dest.fields[k].Obj? && src.fields[k].Obj? then DeepMerge(dest.fields[k], src.fields[k])
    else src.fields[k]
  }

  lemma MergedFieldIsDeepMerge(dest: Value, src: Value)
    requires dest.Obj? && src.Obj?
    ensures forall k :: k in dest.fields.Keys + src.fields.Keys ==>
      DeepMerge(dest, src).fields[k] == MergedField(dest, src, k)
  {
  }

  /**
   * The in-place merge: walks the keys of `src` in iteration order and
   * updates `dest` one key at a time, recursing into nested objects.
   */
  method MergeInto(dest: Value, src: Value) returns (out: Value)
    ensures out == DeepMerge(dest, src)
    decreases src, 2
  {
    if !src.Obj? || !dest.Obj? {
      return src;
    }
    var keys := KeyOrder.SortedKeys(src.fields.Keys);
    forall i, j | 0 <= i < j < |keys|
      ensures keys[i] != keys[j]
    {
      KeyOrder.AscendingDistinct(keys, i, j);
    }
    var fields := MergeFields(dest, src, keys);
    out := Obj(fields);
  }

  /** The merge loop, over an order `keys` that lists every key of `src` once. */
  method MergeFields(dest: Value, src: Value, keys: seq<string>) returns (fields: map<string, Value>)
    requires dest.Obj? && src.Obj?
    requires forall k :: k in keys <==> k in src.fields
    requires forall i, j :: 0 <= i < j < |keys| ==> keys[i] != keys[j]
    ensures fields == DeepMerge(dest, src).fields
    decreases src, 1
  {
    fields := dest.fields;
    ghost var seen: set<string> := {};
    var i := 0;
    while i < |keys|
      invariant 0 <= i <= |keys|
      invariant forall j :: 0 <= j < i ==> keys[j] in seen
      invariant forall j :: i <= j < |keys| ==> keys[j] !in seen
      invariant seen <= src.fields.Keys
      invariant forall k :: k in fields <==> k in dest.fields || k in seen
      invariant forall k :: k in fields ==> fields[k] == if k in seen then MergedField(dest, src, k) else dest.fields[k]
    {
      var k := keys[i];
      fields := MergeKey(fields, dest, src, k);
      seen := seen + {k};
      i := i + 1;
    }
    MergeComplete(dest, src, fields);
  }

  /** Once every key of `src` has been written, the fields are those of the merge. */
  lemma MergeComplete(dest: Value, src: Value, fields: map<string, Value>)
    requires dest.Obj? && src.Obj?
    requires forall k :: k in fields <==> k in dest.fields || k in src.fields
    requires forall k :: k in fields ==> fields[k] == if k in src.fields then MergedField(dest, src, k) else dest.fields[k]
    ensures fields == DeepMerge(dest, src).fields
  {
    MergedFieldIsDeepMerge(dest, src);
  }

  /** One step of the merge loop: key `k` of `src` written into `fields`, which still holds `dest`'s value there. */
  method MergeKey(fields: map<string, Value>, ghost dest: Value, src: Value, k: string)
    returns (fields': map<string, Value>)
    requires dest.Obj? && src.Obj? && k in src.fields
    requires k in fields <==> k in dest.fields
    requires k in fields ==> fields[k] == dest.fields[k]
    ensures fields' == fields[k := MergedField(dest, src, k)]
    decreases src, 0
  {
    if k in fields && fields[k].Obj? && src.fields[k].Obj? {
      var merged := MergeInto(fields[k], src.fields[k]);
      fields' := fields[k := merged];
    } else {
      fields' := fields[k := src.fields[k]];
    }
  }

  /** A registered node: its graph entry and its part specification. */
  datatype NodeInfo = NodeInfo(node: Value, partSpec: Value)

  /** The flow of every controller whose state has a `flow_rate_Lmin` that reads as a number. */
  function Flows(states: map<string, Value>): (flows: map<string, real>)
    ensures forall id :: id in flows <==> id in states && Contains(states[id], "flow_rate_Lmin")
                                          && AsReal(states[id].fields["flow_rate_Lmin"]).Some?
  {
    map id | id in states && Contains(states[id], "flow_rate_Lmin") && AsReal(states[id].fields["flow_rate_Lmin"]).Some?
      :: AsReal(states[id].fields["flow_rate_Lmin"]).value
  }

  /** The cooling of node `id`: half of each adjacent controller's flow, once per edge end. */
  function Delta(edges: seq<(string, string)>, id: string, flows: map<string, real>): real
  {
    if edges == [] then 0.0
    else
      var e := edges[|edges| - 1];
      var d := Delta(edges[..|edges| - 1], id, flows);
      var d1 := if e.0 == id && e.1 in flows then d - 0.5 * flows[e.1] else d;
      if e.1 == id && e.0 in flows then d1 - 0.5 * flows[e.0] else d1
  }

  /** `spec["specs"]` has `key`, and its value reads as a number with `get<double>`. */
  predicate SpecGiven(spec: Value, key: string)
  {
    Contains(spec, "specs") && Contains(spec.fields["specs"], key) && AsReal(spec.fields["specs"].fields[key]).Some?
  }

  /** The number `spec["specs"][key]` reads as. */
  function SpecValue(spec: Value, key: string): real
    requires SpecGiven(spec, key)
  {
    AsReal(spec.fields["specs"].fields[key]).value
  }

  /**
   * `spec["specs"][key]` read as a number; the fallback when `specs` or the
   * key is absent, or when `get<double>` throws on the value.
   */
  function SpecNumber(spec: Value, key: string, fallback: real): (x: real)
    ensures SpecGiven(spec, key) ==> x == SpecValue(spec, key)
    ensures !SpecGiven(spec, key) ==> x == fallback
  {
    if Contains(spec, "specs") && Contains(spec.fields["specs"], key) then
      match AsReal(spec.fields["specs"].fields[key])
      case Some(v) => v
      case None => fallback
    else fallback
  }

  /** The effective spec of a node: its part spec with its overrides merged in. */
  function EffectiveSpec(info: NodeInfo, overrides: Value, id: string): Value
  {
    if Contains(overrides, id) then DeepMerge(info.partSpec, overrides.fields[id]) else info.partSpec
  }

  function Max(a: real, b: real): real { if a >= b then a else b }

  /** The computed entry of one node. */
  function NodeStep(spec: Value, delta: real): (entry: Value)
    ensures entry.Obj? && entry.fields.Keys == {"temperature_K", "noise_coeff"}
    ensures entry.fields["temperature_K"].Float? && entry.fields["temperature_K"].fval >= 1.0
    ensures SpecGiven(spec, "setpoint_default") ==>
      entry.fields["temperature_K"] == Float(Max(1.0, SpecValue(spec, "setpoint_default") + delta))
    ensures !SpecGiven(spec, "setpoint_default") ==> entry.fields["temperature_K"] == Float(Max(1.0, 300.0 + delta))
    ensures SpecGiven(spec, "noise_coeff") ==> entry.fields["noise_coeff"] == Float(SpecValue(spec, "noise_coeff"))
    ensures !SpecGiven(spec, "noise_coeff") ==> entry.fields["noise_coeff"] == Float(0.01)
  {
    Obj(map["temperature_K" := Float(Max(1.0, SpecNumber(spec, "setpoint_default", 300.0) + delta)),
            "noise_coeff" := Float(SpecNumber(spec, "noise_coeff", 0.01))])
  }

  /** The entries `compute_step` builds from the registered nodes, the overrides, the edges and the controller states. */
  function Step(nodes: map<string, NodeInfo>, overrides: Value, edges: seq<(string, string)>, states: map<string, Value>)
    : (step: Value)
    ensures step.Obj? && step.fields.Keys == nodes.Keys
    ensures forall id :: id in nodes ==>
      step.fields[id] == NodeStep(EffectiveSpec(nodes[id], overrides, id), Delta(edges, id, Flows(states)))
  {
    var flows := Flows(states);
    Obj(map id | id in nodes :: NodeStep(EffectiveSpec(nodes[id], overrides, id), Delta(edges, id, flows)))
  }

  class PhysicsEngine {
    var deviceOverrides: Value
    var overridesPath: string
    var nodes: map<string, NodeInfo>
    var edges: seq<(string, string)>
    var controllerStates: map<string, Value>
    var cachedState: Value

    constructor()
      ensures deviceOverrides == Null && overridesPath == "" && nodes == map[] && edges == []
      ensures controllerStates == map[] && cachedState == Null
    {
      deviceOverrides := Null;
      overridesPath := "";
      nodes := map[];
      edges := [];
      controllerStates := map[];
      cachedState := Null;
    }

    /** `register_node`: overwrites the entry for the id. */
    method RegisterNode(id: string, node: Value, partSpec: Value)
      modifies this
      ensures nodes == old(nodes)[id := NodeInfo(node, partSpec)]
      ensures edges == old(edges) && controllerStates == old(controllerStates)
      ensures deviceOverrides == old(deviceOverrides) && overridesPath == old(overridesPath)
      ensures cachedState == old(cachedState)
    {
      nodes := nodes[id := NodeInfo(node, partSpec)];
    }

    /** `register_edge`: appends, keeping duplicates. */
    method RegisterEdge(from: string, to: string)
      modifies this
      ensures edges == old(edges) + [(from, to)]
      ensures nodes == old(nodes) && controllerStates == old(controllerStates)
      ensures deviceOverrides == old(deviceOverrides) && overridesPath == old(overridesPath)
      ensures cachedState == old(cachedState)
    {
      edges := edges + [(from, to)];
    }

    /** `update_controller_state`: overwrites the state for the id. */
    method UpdateControllerState(id: string, state: Value)
      modifies this
      ensures controllerStates == old(controllerStates)[id := state]
      ensures nodes == old(nodes) && edges == old(edges)
      ensures deviceOverrides == old(deviceOverrides) && overridesPath == old(overridesPath)
      ensures cachedState == old(cachedState)
    {
      controllerStates := controllerStates[id := state];
    }

    /** `compute_step`: one entry per registered node. */
    function ComputeStep(): (step: Value)
      reads this
      ensures step.Obj? && step.fields.Keys == nodes.Keys
      ensures forall id :: id in nodes ==>
        var e := step.fields[id];
        e.Obj? && e.fields.Keys == {"temperature_K", "noise_coeff"}
        && e.fields["temperature_K"].Float? && e.fields["temperature_K"].fval >= 1.0
    {
      Step(nodes, deviceOverrides, edges, controllerStates)
    }

    /**
     * `load_device_overrides(path)`: `contents` is the parsed file, or None
     * when it cannot be opened or parsed. On success the overrides, their
     * path and the cached step are replaced.
     */
    method LoadDeviceOverrides(path: string, contents: Option<Value>) returns (ok: bool)
      modifies this
      ensures ok == contents.Some?
      ensures ok ==> deviceOverrides == contents.value && overridesPath == path && cachedState == ComputeStep()
      ensures !ok ==> deviceOverrides == old(deviceOverrides) && overridesPath == old(overridesPath)
                      && cachedState == old(cachedState)
      ensures nodes == old(nodes) && edges == old(edges) && controllerStates == old(controllerStates)
    {
      if contents.None? {
        return false;
      }
      deviceOverrides := contents.value;
      overridesPath := path;
      cachedState := ComputeStep();
      ok := true;
    }

    /** `reload_overrides`: false without a loaded path, otherwise a reload from that path. */
    method ReloadOverrides(contents: Option<Value>) returns (ok: bool)
      modifies this
      ensures old(overridesPath) == "" ==> !ok && deviceOverrides == old(deviceOverrides) && cachedState == old(cachedState)
      ensures old(overridesPath) != "" ==> ok == contents.Some?
      ensures ok ==> deviceOverrides == contents.value && cachedState == ComputeStep()
      ensures overridesPath == old(overridesPath)
      ensures nodes == old(nodes) && edges == old(edges) && controllerStates == old(controllerStates)
    {
      if overridesPath == "" {
        return false;
      }
      ok := LoadDeviceOverrides(overridesPath, contents);
    }
  }

  /**
   * Each node of a step takes its setpoint and its noise coefficient from its
   * effective spec, field by field: a number given there is used, and a
   * field that is absent or not a number falls back to 300 K or 0.01.
   */
  lemma ComputeStepDefaults(nodes: map<string, NodeInfo>, overrides: Value, edges: seq<(string, string)>,
                             states: map<string, Value>, id: string)
    requires id in nodes
    ensures var spec := EffectiveSpec(nodes[id], overrides, id);
      var delta := Delta(edges, id, Flows(states));
      var e := Step(nodes, overrides, edges, states).fields[id];
      e.fields["temperature_K"] == Float(Max(1.0, SpecNumber(spec, "setpoint_default", 300.0) + delta))
      && e.fields["noise_coeff"] == Float(SpecNumber(spec, "noise_coeff", 0.01))
  {
    StepEntry(nodes, overrides, edges, states, id);
  }

  /** The entry `compute_step` gives node `id` is the one its effective spec and cooling delta determine. */
  lemma StepEntry(nodes: map<string, NodeInfo>, overrides: Value, edges: seq<(string, string)>,
                  states: map<string, Value>, id: string)
    requires id in nodes
    ensures Step(nodes, overrides, edges, states).fields[id]
      == NodeStep(EffectiveSpec(nodes[id], overrides, id), Delta(edges, id, Flows(states)))
  {
  }

  /**
   * A number an override gives under `specs` wins over the part spec's own:
   * after the merge the node's spec reads that number.
   */
  lemma OverrideSpecWins(partSpec: Value, overrides: Value, key: string)
    requires Contains(overrides, "specs") && overrides.fields["specs"].Obj?
    requires Contains(overrides.fields["specs"], key) && AsReal(overrides.fields["specs"].fields[key]).Some?
    ensures SpecGiven(DeepMerge(partSpec, overrides), key)
    ensures SpecValue(DeepMerge(partSpec, overrides), key) == AsReal(overrides.fields["specs"].fields[key]).value
  {
    if partSpec.Obj? {
      var merged := DeepMerge(partSpec, overrides);
      DeepMergeField(partSpec, overrides, "specs");
      var ps := overrides.fields["specs"];
      if Contains(partSpec, "specs") && partSpec.fields["specs"].Obj? {
        assert merged.fields["specs"] == DeepMerge(partSpec.fields["specs"], ps);
        DeepMergeField(partSpec.fields["specs"], ps, key);
      } else {
        assert merged.fields["specs"] == ps;
      }
    }
  }

  /** Cooling only lowers a temperature: with no flows, or no edges, the delta is zero. */
  lemma {:induction false} DeltaWithoutFlows(edges: seq<(string, string)>, id: string)
    ensures Delta(edges, id, map[]) == 0.0
  {
    if edges != [] {
      DeltaWithoutFlows(edges[..|edges| - 1], id);
    }
  }

  /** Non-negative flows never warm a node. */
  lemma {:induction false} DeltaNonPositive(edges: seq<(string, string)>, id: string, flows: map<string, real>)
    requires forall c :: c in flows ==> flows[c] >= 0.0
    ensures Delta(edges, id, flows) <= 0.0
  {
    if edges != [] {
      DeltaNonPositive(edges[..|edges| - 1], id, flows);
    }
  }
}
