/**
 * `map_set_action`: the expansion of a `{set: {...}}` device action into
 * the `set_*` command keys that the device handlers understand.
 */
module SetActions {
  import opened Wrappers
  import opened Json
  import KeyOrder

  /** A key that already names a setter: it starts with `set_`. */
  predicate IsSetKey(k: string)
  {
    |k| >= 4 && k[..4] == "set_"
  }

  /** `k.find_last_of('_')`: the position of the last underscore, if any. */
  function LastUnderscore(k: string): (pos: Option<nat>)
    ensures pos.Some? ==> (pos.value < |k| && k[pos.value] == '_'
      && forall j :: pos.value < j < |k| ==> k[j] != '_')
    ensures pos.None? ==> forall j :: 0 <= j < |k| ==> k[j] != '_'
  {
    if k == [] then None
    else if k[|k| - 1] == '_' then Some(|k| - 1)
    else LastUnderscore(k[..|k| - 1])
  }

  const LASER_CONTROLLER: string := "laser_controller"
  const LN2_COOLING_CONTROLLER: string := "ln2_cooling_controller"

  /**
   * The output keys one `set` entry `k` is written to, for a device of the
   * given type: `k` itself when it already starts with `set_`; the laser and
   * LN2 aliases; otherwise `set_<k>` and, when `k` has an underscore after
   * its first character, `set_<k up to its last underscore>`.
   */
  function SetTargets(deviceType: string, k: string): (targets: seq<string>)
    ensures 1 <= |targets| <= 2
    ensures forall t :: t in targets ==> IsSetKey(t)
  {
    if IsSetKey(k) then [k]
    else if deviceType == LASER_CONTROLLER && k == "phase_rad" then ["set_phase"]
    else if deviceType == LASER_CONTROLLER && k in {"intensity", "power", "optical_power"} then ["set_intensity"]
    else if deviceType == LN2_COOLING_CONTROLLER && k in {"temperature_K", "setpoint_K"} then ["set_setpoint"]
    else if deviceType == LN2_COOLING_CONTROLLER && k == "flow_rate_Lmin" then ["set_flow_rate"]
    else
      var pos := LastUnderscore(k);
      if pos.Some? && pos.value > 0 then ["set_" + k, "set_" + k[..pos.value]] else ["set_" + k]
  }

  /** A key that already names a setter is written to itself alone, whatever the device. */
  lemma SetKeysPassThrough(deviceType: string, k: string)
    requires IsSetKey(k)
    ensures SetTargets(deviceType, k) == [k]
  {
  }

  /** The laser and LN2 aliases: each metric name is written to the one setter its device understands. */
  lemma DeviceAliases(k: string)
    ensures k == "phase_rad" ==> SetTargets(LASER_CONTROLLER, k) == ["set_phase"]
    ensures k in {"intensity", "power", "optical_power"} ==> SetTargets(LASER_CONTROLLER, k) == ["set_intensity"]
    ensures k in {"temperature_K", "setpoint_K"} ==> SetTargets(LN2_COOLING_CONTROLLER, k) == ["set_setpoint"]
    ensures k == "flow_rate_Lmin" ==> SetTargets(LN2_COOLING_CONTROLLER, k) == ["set_flow_rate"]
  {
    if |k| >= 4 && k in {"phase_rad", "intensity", "power", "optical_power", "temperature_K", "setpoint_K", "flow_rate_Lmin"} {
      assert k[3] != '_';
      assert k[..4] != "set_";
    }
  }

  /**
   * A key with no alias on its device (any key on other devices, and the
   * non-alias keys of the laser and LN2 controllers): `set_<k>`, plus the
   * stripped-unit form when its last underscore is past position 0.
   */
  lemma GenericTargets(deviceType: string, k: string)
    requires !IsSetKey(k)
    requires !(deviceType == LASER_CONTROLLER && k in {"phase_rad", "intensity", "power", "optical_power"})
    requires !(deviceType == LN2_COOLING_CONTROLLER && k in {"temperature_K", "setpoint_K", "flow_rate_Lmin"})
    ensures SetTargets(deviceType, k)[0] == "set_" + k
    ensures |SetTargets(deviceType, k)| == 2 <==> exists p :: 0 < p < |k| && k[p] == '_'
    ensures |SetTargets(deviceType, k)| == 2 ==>
      var p := LastUnderscore(k).value;
      SetTargets(deviceType, k)[1] == "set_" + k[..p] && p > 0 && forall j :: p < j < |k| ==> k[j] != '_'
  {
    var pos := LastUnderscore(k);
    if exists p :: 0 < p < |k| && k[p] == '_' {
      var p :| 0 < p < |k| && k[p] == '_';
      assert pos.Some? && pos.value >= p;
    }
  }

  /** The action object after the `set` entries `keys` have been applied, in order, over `base`. */
  function ExpandSet(deviceType: string, setobj: map<string, Value>, keys: seq<string>, base: map<string, Value>)
    : map<string, Value>
    requires forall k :: k in keys ==> k in setobj
  {
    if keys == [] then base
    else
      var last := keys[|keys| - 1];
      ExpandSet(deviceType, setobj, keys[..|keys| - 1], base) + (map t | t in SetTargets(deviceType, last) :: setobj[last])
  }

  /** The action carries an object-valued `set`. */
  predicate HasSetObject(action: Value)
  {
    action.Obj? && "set" in action.fields && action.fields["set"].Obj?
  }

  /** What `map_set_action(deviceType, action)` returns. */
  function MappedAction(deviceType: string, action: Value): Value
  {
    if !HasSetObject(action) then action
    else
      var setobj := action.fields["set"].fields;
      Obj(ExpandSet(deviceType, setobj, KeyOrder.SortedKeys(setobj.Keys), action.fields - {"set"}))
  }

  /** Every key some entry of `keys` is written to. */
  function AllTargets(deviceType: string, keys: seq<string>): (ts: set<string>)
    ensures forall t :: t in ts ==> IsSetKey(t)
  {
    if keys == [] then {}
    else
      var ts := SetTargets(deviceType, keys[|keys| - 1]);
      AllTargets(deviceType, keys[..|keys| - 1]) + (set i | 0 <= i < |ts| :: ts[i])
  }

  lemma {:induction false} AllTargetsMember(deviceType: string, keys: seq<string>, t: string)
    ensures t in AllTargets(deviceType, keys) <==> exists k :: k in keys && t in SetTargets(deviceType, k)
  {
    if keys != [] {
      var init, last := keys[..|keys| - 1], keys[|keys| - 1];
      AllTargetsMember(deviceType, init, t);
      assert keys == init + [last];
      var ts := SetTargets(deviceType, last);
      assert t in (set i | 0 <= i < |ts| :: ts[i]) <==> t in ts by {
        if t in ts {
          var i :| 0 <= i < |ts| && ts[i] == t;
        }
      }
      if exists k :: k in keys && t in SetTargets(deviceType, k) {
        var k :| k in keys && t in SetTargets(deviceType, k);
        if k != last {
          assert k in init;
        }
      }
    }
  }

  /** The keys of the expansion: those of `base` and every target of every applied key. */
  lemma {:induction false} ExpandSetKeys(deviceType: string, setobj: map<string, Value>, keys: seq<string>,
                                         base: map<string, Value>)
    requires forall k :: k in keys ==> k in setobj
    ensures ExpandSet(deviceType, setobj, keys, base).Keys == base.Keys + AllTargets(deviceType, keys)
  {
    if keys != [] {
      ExpandSetKeys(deviceType, setobj, keys[..|keys| - 1], base);
    }
  }

  /** A target takes the value of the last applied key that writes it. */
  lemma {:induction false} ExpandSetLastWriter(deviceType: string, setobj: map<string, Value>, keys: seq<string>,
                                               base: map<string, Value>, i: nat, t: string)
    requires forall k :: k in keys ==> k in setobj
    requires i < |keys| && t in SetTargets(deviceType, keys[i])
    requires forall j :: i < j < |keys| ==> t !in SetTargets(deviceType, keys[j])
    ensures t in ExpandSet(deviceType, setobj, keys, base)
    ensures ExpandSet(deviceType, setobj, keys, base)[t] == setobj[keys[i]]
  {
    var init, last := keys[..|keys| - 1], keys[|keys| - 1];
    var written := map u | u in SetTargets(deviceType, last) :: setobj[last];
    assert ExpandSet(deviceType, setobj, keys, base) == ExpandSet(deviceType, setobj, init, base) + written;
    if i < |keys| - 1 {
      assert t !in written;
      ExpandSetLastWriter(deviceType, setobj, init, base, i, t);
    } else {
      assert t in written;
    }
  }

  /** A key no applied entry writes keeps its value from `base`, and is present only if it was there. */
  lemma {:induction false} ExpandSetUntouched(deviceType: string, setobj: map<string, Value>, keys: seq<string>,
                                              base: map<string, Value>, t: string)
    requires forall k :: k in keys ==> k in setobj
    requires forall k :: k in keys ==> t !in SetTargets(deviceType, k)
    ensures t in ExpandSet(deviceType, setobj, keys, base) <==> t in base
    ensures t in base ==> ExpandSet(deviceType, setobj, keys, base)[t] == base[t]
  {
    if keys != [] {
      var init := keys[..|keys| - 1];
      ExpandSetUntouched(deviceType, setobj, init, base, t);
    }
  }

  /** Without an object-valued `set` the action passes through unchanged. */
  lemma MappedActionPassThrough(deviceType: string, action: Value)
    requires !HasSetObject(action)
    ensures MappedAction(deviceType, action) == action
  {
  }

  /** The expanded action is an object without a `set` key. */
  lemma MappedActionDropsSet(deviceType: string, action: Value)
    requires HasSetObject(action)
    ensures MappedAction(deviceType, action).Obj?
    ensures "set" !in MappedAction(deviceType, action).fields
  {
    var setobj := action.fields["set"].fields;
    var keys := KeyOrder.SortedKeys(setobj.Keys);
    ExpandSetKeys(deviceType, setobj, keys, action.fields - {"set"});
  }

  /** Every other key of the action survives with its value, unless a `set` entry writes over it. */
  lemma MappedActionKeepsOthers(deviceType: string, action: Value, k: string)
    requires HasSetObject(action) && k in action.fields && k != "set"
    requires forall s :: s in action.fields["set"].fields ==> k !in SetTargets(deviceType, s)
    ensures k in MappedAction(deviceType, action).fields
    ensures MappedAction(deviceType, action).fields[k] == action.fields[k]
  {
    var setobj := action.fields["set"].fields;
    var keys := KeyOrder.SortedKeys(setobj.Keys);
    var base := action.fields - {"set"};
    ExpandSetUntouched(deviceType, setobj, keys, base, k);
  }

  /**
   * Every target of a `set` entry is present, with the value of the entry
   * that comes last in key order among those writing it.
   */
  lemma MappedActionWritesTargets(deviceType: string, action: Value, s: string, t: string)
    requires HasSetObject(action) && s in action.fields["set"].fields
    requires t in SetTargets(deviceType, s)
    requires forall s' :: s' in action.fields["set"].fields && KeyOrder.Less(s, s') ==> t !in SetTargets(deviceType, s')
    ensures t in MappedAction(deviceType, action).fields
    ensures MappedAction(deviceType, action).fields[t] == action.fields["set"].fields[s]
  {
    var setobj := action.fields["set"].fields;
    var keys := KeyOrder.SortedKeys(setobj.Keys);
    var i :| 0 <= i < |keys| && keys[i] == s;
    forall j | i < j < |keys|
      ensures t !in SetTargets(deviceType, keys[j])
    {
      assert keys[j] in setobj && KeyOrder.Less(s, keys[j]);
    }
    ExpandSetLastWriter(deviceType, setobj, keys, action.fields - {"set"}, i, t);
  }

  /** Writing one key is merging the one-entry map of that key. */
  lemma WriteOne(m: map<string, Value>, t: string, v: Value)
    ensures m[t := v] == m + (map x | x in [t] :: v)
  {
  }

  /** Writing two keys in turn is merging the map of both. */
  lemma WriteTwo(m: map<string, Value>, t1: string, t2: string, v: Value)
    ensures m[t1 := v][t2 := v] == m + (map x | x in [t1, t2] :: v)
  {
  }

  /** The non-`set` entries of an object, copied one key at a time in key order. */
  method CopyWithoutSet(fields: map<string, Value>) returns (out: map<string, Value>)
    ensures out == fields - {"set"}
  {
    out := CopyInOrder(fields, KeyOrder.SortedKeys(fields.Keys));
  }

  /** The copy loop, over an order `keys` that lists every key of `fields`. */
  method CopyInOrder(fields: map<string, Value>, keys: seq<string>) returns (out: map<string, Value>)
    requires forall k :: k in fields <==> k in keys
    ensures out == fields - {"set"}
  {
    out := map[];
    ghost var seen: set<string> := {};
    var i := 0;
    while i < |keys|
      invariant 0 <= i <= |keys|
      invariant seen <= fields.Keys
      invariant forall j :: 0 <= j < i ==> keys[j] in seen
      invariant out.Keys == seen - {"set"}
      invariant forall k :: k in out ==> out[k] == fields[k]
    {
      if keys[i] != "set" {
        out := out[keys[i] := fields[keys[i]]];
      }
      seen := seen + {keys[i]};
      i := i + 1;
    }
    assert seen == fields.Keys;
    assert out.Keys == (fields - {"set"}).Keys;
  }

  /** One `set` entry `k: v` written to each of its targets. */
  method WriteEntry(deviceType: string, fields: map<string, Value>, k: string, v: Value)
    returns (out: map<string, Value>)
    ensures out == fields + (map t | t in SetTargets(deviceType, k) :: v)
  {
    if IsSetKey(k) {
      out := fields[k := v];
      WriteOne(fields, k, v);
    } else if deviceType == LASER_CONTROLLER && k == "phase_rad" {
      out := fields["set_phase" := v];
      WriteOne(fields, "set_phase", v);
    } else if deviceType == LASER_CONTROLLER && (k == "intensity" || k == "power" || k == "optical_power") {
      out := fields["set_intensity" := v];
      WriteOne(fields, "set_intensity", v);
    } else if deviceType == LN2_COOLING_CONTROLLER && (k == "temperature_K" || k == "setpoint_K") {
      out := fields["set_setpoint" := v];
      WriteOne(fields, "set_setpoint", v);
    } else if deviceType == LN2_COOLING_CONTROLLER && k == "flow_rate_Lmin" {
      out := fields["set_flow_rate" := v];
      WriteOne(fields, "set_flow_rate", v);
    } else {
      out := fields["set_" + k := v];
      var pos := LastUnderscore(k);
      if pos.Some? && pos.value > 0 {
        out := out["set_" + k[..pos.value] := v];
        WriteTwo(fields, "set_" + k, "set_" + k[..pos.value], v);
      } else {
        WriteOne(fields, "set_" + k, v);
      }
    }
  }

  /**
   * `map_set_action`: copies every key but `set`, then writes each `set`
   * entry, in key order, to its targets (last write wins).
   */
  method MapSetAction(deviceType: string, action: Value) returns (out: Value)
    ensures out == MappedAction(deviceType, action)
  {
    if !action.Obj? {
      return action;
    }
    if "set" !in action.fields || !action.fields["set"].Obj? {
      return action;
    }
    var fields := CopyWithoutSet(action.fields);
    var setobj := action.fields["set"].fields;
    fields := WriteEntries(deviceType, setobj, KeyOrder.SortedKeys(setobj.Keys), fields);
    out := Obj(fields);
  }

  /** Applying one more key merges the map of its targets. */
  lemma ExpandSetSnoc(deviceType: string, setobj: map<string, Value>, keys: seq<string>, base: map<string, Value>,
                      i: nat)
    requires forall k :: k in keys ==> k in setobj
    requires i < |keys|
    ensures ExpandSet(deviceType, setobj, keys[..i + 1], base)
            == ExpandSet(deviceType, setobj, keys[..i], base)
               + (map t | t in SetTargets(deviceType, keys[i]) :: setobj[keys[i]])
  {
    var prefix := keys[..i + 1];
    assert prefix[..i] == keys[..i] && prefix[i] == keys[i];
  }

  /** The write loop: each entry of `setobj`, in the order `keys`, written over `fields`. */
  method WriteEntries(deviceType: string, setobj: map<string, Value>, keys: seq<string>, fields: map<string, Value>)
    returns (out: map<string, Value>)
    requires forall k :: k in keys ==> k in setobj
    ensures out == ExpandSet(deviceType, setobj, keys, fields)
  {
    out := fields;
    var i := 0;
    while i < |keys|
      invariant 0 <= i <= |keys|
      invariant out == ExpandSet(deviceType, setobj, keys[..i], fields)
    {
      ExpandSetSnoc(deviceType, setobj, keys, fields, i);
      out := WriteEntry(deviceType, out, keys[i], setobj[keys[i]]);
      i := i + 1;
    }
    assert keys[..i] == keys;
  }
}
