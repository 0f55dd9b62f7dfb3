/**
 * The client helpers used by generated macros, in their C++ and Python
 * editions: request ids and envelopes, condition checks, the flattened poll
 * snapshot, the guarded `record_stop` and the best-effort safe state.
 */
module SdkClient {
  import opened Wrappers
  import opened Json
  import KeyOrder
  import Recorder
  import Dispatch
  import Registry

  /** Which edition of the helpers. */
  datatype Sdk = Cpp | Python

  // ----- Requests -----

  /** An RPC the helpers send: the method and its params. */
  datatype Request = Request(verb: string, params: Value)

  /** `{type: rpc, id, method, params}`, the frame a request goes out in. */
  function RequestFrame(id: string, r: Request): (msg: Value)
    ensures Has(msg, "type", Str("rpc")) && Has(msg, "id", Str(id)) && Has(msg, "method", Str(r.verb))
    ensures msg.fields.Keys == {"type", "id", "method", "params"}
  {
    Obj(map["type" := Str("rpc"), "id" := Str(id), "method" := Str(r.verb), "params" := r.params])
  }

  predicate IsHex(s: string)
  {
    forall i :: 0 <= i < |s| ==> s[i] in "0123456789abcdef"
  }

  /** The Python request id: `py_` and the 32 hex digits of a random UUID. */
  function PythonRequestId(hex: string): (id: string)
    requires |hex| == 32 && IsHex(hex)
    ensures |id| == 35 && id[..3] == "py_"
  {
    "py_" + hex
  }

  /** Different UUIDs give different ids, so replies to concurrent requests cannot be confused. */
  lemma PythonRequestIdInjective(a: string, b: string)
    requires |a| == 32 && IsHex(a) && |b| == 32 && IsHex(b)
    requires PythonRequestId(a) == PythonRequestId(b)
    ensures a == b
  {
    assert a == PythonRequestId(a)[3..];
  }

  /** Python sends `params or {}`: any falsy params go out as an empty object. */
  function PythonParams(params: Value): (p: Value)
    ensures !Truthy(params) ==> p == Obj(map[])
    ensures Truthy(params) ==> p == params
  {
    if Truthy(params) then params else Obj(map[])
  }

  /**
   * The server answers a request frame built by either edition under that
   * request's own id: every reply it sends back is an `rpc_result` the client
   * can match.
   */
  lemma RequestFrameAnswered(id: string, r: Request, devices: seq<Registry.Slot>, hasRecorder: bool, freshId: string)
    requires id != ""
    ensures Dispatch.AnswersRpc(Dispatch.Handle(RequestFrame(id, r), devices, hasRecorder, freshId).outcome, id)
  {
    var msg := RequestFrame(id, r);
    assert ValueString(msg, "id", "") == Some(id);
    Dispatch.RpcAnswersCarryId(msg, devices, hasRecorder, freshId);
  }

  // ----- eval_condition -----

  const OPERATORS: set<string> := {"<", "<=", ">", ">=", "==", "!="}

  /**
   * `Client::eval_condition` (C++): the six comparisons as named; any other
   * operator is false.
   */
  function EvalConditionCpp(latest: real, op: string, value: real): (b: bool)
    ensures op !in OPERATORS ==> !b
    ensures op == "<" ==> (b <==> latest < value)
    ensures op == ">=" ==> (b <==> !(latest < value))
    ensures op == ">" ==> (b <==> value < latest)
    ensures op == "<=" ==> (b <==> !(value < latest))
    ensures op == "==" ==> (b <==> !(latest < value) && !(value < latest))
    ensures op == "!=" ==> (b <==> latest != value)
  {
    if op == "<" then latest < value
    else if op == "<=" then latest <= value
    else if op == ">" then latest > value
    else if op == ">=" then latest >= value
    else if op == "==" then latest == value
    else if op == "!=" then latest != value
    else false
  }

  /**
   * `eval_condition` (Python): no reading is false whatever the operator; an
   * unknown operator raises `ValueError`.
   */
  function EvalConditionPy(latest: Option<real>, op: string, value: real): (r: Result<bool, string>)
    ensures latest.None? ==> r == Ok(false)
    ensures latest.Some? && op !in OPERATORS ==> r == Err("Unknown op: " + op)
  {
    if latest.None? then Ok(false)
    else if op == "<" then Ok(latest.value < value)
    else if op == "<=" then Ok(latest.value <= value)
    else if op == ">" then Ok(latest.value > value)
    else if op == ">=" then Ok(latest.value >= value)
    else if op == "==" then Ok(latest.value == value)
    else if op == "!=" then Ok(latest.value != value)
    else Err("Unknown op: " + op)
  }

  /** Given a reading and a known operator, both editions decide the same way. */
  lemma EvalConditionEditionsAgree(latest: real, op: string, value: real)
    requires op in OPERATORS
    ensures EvalConditionPy(Some(latest), op, value) == Ok(EvalConditionCpp(latest, op, value))
  {
  }

  /** Each operator is the negation of its partner: `<`/`>=`, `>`/`<=`, `==`/`!=`. */
  lemma EvalConditionNegations(latest: real, value: real)
    ensures EvalConditionCpp(latest, "<", value) == !EvalConditionCpp(latest, ">=", value)
    ensures EvalConditionCpp(latest, ">", value) == !EvalConditionCpp(latest, "<=", value)
    ensures EvalConditionCpp(latest, "==", value) == !EvalConditionCpp(latest, "!=", value)
  {
  }

  // ----- poll_all_flat -----

  /** `{value: v}` read as `v`; anything else as it is. */
  function Unwrap(v: Value): (r: Value)
    ensures !(v.Obj? && "value" in v.fields) ==> r == v
  {
    if v.Obj? && "value" in v.fields then v.fields["value"] else v
  }

  /** A measurement in recorder shape is replaced by its `measurements` object. */
  function Inner(meas: Value): Value
  {
    if meas.Obj? && "measurements" in meas.fields && meas.fields["measurements"].Obj? then meas.fields["measurements"]
    else meas
  }

  /** One device's flat reading: every metric of the measurement, unwrapped; nothing for a non-object. */
  function Flatten(meas: Value): (flat: map<string, Value>)
    ensures Inner(meas).Obj? ==> flat.Keys == Inner(meas).fields.Keys
    ensures !Inner(meas).Obj? ==> flat == map[]
  {
    var m := Inner(meas);
    if m.Obj? then map k | k in m.fields :: Unwrap(m.fields[k]) else map[]
  }

  /**
   * One update folded into the snapshot, or None when the edition throws.
   * C++: a non-object is skipped, a non-string `id` throws, an empty id is
   * skipped. Python: a non-object throws (`u.get`), a non-string id is
   * skipped and an empty one kept; a falsy measurement reads as `{}`.
   */
  function FoldUpdate(sdk: Sdk, out: map<string, Value>, u: Value): (r: Option<map<string, Value>>)
  {
    match sdk
    case Cpp =>
      if !u.Obj? then Some(out)
      else
        var did := ValueString(u, "id", "");
        if did.None? then None
        else if did.value == "" then Some(out)
        else
          var meas := if "measurement" in u.fields then u.fields["measurement"] else Obj(map[]);
          Some(out[did.value := Obj(Flatten(meas))])
    case Python =>
      if !u.Obj? then None
      else
        var meas := if "measurement" in u.fields && Truthy(u.fields["measurement"]) then u.fields["measurement"]
                    else Obj(map[]);
        if "id" in u.fields && u.fields["id"].Str? then Some(out[u.fields["id"].sval := Obj(Flatten(meas))])
        else Some(out)
  }

  /** The snapshot after the given updates, left to right; a later update of the same id wins. */
  function FoldUpdates(sdk: Sdk, updates: seq<Value>): Option<map<string, Value>>
  {
    if updates == [] then Some(map[])
    else match FoldUpdates(sdk, updates[..|updates| - 1])
      case None => None
      case Some(out) => FoldUpdate(sdk, out, updates[|updates| - 1])
  }

  /**
   * The update list of a `devices.poll` result, or None when the edition
   * throws: C++ reads `updates` with a default of `[]` and ignores a
   * non-array; Python iterates whatever is there, which only an array, an
   * empty object or an empty string survive without raising.
   */
  function UpdateList(sdk: Sdk, result: Value): (r: Option<seq<Value>>)
    ensures !result.Obj? ==> r.None?
  {
    if !result.Obj? then None
    else if "updates" !in result.fields then Some([])
    else
      var u := result.fields["updates"];
      if u.Arr? then Some(u.items)
      else if sdk.Cpp? || u == Obj(map[]) || u == Str("") then Some([])
      else None
  }

  /** `poll_all_flat` after the `devices.poll` call: device id to flat reading, or None when it throws. */
  method PollAllFlat(sdk: Sdk, result: Value) returns (out: Option<map<string, Value>>)
    ensures UpdateList(sdk, result).None? ==> out.None?
    ensures UpdateList(sdk, result).Some? ==> out == FoldUpdates(sdk, UpdateList(sdk, result).value)
  {
    var updates := UpdateList(sdk, result);
    if updates.None? {
      return None;
    }
    var us := updates.value;
    var acc := map[];
    var i := 0;
    while i < |us|
      invariant 0 <= i <= |us|
      invariant FoldUpdates(sdk, us[..i]) == Some(acc)
    {
      assert us[..i + 1][..i] == us[..i];
      var next := FoldUpdate(sdk, acc, us[i]);
      if next.None? {
        FoldStaysFailed(sdk, us, i + 1);
        return None;
      }
      acc := next.value;
      i := i + 1;
    }
    assert us[..i] == us;
    out := Some(acc);
  }

  /** Once an update throws, the whole poll throws. */
  lemma {:induction false} FoldStaysFailed(sdk: Sdk, us: seq<Value>, i: nat)
    requires 0 < i <= |us| && FoldUpdates(sdk, us[..i]).None?
    ensures FoldUpdates(sdk, us).None?
    decreases |us| - i
  {
    if i < |us| {
      assert us[..i + 1][..i] == us[..i];
      FoldStaysFailed(sdk, us, i + 1);
    } else {
      assert us[..i] == us;
    }
  }

  /** An update the C++ edition keeps: an object with a non-empty string id. */
  predicate KeptByCpp(u: Value)
  {
    u.Obj? && "id" in u.fields && u.fields["id"].Str? && u.fields["id"].sval != ""
  }

  /**
   * C++: the snapshot has exactly one entry per non-empty id among the
   * object updates, none for skipped updates, provided no update throws.
   */
  lemma {:induction false} CppSnapshotKeys(updates: seq<Value>)
    requires FoldUpdates(Cpp, updates).Some?
    ensures FoldUpdates(Cpp, updates).value.Keys
            == set i | 0 <= i < |updates| && KeptByCpp(updates[i]) :: updates[i].fields["id"].sval
  {
    if updates != [] {
      var init := updates[..|updates| - 1];
      CppSnapshotKeys(init);
      var u := updates[|updates| - 1];
      assert forall i :: 0 <= i < |init| ==> init[i] == updates[i];
      if KeptByCpp(u) {
        assert u == updates[|updates| - 1];
      }
    }
  }

  /** The entry of the last update of a device is the one the snapshot keeps. */
  lemma LastUpdateWins(sdk: Sdk, updates: seq<Value>, u: Value)
    requires KeptByCpp(u) && FoldUpdates(sdk, updates + [u]).Some?
    ensures var m := if "measurement" in u.fields then u.fields["measurement"] else Obj(map[]);
      FoldUpdates(sdk, updates + [u]).value[u.fields["id"].sval] == Obj(Flatten(m))
  {
    assert (updates + [u])[..|updates|] == updates;
    if sdk.Python? && "measurement" in u.fields && !Truthy(u.fields["measurement"]) {
      FlattenFalsy(u.fields["measurement"]);
    }
  }

  /** A falsy measurement flattens to nothing, just as the `{}` Python puts in its place. */
  lemma FlattenFalsy(meas: Value)
    requires !Truthy(meas)
    ensures Flatten(meas) == map[]
  {
  }

  /**
   * When every update is an object with a non-empty string id, the C++ and
   * Python editions produce the same snapshot.
   */
  lemma {:induction false} EditionsAgree(updates: seq<Value>)
    requires forall i :: 0 <= i < |updates| ==> KeptByCpp(updates[i])
    ensures FoldUpdates(Cpp, updates) == FoldUpdates(Python, updates)
    ensures FoldUpdates(Cpp, updates).Some?
  {
    if updates != [] {
      var init := updates[..|updates| - 1];
      EditionsAgree(init);
      var u := updates[|updates| - 1];
      if "measurement" in u.fields && !Truthy(u.fields["measurement"]) {
        FlattenFalsy(u.fields["measurement"]);
      }
    }
  }

  /**
   * A measurement the recorder has normalised from a flat raw reading
   * flattens back to the plain numbers: one entry per metric, each the
   * metric's numeric value.
   */
  lemma FlattenNormalized(raw: Value, tsMs: int, k: string)
    requires raw.Obj? && !("measurements" in raw.fields && raw.fields["measurements"].Obj?)
    requires Recorder.Normalize(raw, tsMs).Some?
    ensures var flat := Flatten(Recorder.Normalize(raw, tsMs).value);
      (k in flat <==> k in raw.fields && k != "ts" && k != "state" && Recorder.IsMetric(raw.fields[k]))
      && (k in flat ==> IsNumber(flat[k]))
      && (k in flat && IsNumber(raw.fields[k]) ==> flat[k] == Float(AsReal(raw.fields[k]).value))
  {
    Recorder.NormalizeFlat(raw, tsMs, k);
  }

  // ----- record_stop and apply_safe_state -----

  /** `{recording_id}` for `record.stop`. */
  function StopRequest(id: string): Request
  {
    Request("record.stop", Obj(map["recording_id" := Str(id)]))
  }

  /** `{device_id, action: {set: params}}` for `device.action`. */
  function SetRequest(deviceId: string, params: Value): Request
  {
    Request("device.action", Obj(map["device_id" := Str(deviceId), "action" := Obj(map["set" := params])]))
  }

  /**
   * The targets `apply_safe_state` acts on: C++ takes non-empty objects only;
   * Python takes any truthy value.
   */
  predicate SafeTarget(sdk: Sdk, params: Value)
  {
    match sdk
    case Cpp => params.Obj? && params.fields != map[]
    case Python => Truthy(params)
  }

  /** The `device.action` requests for the targets, visited in `order`. */
  function SafeSetRequests(sdk: Sdk, targets: map<string, Value>, order: seq<string>): (rs: seq<Request>)
    requires forall i :: 0 <= i < |order| ==> order[i] in targets
    ensures |rs| <= |order|
  {
    if order == [] then []
    else
      var k := order[|order| - 1];
      SafeSetRequests(sdk, targets, order[..|order| - 1])
      + (if SafeTarget(sdk, targets[k]) then [SetRequest(k, targets[k])] else [])
  }

  /** Each visited key is sent once exactly when it is a safe target, and nothing else is sent. */
  lemma {:induction false} SafeSetRequestsMeaning(sdk: Sdk, targets: map<string, Value>, order: seq<string>, r: Request)
    requires forall i :: 0 <= i < |order| ==> order[i] in targets
    ensures r in SafeSetRequests(sdk, targets, order)
            <==> exists i :: 0 <= i < |order| && SafeTarget(sdk, targets[order[i]]) && r == SetRequest(order[i], targets[order[i]])
  {
    if order != [] {
      var init := order[..|order| - 1];
      SafeSetRequestsMeaning(sdk, targets, init, r);
      assert forall i :: 0 <= i < |init| ==> init[i] == order[i];
      if r in SafeSetRequests(sdk, targets, init) {
        var i :| 0 <= i < |init| && SafeTarget(sdk, targets[init[i]]) && r == SetRequest(init[i], targets[init[i]]);
        assert order[i] == init[i];
      }
    }
  }

  /** `order` lists every key of `keys` exactly once. */
  predicate Enumerates(order: seq<string>, keys: set<string>)
  {
    (forall i :: 0 <= i < |order| ==> order[i] in keys)
    && (forall k :: k in keys ==> k in order)
    && (forall i, j :: 0 <= i < j < |order| ==> order[i] != order[j])
  }

  /** The invariant of the stop loop: `done` is what has been stopped so far, in the order `stopped`. */
  ghost predicate StopProgress(active: set<string>, done: set<string>, stopped: seq<string>, sent: seq<Request>,
                               active0: set<string>, sent0: seq<Request>)
  {
    active + done == active0 && active !! done && Enumerates(stopped, done)
    && sent == sent0 + StopRequests(stopped)
  }

  lemma StopProgressStep(active: set<string>, done: set<string>, stopped: seq<string>, sent: seq<Request>,
                         active0: set<string>, sent0: seq<Request>, id: string)
    requires StopProgress(active, done, stopped, sent, active0, sent0) && id in active
    ensures StopProgress(active - {id}, done + {id}, stopped + [id],
                         sent + (if id == "" then [] else [StopRequest(id)]), active0, sent0)
  {
    StopSentStep(stopped, sent, sent0, id);
    EnumeratesSnoc(stopped, done, id);
    assert (active - {id}) + (done + {id}) == active + done;
    assert (active - {id}) !! (done + {id});
  }

  lemma StopSentStep(stopped: seq<string>, sent: seq<Request>, sent0: seq<Request>, id: string)
    requires sent == sent0 + StopRequests(stopped)
    ensures sent + (if id == "" then [] else [StopRequest(id)]) == sent0 + StopRequests(stopped + [id])
  {
    StopRequestsSnoc(stopped, id);
    assert sent + (if id == "" then [] else [StopRequest(id)])
        == sent0 + (StopRequests(stopped) + (if id == "" then [] else [StopRequest(id)]));
  }

  lemma StopProgressDone(done: set<string>, stopped: seq<string>, sent: seq<Request>,
                         active0: set<string>, sent0: seq<Request>)
    requires StopProgress({}, done, stopped, sent, active0, sent0)
    ensures Enumerates(stopped, active0) && sent == sent0 + StopRequests(stopped)
  {
    assert {} + done == done;
  }

  lemma EnumeratesSnoc(order: seq<string>, keys: set<string>, x: string)
    requires Enumerates(order, keys) && x !in keys
    ensures Enumerates(order + [x], keys + {x})
  {
  }

  /** The requests a macro session has sent, and the recordings it still holds open. */
  class MacroSession {
    var activeRecordingIds: set<string>
    var sent: seq<Request>

    constructor(active: set<string>)
      ensures activeRecordingIds == active && sent == []
    {
      activeRecordingIds := active;
      sent := [];
    }

    /** `record_stop`: an empty id sends nothing. */
    method RecordStop(id: string)
      modifies this
      ensures sent == old(sent) + (if id == "" then [] else [StopRequest(id)])
      ensures activeRecordingIds == old(activeRecordingIds)
    {
      if id == "" {
        return;
      }
      sent := sent + [StopRequest(id)];
    }

    /**
     * `apply_safe_state`: every open recording is stopped once and forgotten
     * (a failing stop is ignored), then the safe targets are set in `order`,
     * the object's iteration order. Python raises on truthy targets that are
     * not an object, after the stops (ok false).
     */
    method ApplySafeState(sdk: Sdk, targets: Value, order: seq<string>) returns (ok: bool, ghost stopped: seq<string>)
      requires targets.Obj? ==> Enumerates(order, targets.fields.Keys)
      modifies this
      ensures activeRecordingIds == {}
      ensures Enumerates(stopped, old(activeRecordingIds))
      ensures ok == (targets.Obj? || sdk.Cpp? || !Truthy(targets))
      ensures sent == old(sent) + StopRequests(stopped)
                      + (if targets.Obj? then SafeSetRequests(sdk, targets.fields, order) else [])
    {
      stopped := StopAll();
      if !targets.Obj? {
        return sdk.Cpp? || !Truthy(targets), stopped;
      }
      SetTargets(sdk, targets.fields, order);
      ok := true;
    }

    /** The first loop of `apply_safe_state`: stop and forget every open recording, in the set's order. */
    method StopAll() returns (ghost stopped: seq<string>)
      modifies this
      ensures activeRecordingIds == {}
      ensures Enumerates(stopped, old(activeRecordingIds))
      ensures sent == old(sent) + StopRequests(stopped)
    {
      stopped := [];
      ghost var done: set<string> := {};
      ghost var active0, sent0 := activeRecordingIds, sent;
      while activeRecordingIds != {}
        invariant StopProgress(activeRecordingIds, done, stopped, sent, active0, sent0)
        decreases |activeRecordingIds|
      {
        var id :| id in activeRecordingIds;
        StopProgressStep(activeRecordingIds, done, stopped, sent, active0, sent0, id);
        StopOne(id);
        stopped := stopped + [id];
        done := done + {id};
      }
      StopProgressDone(done, stopped, sent, active0, sent0);
    }

    /** One turn of that loop: stop the recording, then forget it. */
    method StopOne(id: string)
      requires id in activeRecordingIds
      modifies this
      ensures activeRecordingIds == old(activeRecordingIds) - {id}
      ensures |activeRecordingIds| == |old(activeRecordingIds)| - 1
      ensures sent == old(sent) + (if id == "" then [] else [StopRequest(id)])
    {
      RecordStop(id);
      activeRecordingIds := activeRecordingIds - {id};
    }

    /** The second loop of `apply_safe_state`: a `set` action for each safe target, in `order`. */
    method SetTargets(sdk: Sdk, targets: map<string, Value>, order: seq<string>)
      requires forall i :: 0 <= i < |order| ==> order[i] in targets
      modifies this
      ensures activeRecordingIds == old(activeRecordingIds)
      ensures sent == old(sent) + SafeSetRequests(sdk, targets, order)
    {
      var i := 0;
      while i < |order|
        invariant 0 <= i <= |order|
        invariant activeRecordingIds == old(activeRecordingIds)
        invariant sent == old(sent) + SafeSetRequests(sdk, targets, order[..i])
      {
        var k := order[i];
        assert order[..i + 1][..i] == order[..i];
        if SafeTarget(sdk, targets[k]) {
          sent := sent + [SetRequest(k, targets[k])];
        }
        i := i + 1;
      }
      assert order[..i] == order;
    }
  }

  /** The stop requests for `ids` in order; an empty id sends nothing. */
  function StopRequests(ids: seq<string>): (rs: seq<Request>)
    ensures |rs| <= |ids|
  {
    if ids == [] then []
    else StopRequests(ids[..|ids| - 1]) + (if ids[|ids| - 1] == "" then [] else [StopRequest(ids[|ids| - 1])])
  }

  lemma StopRequestsSnoc(ids: seq<string>, id: string)
    ensures StopRequests(ids + [id]) == StopRequests(ids) + (if id == "" then [] else [StopRequest(id)])
  {
    assert (ids + [id])[..|ids|] == ids;
  }

  /** Every non-empty id gets its stop request, and only those ids do. */
  lemma {:induction false} StopRequestsMeaning(ids: seq<string>, id: string)
    ensures StopRequest(id) in StopRequests(ids) <==> id != "" && id in ids
  {
    if ids != [] {
      var init := ids[..|ids| - 1];
      StopRequestsMeaning(init, id);
      var last := ids[|ids| - 1];
      assert ids == init + [last];
      assert StopRequest(id) == StopRequest(last) ==> id == last by {
        if StopRequest(id) == StopRequest(last) {
          assert StopRequest(id).params.fields["recording_id"] == Str(id);
        }
      }
    }
  }
}
