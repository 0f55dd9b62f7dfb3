/**
 * `handle_message`, the server's message dispatcher: legacy control commands
 * (`cmd`) and the toolbox RPC API (`type: "rpc"`). The decision is a pure
 * function of the message and of what the server knows (its devices,
 * whether a recorder exists, the random id it would draw); the effects the
 * decision calls for are executed by `Server.HandleMessage`.
 */
module Dispatch {
  import opened Wrappers
  import opened Json
  import KeyOrder
  import ErrorCatalog
  import Registry
  import SetActions
  import QecDecode
  import Recorder

  /** A `backend.log` broadcast, without its timestamps, origin and session id. */
  datatype LogEvent = LogEvent(level: string, kind: string, fields: map<string, Value>)

  /** What the dispatcher does after its logs. */
  datatype Outcome =
    | NoReply
    | Reply(msg: Value)
    | ReloadOverrides
    | PerformAction(device: Registry.DeviceRef, action: Value, ack: Value)
    | ListDevices(id: string)
    | PollDevices(id: string)
    | Delegate(id: string, verb: string, params: Value)
    | RecordStart(id: string, params: Value)
    | RecordStop(id: string, recordingId: string)

  /** The logs broadcast, in order, and the outcome. */
  datatype Handling = Handling(logs: seq<LogEvent>, outcome: Outcome)

  /** The RPC methods whose handlers read files or draw random numbers and are not part of this model. */
  const DelegatedMethods: set<string> :=
    {"backend.info", "graph.get", "graph.save", "graph.list", "graph.load", "graph.set_active", "qec.benchmark"}

  /** The RPC methods the dispatcher answers. */
  const HandledMethods: set<string> :=
    DelegatedMethods + {"devices.list", "devices.poll", "device.action", "record.start", "record.stop", "qec.decode"}

  /** The methods `backend.info` advertises as capabilities, in its order. */
  const Capabilities: seq<string> :=
    ["devices.list", "devices.poll", "backend.info", "backend.logs", "graph.get", "graph.save", "graph.load",
     "graph.list", "graph.set_active", "device.action", "record.start", "record.stop", "qec.decode", "qec.benchmark"]

  // ----- reply envelopes -----


  /** `rpc_ok(id, result)`. */
  function RpcOk(id: string, result: Value): (msg: Value)
    ensures msg.Obj? && msg.fields.Keys == {"type", "id", "ok", "result"}
    ensures msg.fields["type"] == Str("rpc_result") && msg.fields["id"] == Str(id)
    ensures msg.fields["ok"] == Bool(true) && msg.fields["result"] == result
  {
    Obj(map["type" := Str("rpc_result"), "id" := Str(id), "ok" := Bool(true), "result" := result])
  }

  /**
   * `rpc_error(id, E2400_CONTROL_REJECTED, format_E2400_control_rejected(detail), {detail, ...extra})`:
   * every RPC failure of the dispatcher has this form.
   */
  function Rejected(id: string, detail: string, extra: map<string, Value>): (msg: Value)
    requires "detail" !in extra
    ensures msg.Obj? && msg.fields.Keys == {"type", "id", "ok", "error"}
    ensures msg.fields["type"] == Str("rpc_result") && msg.fields["id"] == Str(id) && msg.fields["ok"] == Bool(false)
  {
    Obj(map[
      "type" := Str("rpc_result"),
      "id" := Str(id),
      "ok" := Bool(false),
      "error" := Obj(map[
        "code" := Str(ErrorCatalog.CodeString(ErrorCatalog.E2400_CONTROL_REJECTED)),
        "message" := Str(ErrorCatalog.FormatControlRejected(detail)),
        "details" := Obj(map["detail" := Str(detail)] + extra)])])
  }

  /** A `control_ack` with the given cmd and ok flag, plus `extra`. */
  function ControlAck(cmd: string, ok: bool, extra: map<string, Value>): (msg: Value)
    requires extra.Keys !! {"type", "cmd", "ok"}
    ensures msg.Obj? && msg.fields.Keys == {"type", "cmd", "ok"} + extra.Keys
    ensures msg.fields["type"] == Str("control_ack") && msg.fields["cmd"] == Str(cmd) && msg.fields["ok"] == Bool(ok)
    ensures forall k :: k in extra ==> msg.fields[k] == extra[k]
  {
    Obj(map["type" := Str("control_ack"), "cmd" := Str(cmd), "ok" := Bool(ok)] + extra)
  }

  /** A failed `control_ack` whose `error` is the E2400 message for `detail`. */
  function CmdRejected(cmd: string, detail: string, extra: map<string, Value>): (msg: Value)
    requires extra.Keys !! {"type", "cmd", "ok", "error"}
  {
    ControlAck(cmd, false, map["error" := Str(ErrorCatalog.FormatControlRejected(detail))] + extra)
  }

  /** The reply to `reload_overrides`; `any` says whether some simulated device reloaded. */
  function ReloadAck(any: bool): (msg: Value)
    ensures Has(msg, "type", Str("control_ack")) && Has(msg, "cmd", Str("reload_overrides"))
    ensures Has(msg, "ok", Bool(true)) && Has(msg, "any", Bool(any))
  {
    ControlAck("reload_overrides", true, map["any" := Bool(any)])
  }

  /** The reply to `record.start` given what `Recorder::start` returned or threw. */
  function RecordStartReply(id: string, r: Result<Recorder.StartResult, Recorder.StartError>): (msg: Value)
    ensures Has(msg, "type", Str("rpc_result")) && Has(msg, "id", Str(id))
    ensures Has(msg, "ok", Bool(r.Ok?))
  {
    match r
    case Ok(res) => RpcOk(id, Obj(map["recording_id" := Str(res.recordingId), "path" := Str(res.path)]))
    case Err(e) => Rejected(id, Recorder.ErrorText(e), map[])
  }

  /** The reply to `record.stop` given what `Recorder::stop` returned. */
  function RecordStopReply(id: string, recordingId: string, r: Option<Recorder.StopResult>): (msg: Value)
    ensures Has(msg, "type", Str("rpc_result")) && Has(msg, "id", Str(id))
    ensures Has(msg, "ok", Bool(r.Some?))
  {
    match r
    case None => Rejected(id, ErrorCatalog.D2400_UNKNOWN_RECORDING_ID, map["recording_id" := Str(recordingId)])
    case Some(out) =>
      RpcOk(id, Obj(map[
        "recording_id" := Str(out.recordingId),
        "path" := Str(out.path),
        "samples_written" := Int(out.samplesWritten),
        "started_ts_ms" := Int(out.startedTsMs),
        "stopped_ts_ms" := Int(out.stoppedTsMs)]))
  }

  // ----- the dispatcher -----

  /** The keys of an object as a JSON array of strings. */
  function KeyArray(keys: seq<string>): (v: Value)
    ensures v.Arr? && |v.items| == |keys|
    ensures forall i :: 0 <= i < |keys| ==> v.items[i] == Str(keys[i])
  {
    Arr(seq(|keys|, i requires 0 <= i < |keys| => Str(keys[i])))
  }

  /**
   * The `rpc.in` log of a request: its id, verb and the keys of its
   * params in iteration order, plus the device id or graph name for the
   * methods that carry one. None when reading that field throws.
   */
  function RpcInLog(id: string, verb: string, params: Value): (r: Option<LogEvent>)
    ensures r.Some? ==> r.value.level == "info" && r.value.kind == "rpc.in"
    ensures r.Some? ==> HasField(r.value.fields, "rpc_id", Str(id)) && HasField(r.value.fields, "method", Str(verb))
    ensures r.Some? ==>
      HasField(r.value.fields, "params_keys", KeyArray(if params.Obj? then KeyOrder.SortedKeys(params.fields.Keys) else []))
    ensures r.None? <==>
      (verb == "device.action" && ValueString(params, "device_id", "").None?)
      || (verb in {"graph.save", "graph.load", "graph.set_active"} && ValueString(params, "name", "").None?)
  {
    var base := RpcInFields(id, verb, params);
    if verb == "device.action" then
      match ValueString(params, "device_id", "")
      case None => None
      case Some(d) => Some(LogEvent("info", "rpc.in", base["device_id" := Str(d)]))
    else if verb in {"graph.save", "graph.load", "graph.set_active"} then
      match ValueString(params, "name", "")
      case None => None
      case Some(n) => Some(LogEvent("info", "rpc.in", base["name" := Str(n)]))
    else Some(LogEvent("info", "rpc.in", base))
  }

  /** The members every `rpc.in` log has. */
  function RpcInFields(id: string, verb: string, params: Value): (m: map<string, Value>)
    ensures m.Keys == {"rpc_id", "method", "params_keys"}
    ensures m["rpc_id"] == Str(id) && m["method"] == Str(verb)
    ensures m["params_keys"] == KeyArray(if params.Obj? then KeyOrder.SortedKeys(params.fields.Keys) else [])
  {
    var keys := if params.Obj? then KeyOrder.SortedKeys(params.fields.Keys) else [];
    map["rpc_id" := Str(id), "method" := Str(verb), "params_keys" := KeyArray(keys)]
  }

  /** The `action` / `device_action` control command. */
  function ControlDeviceAction(msg: Value, cmd: string, devices: seq<Registry.Slot>): (h: Handling)
    requires msg.Obj? && cmd in {"action", "device_action"}
  {
    match ValueString(msg, "device_id", "")
    case None => Handling([], NoReply)
    case Some(deviceId) =>
      if deviceId == "" then
        Handling([LogEvent("warn", "control.device_action", map["cmd" := Str(cmd), "error" := Str("missing_device_id")])],
                 Reply(CmdRejected(cmd, ErrorCatalog.D2400_MISSING_DEVICE_ID, map[])))
      else if !Contains(msg, "action") || !msg.fields["action"].Obj? then
        Handling([LogEvent("warn", "control.device_action",
                           map["cmd" := Str(cmd), "device_id" := Str(deviceId), "error" := Str("missing_action")])],
                 Reply(CmdRejected(cmd, ErrorCatalog.D2400_MISSING_ACTION, map[])))
      else
        match Registry.FindDevice(devices, deviceId)
        case None =>
          Handling([LogEvent("warn", "control.device_action",
                             map["cmd" := Str(cmd), "device_id" := Str(deviceId), "error" := Str("unknown_device")])],
                   Reply(CmdRejected(cmd, ErrorCatalog.D2400_UNKNOWN_DEVICE, map["device_id" := Str(deviceId)])))
        case Some(dev) =>
          Handling([LogEvent("info", "control.device_action",
                             map["cmd" := Str(cmd), "device_id" := Str(deviceId), "device_type" := Str(dev.kind)])],
                   PerformAction(dev, SetActions.MappedAction(dev.kind, msg.fields["action"]),
                                 ControlAck(cmd, true, map["device_id" := Str(deviceId)])))
  }

  /** The `device.action` RPC. */
  function RpcDeviceAction(id: string, params: Value, devices: seq<Registry.Slot>): (o: Outcome)
  {
    match ValueString(params, "device_id", "")
    case None => NoReply
    case Some(deviceId) =>
      if deviceId == "" then Reply(Rejected(id, ErrorCatalog.D2400_MISSING_DEVICE_ID, map[]))
      else if !Contains(params, "action") || !params.fields["action"].Obj? then
        Reply(Rejected(id, ErrorCatalog.D2400_MISSING_ACTION, map[]))
      else
        match Registry.FindDevice(devices, deviceId)
        case None => Reply(Rejected(id, ErrorCatalog.D2400_UNKNOWN_DEVICE, map["device_id" := Str(deviceId)]))
        case Some(dev) =>
          PerformAction(dev, SetActions.MappedAction(dev.kind, params.fields["action"]),
                        RpcOk(id, Obj(map["device_id" := Str(deviceId), "applied" := Bool(true)])))
  }

  /** The `record.stop` RPC up to the call into the recorder. */
  function RpcRecordStop(id: string, params: Value, hasRecorder: bool): (o: Outcome)
  {
    if !hasRecorder then Reply(Rejected(id, ErrorCatalog.D2400_RECORDER_NOT_INITIALIZED, map[]))
    else
      match ValueString(params, "recording_id", "")
      case None => NoReply
      case Some(rid) =>
        if rid == "" then Reply(Rejected(id, ErrorCatalog.D2400_MISSING_RECORDING_ID, map[]))
        else RecordStop(id, rid)
  }

  /** The `qec.decode` RPC: the majority-vote result, or a rejection when `measurements` is not an array. */
  function RpcQecDecode(id: string, params: Value): (o: Outcome)
  {
    match ValueOf(params, "measurements", Arr([]))
    case None => NoReply
    case Some(meas) =>
      if !meas.Arr? then Reply(Rejected(id, ErrorCatalog.D2400_QEC_MEASUREMENTS_NOT_ARRAY, map[]))
      else
        match QecDecode.TallyAll(meas.items)
        case None => NoReply
        case Some(c) =>
          match ValueString(params, "job_id", id)
          case None => NoReply
          case Some(job) =>
            QecDecode.TallyMatchesVotes(meas.items, 0);
            Reply(RpcOk(id, QecDecode.DecodeResult(Str(job), c, |meas.items|)))
  }

  /** The verb switch, after the `rpc.in` log. */
  function RpcMethod(id: string, verb: string, params: Value, devices: seq<Registry.Slot>, hasRecorder: bool)
    : (o: Outcome)
  {
    if verb == "devices.list" then ListDevices(id)
    else if verb == "devices.poll" then PollDevices(id)
    else if verb in DelegatedMethods then Delegate(id, verb, params)
    else if verb == "device.action" then RpcDeviceAction(id, params, devices)
    else if verb == "record.start" then
      if !hasRecorder then Reply(Rejected(id, ErrorCatalog.D2400_RECORDER_NOT_INITIALIZED, map[]))
      else RecordStart(id, params)
    else if verb == "record.stop" then RpcRecordStop(id, params, hasRecorder)
    else if verb == "qec.decode" then RpcQecDecode(id, params)
    else Reply(Rejected(id, ErrorCatalog.D2400_RPC_UNKNOWN_METHOD, map["method" := Str(verb)]))
  }

  /** An RPC request: id and verb checks, the `rpc.in` log, then the verb. */
  function Rpc(msg: Value, devices: seq<Registry.Slot>, hasRecorder: bool, freshId: string): (h: Handling)
    requires msg.Obj?
  {
    match ValueString(msg, "id", "")
    case None => Handling([], NoReply)
    case Some(id) =>
      if id == "" then Handling([], Reply(Rejected(freshId, ErrorCatalog.D2400_RPC_MISSING_ID, map[])))
      else
        match ValueString(msg, "method", "")
        case None => Handling([], NoReply)
        case Some(verb) =>
          var params := if "params" in msg.fields then msg.fields["params"] else Obj(map[]);
          if verb == "" then Handling([], Reply(Rejected(id, ErrorCatalog.D2400_RPC_MISSING_METHOD, map[])))
          else
            match RpcInLog(id, verb, params)
            case None => Handling([], NoReply)
            case Some(log) => Handling([log], RpcMethod(id, verb, params, devices, hasRecorder))
  }

  /**
   * `handle_message(msg)`: `devices` are the registered devices,
   * `hasRecorder` whether a recorder exists, and `freshId` the random id
   * that answers a request without one. Anything that throws is swallowed
   * and answers nothing.
   */
  function Handle(msg: Value, devices: seq<Registry.Slot>, hasRecorder: bool, freshId: string): (h: Handling)
    ensures !msg.Obj? ==> h == Handling([], NoReply)
    ensures |h.logs| <= 1
  {
    match (ValueString(msg, "type", ""), ValueString(msg, "cmd", ""))
    case (Some(ty), Some(cmd)) =>
      if cmd == "reload_overrides" then
        Handling([LogEvent("info", "control.reload_overrides", map["cmd" := Str(cmd)])], ReloadOverrides)
      else if cmd == "action" || cmd == "device_action" then ControlDeviceAction(msg, cmd, devices)
      else if ty == "rpc" then Rpc(msg, devices, hasRecorder, freshId)
      else if cmd != "" then Handling([], Reply(CmdRejected(cmd, ErrorCatalog.D2400_INVALID_REQUEST, map[])))
      else Handling([], NoReply)
    case _ => Handling([], NoReply)
  }

  // ----- properties of the dispatcher -----

  /** `m` is an `rpc_result` envelope answering request `id`. */
  predicate IsRpcResult(m: Value, id: string)
  {
    Has(m, "type", Str("rpc_result")) && Has(m, "id", Str(id))
  }

  /** `m` is the E2400 rejection of request `id` with `detail`, in the wire form clients parse. */
  predicate RejectsWith(m: Value, id: string, detail: string)
  {
    IsRpcResult(m, id) && Has(m, "ok", Bool(false)) && "error" in m.fields
    && var e := m.fields["error"];
    Has(e, "code", Str("2400")) && Has(e, "message", Str(ErrorCatalog.FormatControlRejected(detail)))
    && "details" in e.fields && Has(e.fields["details"], "detail", Str(detail))
  }

  /**
   * Every RPC rejection carries code "2400", a message from which the detail
   * reads back, and the detail and extra fields under `details`.
   */
  lemma RejectedMeaning(id: string, detail: string, extra: map<string, Value>)
    requires "detail" !in extra
    ensures RejectsWith(Rejected(id, detail, extra), id, detail)
    ensures var m := Rejected(id, detail, extra).fields["error"].fields["message"].sval;
      |m| >= |ErrorCatalog.MSG_E2400_PREFIX|
      && ErrorCatalog.DetailOf(m) == (if detail == "" then ErrorCatalog.D2400_INVALID_REQUEST else detail)
    ensures forall k :: k in extra ==> HasField(Rejected(id, detail, extra).fields["error"].fields["details"].fields, k, extra[k])
  {
    ErrorCatalog.CodeStringOfE2400();
    ErrorCatalog.FormatDetailRoundTrip(detail);
  }

  /**
   * The reply a decided outcome sends by itself: its message, or the
   * acknowledgement of a device action when the device's `perform_action`
   * returns (`applies`). A throw from the device ends the handler in its
   * catch-all, which only writes to stderr, so nothing is sent.
   */
  function DirectReply(o: Outcome, applies: (Registry.DeviceRef, Value) -> bool): Option<Value>
  {
    match o
    case Reply(m) => Some(m)
    case PerformAction(dev, action, ack) => if applies(dev, action) then Some(ack) else None
    case _ => None
  }

  /** What an outcome may send in answer to RPC request `id`: only `rpc_result`s for that id. */
  predicate AnswersRpc(o: Outcome, id: string)
  {
    match o
    case NoReply => true
    case Reply(m) => IsRpcResult(m, id)
    case ReloadOverrides => false
    case PerformAction(_, _, ack) => IsRpcResult(ack, id) && Has(ack, "ok", Bool(true))
    case ListDevices(i) => i == id
    case PollDevices(i) => i == id
    case Delegate(i, _, _) => i == id
    case RecordStart(i, _) => i == id
    case RecordStop(i, _) => i == id
  }

  /** The message is an RPC that no control command pre-empts. */
  predicate IsRpcRequest(msg: Value)
  {
    ValueString(msg, "type", "") == Some("rpc")
    && ValueString(msg, "cmd", "").Some?
    && ValueString(msg, "cmd", "").value !in {"reload_overrides", "action", "device_action"}
  }

  /**
   * Every answer to an RPC request is an `rpc_result` carrying the request's
   * id, or the fresh random id when the request has none, so clients can
   * correlate it; nothing else is logged first but `rpc.in`.
   */
  lemma RpcAnswersCarryId(msg: Value, devices: seq<Registry.Slot>, hasRecorder: bool, freshId: string)
    requires IsRpcRequest(msg)
    ensures var h := Handle(msg, devices, hasRecorder, freshId);
      match ValueString(msg, "id", "")
      case None => h == Handling([], NoReply)
      case Some(id) => AnswersRpc(h.outcome, if id == "" then freshId else id)
    ensures forall e :: e in Handle(msg, devices, hasRecorder, freshId).logs ==> e.kind == "rpc.in"
  {
    var id := ValueString(msg, "id", "");
    var verb := ValueString(msg, "method", "");
    if id.Some? && id.value != "" && verb.Some? && verb.value != "" {
      var params := if "params" in msg.fields then msg.fields["params"] else Obj(map[]);
      RpcMethodAnswers(id.value, verb.value, params, devices, hasRecorder);
    }
  }

  lemma RpcMethodAnswers(id: string, verb: string, params: Value, devices: seq<Registry.Slot>, hasRecorder: bool)
    ensures AnswersRpc(RpcMethod(id, verb, params, devices, hasRecorder), id)
  {
    if verb == "devices.list" || verb == "devices.poll" || verb in DelegatedMethods {
    } else if verb == "device.action" {
      DeviceActionAnswers(id, params, devices);
    } else if verb == "record.start" {
      if !hasRecorder {
        RejectedAnswers(id, ErrorCatalog.D2400_RECORDER_NOT_INITIALIZED, map[]);
      }
    } else if verb == "record.stop" {
      RecordStopAnswers(id, params, hasRecorder);
    } else if verb == "qec.decode" {
      QecDecodeAnswers(id, params);
    } else {
      RejectedAnswers(id, ErrorCatalog.D2400_RPC_UNKNOWN_METHOD, map["method" := Str(verb)]);
    }
  }

  lemma RejectedAnswers(id: string, detail: string, extra: map<string, Value>)
    requires "detail" !in extra
    ensures AnswersRpc(Reply(Rejected(id, detail, extra)), id)
  {
  }

  lemma DeviceActionAnswers(id: string, params: Value, devices: seq<Registry.Slot>)
    ensures AnswersRpc(RpcDeviceAction(id, params, devices), id)
  {
  }

  lemma RecordStopAnswers(id: string, params: Value, hasRecorder: bool)
    ensures AnswersRpc(RpcRecordStop(id, params, hasRecorder), id)
  {
  }

  lemma QecDecodeAnswers(id: string, params: Value)
    ensures AnswersRpc(RpcQecDecode(id, params), id)
  {
  }

  /** An RPC request that no control command pre-empts is handled by `Rpc`. */
  lemma HandleIsRpc(msg: Value, devices: seq<Registry.Slot>, hasRecorder: bool, freshId: string)
    requires IsRpcRequest(msg)
    ensures msg.Obj? && Handle(msg, devices, hasRecorder, freshId) == Rpc(msg, devices, hasRecorder, freshId)
  {
  }

  /** A request without an id (or with an empty one) is rejected under a fresh id, before anything is logged. */
  lemma MissingIdUsesFreshId(msg: Value, devices: seq<Registry.Slot>, hasRecorder: bool, freshId: string)
    requires IsRpcRequest(msg) && ValueString(msg, "id", "") == Some("")
    ensures var h := Handle(msg, devices, hasRecorder, freshId);
      h.logs == [] && h.outcome.Reply? && RejectsWith(h.outcome.msg, freshId, ErrorCatalog.D2400_RPC_MISSING_ID)
  {
    HandleIsRpc(msg, devices, hasRecorder, freshId);
    RejectedMeaning(freshId, ErrorCatalog.D2400_RPC_MISSING_ID, map[]);
  }

  /** The verb switch falls through to the unknown-method rejection for any verb it does not list. */
  lemma UnknownVerbOutcome(id: string, verb: string, params: Value, devices: seq<Registry.Slot>, hasRecorder: bool)
    requires verb !in HandledMethods
    ensures RpcMethod(id, verb, params, devices, hasRecorder)
            == Reply(Rejected(id, ErrorCatalog.D2400_RPC_UNKNOWN_METHOD, map["method" := Str(verb)]))
  {
  }

  /** A method the dispatcher does not know is logged, then rejected naming the method. */
  lemma UnknownMethodRejected(msg: Value, devices: seq<Registry.Slot>, hasRecorder: bool, freshId: string)
    requires IsRpcRequest(msg)
    requires ValueString(msg, "id", "").Some? && ValueString(msg, "id", "").value != ""
    requires ValueString(msg, "method", "").Some?
    requires var verb := ValueString(msg, "method", "").value; verb != "" && verb !in HandledMethods
    ensures var h := Handle(msg, devices, hasRecorder, freshId);
      var id := ValueString(msg, "id", "").value;
      var verb := ValueString(msg, "method", "").value;
      |h.logs| == 1 && h.logs[0].kind == "rpc.in" && HasField(h.logs[0].fields, "method", Str(verb))
      && h.outcome.Reply? && RejectsWith(h.outcome.msg, id, ErrorCatalog.D2400_RPC_UNKNOWN_METHOD)
      && Has(h.outcome.msg.fields["error"].fields["details"], "method", Str(verb))
  {
    HandleIsRpc(msg, devices, hasRecorder, freshId);
    UnknownRpcRejected(msg, devices, hasRecorder, freshId);
  }

  lemma UnknownRpcRejected(msg: Value, devices: seq<Registry.Slot>, hasRecorder: bool, freshId: string)
    requires msg.Obj?
    requires ValueString(msg, "id", "").Some? && ValueString(msg, "id", "").value != ""
    requires ValueString(msg, "method", "").Some?
    requires var verb := ValueString(msg, "method", "").value; verb != "" && verb !in HandledMethods
    ensures var h := Rpc(msg, devices, hasRecorder, freshId);
      var id := ValueString(msg, "id", "").value;
      var verb := ValueString(msg, "method", "").value;
      |h.logs| == 1 && h.logs[0].kind == "rpc.in" && HasField(h.logs[0].fields, "method", Str(verb))
      && h.outcome.Reply? && RejectsWith(h.outcome.msg, id, ErrorCatalog.D2400_RPC_UNKNOWN_METHOD)
      && Has(h.outcome.msg.fields["error"].fields["details"], "method", Str(verb))
  {
    var id := ValueString(msg, "id", "").value;
    var verb := ValueString(msg, "method", "").value;
    var params := if "params" in msg.fields then msg.fields["params"] else Obj(map[]);
    var log := RpcInLog(id, verb, params);
    assert log.Some?;
    UnknownVerbOutcome(id, verb, params, devices, hasRecorder);
    assert Rpc(msg, devices, hasRecorder, freshId) == Handling([log.value], RpcMethod(id, verb, params, devices, hasRecorder));
    RejectedMeaning(id, ErrorCatalog.D2400_RPC_UNKNOWN_METHOD, map["method" := Str(verb)]);
  }

  /**
   * Every advertised capability has a handler except `backend.logs`, which
   * `backend.info` lists but the dispatcher answers as an unknown method.
   */
  lemma CapabilitiesHandled()
    ensures forall c :: c in Capabilities && c != "backend.logs" ==> c in HandledMethods
    ensures "backend.logs" in Capabilities && "backend.logs" !in HandledMethods
    ensures forall id, params, devices, hasRecorder ::
      RpcMethod(id, "backend.logs", params, devices, hasRecorder)
        == Reply(Rejected(id, ErrorCatalog.D2400_RPC_UNKNOWN_METHOD, map["method" := Str("backend.logs")]))
  {
    assert Capabilities[3] == "backend.logs";
  }

  /**
   * The `device.action` RPC applies the mapped action exactly when it names
   * a device id, carries an action object and the device is registered; the
   * checks are made in that order and the first failure is the one reported.
   */
  lemma RpcDeviceActionChecks(id: string, params: Value, devices: seq<Registry.Slot>)
    requires ValueString(params, "device_id", "").Some?
    ensures var deviceId := ValueString(params, "device_id", "").value;
      var hasAction := Contains(params, "action") && params.fields["action"].Obj?;
      var o := RpcDeviceAction(id, params, devices);
      (o.PerformAction? <==> deviceId != "" && hasAction && Registry.FindDevice(devices, deviceId).Some?)
      && (deviceId == "" ==> o.Reply? && RejectsWith(o.msg, id, ErrorCatalog.D2400_MISSING_DEVICE_ID))
      && (deviceId != "" && !hasAction ==> o.Reply? && RejectsWith(o.msg, id, ErrorCatalog.D2400_MISSING_ACTION))
      && (deviceId != "" && hasAction && Registry.FindDevice(devices, deviceId).None? ==>
            o.Reply? && RejectsWith(o.msg, id, ErrorCatalog.D2400_UNKNOWN_DEVICE))
      && (o.PerformAction? ==>
            var dev := Registry.FindDevice(devices, deviceId).value;
            o.device == dev && dev.id == deviceId
            && o.action == SetActions.MappedAction(dev.kind, params.fields["action"])
            && Has(o.ack, "ok", Bool(true)) && Has(o.ack.fields["result"], "device_id", Str(deviceId)))
  {
    var deviceId := ValueString(params, "device_id", "").value;
    var o := RpcDeviceAction(id, params, devices);
    if deviceId == "" {
      RejectedMeaning(id, ErrorCatalog.D2400_MISSING_DEVICE_ID, map[]);
      assert o == Reply(Rejected(id, ErrorCatalog.D2400_MISSING_DEVICE_ID, map[]));
    } else if !Contains(params, "action") || !params.fields["action"].Obj? {
      RejectedMeaning(id, ErrorCatalog.D2400_MISSING_ACTION, map[]);
      assert o == Reply(Rejected(id, ErrorCatalog.D2400_MISSING_ACTION, map[]));
    } else if Registry.FindDevice(devices, deviceId).None? {
      RejectedMeaning(id, ErrorCatalog.D2400_UNKNOWN_DEVICE, map["device_id" := Str(deviceId)]);
      assert o == Reply(Rejected(id, ErrorCatalog.D2400_UNKNOWN_DEVICE, map["device_id" := Str(deviceId)]));
    } else {
      var dev := Registry.FindDevice(devices, deviceId).value;
      var result := Obj(map["device_id" := Str(deviceId), "applied" := Bool(true)]);
      assert o == PerformAction(dev, SetActions.MappedAction(dev.kind, params.fields["action"]), RpcOk(id, result));
      assert Has(result, "device_id", Str(deviceId));
    }
  }

  /**
   * The `action` control command makes the same checks as the RPC, logs
   * exactly one `control.device_action` event, and answers with a
   * `control_ack` for the command that is ok exactly when the action is applied.
   */
  lemma ControlDeviceActionChecks(msg: Value, cmd: string, devices: seq<Registry.Slot>)
    requires msg.Obj? && cmd in {"action", "device_action"}
    requires ValueString(msg, "device_id", "").Some?
    ensures var deviceId := ValueString(msg, "device_id", "").value;
      var hasAction := "action" in msg.fields && msg.fields["action"].Obj?;
      var h := ControlDeviceAction(msg, cmd, devices);
      |h.logs| == 1 && h.logs[0].kind == "control.device_action"
      && (h.outcome.PerformAction? <==> deviceId != "" && hasAction && Registry.FindDevice(devices, deviceId).Some?)
      && (h.outcome.PerformAction? ==>
            var dev := Registry.FindDevice(devices, deviceId).value;
            h.outcome.device == dev && h.logs[0].level == "info"
            && h.outcome.action == SetActions.MappedAction(dev.kind, msg.fields["action"])
            && Has(h.outcome.ack, "type", Str("control_ack")) && Has(h.outcome.ack, "cmd", Str(cmd))
            && Has(h.outcome.ack, "ok", Bool(true)) && Has(h.outcome.ack, "device_id", Str(deviceId)))
      && (!h.outcome.PerformAction? ==>
            h.logs[0].level == "warn" && h.outcome.Reply?
            && Has(h.outcome.msg, "type", Str("control_ack")) && Has(h.outcome.msg, "cmd", Str(cmd))
            && Has(h.outcome.msg, "ok", Bool(false)))
  {
  }

  /**
   * The `device.action` RPC answers ok exactly when the checks pass and the
   * device accepts the mapped action; a device that throws leaves the
   * request unanswered, and a failed check is answered with a rejection.
   */
  lemma RpcDeviceActionAck(id: string, params: Value, devices: seq<Registry.Slot>,
                           applies: (Registry.DeviceRef, Value) -> bool)
    requires ValueString(params, "device_id", "").Some?
    ensures var deviceId := ValueString(params, "device_id", "").value;
      var hasAction := Contains(params, "action") && params.fields["action"].Obj?;
      var r := DirectReply(RpcDeviceAction(id, params, devices), applies);
      (r.Some? && Has(r.value, "ok", Bool(true)))
        <==> deviceId != "" && hasAction && Registry.FindDevice(devices, deviceId).Some?
             && applies(Registry.FindDevice(devices, deviceId).value,
                        SetActions.MappedAction(Registry.FindDevice(devices, deviceId).value.kind, params.fields["action"]))
  {
    RpcDeviceActionChecks(id, params, devices);
  }

  /**
   * The `action` control command acknowledges with ok exactly when the
   * checks pass and the device accepts the mapped action.
   */
  lemma ControlDeviceActionAck(msg: Value, cmd: string, devices: seq<Registry.Slot>,
                               applies: (Registry.DeviceRef, Value) -> bool)
    requires msg.Obj? && cmd in {"action", "device_action"}
    requires ValueString(msg, "device_id", "").Some?
    ensures var deviceId := ValueString(msg, "device_id", "").value;
      var hasAction := "action" in msg.fields && msg.fields["action"].Obj?;
      var r := DirectReply(ControlDeviceAction(msg, cmd, devices).outcome, applies);
      (r.Some? && Has(r.value, "ok", Bool(true)))
        <==> deviceId != "" && hasAction && Registry.FindDevice(devices, deviceId).Some?
             && applies(Registry.FindDevice(devices, deviceId).value,
                        SetActions.MappedAction(Registry.FindDevice(devices, deviceId).value.kind, msg.fields["action"]))
  {
    ControlDeviceActionChecks(msg, cmd, devices);
  }

  /**
   * `qec.decode` stays silent exactly when reading its parameters throws:
   * params not an object, an entry whose qubit or value is neither a number
   * nor a boolean, or a job id that is not a string.
   */
  lemma QecDecodeSilentIff(id: string, params: Value)
    ensures RpcQecDecode(id, params).NoReply? <==>
      !params.Obj?
      || (var meas := ValueOf(params, "measurements", Arr([])).value;
          meas.Arr?
          && ((exists i :: 0 <= i < |meas.items| && QecDecode.EntryVote(meas.items[i]).None?)
              || ValueString(params, "job_id", id).None?))
  {
    if params.Obj? {
      var meas := ValueOf(params, "measurements", Arr([])).value;
      if meas.Arr? {
        QecDecode.TallyAllDefined(meas.items);
      }
    }
  }

  /**
   * A successful `qec.decode` reports one correction per voted qubit, the
   * job id (the request id when none is given) and the number of entries.
   */
  lemma QecDecodeAnswer(id: string, params: Value)
    requires RpcQecDecode(id, params).Reply? && params.Obj?
    requires var meas := ValueOf(params, "measurements", Arr([])).value; meas.Arr?
    ensures var meas := ValueOf(params, "measurements", Arr([])).value.items;
      var m := RpcQecDecode(id, params).msg;
      var job := if "job_id" in params.fields then params.fields["job_id"] else Str(id);
      QecDecode.TallyAll(meas).Some? && QecDecode.ValidCounts(QecDecode.TallyAll(meas).value)
      && IsRpcResult(m, id) && Has(m, "ok", Bool(true))
      && Has(m.fields["result"], "job_id", job)
      && Has(m.fields["result"], "status", Str("done"))
      && Has(m.fields["result"], "corrections", Arr(QecDecode.Corrections(QecDecode.TallyAll(meas).value)))
      && Has(m.fields["result"].fields["statistics"], "measurements", Int(|meas|))
  {
    var meas := ValueOf(params, "measurements", Arr([])).value.items;
    QecDecode.TallyMatchesVotes(meas, 0);
  }

  /** Without a recorder, `record.start` and `record.stop` never reach it. */
  lemma NoRecorderNoRecording(msg: Value, devices: seq<Registry.Slot>, freshId: string)
    ensures !Handle(msg, devices, false, freshId).outcome.RecordStart?
    ensures !Handle(msg, devices, false, freshId).outcome.RecordStop?
  {
    if IsRpcRequest(msg) {
      HandleIsRpc(msg, devices, false, freshId);
      RpcNoRecorder(msg, devices, freshId);
    } else if msg.Obj? && ValueString(msg, "type", "").Some? && ValueString(msg, "cmd", "").Some? {
      var cmd := ValueString(msg, "cmd", "").value;
      if cmd == "action" || cmd == "device_action" {
        ControlActionNotRecording(msg, cmd, devices);
      }
    }
  }

  lemma ControlActionNotRecording(msg: Value, cmd: string, devices: seq<Registry.Slot>)
    requires msg.Obj? && cmd in {"action", "device_action"}
    ensures !ControlDeviceAction(msg, cmd, devices).outcome.RecordStart?
    ensures !ControlDeviceAction(msg, cmd, devices).outcome.RecordStop?
  {
  }

  lemma RpcNoRecorder(msg: Value, devices: seq<Registry.Slot>, freshId: string)
    requires msg.Obj?
    ensures !Rpc(msg, devices, false, freshId).outcome.RecordStart?
    ensures !Rpc(msg, devices, false, freshId).outcome.RecordStop?
  {
    if ValueString(msg, "id", "").Some? && ValueString(msg, "method", "").Some? {
      var params := if "params" in msg.fields then msg.fields["params"] else Obj(map[]);
      RpcMethodNoRecorder(ValueString(msg, "id", "").value, ValueString(msg, "method", "").value, params, devices);
    }
  }

  lemma RpcMethodNoRecorder(id: string, verb: string, params: Value, devices: seq<Registry.Slot>)
    ensures !RpcMethod(id, verb, params, devices, false).RecordStart?
    ensures !RpcMethod(id, verb, params, devices, false).RecordStop?
  {
  }

  /**
   * A message that is neither a control command nor an RPC is ignored when
   * it has no `cmd`, and otherwise rejected as an invalid request for that cmd.
   */
  lemma OtherMessages(msg: Value, devices: seq<Registry.Slot>, hasRecorder: bool, freshId: string)
    requires ValueString(msg, "type", "").Some? && ValueString(msg, "type", "").value != "rpc"
    requires ValueString(msg, "cmd", "").Some?
    requires ValueString(msg, "cmd", "").value !in {"reload_overrides", "action", "device_action"}
    ensures var h := Handle(msg, devices, hasRecorder, freshId);
      var cmd := ValueString(msg, "cmd", "").value;
      h.logs == []
      && (cmd == "" <==> h.outcome.NoReply?)
      && (cmd != "" ==>
            h.outcome.Reply? && Has(h.outcome.msg, "cmd", Str(cmd)) && Has(h.outcome.msg, "ok", Bool(false))
            && Has(h.outcome.msg, "error", Str(ErrorCatalog.MSG_E2400_PREFIX + ErrorCatalog.D2400_INVALID_REQUEST)))
  {
  }

  // ----- executing the decision -----

  /** The descriptor of every registered device, in registration order. */
  function Descriptors(devices: seq<Registry.Slot>, describe: Registry.DeviceRef -> Value): (items: seq<Value>)
    ensures |items| == |devices|
    ensures forall i :: 0 <= i < |devices| && devices[i].Some? ==> items[i] == describe(devices[i].value)
  {
    seq(|devices|, i requires 0 <= i < |devices| => if devices[i].Some? then describe(devices[i].value) else Null)
  }

  /** The `{id, measurement}` entry of every registered device, in registration order. */
  function Readings(devices: seq<Registry.Slot>, measure: Registry.DeviceRef -> Value): (items: seq<Value>)
    ensures |items| == |devices|
    ensures forall i :: 0 <= i < |devices| && devices[i].Some? ==>
      items[i] == Registry.PollEntry(devices[i].value, measure(devices[i].value))
  {
    seq(|devices|, i requires 0 <= i < |devices| =>
      if devices[i].Some? then Registry.PollEntry(devices[i].value, measure(devices[i].value)) else Null)
  }

  /**
   * What the server draws from its surroundings while handling one message:
   * the random ids, the clock readings, the recordings directory, whether
   * the recording file opens, and whether some simulated device reloaded
   * its overrides.
   */
  datatype Env = Env(rpcId: string, recordingId: string, nowMs: int, dayDir: string, fileOpens: bool,
                     stoppedMs: int, reloadAny: bool)

  /**
   * The part of `WebSocketServer` that handles messages: its registry and
   * its recorder, which is null when recording is not initialised.
   */
  class Server {
    const registry: Registry.DeviceRegistry
    const recorder: Recorder.Recorder?

    constructor(reg: Registry.DeviceRegistry, rec: Recorder.Recorder?)
      ensures registry == reg && recorder == rec
    {
      registry := reg;
      recorder := rec;
    }

    /** The decision `handle_message` takes for `msg` in the current state. */
    function Decide(msg: Value, env: Env): Handling
      reads registry
    {
      Handle(msg, registry.devices, recorder != null, env.rpcId)
    }

    /**
     * `handle_message(msg, reply)`: broadcasts the logs, performs what the
     * decision calls for and returns the reply sent, if any. `describe` and
     * `measure` stand for the devices' descriptors and readings, `applies`
     * for whether a device's `perform_action` returns rather than throws.
     */
    method HandleMessage(msg: Value, env: Env, describe: Registry.DeviceRef -> Value,
                         measure: Registry.DeviceRef -> Value, applies: (Registry.DeviceRef, Value) -> bool)
      returns (logs: seq<LogEvent>, reply: Option<Value>, performed: Option<(Registry.DeviceRef, Value)>)
      requires recorder != null ==> recorder.Valid()
      requires Decide(msg, env).outcome.ListDevices? || Decide(msg, env).outcome.PollDevices? ==>
        Registry.AllPresent(registry.devices)
      modifies recorder
      ensures recorder != null ==> recorder.Valid()
      ensures logs == Decide(msg, env).logs
      ensures Performs(Decide(msg, env).outcome, env, describe, measure, applies,
                       if recorder != null then old(recorder.sessions) else map[], reply, performed)
      ensures recorder != null ==> Records(Decide(msg, env).outcome, env, old(recorder.sessions), recorder.sessions)
    {
      var h := Decide(msg, env);
      if h.outcome.RecordStart? || h.outcome.RecordStop? {
        NoRecorderNoRecording(msg, registry.devices, env.rpcId);
      }
      logs := h.logs;
      reply, performed := Execute(h.outcome, env, describe, measure, applies);
    }

    /**
     * The reply and the device action an outcome produces: the reply of
     * the outcome, the acknowledgement of an action the device accepted
     * (none when its `perform_action` throws), the device
     * snapshots, or the recorder's answer (`before` is its sessions before
     * the call). The replies of the delegated
     * handlers are not part of this model, so a `Delegate` outcome has none.
     */
    ghost predicate Performs(o: Outcome, env: Env, describe: Registry.DeviceRef -> Value,
                             measure: Registry.DeviceRef -> Value, applies: (Registry.DeviceRef, Value) -> bool,
                             before: map<string, Recorder.Session>,
                             reply: Option<Value>, performed: Option<(Registry.DeviceRef, Value)>)
      reads this, registry
    {
      match o
      case NoReply => reply.None? && performed.None?
      case Reply(m) => reply == Some(m) && performed.None?
      case ReloadOverrides => reply == Some(ReloadAck(env.reloadAny)) && performed.None?
      case PerformAction(dev, action, ack) =>
        performed == Some((dev, action)) && reply == (if applies(dev, action) then Some(ack) else None)
      case ListDevices(id) =>
        performed.None? && reply.Some? && IsRpcResult(reply.value, id) && "result" in reply.value.fields
        && Has(reply.value.fields["result"], "devices", Arr(Descriptors(registry.devices, describe)))
      case PollDevices(id) =>
        performed.None? && reply.Some? && IsRpcResult(reply.value, id) && "result" in reply.value.fields
        && Has(reply.value.fields["result"], "updates", Arr(Readings(registry.devices, measure)))
      case Delegate(_, _, _) => reply.None? && performed.None?
      case RecordStart(id, params) =>
        var s := Recorder.StartSession(params, env.recordingId, env.nowMs, env.dayDir, env.fileOpens);
        performed.None?
        && reply == Some(RecordStartReply(id, if s.Ok? then Ok(Recorder.StartResult(env.recordingId, s.value.path))
                                              else Err(s.error)))
      case RecordStop(id, rid) =>
        performed.None? && reply == Some(RecordStopReply(id, rid, Recorder.StopSessions(before, rid, env.stoppedMs).1))
    }

    /**
     * How an outcome changes the recorder's sessions: `record.start` adds
     * the new session when it starts, `record.stop` removes and reports the
     * stopped one, and nothing else touches them.
     */
    ghost predicate Records(o: Outcome, env: Env, before: map<string, Recorder.Session>,
                            after: map<string, Recorder.Session>)
    {
      match o
      case RecordStart(_, params) =>
        var s := Recorder.StartSession(params, env.recordingId, env.nowMs, env.dayDir, env.fileOpens);
        after == if s.Ok? then before[env.recordingId := s.value] else before
      case RecordStop(_, rid) => after == Recorder.StopSessions(before, rid, env.stoppedMs).0
      case _ => after == before
    }

    /** Carries out one outcome. */
    method Execute(o: Outcome, env: Env, describe: Registry.DeviceRef -> Value, measure: Registry.DeviceRef -> Value,
                   applies: (Registry.DeviceRef, Value) -> bool)
      returns (reply: Option<Value>, performed: Option<(Registry.DeviceRef, Value)>)
      requires recorder != null ==> recorder.Valid()
      requires o.RecordStart? || o.RecordStop? ==> recorder != null
      requires o.ListDevices? || o.PollDevices? ==> Registry.AllPresent(registry.devices)
      modifies recorder
      ensures recorder != null ==> recorder.Valid()
      ensures Performs(o, env, describe, measure, applies, if recorder != null then old(recorder.sessions) else map[],
                       reply, performed)
      ensures recorder != null ==> Records(o, env, old(recorder.sessions), recorder.sessions)
    {
      reply := None;
      performed := None;
      match o {
        case NoReply =>
        case Reply(m) =>
          reply := Some(m);
        case ReloadOverrides =>
          reply := Some(ReloadAck(env.reloadAny));
        case PerformAction(dev, action, ack) =>
          performed := Some((dev, action));
          if applies(dev, action) {
            reply := Some(ack);
          }
        case ListDevices(id) =>
          var graph := registry.GetDescriptorGraph(describe);
          assert graph.items == Descriptors(registry.devices, describe);
          reply := Some(RpcOk(id, Obj(map["devices" := graph])));
        case PollDevices(id) =>
          var updates := registry.PollAll(measure);
          assert updates.items == Readings(registry.devices, measure);
          reply := Some(RpcOk(id, Obj(map["updates" := updates])));
        case Delegate(_, _, _) =>
        case RecordStart(id, params) =>
          var r := recorder.Start(params, env.recordingId, env.nowMs, env.dayDir, env.fileOpens);
          reply := Some(RecordStartReply(id, r));
        case RecordStop(id, rid) =>
          var r := recorder.Stop(rid, env.stoppedMs);
          reply := Some(RecordStopReply(id, rid, r));
      }
    }
  }
}
