/**
 * The recorder: measurement normalisation and metric filtering, validation
 * of `record.start` parameters, the session map, and one pass of a
 * session's sampling loop over an abstract clock.
 */
module Recorder {
  import opened Wrappers
  import opened Json
  import ErrorCatalog

  // ----- Measurement normalisation -----

  /** A raw field that becomes a metric: a number, or an object with a numeric `value`. */
  predicate IsMetric(v: Value)
  {
    IsNumber(v) || (v.Obj? && "value" in v.fields && IsNumber(v.fields["value"]))
  }

  /** The metric a raw field becomes: a number is wrapped as `{value: <double>}`, an object is kept. */
  function MetricEntry(v: Value): (m: Value)
    requires IsMetric(v)
    ensures m.Obj? && "value" in m.fields && IsNumber(m.fields["value"])
    ensures IsNumber(v) ==> m == Obj(map["value" := Float(AsReal(v).value)])
    ensures !IsNumber(v) ==> m == v
  {
    if IsNumber(v) then Obj(map["value" := Float(AsReal(v).value)]) else v
  }

  /** The metrics of a flat raw object: every metric field except `ts` and `state`. */
  function FlatMetrics(raw: map<string, Value>): (meas: map<string, Value>)
    ensures forall k :: k in meas <==> k in raw && k != "ts" && k != "state" && IsMetric(raw[k])
    ensures forall k :: k in meas ==> meas[k] == MetricEntry(raw[k])
  {
    map k | k in raw && k != "ts" && k != "state" && IsMetric(raw[k]) :: MetricEntry(raw[k])
  }

  /** The measurements a raw object carries: an object-valued `measurements` verbatim, or its flat metrics. */
  function RawMeasurements(raw: map<string, Value>): Value
  {
    if "measurements" in raw && raw["measurements"].Obj? then raw["measurements"] else Obj(FlatMetrics(raw))
  }

  /**
   * `normalize_measurement(raw, tsMs)`: `{ts, state, measurements}`. None when
   * a present `ts` is not a number or boolean, or a present `state` is not a
   * string (the conversion throws).
   */
  function Normalize(raw: Value, tsMs: int): (r: Option<Value>)
    ensures !raw.Obj? ==> r == Some(Obj(map["ts" := Int(tsMs), "state" := Str("unknown"), "measurements" := Obj(map[])]))
    ensures r.Some? ==> (r.value.Obj? && r.value.fields.Keys == {"ts", "state", "measurements"}
      && r.value.fields["ts"].Int? && r.value.fields["state"].Str? && r.value.fields["measurements"].Obj?)
    ensures r.None? <==> (raw.Obj? && (("ts" in raw.fields && AsInt(raw.fields["ts"]).None?)
      || ("state" in raw.fields && !raw.fields["state"].Str?)))
  {
    if !raw.Obj? then Some(Obj(map["ts" := Int(tsMs), "state" := Str("unknown"), "measurements" := Obj(map[])]))
    else
      var ts := if "ts" in raw.fields then AsInt(raw.fields["ts"]) else Some(tsMs);
      var state := if "state" in raw.fields then AsString(raw.fields["state"]) else Some("unknown");
      if ts.None? || state.None? then None
      else Some(Obj(map["ts" := Int(ts.value), "state" := Str(state.value), "measurements" := RawMeasurements(raw.fields)]))
  }

  /** A raw object's own `ts` and `state` win over the defaults. */
  lemma NormalizeKeepsTsAndState(raw: Value, tsMs: int)
    requires raw.Obj? && Normalize(raw, tsMs).Some?
    ensures var n := Normalize(raw, tsMs).value.fields;
      n["ts"] == Int(if "ts" in raw.fields then AsInt(raw.fields["ts"]).value else tsMs)
      && n["state"] == Str(if "state" in raw.fields then raw.fields["state"].sval else "unknown")
  {
  }

  /** A raw object already in schema shape has its `measurements` copied verbatim. */
  lemma NormalizeSchemaShape(raw: Value, tsMs: int)
    requires raw.Obj? && "measurements" in raw.fields && raw.fields["measurements"].Obj?
    requires Normalize(raw, tsMs).Some?
    ensures Normalize(raw, tsMs).value.fields["measurements"] == raw.fields["measurements"]
  {
  }

  /**
   * A flat raw object: its metrics are exactly its numeric fields (wrapped)
   * and its objects with a numeric `value` (kept), never `ts` or `state`.
   */
  lemma NormalizeFlat(raw: Value, tsMs: int, k: string)
    requires raw.Obj? && !("measurements" in raw.fields && raw.fields["measurements"].Obj?)
    requires Normalize(raw, tsMs).Some?
    ensures var meas := Normalize(raw, tsMs).value.fields["measurements"].fields;
      (k in meas <==> k in raw.fields && k != "ts" && k != "state" && IsMetric(raw.fields[k]))
      && (k in meas ==> meas[k] == MetricEntry(raw.fields[k]))
  {
  }

  /** Normalising twice changes nothing more: a normalised record is its own normal form. */
  lemma NormalizeIdempotent(raw: Value, tsMs: int, tsMs': int)
    requires Normalize(raw, tsMs).Some?
    ensures Normalize(Normalize(raw, tsMs).value, tsMs') == Normalize(raw, tsMs)
  {
  }

  // ----- Metric filtering -----

  /** Filtering applies: an object with object-valued `measurements` and a non-empty metric list. */
  predicate FilterApplies(normalized: Value, metrics: seq<string>)
  {
    normalized.Obj? && "measurements" in normalized.fields && normalized.fields["measurements"].Obj? && metrics != []
  }

  /** `filter_measurements`: keep only the listed metrics that are present. */
  function Filter(normalized: Value, metrics: seq<string>): (r: Value)
    ensures !FilterApplies(normalized, metrics) ==> r == normalized
    ensures FilterApplies(normalized, metrics) ==>
      r.Obj? && r.fields.Keys == normalized.fields.Keys
      && r.fields["measurements"].Obj?
      && (forall k :: k in r.fields && k != "measurements" ==> r.fields[k] == normalized.fields[k])
  {
    if !FilterApplies(normalized, metrics) then normalized
    else
      var meas := normalized.fields["measurements"].fields;
      Obj(normalized.fields["measurements" := Obj(map m | m in metrics && m in meas :: meas[m])])
  }

  /** The filtered metrics are exactly the listed ones that were present, with their values. */
  lemma FilterKeepsListed(normalized: Value, metrics: seq<string>, m: string)
    requires FilterApplies(normalized, metrics)
    ensures var before := normalized.fields["measurements"].fields;
      var after := Filter(normalized, metrics).fields["measurements"].fields;
      (m in after <==> m in metrics && m in before) && (m in after ==> after[m] == before[m])
  {
  }

  /** An empty metric list returns the input unchanged. */
  lemma FilterEmptyIsIdentity(normalized: Value)
    ensures Filter(normalized, []) == normalized
  {
  }

  /** Filtering twice by the same list is filtering once. */
  lemma FilterIdempotent(normalized: Value, metrics: seq<string>)
    ensures Filter(Filter(normalized, metrics), metrics) == Filter(normalized, metrics)
  {
    if FilterApplies(normalized, metrics) {
      var once := Filter(normalized, metrics);
      assert FilterApplies(once, metrics);
      var meas := once.fields["measurements"].fields;
      assert (map m | m in metrics && m in meas :: meas[m]) == meas;
      assert once.fields["measurements" := once.fields["measurements"]] == once.fields;
    }
  }

  // ----- record.start validation -----

  /** One configured stream. */
  datatype RecordStream = RecordStream(deviceId: string, metrics: seq<string>, rateHz: real)

  /** What `start` throws: a catalogued detail, or nlohmann's type error for a field of the wrong type. */
  datatype StartError =
    | Rejected(detail: string)
    | TypeError(expected: string, actual: string)

  /** `e.what()` of the exception. */
  function ErrorText(e: StartError): (text: string)
    ensures e.Rejected? ==> text == e.detail
  {
    match e
    case Rejected(d) => d
    case TypeError(expected, actual) =>
      "[json.exception.type_error.302] type must be " + expected + ", but is " + actual
  }

  /** The string elements of an array, in order. */
  function StringItems(items: seq<Value>): (names: seq<string>)
    ensures |names| <= |items|
  {
    if items == [] then []
    else
      var init := StringItems(items[..|items| - 1]);
      var last := items[|items| - 1];
      if last.Str? then init + [last.sval] else init
  }

  /** The metric names of a stream: the string elements of `metrics` when it is an array, else none. */
  function MetricNames(metrics: Value): (names: seq<string>)
  {
    if metrics.Arr? then StringItems(metrics.items) else []
  }

  /** `s.value("key", "")` as an error-typed result. */
  function StringField(s: Value, key: string, dflt: string): (r: Result<string, StartError>)
    requires s.Obj?
    ensures r.Ok? <==> key !in s.fields || s.fields[key].Str?
    ensures r.Ok? ==> r.value == if key in s.fields then s.fields[key].sval else dflt
  {
    if key !in s.fields then Ok(dflt)
    else if s.fields[key].Str? then Ok(s.fields[key].sval)
    else Err(TypeError("string", TypeName(s.fields[key])))
  }

  /** `s.value("rate_hz", 1.0)` as an error-typed result. */
  function RateField(s: Value): (r: Result<real, StartError>)
    requires s.Obj?
    ensures "rate_hz" !in s.fields ==> r == Ok(1.0)
    ensures r.Ok? <==> "rate_hz" !in s.fields || AsReal(s.fields["rate_hz"]).Some?
  {
    if "rate_hz" !in s.fields then Ok(1.0)
    else match AsReal(s.fields["rate_hz"])
      case Some(x) => Ok(x)
      case None => Err(TypeError("number", TypeName(s.fields["rate_hz"])))
  }

  /**
   * One entry of `streams`: None for a non-object (skipped); otherwise the
   * stream, or the error for an empty `device_id` or a `rate_hz` that is not > 0.
   */
  function ParseStream(s: Value): (r: Result<Option<RecordStream>, StartError>)
    ensures !s.Obj? ==> r == Ok(None)
    ensures r.Ok? && r.value.Some? ==> r.value.value.deviceId != "" && r.value.value.rateHz > 0.0
  {
    if !s.Obj? then Ok(None)
    else match StringField(s, "device_id", "")
      case Err(e) => Err(e)
      case Ok(id) =>
        if id == "" then Err(Rejected(ErrorCatalog.D2400_RECORD_STREAM_MISSING_DEVICE_ID))
        else match RateField(s)
          case Err(e) => Err(e)
          case Ok(rate) =>
            if !(rate > 0.0) then Err(Rejected(ErrorCatalog.D2400_RECORD_STREAM_RATE_INVALID))
            else Ok(Some(RecordStream(id, MetricNames(ValueOf(s, "metrics", Arr([])).value), rate)))
  }

  /** The streams of a `streams` array, in order, stopping at the first error. */
  function ParseStreams(items: seq<Value>): Result<seq<RecordStream>, StartError>
  {
    if items == [] then Ok([])
    else match ParseStreams(items[..|items| - 1])
      case Err(e) => Err(e)
      case Ok(init) =>
        match ParseStream(items[|items| - 1])
        case Err(e) => Err(e)
        case Ok(None) => Ok(init)
        case Ok(Some(st)) => Ok(init + [st])
  }

  /** Every parsed stream is valid, and there is one per object entry. */
  lemma {:induction false} ParseStreamsValid(items: seq<Value>)
    requires ParseStreams(items).Ok?
    ensures var streams := ParseStreams(items).value;
      |streams| == ObjectCount(items)
      && forall i :: 0 <= i < |streams| ==> streams[i].deviceId != "" && streams[i].rateHz > 0.0
  {
    if items != [] {
      ParseStreamsValid(items[..|items| - 1]);
    }
  }

  /** How many entries are objects. */
  function ObjectCount(items: seq<Value>): (n: nat)
    ensures n <= |items|
  {
    if items == [] then 0 else ObjectCount(items[..|items| - 1]) + (if items[|items| - 1].Obj? then 1 else 0)
  }

  /** The accepted parameters of `record.start`, before a session is created. */
  datatype StartPlan = StartPlan(streams: seq<RecordStream>, scriptName: string, operatorName: string, fileBase: string)

  /**
   * `start`'s validation, in the order the source performs it: params must
   * be an object, `streams` a non-empty array, each stream valid, at least
   * one stream an object; then `script_name`, `operator` and `file_base`
   * must be strings when present.
   */
  function ParseStart(params: Value): (r: Result<StartPlan, StartError>)
    ensures r.Ok? ==> r.value.streams != []
  {
    if !params.Obj? then Err(Rejected(ErrorCatalog.D2400_RECORD_PARAMS_NOT_OBJECT))
    else
      var streams := ValueOf(params, "streams", Arr([])).value;
      if !streams.Arr? || streams.items == [] then Err(Rejected(ErrorCatalog.D2400_RECORD_STREAMS_REQUIRED))
      else match ParseStreams(streams.items)
        case Err(e) => Err(e)
        case Ok(parsed) =>
          if parsed == [] then Err(Rejected(ErrorCatalog.D2400_RECORD_NO_VALID_STREAMS))
          else match StringField(params, "script_name", "")
            case Err(e) => Err(e)
            case Ok(script) =>
              match StringField(params, "operator", "")
              case Err(e) => Err(e)
              case Ok(op) =>
                match StringField(params, "file_base", "recording")
                case Err(e) => Err(e)
                case Ok(base) => Ok(StartPlan(parsed, script, op, base))
  }

  /** The structural rejections come first, each with its own catalogued detail. */
  lemma ParseStartRejections(params: Value)
    ensures !params.Obj? ==> ParseStart(params) == Err(Rejected(ErrorCatalog.D2400_RECORD_PARAMS_NOT_OBJECT))
    ensures params.Obj? && ("streams" !in params.fields || !params.fields["streams"].Arr?
                            || params.fields["streams"].items == []) ==>
      ParseStart(params) == Err(Rejected(ErrorCatalog.D2400_RECORD_STREAMS_REQUIRED))
    ensures (params.Obj? && "streams" in params.fields && params.fields["streams"].Arr?
      && params.fields["streams"].items != [] && ParseStreams(params.fields["streams"].items) == Ok([])) ==>
      ParseStart(params) == Err(Rejected(ErrorCatalog.D2400_RECORD_NO_VALID_STREAMS))
  {
  }

  /** An accepted plan has only valid streams, one per object entry of `streams`. */
  lemma ParseStartStreams(params: Value)
    requires ParseStart(params).Ok?
    ensures params.Obj? && "streams" in params.fields && params.fields["streams"].Arr?
    ensures var plan := ParseStart(params).value;
      |plan.streams| == ObjectCount(params.fields["streams"].items) > 0
      && forall i :: 0 <= i < |plan.streams| ==> plan.streams[i].deviceId != "" && plan.streams[i].rateHz > 0.0
  {
    ParseStreamsValid(params.fields["streams"].items);
  }

  /** A stream object without `rate_hz` samples at 1 Hz and keeps only the string metrics. */
  lemma ParseStreamDefaults(s: Value)
    requires s.Obj? && "rate_hz" !in s.fields && ParseStream(s).Ok? && ParseStream(s).value.Some?
    ensures ParseStream(s).value.value.rateHz == 1.0
    ensures forall m :: m in ParseStream(s).value.value.metrics ==>
      "metrics" in s.fields && s.fields["metrics"].Arr? && Str(m) in s.fields["metrics"].items
  {
    var metrics := ValueOf(s, "metrics", Arr([])).value;
    if metrics.Arr? {
      StringItemsAreStrings(metrics.items);
    }
  }

  /** Every name kept from a metrics array was a string element of it. */
  lemma {:induction false} StringItemsAreStrings(items: seq<Value>)
    ensures forall m :: m in StringItems(items) ==> Str(m) in items
  {
    if items != [] {
      var init := items[..|items| - 1];
      StringItemsAreStrings(init);
      forall m | m in StringItems(init)
        ensures Str(m) in items
      {
        var j :| 0 <= j < |init| && init[j] == Str(m);
        assert items[j] == Str(m);
      }
    }
  }

  // ----- File base -----

  /** A character the file base keeps: an ASCII letter or digit, `_`, `-` or `.`. */
  predicate BaseChar(c: char)
  {
    ('a' <= c <= 'z') || ('A' <= c <= 'Z') || ('0' <= c <= '9') || c == '_' || c == '-' || c == '.'
  }

  /** The sanitised file base: every other character becomes `_`; an empty base becomes "recording". */
  function SanitizedBase(base: string): (out: string)
    ensures base != [] ==> |out| == |base|
    ensures forall i :: 0 <= i < |out| ==> BaseChar(out[i])
  {
    if base == [] then "recording" else seq(|base|, i requires 0 <= i < |base| => if BaseChar(base[i]) then base[i] else '_')
  }

  /** Characters the file base keeps stay where they were; the others become `_`. */
  lemma SanitizedBaseMeaning(base: string, i: nat)
    requires i < |base|
    ensures SanitizedBase(base)[i] == if BaseChar(base[i]) then base[i] else '_'
  {
  }

  /** Sanitising a sanitised base changes nothing. */
  lemma SanitizedBaseIdempotent(base: string)
    ensures SanitizedBase(SanitizedBase(base)) == SanitizedBase(base)
  {
  }

  /** The sanitising loop: each character is replaced in place, then an empty base is defaulted. */
  method SanitizeFileBase(base: string) returns (out: string)
    ensures out == SanitizedBase(base)
  {
    var chars := new char[|base|](i requires 0 <= i < |base| => base[i]);
    var i := 0;
    while i < chars.Length
      invariant 0 <= i <= chars.Length == |base|
      invariant forall j :: 0 <= j < i ==> chars[j] == if BaseChar(base[j]) then base[j] else '_'
      invariant forall j :: i <= j < chars.Length ==> chars[j] == base[j]
    {
      if !BaseChar(chars[i]) {
        chars[i] := '_';
      }
      i := i + 1;
    }
    out := chars[..];
    if out == [] {
      out := "recording";
    }
  }

  // ----- Sessions -----

  /** The per-stream schedule: the configuration, the sampling interval and the next due time. */
  datatype StreamState = StreamState(cfg: RecordStream, intervalMs: int, nextDueMs: int)

  /** `(int64_t)max(1.0, 1000.0 / rate_hz)`: at least 1 ms. */
  function IntervalMs(rateHz: real): (ms: int)
    requires rateHz > 0.0
    ensures ms >= 1
    ensures 1000.0 / rateHz >= 1.0 ==> ms as real <= 1000.0 / rateHz < ms as real + 1.0
  {
    var x := 1000.0 / rateHz;
    if x < 1.0 then 1 else Trunc(x)
  }

  /** A session's schedule at its start: every stream is first due at the start time. */
  function InitialSchedule(streams: seq<RecordStream>, startMs: int): (ss: seq<StreamState>)
    requires forall i :: 0 <= i < |streams| ==> streams[i].rateHz > 0.0
    ensures |ss| == |streams|
    ensures forall i :: 0 <= i < |ss| ==>
      ss[i].cfg == streams[i] && ss[i].intervalMs >= 1 && ss[i].nextDueMs == startMs
  {
    seq(|streams|, i requires 0 <= i < |streams| => StreamState(streams[i], IntervalMs(streams[i].rateHz), startMs))
  }

  /** One recording session as the recorder holds it; `lines` stands for the sample lines of its file. */
  datatype Session = Session(
    id: string,
    path: string,
    scriptName: string,
    operatorName: string,
    startedTsMs: int,
    schedule: seq<StreamState>,
    lines: seq<Value>,
    samplesWritten: nat)

  /** The counter matches the file and every interval is positive. */
  predicate SessionValid(s: Session)
  {
    s.samplesWritten == |s.lines| && forall i :: 0 <= i < |s.schedule| ==> s.schedule[i].intervalMs >= 1
  }

  /** What `start` returns. */
  datatype StartResult = StartResult(recordingId: string, path: string)

  /** What `stop` returns. */
  datatype StopResult = StopResult(recordingId: string, path: string, samplesWritten: nat, startedTsMs: int, stoppedTsMs: int)

  /** The recording file's path: `<dayDir>/<sanitised base>_<id>.jsonl`. */
  function RecordingPath(dayDir: string, base: string, id: string): string
  {
    dayDir + "/" + SanitizedBase(base) + "_" + id + ".jsonl"
  }

  /**
   * The session `start` creates, or its error: the validation errors, then
   * the open failure of the file.
   */
  function StartSession(params: Value, freshId: string, nowMs: int, dayDir: string, fileOpens: bool)
    : (r: Result<Session, StartError>)
    ensures r.Ok? ==> SessionValid(r.value) && r.value.id == freshId && r.value.lines == []
    ensures ParseStart(params).Err? ==> r == Err(ParseStart(params).error)
    ensures ParseStart(params).Ok? && !fileOpens ==> r == Err(Rejected(ErrorCatalog.D2400_RECORD_OPEN_FILE_FAILED))
  {
    match ParseStart(params)
    case Err(e) => Err(e)
    case Ok(plan) =>
      if !fileOpens then Err(Rejected(ErrorCatalog.D2400_RECORD_OPEN_FILE_FAILED))
      else
        ParseStartStreams(params);
        Ok(Session(freshId, RecordingPath(dayDir, plan.fileBase, freshId), plan.scriptName, plan.operatorName,
                   nowMs, InitialSchedule(plan.streams, nowMs), [], 0))
  }

  /** The summary `stop` reports for a session. */
  function StopSummary(s: Session, stoppedMs: int): StopResult
  {
    StopResult(s.id, s.path, s.samplesWritten, s.startedTsMs, stoppedMs)
  }

  /** `stop(id)`: the sessions afterwards and the result. */
  function StopSessions(sessions: map<string, Session>, id: string, stoppedMs: int)
    : (r: (map<string, Session>, Option<StopResult>))
    ensures id !in r.0
    ensures r.1.Some? <==> id in sessions
    ensures forall k :: k != id ==> (k in r.0 <==> k in sessions) && (k in r.0 ==> r.0[k] == sessions[k])
  {
    if id !in sessions then (sessions, None)
    else (sessions - {id}, Some(StopSummary(sessions[id], stoppedMs)))
  }

  /** A session is stopped at most once: a second `stop` with the same id finds nothing. */
  lemma StopExactlyOnce(sessions: map<string, Session>, id: string, t1: int, t2: int)
    ensures StopSessions(StopSessions(sessions, id, t1).0, id, t2).1.None?
    ensures StopSessions(StopSessions(sessions, id, t1).0, id, t2).0 == StopSessions(sessions, id, t1).0
  {
  }

  /** Stopping a running session reports what was written to it. */
  lemma StopReportsSession(sessions: map<string, Session>, id: string, t: int)
    requires id in sessions && sessions[id].id == id
    ensures StopSessions(sessions, id, t).1 == Some(StopResult(id, sessions[id].path, sessions[id].samplesWritten,
                                                               sessions[id].startedTsMs, t))
  {
  }

  // ----- One pass of the sampling loop -----

  /**
   * The sample line for one due stream, or None when normalising or reading
   * the normalised fields throws.
   */
  function SampleLine(cfg: RecordStream, raw: Value, now: int): (line: Option<Value>)
    ensures line.Some? ==> (line.value.Obj? && line.value.fields.Keys == {"type", "ts_ms", "device_id", "state", "measurements"}
      && line.value.fields["type"] == Str("sample") && line.value.fields["device_id"] == Str(cfg.deviceId))
  {
    match Normalize(raw, now)
    case None => None
    case Some(norm) =>
      var filt := Filter(norm, cfg.metrics);
      match (ValueInt(filt, "ts", now), ValueString(filt, "state", "unknown"), ValueOf(filt, "measurements", Obj(map[])))
      case (Some(ts), Some(state), Some(meas)) =>
        Some(Obj(map["type" := Str("sample"), "ts_ms" := Int(ts), "device_id" := Str(cfg.deviceId),
                     "state" := Str(state), "measurements" := meas]))
      case _ => None
  }

  /**
   * What polling one stream adds to the file at `now`: `readings` maps the id
   * of each registered device to its `read_measurement()` (None when it
   * throws); an unregistered device or a failure adds nothing.
   */
  function StreamLines(st: StreamState, now: int, readings: map<string, Option<Value>>): (lines: seq<Value>)
    ensures |lines| <= 1
    ensures lines != [] ==> st.nextDueMs <= now
  {
    if st.nextDueMs > now || st.cfg.deviceId !in readings then []
    else match readings[st.cfg.deviceId]
      case None => []
      case Some(raw) =>
        match SampleLine(st.cfg, raw, now)
        case None => []
        case Some(line) => [line]
  }

  /** A stream after the pass: a due stream is next due one interval after `now`. */
  function Advance(st: StreamState, now: int): (st': StreamState)
    ensures st'.cfg == st.cfg && st'.intervalMs == st.intervalMs
    ensures st.nextDueMs <= now ==> st'.nextDueMs == now + st.intervalMs
    ensures st.nextDueMs > now ==> st'.nextDueMs == st.nextDueMs
  {
    if st.nextDueMs <= now then st.(nextDueMs := now + st.intervalMs) else st
  }

  /** The lines one pass writes, in stream order. */
  function PassLines(ss: seq<StreamState>, now: int, readings: map<string, Option<Value>>): (lines: seq<Value>)
    ensures |lines| <= |ss|
  {
    if ss == [] then [] else PassLines(ss[..|ss| - 1], now, readings) + StreamLines(ss[|ss| - 1], now, readings)
  }

  /** The schedule after one pass. */
  function PassSchedule(ss: seq<StreamState>, now: int): (ss': seq<StreamState>)
    ensures |ss'| == |ss|
  {
    if ss == [] then [] else PassSchedule(ss[..|ss| - 1], now) + [Advance(ss[|ss| - 1], now)]
  }

  /** The pass advances each stream on its own. */
  lemma {:induction false} PassScheduleEach(ss: seq<StreamState>, now: int)
    ensures forall i :: 0 <= i < |ss| ==> PassSchedule(ss, now)[i] == Advance(ss[i], now)
  {
    if ss != [] {
      PassScheduleEach(ss[..|ss| - 1], now);
    }
  }

  /** The earliest next due time after the pass, capped at `now + 250`. */
  function NextWake(ss: seq<StreamState>, now: int): (wake: int)
    ensures wake <= now + 250
  {
    if ss == [] then now + 250
    else
      var w := NextWake(ss[..|ss| - 1], now);
      if ss[|ss| - 1].nextDueMs < w then ss[|ss| - 1].nextDueMs else w
  }

  /** No stream is due before the wake time. */
  lemma {:induction false} NextWakeIsEarliest(ss: seq<StreamState>, now: int)
    ensures forall i :: 0 <= i < |ss| ==> NextWake(ss, now) <= ss[i].nextDueMs
  {
    if ss != [] {
      NextWakeIsEarliest(ss[..|ss| - 1], now);
    }
  }

  /** The wake time is the cap or some stream's next due time. */
  lemma {:induction false} NextWakeAttained(ss: seq<StreamState>, now: int)
    ensures NextWake(ss, now) == now + 250 || exists i :: 0 <= i < |ss| && NextWake(ss, now) == ss[i].nextDueMs
  {
    if ss != [] {
      var init := ss[..|ss| - 1];
      NextWakeAttained(init, now);
      if NextWake(ss, now) != now + 250 && NextWake(ss, now) != ss[|ss| - 1].nextDueMs {
        var i :| 0 <= i < |init| && NextWake(init, now) == init[i].nextDueMs;
        assert ss[i] == init[i];
      }
    }
  }

  /** The sleep after a pass: the time to the next wake, clamped to [1, 100] ms. */
  function SleepMs(wake: int, nowAfter: int): (ms: int)
    ensures 1 <= ms <= 100
    ensures 1 <= wake - nowAfter <= 100 ==> ms == wake - nowAfter
  {
    if wake - nowAfter < 1 then 1 else if wake - nowAfter > 100 then 100 else wake - nowAfter
  }

  /** A session after one pass at `now`. */
  function SessionAfterPass(s: Session, now: int, readings: map<string, Option<Value>>): (s': Session)
    ensures SessionValid(s) ==> SessionValid(s')
    ensures s'.schedule == PassSchedule(s.schedule, now)
    ensures s'.samplesWritten == s.samplesWritten + |PassLines(s.schedule, now, readings)|
    ensures s'.lines == s.lines + PassLines(s.schedule, now, readings)
  {
    var lines := PassLines(s.schedule, now, readings);
    PassScheduleEach(s.schedule, now);
    s.(schedule := PassSchedule(s.schedule, now), lines := s.lines + lines, samplesWritten := s.samplesWritten + |lines|)
  }

  /** After a pass no stream is overdue: every next due time lies after `now`. */
  lemma PassLeavesNothingDue(s: Session, now: int, readings: map<string, Option<Value>>)
    requires SessionValid(s)
    ensures var ss := SessionAfterPass(s, now, readings).schedule;
      forall i :: 0 <= i < |ss| ==> ss[i].nextDueMs > now
  {
    PassScheduleEach(s.schedule, now);
  }

  /** A pass writes at most one line per due stream, and nothing when no stream is due. */
  lemma {:induction false} PassLinesOnlyWhenDue(ss: seq<StreamState>, now: int, readings: map<string, Option<Value>>)
    ensures |PassLines(ss, now, readings)| <= DueCount(ss, now)
  {
    if ss != [] {
      PassLinesOnlyWhenDue(ss[..|ss| - 1], now, readings);
    }
  }

  /** How many streams are due at `now`. */
  function DueCount(ss: seq<StreamState>, now: int): (n: nat)
    ensures n <= |ss|
  {
    if ss == [] then 0 else DueCount(ss[..|ss| - 1], now) + (if ss[|ss| - 1].nextDueMs <= now then 1 else 0)
  }

  /** The recorder's session map, keyed by recording id. */
  class Recorder {
    var sessions: map<string, Session>

    /** Every session is stored under its own id and is valid. */
    predicate Valid()
      reads this
    {
      forall k :: k in sessions ==> sessions[k].id == k && SessionValid(sessions[k])
    }

    constructor()
      ensures sessions == map[] && Valid()
    {
      sessions := map[];
    }

    /**
     * `start(params)`: validates the parameters, then registers a new
     * session under `freshId` (the random id). `nowMs` is the start time,
     * `dayDir` the day directory, and `fileOpens` whether the file opened.
     */
    method Start(params: Value, freshId: string, nowMs: int, dayDir: string, fileOpens: bool)
      returns (r: Result<StartResult, StartError>)
      requires Valid()
      modifies this
      ensures Valid()
      ensures var s := StartSession(params, freshId, nowMs, dayDir, fileOpens);
        if s.Ok? then r == Ok(StartResult(freshId, s.value.path)) && sessions == old(sessions)[freshId := s.value]
        else r == Err(s.error) && sessions == old(sessions)
    {
      if !params.Obj? {
        return Err(Rejected(ErrorCatalog.D2400_RECORD_PARAMS_NOT_OBJECT));
      }
      var streamsJson := ValueOf(params, "streams", Arr([])).value;
      if !streamsJson.Arr? || streamsJson.items == [] {
        return Err(Rejected(ErrorCatalog.D2400_RECORD_STREAMS_REQUIRED));
      }
      var streams: seq<RecordStream> := [];
      var i := 0;
      while i < |streamsJson.items|
        invariant 0 <= i <= |streamsJson.items|
        invariant ParseStreams(streamsJson.items[..i]) == Ok(streams)
      {
        assert streamsJson.items[..i + 1][..i] == streamsJson.items[..i];
        var parsed := ParseStream(streamsJson.items[i]);
        if parsed.Err? {
          ParseStreamsErrAfter(streamsJson.items, i + 1);
          return Err(parsed.error);
        }
        if parsed.value.Some? {
          streams := streams + [parsed.value.value];
        }
        i := i + 1;
      }
      assert streamsJson.items[..i] == streamsJson.items;
      if streams == [] {
        return Err(Rejected(ErrorCatalog.D2400_RECORD_NO_VALID_STREAMS));
      }
      var script := StringField(params, "script_name", "");
      if script.Err? {
        return Err(script.error);
      }
      var op := StringField(params, "operator", "");
      if op.Err? {
        return Err(op.error);
      }
      var base := StringField(params, "file_base", "recording");
      if base.Err? {
        return Err(base.error);
      }
      var safeBase := SanitizeFileBase(base.value);
      var path := dayDir + "/" + safeBase + "_" + freshId + ".jsonl";
      if !fileOpens {
        return Err(Rejected(ErrorCatalog.D2400_RECORD_OPEN_FILE_FAILED));
      }
      ParseStartStreams(params);
      var session := Session(freshId, path, script.value, op.value, nowMs, InitialSchedule(streams, nowMs), [], 0);
      sessions := sessions[freshId := session];
      r := Ok(StartResult(freshId, path));
    }

    /**
     * `stop(id)`: removes the session before reporting it, so it is reported
     * once; `stoppedMs` is the time its worker finished.
     */
    method Stop(id: string, stoppedMs: int) returns (r: Option<StopResult>)
      requires Valid()
      modifies this
      ensures Valid()
      ensures (sessions, r) == StopSessions(old(sessions), id, stoppedMs)
    {
      if id !in sessions {
        return None;
      }
      var s := sessions[id];
      sessions := sessions - {id};
      r := Some(StopResult(s.id, s.path, s.samplesWritten, s.startedTsMs, stoppedMs));
    }

    /**
     * One pass of `run_session` for session `id` at time `now`: every due
     * stream is polled, its line written and its due time advanced; the
     * result is the sleep before the next pass, taken at `nowAfter`.
     */
    method RunPass(id: string, now: int, nowAfter: int, readings: map<string, Option<Value>>) returns (sleepMs: int)
      requires Valid() && id in sessions
      modifies this
      ensures Valid()
      ensures sessions == old(sessions)[id := SessionAfterPass(old(sessions)[id], now, readings)]
      ensures sleepMs == SleepMs(NextWake(sessions[id].schedule, now), nowAfter)
    {
      var s := sessions[id];
      var schedule, lines, written, nextWake := PassOver(s.schedule, now, readings);
      var s' := s.(schedule := schedule, lines := s.lines + lines, samplesWritten := s.samplesWritten + written);
      assert s' == SessionAfterPass(s, now, readings);
      sessions := sessions[id := s'];
      sleepMs := SleepMs(nextWake, nowAfter);
    }
  }

  /**
   * The loop of one pass over a session's streams, in order: the advanced
   * schedule, the lines written, how many, and the next wake time.
   */
  method PassOver(sched: seq<StreamState>, now: int, readings: map<string, Option<Value>>)
    returns (ss: seq<StreamState>, lines: seq<Value>, written: nat, nextWake: int)
    ensures ss == PassSchedule(sched, now)
    ensures lines == PassLines(sched, now, readings) && written == |lines|
    ensures nextWake == NextWake(ss, now)
  {
    ss := [];
    lines := [];
    written := 0;
    nextWake := now + 250;
    var i := 0;
    while i < |sched|
      invariant 0 <= i <= |sched|
      invariant ss == PassSchedule(sched[..i], now)
      invariant lines == PassLines(sched[..i], now, readings)
      invariant written == |lines|
      invariant nextWake == NextWake(ss, now)
    {
      var line, st := PollStream(sched[i], now, readings);
      PassStep(sched, i, ss, now, readings);
      lines := lines + line;
      written := written + |line|;
      ss := ss + [st];
      if st.nextDueMs < nextWake {
        nextWake := st.nextDueMs;
      }
      i := i + 1;
    }
    assert sched[..i] == sched;
  }

  /** How the pass functions extend by one more stream. */
  lemma PassStep(sched: seq<StreamState>, i: nat, ss: seq<StreamState>, now: int, readings: map<string, Option<Value>>)
    requires i < |sched|
    ensures PassSchedule(sched[..i + 1], now) == PassSchedule(sched[..i], now) + [Advance(sched[i], now)]
    ensures PassLines(sched[..i + 1], now, readings) == PassLines(sched[..i], now, readings) + StreamLines(sched[i], now, readings)
    ensures var st := Advance(sched[i], now);
      NextWake(ss + [st], now) == if st.nextDueMs < NextWake(ss, now) then st.nextDueMs else NextWake(ss, now)
  {
    assert sched[..i + 1][..i] == sched[..i];
    assert (ss + [Advance(sched[i], now)])[..|ss|] == ss;
  }

  /** Polling one stream: the line it adds, if any, and its advanced schedule. */
  method PollStream(st: StreamState, now: int, readings: map<string, Option<Value>>)
    returns (line: seq<Value>, st': StreamState)
    ensures line == StreamLines(st, now, readings)
    ensures st' == Advance(st, now)
  {
    line := [];
    st' := st;
    if st.nextDueMs <= now {
      if st.cfg.deviceId in readings {
        var raw := readings[st.cfg.deviceId];
        if raw.Some? {
          var sample := SampleLine(st.cfg, raw.value, now);
          if sample.Some? {
            line := [sample.value];
          }
        }
      }
      st' := st.(nextDueMs := now + st.intervalMs);
    }
  }

  /** Once a prefix of the streams fails, the whole array fails with the same error. */
  lemma {:induction false} ParseStreamsErrAfter(items: seq<Value>, n: nat)
    requires n <= |items| && ParseStreams(items[..n]).Err?
    ensures ParseStreams(items) == ParseStreams(items[..n])
    decreases |items| - n
  {
    if n < |items| {
      assert items[..n + 1][..n] == items[..n];
      ParseStreamsErrAfter(items, n + 1);
    } else {
      assert items[..n] == items;
    }
  }
}
