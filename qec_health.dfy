/**
 * The QEC-health HTTP helper: it reads a flattened device snapshot, scores
 * the hardware's health, recommends what to do, and routes its three
 * endpoints.
 */
module QecHealth {
  import opened Wrappers
  import opened Json
  import LaunchArgs

  /** `clamp01`. */
  function Clamp01(x: real): (r: real)
    ensures 0.0 <= r <= 1.0
    ensures 0.0 <= x <= 1.0 ==> r == x
    ensures x < 0.0 ==> r == 0.0
    ensures x > 1.0 ==> r == 1.0
  {
    if x < 0.0 then 0.0 else if x > 1.0 then 1.0 else x
  }

  lemma Clamp01Monotone(x: real, y: real)
    requires x <= y
    ensures Clamp01(x) <= Clamp01(y)
  {
  }

  /** `get<int>()` on an integer: the value taken modulo 2^32 into the `int` range. */
  function ToInt32(i: int): (r: int)
    ensures LaunchArgs.INT_MIN <= r <= LaunchArgs.INT_MAX
    ensures LaunchArgs.INT_MIN <= i <= LaunchArgs.INT_MAX ==> r == i
    ensures (r - i) % 0x1_0000_0000 == 0
  {
    (i + 0x8000_0000) % 0x1_0000_0000 - 0x8000_0000
  }

  /** The member `key` of `obj`, when `obj` is an object that has it. */
  function Member(obj: Value, key: string): (v: Option<Value>)
    ensures v.Some? <==> Contains(obj, key)
    ensures v.Some? ==> v.value == obj.fields[key]
  {
    if obj.Obj? && key in obj.fields then Some(obj.fields[key]) else None
  }

  /**
   * `json_number`: a number, a string `stod` reads, or a boolean as 1/0;
   * anything else, or no such member, gives nothing.
   */
  function JsonNumber(obj: Value, key: string, stod: string -> Option<real>): (r: Option<real>)
    ensures Member(obj, key).None? ==> r.None?
    ensures Member(obj, key).Some? && IsNumber(Member(obj, key).value) ==> r == AsReal(Member(obj, key).value)
    ensures r.Some? ==> Member(obj, key).Some? && (IsNumber(obj.fields[key]) || obj.fields[key].Str? || obj.fields[key].Bool?)
  {
    match Member(obj, key)
    case None => None
    case Some(v) =>
      if IsNumber(v) then AsReal(v)
      else if v.Str? then stod(v.sval)
      else if v.Bool? then Some(if v.bval then 1.0 else 0.0)
      else None
  }

  /** `json_string`: the member when it is a string, the default otherwise. */
  function JsonString(obj: Value, key: string, def: string): (s: string)
    ensures Member(obj, key).Some? && Member(obj, key).value.Str? ==> s == obj.fields[key].sval
    ensures Member(obj, key).None? || !Member(obj, key).value.Str? ==> s == def
  {
    match Member(obj, key)
    case Some(Str(s)) => s
    case _ => def
  }

  /**
   * `json_bool`: a boolean as it is, an integer as "non-zero" (after the
   * conversion to `int`), a string as "one of 1, true, True"; anything
   * else, or no such member, gives the default.
   */
  function JsonBool(obj: Value, key: string, def: bool): (b: bool)
    ensures Member(obj, key).None? ==> b == def
    ensures Member(obj, key).Some? ==> var v := obj.fields[key];
      (v.Bool? ==> b == v.bval)
      && (v.Int? ==> (b <==> ToInt32(v.ival) != 0))
      && (v.Str? ==> (b <==> v.sval in {"1", "true", "True"}))
      && (!v.Bool? && !v.Int? && !v.Str? ==> b == def)
  {
    match Member(obj, key)
    case None => def
    case Some(v) =>
      match v
      case Bool(x) => x
      case Int(i) => ToInt32(i) != 0
      case Str(s) => s == "1" || s == "true" || s == "True"
      case _ => def
  }

  /**
   * `json_int`: an integer converted to `int`, a float truncated, a string
   * through `std::stoi` (the default when that throws); anything else, or no
   * such member, gives the default.
   */
  function JsonInt(obj: Value, key: string, def: int): (n: int)
    ensures Member(obj, key).None? ==> n == def
    ensures Member(obj, key).Some? ==> var v := obj.fields[key];
      (v.Int? ==> n == ToInt32(v.ival))
      && (v.Float? ==> n == Trunc(v.fval))
      && (v.Str? ==> n == (if LaunchArgs.Stoi(v.sval).Some? then LaunchArgs.Stoi(v.sval).value else def))
      && (!IsNumber(v) && !v.Str? ==> n == def)
  {
    match Member(obj, key)
    case None => def
    case Some(v) =>
      match v
      case Int(i) => ToInt32(i)
      case Float(x) => Trunc(x)
      case Str(s) => if LaunchArgs.Stoi(s).Some? then LaunchArgs.Stoi(s).value else def
      case _ => def
  }

  /** `recommended_repetition_rounds`: noisier hardware gets more rounds. */
  function RecommendedRounds(pFlip: real): (rounds: int)
    ensures rounds in {3, 5, 7, 9}
    ensures rounds == 3 <==> pFlip <= 0.03
    ensures rounds == 9 <==> pFlip > 0.12
  {
    if pFlip <= 0.03 then 3
    else if pFlip <= 0.06 then 5
    else if pFlip <= 0.12 then 7
    else 9
  }

  lemma RecommendedRoundsMonotone(p1: real, p2: real)
    requires p1 <= p2
    ensures RecommendedRounds(p1) <= RecommendedRounds(p2)
  {
  }

  /** The readings the assessment works from, each already normalised to [0, 1]. */
  datatype Readings = Readings(pNorm: real, syndrome: real, leakage: real)

  predicate Normalised(r: Readings)
  {
    0.0 <= r.pNorm <= 1.0 && 0.0 <= r.syndrome <= 1.0 && 0.0 <= r.leakage <= 1.0
  }

  const LEAK_LIMIT: real := 0.15
  const NOISE_LIMIT: real := 0.45
  const SYNDROME_LIMIT: real := 0.5

  /** `health_score`: one minus the weighted readings, clamped. */
  function HealthScore(r: Readings): (h: real)
    ensures 0.0 <= h <= 1.0
  {
    Clamp01(1.0 - (0.45 * r.pNorm + 0.35 * r.syndrome + 0.20 * r.leakage))
  }

  /** For normalised readings the clamp never bites, and high noise alone caps the score. */
  lemma HealthScoreUnclamped(r: Readings)
    requires Normalised(r)
    ensures HealthScore(r) == 1.0 - (0.45 * r.pNorm + 0.35 * r.syndrome + 0.20 * r.leakage)
    ensures r.pNorm >= NOISE_LIMIT ==> HealthScore(r) <= 1.0 - 0.45 * NOISE_LIMIT
  {
  }

  /** The recommendation and the actions, built check by check as the helper does. */
  datatype Assessment = Assessment(recommendation: string, actions: seq<Value>)

  function Action(name: string, key: string, arg: Value): Value
  {
    Obj(map["action" := Str(name), key := arg])
  }

  /** What the helper recommends: the first triggered check names it, and each triggered check adds its action in order. */
  function Assess(r: Readings, pFlip: real, qecId: string, leakId: string): (a: Assessment)
    ensures a.recommendation in {"ok", "leakage_detected", "high_noise", "syndrome_spike"}
    ensures a.recommendation == "leakage_detected" <==> r.leakage >= LEAK_LIMIT
    ensures a.recommendation == "high_noise" <==> r.leakage < LEAK_LIMIT && r.pNorm >= NOISE_LIMIT
    ensures a.recommendation == "syndrome_spike" <==>
              r.leakage < LEAK_LIMIT && r.pNorm < NOISE_LIMIT && r.syndrome >= SYNDROME_LIMIT
    ensures a.recommendation == "ok" <==> a.actions == []
    ensures a.actions == (if r.leakage >= LEAK_LIMIT then [Action("leak.reset", "device_id", Str(leakId))] else [])
                         + (if r.pNorm >= NOISE_LIMIT then [Action("qec.increase_rounds", "suggested_rounds", Int(RecommendedRounds(pFlip)))] else [])
                         + (if r.syndrome >= SYNDROME_LIMIT then [Action("qec.extract_syndrome", "device_id", Str(qecId))] else [])
  {
    var a1 := if r.leakage >= LEAK_LIMIT
              then Assessment("leakage_detected", [Action("leak.reset", "device_id", Str(leakId))])
              else Assessment("ok", []);
    var a2 := if r.pNorm >= NOISE_LIMIT
              then Assessment(if a1.recommendation == "ok" then "high_noise" else a1.recommendation,
                              a1.actions + [Action("qec.increase_rounds", "suggested_rounds", Int(RecommendedRounds(pFlip)))])
              else a1;
    if r.syndrome >= SYNDROME_LIMIT
    then Assessment(if a2.recommendation == "ok" then "syndrome_spike" else a2.recommendation,
                    a2.actions + [Action("qec.extract_syndrome", "device_id", Str(qecId))])
    else a2
  }

  /** `suggested_rounds`: the requested rounds when positive, the recommendation otherwise. */
  function SuggestedRounds(rounds: int, pFlip: real): (n: int)
    ensures n > 0
    ensures rounds > 0 ==> n == rounds
    ensures rounds <= 0 ==> n == RecommendedRounds(pFlip)
  {
    if rounds > 0 then rounds else RecommendedRounds(pFlip)
  }

  /**
   * What `analyze_once` depends on besides the request: the snapshot
   * `poll_all_flat` returns (the exception text when it throws), the clock, the
   * benchmark RPC (`bench(p_flip, rounds, shots)`, an error text when it
   * throws) and `stod`.
   */
  datatype World = World(snapshot: Result<map<string, Value>, string>, nowMs: int,
                         bench: (real, int, int) -> Result<Value, string>,
                         stod: string -> Option<real>)

  /** `snap.value(id, json::object())`. */
  function DeviceStatus(snap: map<string, Value>, id: string): Value
  {
    if id in snap then snap[id] else Obj(map[])
  }

  /** `p_flip`: the syndrome device's, else the QEC device's, else 0.01 (not clamped). */
  function PFlip(syn: Value, qec: Value, stod: string -> Option<real>): (p: real)
    ensures JsonNumber(syn, "p_flip", stod).Some? ==> p == JsonNumber(syn, "p_flip", stod).value
    ensures JsonNumber(syn, "p_flip", stod).None? && JsonNumber(qec, "p_flip", stod).None? ==> p == 0.01
  {
    match JsonNumber(syn, "p_flip", stod)
    case Some(p) => p
    case None =>
      match JsonNumber(qec, "p_flip", stod)
      case Some(p) => p
      case None => 0.01
  }

  /** The readings taken from the three devices' statuses. */
  function ReadingsOf(syn: Value, qec: Value, leak: Value, stod: string -> Option<real>): (r: Readings)
    ensures Normalised(r)
    ensures r.pNorm == Clamp01(PFlip(syn, qec, stod) / 0.35)
  {
    var sBit := match JsonNumber(syn, "syndrome_bit", stod)
      case Some(x) => x
      case None => match JsonNumber(qec, "syndrome", stod) case Some(x) => x case None => 0.0;
    var leakage := match JsonNumber(leak, "leakage_fraction", stod) case Some(x) => x case None => 0.0;
    Readings(Clamp01(PFlip(syn, qec, stod) / 0.35), Clamp01(sBit), Clamp01(leakage))
  }

  /** What `analyze_once` works out from the request and the snapshot, before it writes the report. */
  datatype Analysis = Analysis(wsUrl: string, qecId: string, synId: string, leakId: string,
                               pFlip: real, readings: Readings, assessment: Assessment, suggested: int)

  function Analyze(req: Value, defaultWsUrl: string, snap: map<string, Value>, stod: string -> Option<real>): (an: Analysis)
    ensures an.wsUrl == JsonString(req, "ws_url", defaultWsUrl)
    ensures Normalised(an.readings)
    ensures an.assessment == Assess(an.readings, an.pFlip, an.qecId, an.leakId)
    ensures an.suggested == SuggestedRounds(JsonInt(req, "rounds", 0), an.pFlip)
  {
    var qecId := JsonString(req, "qec_device_id", "qec0");
    var synId := JsonString(req, "syndrome_device_id", "syn0");
    var leakId := JsonString(req, "leak_device_id", "leak0");
    var syn := DeviceStatus(snap, synId);
    var qec := DeviceStatus(snap, qecId);
    var leak := DeviceStatus(snap, leakId);
    var pFlip := PFlip(syn, qec, stod);
    var r := ReadingsOf(syn, qec, leak, stod);
    Analysis(JsonString(req, "ws_url", defaultWsUrl), qecId, synId, leakId, pFlip, r,
             Assess(r, pFlip, qecId, leakId), SuggestedRounds(JsonInt(req, "rounds", 0), pFlip))
  }

  /** The report's members, before the benchmark is added. */
  function Report(an: Analysis, nowMs: int): (m: map<string, Value>)
    ensures "benchmark" !in m && "benchmark_error" !in m
    ensures "recommendation" in m && "actions" in m && "health_score" in m && "suggested_rounds" in m && "ws_url" in m
    ensures m["recommendation"] == Str(an.assessment.recommendation) && m["actions"] == Arr(an.assessment.actions)
    ensures m["health_score"] == Float(HealthScore(an.readings)) && m["suggested_rounds"] == Int(an.suggested)
    ensures m["ws_url"] == Str(an.wsUrl)
  {
    map[
      "ws_url" := Str(an.wsUrl),
      "qec_device_id" := Str(an.qecId),
      "syndrome_device_id" := Str(an.synId),
      "leak_device_id" := Str(an.leakId),
      "p_flip" := Float(an.pFlip),
      "syndrome_bit" := Float(an.readings.syndrome),
      "leakage_fraction" := Float(an.readings.leakage),
      "health_score" := Float(HealthScore(an.readings)),
      "recommendation" := Str(an.assessment.recommendation),
      "suggested_rounds" := Int(an.suggested),
      "actions" := Arr(an.assessment.actions),
      "ts_ms" := Int(nowMs)]
  }

  /**
   * The benchmark member: none without `do_benchmark`, else `benchmark` or
   * `benchmark_error` from the benchmark RPC's outcome.
   */
  function BenchmarkFields(doBenchmark: bool, outcome: Result<Value, string>): (m: map<string, Value>)
    ensures !doBenchmark ==> m == map[]
    ensures doBenchmark && outcome.Ok? ==> m == map["benchmark" := outcome.value]
    ensures doBenchmark && outcome.Err? ==> m == map["benchmark_error" := Str(outcome.error)]
  {
    if !doBenchmark then map[]
    else match outcome
      case Ok(b) => map["benchmark" := b]
      case Err(e) => map["benchmark_error" := Str(e)]
  }

  /**
   * `analyze_once(req, default_ws_url)`: the report, or the text of the
   * exception the poll throws. With `do_benchmark` (default true) the
   * benchmark runs with the suggested rounds and its result or error is added.
   */
  function AnalyzeOnce(req: Value, defaultWsUrl: string, w: World): (out: Result<Value, string>)
    ensures out.Ok? <==> w.snapshot.Ok?
    ensures out.Err? ==> out == Err(w.snapshot.error)
    ensures out.Ok? ==> var an := Analyze(req, defaultWsUrl, w.snapshot.value, w.stod);
      out.value == Obj(Report(an, w.nowMs) + BenchmarkFields(JsonBool(req, "do_benchmark", true),
                                                            w.bench(an.pFlip, an.suggested, JsonInt(req, "shots", 500))))
  {
    if w.snapshot.Err? then Err(w.snapshot.error)
    else
      var an := Analyze(req, defaultWsUrl, w.snapshot.value, w.stod);
      var doBenchmark := JsonBool(req, "do_benchmark", true);
      var bench := if doBenchmark then w.bench(an.pFlip, an.suggested, JsonInt(req, "shots", 500)) else Err("");
      Ok(Obj(Report(an, w.nowMs) + BenchmarkFields(doBenchmark, bench)))
  }

  /** The report carries a benchmark member exactly when `do_benchmark` (default true) asks for one, and keeps every other member. */
  lemma BenchmarkIff(req: Value, defaultWsUrl: string, w: World)
    requires w.snapshot.Ok?
    ensures var out := AnalyzeOnce(req, defaultWsUrl, w).value;
      out.Obj? && ("benchmark" in out.fields || "benchmark_error" in out.fields <==> JsonBool(req, "do_benchmark", true))
      && Report(Analyze(req, defaultWsUrl, w.snapshot.value, w.stod), w.nowMs).Keys <= out.fields.Keys
  {
  }

  /** The HTTP methods the helper tells apart. */
  datatype Verb = Options | Get | Post | OtherVerb

  /** A response: its status and its JSON body (None for the empty preflight body). */
  datatype Response = Response(status: int, body: Option<Value>)

  /**
   * `handle_request`: CORS preflight, the health probe, the analysis
   * endpoint, and 404 for everything else; `parse` stands for `json::parse`.
   */
  function HandleRequest(verb: Verb, target: string, body: string, parse: string -> Option<Value>,
                         defaultWsUrl: string, w: World): (res: Response)
    ensures verb == Options ==> res == Response(204, None)
    ensures verb == Get && target == "/health" ==> res == Response(200, Some(Obj(map["ok" := Bool(true)])))
    ensures verb == Post && target == "/analyze/qec_health" && parse(body).None?
            ==> res == Response(400, Some(Obj(map["error" := Str("invalid JSON")])))
    ensures res.status == 404 <==> !(verb == Options || (verb == Get && target == "/health")
                                     || (verb == Post && target == "/analyze/qec_health"))
    ensures verb == Post && target == "/analyze/qec_health" && parse(body).Some? ==>
              var out := AnalyzeOnce(parse(body).value, defaultWsUrl, w);
              res == if out.Ok? then Response(200, Some(out.value)) else Response(500, Some(Obj(map["error" := Str(out.error)])))
  {
    if verb == Options then Response(204, None)
    else if verb == Get && target == "/health" then Response(200, Some(Obj(map["ok" := Bool(true)])))
    else if verb == Post && target == "/analyze/qec_health" then
      match parse(body)
      case None => Response(400, Some(Obj(map["error" := Str("invalid JSON")])))
      case Some(payload) =>
        match AnalyzeOnce(payload, defaultWsUrl, w)
        case Ok(out) => Response(200, Some(out))
        case Err(e) => Response(500, Some(Obj(map["error" := Str(e)])))
    else Response(404, Some(Obj(map["error" := Str("not found")])))
  }

  /** A successful analysis always reports a recommendation among the four, with a score in [0, 1]. */
  lemma AnalysisReport(req: Value, defaultWsUrl: string, w: World)
    requires w.snapshot.Ok?
    ensures var out := AnalyzeOnce(req, defaultWsUrl, w).value;
      out.Obj? && {"recommendation", "health_score", "actions"} <= out.fields.Keys
      && out.fields["recommendation"].Str?
      && out.fields["recommendation"].sval in {"ok", "leakage_detected", "high_noise", "syndrome_spike"}
      && out.fields["health_score"].Float? && 0.0 <= out.fields["health_score"].fval <= 1.0
      && (out.fields["recommendation"] == Str("ok") <==> out.fields["actions"] == Arr([]))
  {
    var an := Analyze(req, defaultWsUrl, w.snapshot.value, w.stod);
    var m := Report(an, w.nowMs);
    var b := BenchmarkFields(JsonBool(req, "do_benchmark", true), w.bench(an.pFlip, an.suggested, JsonInt(req, "shots", 500)));
    var out := AnalyzeOnce(req, defaultWsUrl, w).value;
    assert out.fields == m + b;
    assert "recommendation" !in b && "health_score" !in b && "actions" !in b;
    assert out.fields["recommendation"] == m["recommendation"] == Str(an.assessment.recommendation);
    assert out.fields["actions"] == m["actions"] == Arr(an.assessment.actions);
    assert out.fields["health_score"] == m["health_score"];
  }
}
