/**
 * The Python toolbox client: how `call` turns a reply into a result or an
 * `RpcError`, how that error prints, and `load_recording_jsonl`, which reads
 * a recording file back into its header, samples and footer.
 */
module ToolboxClient {
  import opened Wrappers
  import opened Json
  import ErrorCatalog
  import Dispatch
  import WsEndpoint

  /** `d.get(key)` on a dict: the member, or None (JSON null) when it is absent. */
  function Get(d: Value, key: string): (v: Value)
    requires d.Obj?
    ensures key !in d.fields ==> v == Null
    ensures key in d.fields ==> v == d.fields[key]
  {
    if key in d.fields then d.fields[key] else Null
  }

  /** Python's `a or b`. */
  function Or(a: Value, b: Value): (v: Value)
    ensures Truthy(a) ==> v == a
    ensures !Truthy(a) ==> v == b
  {
    if Truthy(a) then a else b
  }

  /** `str(v)`: a string is itself; `show` stands for Python's rendering of every other value. */
  function PyStr(v: Value, show: Value -> string): (s: string)
    ensures v.Str? ==> s == v.sval
  {
    if v.Str? then v.sval else show(v)
  }

  /** The error `call` raises. A JSON null `details` is Python's None. */
  datatype RpcError = RpcError(code: string, message: string, details: Value)

  /** `RpcError.__str__`: `code: message`, then ` (details)` unless the details are None. */
  function ErrorText(e: RpcError, show: Value -> string): (t: string)
    ensures var base := e.code + ": " + e.message;
      |t| >= |base| && t[..|base|] == base
      && (e.details.Null? <==> |t| == |base|)
      && (!e.details.Null? ==> |t| >= |base| + 3 && t[|base|..|base| + 2] == " (" && t[|t| - 1] == ')'
                               && t[|base| + 2..|t| - 1] == PyStr(e.details, show))
  {
    var base := e.code + ": " + e.message;
    if e.details.Null? then base else base + " (" + PyStr(e.details, show) + ")"
  }

  /** A code without a colon reads back from the text as everything before its first colon. */
  lemma ErrorTextCode(e: RpcError, show: Value -> string)
    requires ':' !in e.code
    ensures var t := ErrorText(e, show); WsEndpoint.Find(t, ':') == Some(|e.code|) && t[..|e.code|] == e.code
  {
    var t := ErrorText(e, show);
    var base := e.code + ": " + e.message;
    assert t[..|base|] == base;
    assert t[..|e.code|] == base[..|e.code|] == e.code;
    assert t[|e.code|] == base[|e.code|] == ':';
    WsEndpoint.FindFirst(t, ':', |e.code|);
  }

  /** What `call` does with the reply: return its result, raise an `RpcError`, or fail on a `.get` of a non-dict. */
  datatype CallOutcome = Returned(result: Value) | Raised(error: RpcError) | Crashed

  /**
   * `call` after the reply `resp` arrives. A dict with a truthy `ok` returns
   * its `result`; otherwise `(resp or {}).get("error") or {}` supplies the
   * code (default "error"), the message (default "RPC failed") and the details.
   */
  function CallResult(resp: Value, show: Value -> string): (r: CallOutcome)
    ensures r.Returned? <==> resp.Obj? && Truthy(Get(resp, "ok"))
    ensures r.Returned? ==> r.result == Get(resp, "result")
    ensures r.Raised? && !resp.Obj? ==> r.error == RpcError("error", "RPC failed", Null)
    ensures r.Crashed? <==> (!resp.Obj? && Truthy(resp))
                            || (resp.Obj? && !Truthy(Get(resp, "ok")) && Truthy(Get(resp, "error")) && !Get(resp, "error").Obj?)
  {
    if resp.Obj? && Truthy(Get(resp, "ok")) then Returned(Get(resp, "result"))
    else
      var outer := Or(resp, Obj(map[]));
      if !outer.Obj? then Crashed
      else
        var err := Or(Get(outer, "error"), Obj(map[]));
        if !err.Obj? then Crashed
        else Raised(RpcError(
          PyStr(Or(Get(err, "code"), Str("error")), show),
          PyStr(Or(Get(err, "message"), Str("RPC failed")), show),
          Get(err, "details")))
  }

  /** The server's success envelope returns its result. */
  lemma OkReturnsResult(id: string, result: Value, show: Value -> string)
    ensures CallResult(Dispatch.RpcOk(id, result), show) == Returned(result)
  {
  }

  /**
   * Every rejection the server sends raises an `RpcError` carrying code
   * "2400", the catalogue message for the detail, and the details object.
   */
  lemma RejectionRaises(id: string, detail: string, extra: map<string, Value>, show: Value -> string)
    requires "detail" !in extra
    ensures CallResult(Dispatch.Rejected(id, detail, extra), show)
            == Raised(RpcError("2400", ErrorCatalog.FormatControlRejected(detail), Obj(map["detail" := Str(detail)] + extra)))
  {
    ErrorCatalog.CodeStringOfE2400();
  }

  /** A failed reply without an error object raises with the defaults and no details. */
  lemma DefaultsWithoutError(resp: Value, show: Value -> string)
    requires resp.Obj? && !Truthy(Get(resp, "ok")) && !Truthy(Get(resp, "error"))
    ensures CallResult(resp, show) == Raised(RpcError("error", "RPC failed", Null))
  {
    assert Or(resp, Obj(map[])).Obj?;
  }

  /** An empty code or message in the reply is replaced by the default too. */
  lemma EmptyCodeDefaults(resp: Value, message: string, show: Value -> string)
    requires resp.Obj? && !Truthy(Get(resp, "ok"))
    requires Get(resp, "error") == Obj(map["code" := Str(""), "message" := Str(message)])
    ensures CallResult(resp, show) == Raised(RpcError("error", if message == "" then "RPC failed" else message, Null))
  {
    assert Or(resp, Obj(map[])).Obj?;
  }

  /** Python's `str.strip()` white space (the ASCII part). */
  predicate IsSpace(c: char)
  {
    c == ' ' || c == '\t' || c == '\n' || c == '\r' || c == 11 as char || c == 12 as char
    || c == 28 as char || c == 29 as char || c == 30 as char || c == 31 as char
  }

  /** `line.strip()`. */
  function Strip(s: string): (t: string)
    ensures |t| <= |s|
    ensures t != [] ==> !IsSpace(t[0]) && !IsSpace(t[|t| - 1])
    ensures t == [] <==> forall i :: 0 <= i < |s| ==> IsSpace(s[i])
    decreases |s|
  {
    if s == [] then s
    else if IsSpace(s[0]) then Strip(s[1..])
    else if IsSpace(s[|s| - 1]) then
      var t := Strip(s[..|s| - 1]);
      assert s[0] == s[..|s| - 1][0];
      t
    else s
  }

  /** What a line yields: None for a blank line or one `json.loads` rejects (`parse`), else the parsed value. */
  function Entry(line: string, parse: string -> Option<Value>): (e: Option<Value>)
    ensures Strip(line) == [] ==> e.None?
  {
    var s := Strip(line);
    if s == [] then None else parse(s)
  }

  /** What the loader has gathered so far. */
  datatype Recording = Recording(header: Option<Value>, samples: seq<Value>, footer: Option<Value>)

  const EMPTY: Recording := Recording(None, [], None)

  /** The entry is an object whose `type` is `t`. */
  predicate IsKind(e: Option<Value>, t: string)
  {
    e.Some? && e.value.Obj? && Get(e.value, "type") == Str(t)
  }

  /** The entry is parsed JSON that is not a dict, so `obj.get` raises. */
  predicate Raises(e: Option<Value>)
  {
    e.Some? && !e.value.Obj?
  }

  /** One parsed line added to what the loader has; None when `obj.get` raises. */
  function Absorb(r: Recording, obj: Value): (r': Option<Recording>)
    ensures r'.None? <==> !obj.Obj?
  {
    if !obj.Obj? then None
    else
      var t := Get(obj, "type");
      if t == Str("stonegate_recording") && r.header.None? then Some(r.(header := Some(obj)))
      else if t == Str("sample") then Some(r.(samples := r.samples + [obj]))
      else if t == Str("stop") then Some(r.(footer := Some(obj)))
      else Some(r)
  }

  /** The loader's result for the entries, in file order; None when it raises. */
  function Load(es: seq<Option<Value>>): Option<Recording>
  {
    if es == [] then Some(EMPTY)
    else match Load(es[..|es| - 1])
      case None => None
      case Some(r) => if es[|es| - 1].None? then Some(r) else Absorb(r, es[|es| - 1].value)
  }

  /** The entries of a file's lines. */
  function Entries(lines: seq<string>, parse: string -> Option<Value>): (es: seq<Option<Value>>)
    ensures |es| == |lines| && forall i :: 0 <= i < |lines| ==> es[i] == Entry(lines[i], parse)
  {
    seq(|lines|, i requires 0 <= i < |lines| => Entry(lines[i], parse))
  }

  /**
   * `load_recording_jsonl` over the lines of the file; None when it raises.
   * The `header`/`samples`/`footer` dict it returns is the `Recording`.
   */
  method LoadRecordingJsonl(lines: seq<string>, parse: string -> Option<Value>) returns (r: Option<Recording>)
    ensures r == Load(Entries(lines, parse))
  {
    ghost var es := Entries(lines, parse);
    var header: Option<Value> := None;
    var footer: Option<Value> := None;
    var samples: seq<Value> := [];
    var i := 0;
    while i < |lines|
      invariant 0 <= i <= |lines|
      invariant Load(es[..i]) == Some(Recording(header, samples, footer))
    {
      assert es[..i + 1][..i] == es[..i];
      var line := Strip(lines[i]);
      if line != [] {
        var parsed := parse(line);
        if parsed.Some? {
          var obj := parsed.value;
          if !obj.Obj? {
            LoadStaysRaised(es, i + 1, |es|);
            assert es[..|es|] == es;
            return None;
          }
          var t := Get(obj, "type");
          if t == Str("stonegate_recording") && header.None? {
            header := Some(obj);
          } else if t == Str("sample") {
            samples := samples + [obj];
          } else if t == Str("stop") {
            footer := Some(obj);
          }
        }
      }
      i := i + 1;
    }
    assert es[..i] == es;
    r := Some(Recording(header, samples, footer));
  }

  /** Once the loader has raised, later lines do not matter. */
  lemma {:induction false} LoadStaysRaised(es: seq<Option<Value>>, i: nat, k: nat)
    requires i <= k <= |es| && Load(es[..i]).None?
    ensures Load(es[..k]).None?
    decreases k - i
  {
    if i < k {
      assert es[..i + 1][..i] == es[..i];
      LoadStaysRaised(es, i + 1, k);
    }
  }

  /** The loader raises exactly when some line parses to JSON that is not a dict. */
  lemma {:induction false} RaisesIff(es: seq<Option<Value>>)
    ensures Load(es).None? <==> exists i :: 0 <= i < |es| && Raises(es[i])
  {
    if es != [] {
      var init := es[..|es| - 1];
      RaisesIff(init);
      if Load(init).None? {
        var i :| 0 <= i < |init| && Raises(init[i]);
        assert Raises(es[i]);
      } else {
        assert forall i :: 0 <= i < |init| ==> init[i] == es[i];
      }
    }
  }

  /** The `sample` entries, in order. */
  function Samples(es: seq<Option<Value>>): (s: seq<Value>)
    ensures |s| <= |es|
  {
    if es == [] then []
    else Samples(es[..|es| - 1]) + (if IsKind(es[|es| - 1], "sample") then [es[|es| - 1].value] else [])
  }

  /** The samples are every `sample` line, in file order. */
  lemma {:induction false} SamplesInOrder(es: seq<Option<Value>>)
    requires Load(es).Some?
    ensures Load(es).value.samples == Samples(es)
  {
    if es != [] {
      SamplesInOrder(es[..|es| - 1]);
    }
  }

  /** Before any header line, no header is set. */
  lemma {:induction false} NoHeaderYet(es: seq<Option<Value>>)
    requires Load(es).Some?
    requires forall j :: 0 <= j < |es| ==> !IsKind(es[j], "stonegate_recording")
    ensures Load(es).value.header.None?
  {
    if es != [] {
      NoHeaderYet(es[..|es| - 1]);
    }
  }

  /** The header is the first `stonegate_recording` line; later ones are ignored. */
  lemma {:induction false} FirstHeaderWins(es: seq<Option<Value>>, i: nat)
    requires Load(es).Some?
    requires i < |es| && IsKind(es[i], "stonegate_recording")
    requires forall j :: 0 <= j < i ==> !IsKind(es[j], "stonegate_recording")
    ensures Load(es).value.header == Some(es[i].value)
  {
    var init := es[..|es| - 1];
    assert Load(init).Some?;
    if i == |es| - 1 {
      NoHeaderYet(init);
    } else {
      FirstHeaderWins(init, i);
    }
  }

  /** With no `stop` line the footer is None. */
  lemma {:induction false} NoStop(es: seq<Option<Value>>)
    requires Load(es).Some?
    requires forall j :: 0 <= j < |es| ==> !IsKind(es[j], "stop")
    ensures Load(es).value.footer.None?
  {
    if es != [] {
      NoStop(es[..|es| - 1]);
    }
  }

  /** The footer is the last `stop` line. */
  lemma {:induction false} LastStopWins(es: seq<Option<Value>>, i: nat)
    requires Load(es).Some?
    requires i < |es| && IsKind(es[i], "stop")
    requires forall j :: i < j < |es| ==> !IsKind(es[j], "stop")
    ensures Load(es).value.footer == Some(es[i].value)
  {
    var init := es[..|es| - 1];
    assert Load(init).Some?;
    if i < |es| - 1 {
      LastStopWins(init, i);
    }
  }

  /** Blank lines, and lines that do not parse, change nothing. */
  lemma SkippedLine(es: seq<Option<Value>>)
    ensures Load(es + [None]) == Load(es)
  {
    assert (es + [None])[..|es|] == es;
  }
}
