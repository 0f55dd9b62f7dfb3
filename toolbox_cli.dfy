/**
 * The one-shot command-line client: argument checks and exit codes, its
 * counter-based request ids, and the read loop that waits for the reply.
 */
module ToolboxCli {
  import opened Wrappers
  import opened Json
  import opened Decimal
  import WsEndpoint

  /** `random_id`: a process-wide counter, so ids are `req_1`, `req_2`, ... */
  class RequestIds {
    var n: nat

    constructor()
      ensures n == 0
    {
      n := 0;
    }

    method Next() returns (id: string)
      modifies this
      ensures n == old(n) + 1
      ensures id == RequestId(n)
    {
      n := n + 1;
      id := "req_" + NatText(n);
    }
  }

  /** The id issued by the `n`-th call. */
  function RequestId(n: nat): (id: string)
    ensures |id| > 4 && id[..4] == "req_"
  {
    "req_" + NatText(n)
  }

  /** Successive calls never repeat an id: the counter's value can be read back from it. */
  lemma RequestIdInjective(a: nat, b: nat)
    requires RequestId(a) == RequestId(b)
    ensures a == b
  {
    assert NatText(a) == RequestId(a)[4..];
    assert NatText(b) == RequestId(b)[4..];
    NatTextRoundTrip(a);
    NatTextRoundTrip(b);
  }

  /** What `main` does before connecting: exit with a code, or connect with the parsed inputs. */
  datatype Start = Exit(code: int) | Connect(endpoint: WsEndpoint.Endpoint, verb: string, params: Value)

  /**
   * `main`'s argument checks; `argv` includes the program name and `parse`
   * stands for `json::parse`. Fewer than three arguments, params that do not
   * parse, or a URL that does not parse all exit with 2, in that order.
   */
  function CheckArgs(argv: seq<string>, parse: string -> Option<Value>): (s: Start)
    ensures |argv| < 3 ==> s == Exit(2)
    ensures s.Exit? ==> s.code == 2
    ensures s.Connect? <==> |argv| >= 3 && (|argv| >= 4 ==> parse(argv[3]).Some?)
                            && WsEndpoint.ParseWsUrl(argv[1], WsEndpoint.Endpoint("", "", "")).0
    ensures s.Connect? ==> s.verb == argv[2] && s.params == (if |argv| >= 4 then parse(argv[3]).value else Obj(map[]))
  {
    if |argv| < 3 then Exit(2)
    else
      var params := if |argv| >= 4 then parse(argv[3]) else Some(Obj(map[]));
      if params.None? then Exit(2)
      else
        var (ok, u) := WsEndpoint.ParseWsUrl(argv[1], WsEndpoint.Endpoint("", "", ""));
        if !ok then Exit(2) else Connect(u, argv[2], params.value)
  }

  /** How the read loop ends: the reply is printed, a frame makes it throw, or the frames run out. */
  datatype LoopEnd = Printed(at: nat) | Threw(at: nat) | Exhausted

  /** The frame carries `id`, or carries no id when `id` is empty (the lookup's default). */
  predicate Replies(msg: Value, id: string)
  {
    Has(msg, "id", Str(id)) || (msg.Obj? && "id" !in msg.fields && id == "")
  }

  /**
   * What one frame does: `msg.value("type", "")` throws on a non-object or a
   * non-string type, and `id` is read the same way only for an `rpc_result`.
   * None means the loop goes on.
   */
  function FrameEffect(msg: Value, id: string, i: nat): (e: Option<LoopEnd>)
    ensures e.Some? ==> e.value.Printed? || e.value.Threw?
    ensures e.Some? && e.value.Printed? ==> Has(msg, "type", Str("rpc_result")) && Replies(msg, id)
  {
    match ValueString(msg, "type", "")
    case None => Some(Threw(i))
    case Some(t) =>
      if t != "rpc_result" then None
      else match ValueString(msg, "id", "")
        case None => Some(Threw(i))
        case Some(rid) => if rid == id then Some(Printed(i)) else None
  }

  /**
   * The read loop over the frames that arrive; `frames[i]` is None when
   * frame `i` is not JSON (skipped). The loop ends at the first frame that
   * is the reply or that throws.
   */
  method AwaitReply(frames: seq<Option<Value>>, id: string) returns (end: LoopEnd)
    ensures end.Printed? ==> end.at < |frames| && frames[end.at].Some?
                             && Has(frames[end.at].value, "type", Str("rpc_result"))
                             && Replies(frames[end.at].value, id)
    ensures end.Threw? ==> end.at < |frames| && frames[end.at].Some?
                           && FrameEffect(frames[end.at].value, id, end.at) == Some(Threw(end.at))
    ensures forall i :: 0 <= i < |frames| && (end.Exhausted? || i < end.at) && frames[i].Some?
                        ==> FrameEffect(frames[i].value, id, i).None?
  {
    var i := 0;
    while i < |frames|
      invariant 0 <= i <= |frames|
      invariant forall j :: 0 <= j < i && frames[j].Some? ==> FrameEffect(frames[j].value, id, j).None?
    {
      if frames[i].Some? {
        var e := FrameEffect(frames[i].value, id, i);
        if e.Some? {
          return e.value;
        }
      }
      i := i + 1;
    }
    end := Exhausted;
  }

  /**
   * The exit code once connected: 0 after printing the reply, 1 when
   * anything throws (including the read that fails once the frames run out).
   */
  function ExitCode(end: LoopEnd): (code: int)
    ensures code == 0 <==> end.Printed?
    ensures code in {0, 1}
  {
    if end.Printed? then 0 else 1
  }

  /** A reply to another request, or any other message type, never ends the loop. */
  lemma OtherRepliesSkipped(msg: Value, id: string, i: nat)
    requires msg.Obj? && "type" in msg.fields && msg.fields["type"].Str?
    requires msg.fields["type"].sval != "rpc_result"
             || ("id" in msg.fields && msg.fields["id"].Str? && msg.fields["id"].sval != id)
    ensures FrameEffect(msg, id, i).None?
  {
  }

  /** A frame that is JSON but not an object makes the client exit with 1. */
  lemma NonObjectFrameExits(msg: Value, id: string, i: nat)
    requires !msg.Obj?
    ensures FrameEffect(msg, id, i) == Some(Threw(i)) && ExitCode(Threw(i)) == 1
  {
  }
}
