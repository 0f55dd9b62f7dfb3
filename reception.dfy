/**
 * The reception manager: an ordered list of script runners and the loop that
 * offers each instruction of a script to them in turn.
 */
module Reception {
  /** One script instruction: an operation name and string arguments. */
  datatype Instruction = Instruction(op: string, params: map<string, string>)

  /** A registered runner, known by a name of its own. */
  type RunnerId = string

  /** One call of `runInstruction`: which runner was offered which instruction. */
  datatype Call = Call(runner: RunnerId, instr: Instruction)

  /** Some registered runner accepts the instruction. */
  predicate Handled(runners: seq<RunnerId>, instr: Instruction, accepts: (RunnerId, Instruction) -> bool)
  {
    exists m :: 0 <= m < |runners| && accepts(runners[m], instr)
  }

  /** Every instruction of the script is accepted by some runner. */
  predicate ScriptOk(runners: seq<RunnerId>, script: seq<Instruction>, accepts: (RunnerId, Instruction) -> bool)
  {
    forall j :: 0 <= j < |script| ==> Handled(runners, script[j], accepts)
  }

  /** The calls made for one instruction: runners in order, up to and including the first that accepts. */
  function Attempts(runners: seq<RunnerId>, instr: Instruction, accepts: (RunnerId, Instruction) -> bool): (calls: seq<Call>)
    ensures |calls| <= |runners|
    ensures forall c :: c in calls ==> c.instr == instr
  {
    if runners == [] then []
    else if accepts(runners[0], instr) then [Call(runners[0], instr)]
    else [Call(runners[0], instr)] + Attempts(runners[1..], instr, accepts)
  }

  /** The calls made for a whole script: instruction by instruction, ending after the first one nobody accepts. */
  function ScriptCalls(runners: seq<RunnerId>, script: seq<Instruction>, accepts: (RunnerId, Instruction) -> bool): seq<Call>
  {
    if script == [] then []
    else Attempts(runners, script[0], accepts)
         + (if Handled(runners, script[0], accepts) then ScriptCalls(runners, script[1..], accepts) else [])
  }

  /** The calls from instruction `i` on: its attempts, then the rest of the script if it was handled. */
  lemma ScriptCallsFrom(runners: seq<RunnerId>, script: seq<Instruction>, i: nat,
                        accepts: (RunnerId, Instruction) -> bool)
    requires i < |script|
    ensures ScriptCalls(runners, script[i..], accepts)
            == Attempts(runners, script[i], accepts)
               + (if Handled(runners, script[i], accepts) then ScriptCalls(runners, script[i + 1..], accepts) else [])
  {
    assert script[i..][0] == script[i] && script[i..][1..] == script[i + 1..];
  }

  /**
   * One turn of the script loop, given the calls made before instruction `i`:
   * if it was handled the loop goes on from `i + 1`, and otherwise those calls
   * and its attempts are all the calls there are and the script fails.
   */
  lemma ScriptCallsStep(runners: seq<RunnerId>, script: seq<Instruction>, i: nat,
                        accepts: (RunnerId, Instruction) -> bool, calls: seq<Call>, tried: seq<Call>)
    requires i < |script| && tried == Attempts(runners, script[i], accepts)
    requires calls + ScriptCalls(runners, script[i..], accepts) == ScriptCalls(runners, script, accepts)
    ensures Handled(runners, script[i], accepts) ==>
              calls + tried + ScriptCalls(runners, script[i + 1..], accepts) == ScriptCalls(runners, script, accepts)
    ensures !Handled(runners, script[i], accepts) ==>
              calls + tried == ScriptCalls(runners, script, accepts) && !ScriptOk(runners, script, accepts)
  {
    ScriptCallsFrom(runners, script, i, accepts);
    var rest := ScriptCalls(runners, script[i + 1..], accepts);
    if Handled(runners, script[i], accepts) {
      assert calls + tried + rest == calls + (tried + rest);
    } else {
      assert tried + [] == tried;
    }
  }

  /**
   * For one instruction the runners are tried in registration order, every
   * runner before the first that accepts is called, and none after it.
   */
  lemma {:induction false} AttemptsStopAtFirst(runners: seq<RunnerId>, instr: Instruction,
                                               accepts: (RunnerId, Instruction) -> bool, f: nat)
    requires f < |runners| && accepts(runners[f], instr)
    requires forall m :: 0 <= m < f ==> !accepts(runners[m], instr)
    ensures Attempts(runners, instr, accepts) == seq(f + 1, m requires 0 <= m <= f => Call(runners[m], instr))
  {
    if f > 0 {
      assert !accepts(runners[0], instr);
      AttemptsStopAtFirst(runners[1..], instr, accepts, f - 1);
    }
  }

  /** When no runner accepts, every runner is called once, in order. */
  lemma {:induction false} AttemptsAllWhenUnhandled(runners: seq<RunnerId>, instr: Instruction,
                                                    accepts: (RunnerId, Instruction) -> bool)
    requires !Handled(runners, instr, accepts)
    ensures Attempts(runners, instr, accepts) == seq(|runners|, m requires 0 <= m < |runners| => Call(runners[m], instr))
  {
    if runners != [] {
      assert !accepts(runners[0], instr);
      assert !Handled(runners[1..], instr, accepts) by {
        forall m | 0 <= m < |runners| - 1
          ensures !accepts(runners[1..][m], instr)
        {
          assert runners[1..][m] == runners[m + 1];
        }
      }
      AttemptsAllWhenUnhandled(runners[1..], instr, accepts);
    }
  }

  /**
   * A script stops at its first unhandled instruction: the calls made are
   * those of the script cut just after it, and nothing later is offered.
   */
  lemma {:induction false} StopsAtFirstFailure(runners: seq<RunnerId>, script: seq<Instruction>,
                                               accepts: (RunnerId, Instruction) -> bool, j: nat)
    requires j < |script| && !Handled(runners, script[j], accepts)
    ensures ScriptCalls(runners, script, accepts) == ScriptCalls(runners, script[..j + 1], accepts)
    ensures !ScriptOk(runners, script, accepts)
  {
    if j == 0 {
      assert script[..1][0] == script[0];
    } else if Handled(runners, script[0], accepts) {
      assert script[..j + 1][1..] == script[1..][..j];
      StopsAtFirstFailure(runners, script[1..], accepts, j - 1);
    } else {
      assert script[..j + 1][0] == script[0];
    }
  }

  /** Registering one more runner never makes a script that ran fail. */
  lemma MoreRunnersKeepSuccess(runners: seq<RunnerId>, r: RunnerId, script: seq<Instruction>,
                               accepts: (RunnerId, Instruction) -> bool)
    requires ScriptOk(runners, script, accepts)
    ensures ScriptOk(runners + [r], script, accepts)
  {
    forall j | 0 <= j < |script|
      ensures Handled(runners + [r], script[j], accepts)
    {
      var m :| 0 <= m < |runners| && accepts(runners[m], script[j]);
      assert (runners + [r])[m] == runners[m];
    }
  }

  /** An empty script always runs; a non-empty one fails when no runner is registered. */
  lemma ScriptEdgeCases(runners: seq<RunnerId>, script: seq<Instruction>, accepts: (RunnerId, Instruction) -> bool)
    ensures ScriptOk(runners, [], accepts)
    ensures |script| > 0 ==> !ScriptOk([], script, accepts)
  {
    if |script| > 0 {
      assert !Handled([], script[0], accepts);
    }
  }

  class ReceptionManager {
    var runners: seq<RunnerId>

    constructor()
      ensures runners == []
    {
      runners := [];
    }

    /** `registerRunner`: appends to the list; earlier runners keep their precedence. */
    method RegisterRunner(r: RunnerId)
      modifies this
      ensures runners == old(runners) + [r]
    {
      runners := runners + [r];
    }

    /**
     * `runScript`: true exactly when every instruction is accepted by some
     * runner. `accepts` stands for what each runner's `runInstruction`
     * returns; `calls` records the calls made, in order.
     */
    method RunScript(script: seq<Instruction>, accepts: (RunnerId, Instruction) -> bool)
      returns (ok: bool, ghost calls: seq<Call>)
      ensures ok <==> ScriptOk(runners, script, accepts)
      ensures calls == ScriptCalls(runners, script, accepts)
    {
      calls := [];
      var i := 0;
      while i < |script|
        invariant 0 <= i <= |script|
        invariant forall j :: 0 <= j < i ==> Handled(runners, script[j], accepts)
        invariant calls + ScriptCalls(runners, script[i..], accepts) == ScriptCalls(runners, script, accepts)
      {
        var done, tried := Offer(script[i], accepts);
        ScriptCallsStep(runners, script, i, accepts, calls, tried);
        calls := calls + tried;
        if !done {
          return false, calls;
        }
        i := i + 1;
      }
      assert script[i..] == [];
      ok := true;
    }

    /** The inner loop of `runScript`: the runners are offered one instruction until one accepts. */
    method Offer(instr: Instruction, accepts: (RunnerId, Instruction) -> bool)
      returns (ok: bool, ghost tried: seq<Call>)
      ensures ok <==> Handled(runners, instr, accepts)
      ensures tried == Attempts(runners, instr, accepts)
    {
      ok := false;
      tried := [];
      var k := 0;
      while k < |runners|
        invariant 0 <= k <= |runners|
        invariant forall m :: 0 <= m < k ==> !accepts(runners[m], instr)
        invariant tried + Attempts(runners[k..], instr, accepts) == Attempts(runners, instr, accepts)
      {
        assert runners[k..][0] == runners[k] && runners[k..][1..] == runners[k + 1..];
        tried := tried + [Call(runners[k], instr)];
        ok := accepts(runners[k], instr);
        if ok {
          return;
        }
        k := k + 1;
      }
    }
  }
}
