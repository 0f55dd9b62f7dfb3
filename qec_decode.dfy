/**
 * The `qec.decode` RPC: a majority vote per qubit over a list of
 * `{qubit, value}` measurements.
 */
module QecDecode {
  import opened Wrappers
  import opened Json

  /** What one measurement entry contributes: nothing, or a 0 or 1 vote for a qubit. */
  datatype Vote = Skip | VoteZero(q: int) | VoteOne(q: int)

  /**
   * The vote of one entry: non-objects and negative qubits are skipped, and
   * only the values 0 and 1 count. None when reading `qubit` or `value`
   * throws (a present field that is not a number or boolean).
   */
  function EntryVote(m: Value): (r: Option<Vote>)
    ensures !m.Obj? ==> r == Some(Skip)
    ensures r.Some? && !r.value.Skip? ==> r.value.q >= 0
  {
    if !m.Obj? then Some(Skip)
    else
      match (ValueInt(m, "qubit", -1), ValueInt(m, "value", -1))
      case (Some(q), Some(v)) =>
        if q < 0 then Some(Skip)
        else if v == 0 then Some(VoteZero(q))
        else if v == 1 then Some(VoteOne(q))
        else Some(Skip)
      case _ => None
  }

  /** The `{zeros, ones}` pair kept for one qubit. */
  datatype Tally = Tally(zeros: nat, ones: nat)

  /** The `counts` map, with the qubits in the order they were first tallied. */
  datatype Counts = Counts(tallies: map<int, Tally>, order: seq<int>)

  /** The order lists each tallied qubit exactly once. */
  ghost predicate ValidCounts(c: Counts)
  {
    (forall q :: q in c.tallies <==> q in c.order)
    && (forall i, j :: 0 <= i < j < |c.order| ==> c.order[i] != c.order[j])
  }

  /** `counts[q].first += 1` or `counts[q].second += 1`; a skipped entry leaves the counts alone. */
  function AddVote(c: Counts, vote: Vote): (c': Counts)
    ensures ValidCounts(c) ==> ValidCounts(c')
  {
    match vote
    case Skip => c
    case VoteZero(q) =>
      var t := if q in c.tallies then c.tallies[q] else Tally(0, 0);
      Counts(c.tallies[q := Tally(t.zeros + 1, t.ones)], if q in c.tallies then c.order else c.order + [q])
    case VoteOne(q) =>
      var t := if q in c.tallies then c.tallies[q] else Tally(0, 0);
      Counts(c.tallies[q := Tally(t.zeros, t.ones + 1)], if q in c.tallies then c.order else c.order + [q])
  }

  /** The counts after the whole array, or None when some entry throws. */
  function TallyAll(meas: seq<Value>): Option<Counts>
  {
    if meas == [] then Some(Counts(map[], []))
    else
      match TallyAll(meas[..|meas| - 1])
      case None => None
      case Some(c) =>
        match EntryVote(meas[|meas| - 1])
        case None => None
        case Some(v) => Some(AddVote(c, v))
  }

  /** The reference count: how many entries cast `vote`. */
  function VoteCount(meas: seq<Value>, vote: Vote): (n: nat)
    ensures n <= |meas|
  {
    if meas == [] then 0
    else VoteCount(meas[..|meas| - 1], vote) + (if EntryVote(meas[|meas| - 1]) == Some(vote) then 1 else 0)
  }

  /** The tally fails exactly when some entry throws. */
  lemma {:induction false} TallyAllDefined(meas: seq<Value>)
    ensures TallyAll(meas).Some? <==> forall i :: 0 <= i < |meas| ==> EntryVote(meas[i]).Some?
  {
    if meas != [] {
      var init := meas[..|meas| - 1];
      TallyAllDefined(init);
      assert forall i :: 0 <= i < |init| ==> init[i] == meas[i];
    }
  }

  /**
   * The tally agrees with the reference count: a qubit is in the map exactly
   * when it received a 0 or 1 vote, and its pair is the number of each.
   */
  lemma {:induction false} TallyMatchesVotes(meas: seq<Value>, q: int)
    requires TallyAll(meas).Some?
    ensures ValidCounts(TallyAll(meas).value)
    ensures var c := TallyAll(meas).value;
      (q in c.tallies <==> VoteCount(meas, VoteZero(q)) + VoteCount(meas, VoteOne(q)) > 0)
      && (q in c.tallies ==> c.tallies[q] == Tally(VoteCount(meas, VoteZero(q)), VoteCount(meas, VoteOne(q))))
  {
    if meas != [] {
      TallyMatchesVotes(meas[..|meas| - 1], q);
    }
  }

  /** The correction for one qubit: 1 exactly when its ones outnumber its zeros. */
  function Correction(t: Tally): (bit: int)
    ensures bit == 1 <==> t.ones > t.zeros
    ensures bit == 0 <==> t.ones <= t.zeros
  {
    if t.ones > t.zeros then 1 else 0
  }

  /** The `{qubit, round, correction}` entry of one qubit. */
  function CorrectionEntry(q: int, t: Tally): Value
  {
    Obj(map["qubit" := Int(q), "round" := Int(0), "correction" := Int(Correction(t))])
  }

  /** One correction entry per tallied qubit, in the tally's order. */
  function Corrections(c: Counts): (entries: seq<Value>)
    requires ValidCounts(c)
    ensures |entries| == |c.order|
    ensures forall i :: 0 <= i < |c.order| ==> entries[i] == CorrectionEntry(c.order[i], c.tallies[c.order[i]])
  {
    seq(|c.order|, i requires 0 <= i < |c.order| => CorrectionEntry(c.order[i], c.tallies[c.order[i]]))
  }

  /**
   * Each correction entry names a qubit that received a vote, and its
   * correction is 1 exactly when that qubit's 1-votes outnumber its 0-votes.
   */
  lemma CorrectionsMeaning(meas: seq<Value>, i: nat)
    requires TallyAll(meas).Some? && i < |TallyAll(meas).value.order|
    ensures ValidCounts(TallyAll(meas).value)
    ensures var c := TallyAll(meas).value;
      var q := c.order[i];
      var zeros := VoteCount(meas, VoteZero(q));
      var ones := VoteCount(meas, VoteOne(q));
      zeros + ones > 0
      && Corrections(c)[i] == Obj(map["qubit" := Int(q), "round" := Int(0), "correction" := Int(if ones > zeros then 1 else 0)])
  {
    var c := TallyAll(meas).value;
    TallyMatchesVotes(meas, c.order[i]);
  }

  /** A valid tally has as many qubits in its order as in its map. */
  lemma {:induction false} OrderCoversTallies(c: Counts)
    requires ValidCounts(c)
    ensures |c.tallies| == |c.order|
  {
    var s := set i | 0 <= i < |c.order| :: c.order[i];
    forall q | q in c.tallies
      ensures q in s
    {
      var i :| 0 <= i < |c.order| && c.order[i] == q;
    }
    forall q | q in s
      ensures q in c.tallies
    {
      var i :| 0 <= i < |c.order| && c.order[i] == q;
      assert q in c.order;
    }
    assert s == c.tallies.Keys;
    SeqSetSize(c.order);
  }

  /** A sequence without repeats has as many distinct elements as it has entries. */
  lemma {:induction false} SeqSetSize(xs: seq<int>)
    requires forall i, j :: 0 <= i < j < |xs| ==> xs[i] != xs[j]
    ensures |set i | 0 <= i < |xs| :: xs[i]| == |xs|
  {
    if xs != [] {
      var init := xs[..|xs| - 1];
      SeqSetSize(init);
      var s := set i | 0 <= i < |xs| :: xs[i];
      var s0 := set i | 0 <= i < |init| :: init[i];
      assert s == s0 + {xs[|xs| - 1]};
      assert xs[|xs| - 1] !in s0;
    }
  }

  /**
   * The tally loop of `qec.decode`: None when an entry throws, otherwise the
   * counts, updated in place one entry at a time.
   */
  method TallyVotes(meas: seq<Value>) returns (r: Option<Counts>)
    ensures r == TallyAll(meas)
  {
    var tallies: map<int, Tally> := map[];
    var order: seq<int> := [];
    var i := 0;
    while i < |meas|
      invariant 0 <= i <= |meas|
      invariant TallyAll(meas[..i]) == Some(Counts(tallies, order))
    {
      var m := meas[i];
      assert meas[..i + 1][..i] == meas[..i];
      ghost var before := Counts(tallies, order);
      if m.Obj? {
        var q := ValueInt(m, "qubit", -1);
        var v := ValueInt(m, "value", -1);
        if q.None? || v.None? {
          TallyNoneAfter(meas, i + 1);
          return None;
        }
        if q.value >= 0 {
          if v.value == 0 || v.value == 1 {
            if q.value !in tallies {
              tallies := tallies[q.value := Tally(0, 0)];
              order := order + [q.value];
            }
            if v.value == 0 {
              tallies := tallies[q.value := Tally(tallies[q.value].zeros + 1, tallies[q.value].ones)];
            } else {
              tallies := tallies[q.value := Tally(tallies[q.value].zeros, tallies[q.value].ones + 1)];
            }
          }
        }
      }
      assert Counts(tallies, order) == AddVote(before, EntryVote(m).value);
      i := i + 1;
    }
    assert meas[..i] == meas;
    r := Some(Counts(tallies, order));
  }

  /** Once a prefix fails, every longer prefix fails. */
  lemma {:induction false} TallyNoneAfter(meas: seq<Value>, n: nat)
    requires n <= |meas| && TallyAll(meas[..n]).None?
    ensures TallyAll(meas).None?
    decreases |meas| - n
  {
    if n < |meas| {
      assert meas[..n + 1][..n] == meas[..n];
      TallyNoneAfter(meas, n + 1);
    } else {
      assert meas[..n] == meas;
    }
  }

  /**
   * The `qec.decode` result: the job id (the request's or the rpc id), status
   * "done", the corrections, and the qubit and measurement counts.
   */
  function DecodeResult(jobId: Value, c: Counts, total: nat): (result: Value)
    requires ValidCounts(c)
    ensures result.Obj? && result.fields.Keys == {"job_id", "status", "corrections", "statistics"}
    ensures result.fields["corrections"] == Arr(Corrections(c))
    ensures result.fields["statistics"] == Obj(map["qubits" := Int(|c.order|), "measurements" := Int(total)])
  {
    OrderCoversTallies(c);
    Obj(map[
      "job_id" := jobId,
      "status" := Str("done"),
      "corrections" := Arr(Corrections(c)),
      "statistics" := Obj(map["qubits" := Int(|c.tallies|), "measurements" := Int(total)])])
  }
}
