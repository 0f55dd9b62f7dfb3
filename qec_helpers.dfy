/**
 * The Python SDK's QEC helpers (`stonegate_qec`, shipped twice with the same
 * code): measurement payloads, the client-side majority decoder, the
 * measurement summary and the choice of repetition rounds.
 */
module QecHelpers {
  import opened Wrappers
  import opened Json
  import QecDecode

  /** `make_measurement`: the payload `qec.decode` reads. */
  function MakeMeasurement(qubit: int, basis: string, round: int, value: int): (m: Value)
    ensures m.Obj? && m.fields.Keys == {"qubit", "basis", "round", "value"}
    ensures m.fields["value"] == Int(value) && m.fields["qubit"] == Int(qubit)
  {
    Obj(map["qubit" := Int(qubit), "basis" := Str(basis), "round" := Int(round), "value" := Int(value)])
  }

  /**
   * Python's `int(v)` on a decoded JSON value: integers as they are, floats
   * truncated, booleans as 0/1, strings through `intOfStr` (Python's integer
   * literal syntax); anything else raises (None).
   */
  function PyInt(v: Value, intOfStr: string -> Option<int>): (r: Option<int>)
    ensures v.Int? ==> r == Some(v.ival)
    ensures v.Float? ==> r == Some(Trunc(v.fval))
    ensures v.Null? || v.Arr? || v.Obj? ==> r.None?
  {
    match v
    case Int(i) => Some(i)
    case Float(x) => Some(Trunc(x))
    case Bool(b) => Some(if b then 1 else 0)
    case Str(s) => intOfStr(s)
    case _ => None
  }

  /** `m.get("value", 0)`, or None when `m` is not a dict (the `.get` raises). */
  function ValueOfMeasurement(m: Value): (v: Option<Value>)
    ensures v.None? <==> !m.Obj?
  {
    if !m.Obj? then None
    else if "value" in m.fields then Some(m.fields["value"])
    else Some(Int(0))
  }

  /** The bit the decoder takes from one measurement: 1 for a non-zero value, 0 otherwise or when anything raises. */
  function ValueBit(m: Value, intOfStr: string -> Option<int>): (bit: int)
    ensures bit == 0 || bit == 1
    ensures bit == 1 <==> ValueOfMeasurement(m).Some? && PyInt(ValueOfMeasurement(m).value, intOfStr).Some?
                          && PyInt(ValueOfMeasurement(m).value, intOfStr).value != 0
  {
    match ValueOfMeasurement(m)
    case None => 0
    case Some(v) =>
      match PyInt(v, intOfStr)
      case None => 0
      case Some(n) => if n != 0 then 1 else 0
  }

  /** The number of measurements whose bit is 1. */
  function CountOnes(ms: seq<Value>, intOfStr: string -> Option<int>): (n: nat)
    ensures n <= |ms|
  {
    if ms == [] then 0
    else CountOnes(ms[..|ms| - 1], intOfStr) + ValueBit(ms[|ms| - 1], intOfStr)
  }

  /** The majority vote: 1 exactly when the ones are strictly more than half the bits. */
  function Majority(ms: seq<Value>, intOfStr: string -> Option<int>): (bit: int)
    ensures bit == 0 || bit == 1
    ensures ms == [] ==> bit == 0
  {
    if 2 * CountOnes(ms, intOfStr) > |ms| then 1 else 0
  }

  /** `repetition_decode_majority`: the bits gathered one measurement at a time, then the vote. */
  method RepetitionDecodeMajority(ms: seq<Value>, intOfStr: string -> Option<int>) returns (bit: int)
    ensures bit == 1 <==> 2 * CountOnes(ms, intOfStr) > |ms|
    ensures bit == 0 || bit == 1
    ensures bit == Majority(ms, intOfStr)
  {
    var ones := 0;
    var i := 0;
    while i < |ms|
      invariant 0 <= i <= |ms|
      invariant ones == CountOnes(ms[..i], intOfStr)
    {
      assert ms[..i + 1][..i] == ms[..i];
      ones := ones + ValueBit(ms[i], intOfStr);
      i := i + 1;
    }
    assert ms[..i] == ms;
    if i == 0 {
      return 0;
    }
    bit := if 2 * ones > i then 1 else 0;
  }

  /** A tie decodes to 0. */
  lemma TieDecodesZero(ms: seq<Value>, intOfStr: string -> Option<int>)
    requires 2 * CountOnes(ms, intOfStr) == |ms|
    ensures Majority(ms, intOfStr) == 0
  {
  }

  /** A measurement whose bit is 0 or 1, as `make_measurement` writes for 0/1 values. */
  predicate IsBitMeasurement(m: Value)
  {
    m.Obj? && "value" in m.fields && (m.fields["value"] == Int(0) || m.fields["value"] == Int(1))
  }

  /** The same measurement with its bit flipped. */
  function Flip(m: Value): (m': Value)
    requires IsBitMeasurement(m)
    ensures IsBitMeasurement(m')
  {
    m.(fields := m.fields["value" := Int(1 - m.fields["value"].ival)])
  }

  function FlipAll(ms: seq<Value>): (ms': seq<Value>)
    requires forall i :: 0 <= i < |ms| ==> IsBitMeasurement(ms[i])
    ensures |ms'| == |ms| && forall i :: 0 <= i < |ms| ==> ms'[i] == Flip(ms[i])
  {
    seq(|ms|, i requires 0 <= i < |ms| && IsBitMeasurement(ms[i]) => Flip(ms[i]))
  }

  /** Flipping every bit turns the ones into zeros and back. */
  lemma {:induction false} CountOnesFlipped(ms: seq<Value>, intOfStr: string -> Option<int>)
    requires forall i :: 0 <= i < |ms| ==> IsBitMeasurement(ms[i])
    ensures CountOnes(FlipAll(ms), intOfStr) == |ms| - CountOnes(ms, intOfStr)
  {
    if ms != [] {
      var init := ms[..|ms| - 1];
      CountOnesFlipped(init, intOfStr);
      var f := FlipAll(ms);
      assert f[..|ms| - 1] == FlipAll(init) by {
        forall i | 0 <= i < |init|
          ensures f[..|ms| - 1][i] == FlipAll(init)[i]
        {
          assert init[i] == ms[i];
        }
      }
      FlipBit(ms[|ms| - 1], intOfStr);
    }
  }

  lemma FlipBit(m: Value, intOfStr: string -> Option<int>)
    requires IsBitMeasurement(m)
    ensures ValueBit(Flip(m), intOfStr) == 1 - ValueBit(m, intOfStr)
  {
  }

  /** With an odd number of rounds the decoder is symmetric: flipping every bit flips the decoded bit. */
  lemma MajorityFlips(ms: seq<Value>, intOfStr: string -> Option<int>)
    requires |ms| % 2 == 1
    requires forall i :: 0 <= i < |ms| ==> IsBitMeasurement(ms[i])
    ensures Majority(FlipAll(ms), intOfStr) == 1 - Majority(ms, intOfStr)
  {
    CountOnesFlipped(ms, intOfStr);
    OddVote(|ms|, CountOnes(ms, intOfStr));
  }

  /** With an odd number of votes, exactly one side has the majority. */
  lemma OddVote(n: int, c: int)
    requires n % 2 == 1
    ensures 2 * c > n <==> !(2 * (n - c) > n)
  {
    assert n == 2 * (n / 2) + 1;
  }

  /**
   * The client decoder and the server's `qec.decode` read a measurement
   * built by `make_measurement` the same way.
   */
  lemma MeasurementVotes(qubit: int, basis: string, round: int, value: int, intOfStr: string -> Option<int>)
    requires qubit >= 0 && (value == 0 || value == 1)
    ensures ValueBit(MakeMeasurement(qubit, basis, round, value), intOfStr) == value
    ensures QecDecode.EntryVote(MakeMeasurement(qubit, basis, round, value))
            == Some(if value == 1 then QecDecode.VoteOne(qubit) else QecDecode.VoteZero(qubit))
  {
  }

  /** The `{count, ones, zeros}` summary. */
  datatype Summary = Summary(count: int, ones: int, zeros: int)

  /** `int(m.get("value", 0))` outside any `try`: None when it raises. */
  function RawValue(m: Value, intOfStr: string -> Option<int>): (r: Option<int>)
    ensures !m.Obj? ==> r.None?
  {
    match ValueOfMeasurement(m)
    case None => None
    case Some(v) => PyInt(v, intOfStr)
  }

  /** `sum(int(m.get("value", 0)) for m in ms)`, or None when some value raises. */
  function ValueSum(ms: seq<Value>, intOfStr: string -> Option<int>): (r: Option<int>)
    ensures r.Some? <==> forall i :: 0 <= i < |ms| ==> RawValue(ms[i], intOfStr).Some?
  {
    if ms == [] then Some(0)
    else
      var init := ValueSum(ms[..|ms| - 1], intOfStr);
      var last := RawValue(ms[|ms| - 1], intOfStr);
      assert forall i :: 0 <= i < |ms| - 1 ==> ms[..|ms| - 1][i] == ms[i];
      if init.None? || last.None? then None else Some(init.value + last.value)
  }

  /**
   * `summarize_measurements` as written: `ones` is the sum of the values, so
   * a value other than 0 or 1 counts by its size. None when a value raises.
   */
  function SummarizeAsWritten(ms: seq<Value>, intOfStr: string -> Option<int>): (s: Option<Summary>)
    ensures s.Some? ==> s.value.ones + s.value.zeros == s.value.count == |ms|
  {
    match ValueSum(ms, intOfStr)
    case None => None
    case Some(total) => Some(Summary(|ms|, total, |ms| - total))
  }

  /** One measurement with value 2 gives two ones and minus one zeros. */
  lemma SummaryOfTwo(intOfStr: string -> Option<int>)
    ensures SummarizeAsWritten([Obj(map["value" := Int(2)])], intOfStr) == Some(Summary(1, 2, -1))
  {
    var ms := [Obj(map["value" := Int(2)])];
    assert ms[..0] == [];
  }

  /**
   * The summary with `ones` counting the non-zero values, as the decoder
   * does; it raises on the same inputs as the code as written.
   */
  function Summarize(ms: seq<Value>, intOfStr: string -> Option<int>): (s: Option<Summary>)
    ensures s.Some? <==> SummarizeAsWritten(ms, intOfStr).Some?
    ensures s.Some? ==> s.value.count == |ms| && s.value.ones + s.value.zeros == |ms|
                        && 0 <= s.value.ones <= |ms| && 0 <= s.value.zeros <= |ms|
    ensures s.Some? ==> (s.value.ones > s.value.zeros <==> Majority(ms, intOfStr) == 1)
  {
    if ValueSum(ms, intOfStr).None? then None
    else
      var ones := CountOnes(ms, intOfStr);
      Some(Summary(|ms|, ones, |ms| - ones))
  }

  /** On 0/1 values, which is all `make_measurement` writes here, the two summaries agree. */
  lemma SummariesAgreeOnBits(ms: seq<Value>, intOfStr: string -> Option<int>)
    requires forall i :: 0 <= i < |ms| ==> IsBitMeasurement(ms[i])
    ensures SummarizeAsWritten(ms, intOfStr) == Summarize(ms, intOfStr)
  {
    ValueSumOfBits(ms, intOfStr);
  }

  /** On 0/1 values the sum of the values is the number of ones. */
  lemma {:induction false} ValueSumOfBits(ms: seq<Value>, intOfStr: string -> Option<int>)
    requires forall i :: 0 <= i < |ms| ==> IsBitMeasurement(ms[i])
    ensures ValueSum(ms, intOfStr) == Some(CountOnes(ms, intOfStr))
  {
    if ms != [] {
      var init, last := ms[..|ms| - 1], ms[|ms| - 1];
      assert forall i :: 0 <= i < |init| ==> IsBitMeasurement(init[i]) by {
        forall i | 0 <= i < |init| ensures IsBitMeasurement(init[i]) { assert init[i] == ms[i]; }
      }
      ValueSumOfBits(init, intOfStr);
      assert RawValue(last, intOfStr) == Some(ValueBit(last, intOfStr));
    }
  }

  /** `max(lo, min(hi, r))`. */
  function Clamp(r: int, lo: int, hi: int): (c: int)
    ensures lo <= hi ==> lo <= c <= hi
    ensures lo <= r <= hi ==> c == r
    ensures lo > hi ==> c == lo
  {
    if r > hi then (if hi > lo then hi else lo)
    else if r < lo then lo
    else r
  }

  /** Python's `round(x)` to an integer: to the nearest, ties to the even neighbour. */
  function Round(x: real): (n: int)
    ensures x - 0.5 <= n as real <= x + 0.5
  {
    var f := x.Floor;
    var d := x - f as real;
    if d < 0.5 then f
    else if d > 0.5 then f + 1
    else if f % 2 == 0 then f
    else f + 1
  }

  lemma RoundMonotone(x: real, y: real)
    requires x <= y
    ensures Round(x) <= Round(y)
  {
    var fx, fy := x.Floor, y.Floor;
    assert fx <= fy;
    if fx < fy {
      assert Round(x) <= fx + 1 <= fy <= Round(y);
    }
  }

  /** `max(lo, min(hi, x))` on reals. */
  function ClampReal(x: real, lo: real, hi: real): (c: real)
    requires lo <= hi
    ensures lo <= c <= hi
  {
    if x < lo then lo else if x > hi then hi else x
  }

  /** The lowest error rate mapped onto the rounds, and the span `max(1e-9, 0.35 - 0.01)` above it. */
  const P_LOW: real := 0.01
  const P_SPAN: real := 0.34

  /**
   * The shared tail of `choose_repetition_rounds` and
   * `choose_repetition_rounds_from_hardware`: the error rate `p` scaled onto
   * [0, 1], mapped linearly onto the rounds, rounded, and clamped.
   */
  function ChooseRounds(p: real, lo: int, hi: int): (rounds: int)
    ensures lo <= hi ==> lo <= rounds <= hi
    ensures lo > hi ==> rounds == lo
  {
    Clamp(Round(Mix(Scale(p), lo, hi)), lo, hi)
  }

  /** `x`: the error rate scaled onto [0, 1]. */
  function Scale(p: real): (x: real)
    ensures 0.0 <= x <= 1.0
  {
    ClampReal((p - P_LOW) / P_SPAN, 0.0, 1.0)
  }

  /** `min_rounds + (max_rounds - min_rounds) * x`. */
  function Mix(x: real, lo: int, hi: int): real
  {
    lo as real + (hi - lo) as real * x
  }

  /** A noisier reading never asks for fewer rounds. */
  lemma ChooseRoundsMonotone(p1: real, p2: real, lo: int, hi: int)
    requires p1 <= p2 && lo <= hi
    ensures ChooseRounds(p1, lo, hi) <= ChooseRounds(p2, lo, hi)
  {
    assert (p1 - P_LOW) / P_SPAN <= (p2 - P_LOW) / P_SPAN;
    var x1, x2 := Scale(p1), Scale(p2);
    assert x1 <= x2;
    assert (hi - lo) as real * x1 <= (hi - lo) as real * x2;
    RoundMonotone(Mix(x1, lo, hi), Mix(x2, lo, hi));
  }

  /** At or below 1% the fewest rounds are used, at or above 35% the most. */
  lemma ChooseRoundsEnds(p: real, lo: int, hi: int)
    requires lo <= hi
    ensures p <= P_LOW ==> ChooseRounds(p, lo, hi) == lo
    ensures p >= 0.35 ==> ChooseRounds(p, lo, hi) == hi
  {
    if p <= P_LOW {
      assert (p - P_LOW) / P_SPAN <= 0.0;
    }
    if p >= 0.35 {
      assert (p - P_LOW) / P_SPAN >= 1.0;
    }
  }

  /** `choose_repetition_rounds`: `pFlip` stands for `p_flip_from_temperature`, which uses `exp`. */
  function ChooseRepetitionRounds(temperatureK: real, lo: int, hi: int, pFlip: real -> real): (rounds: int)
    ensures lo <= hi ==> lo <= rounds <= hi
  {
    ChooseRounds(pFlip(temperatureK), lo, hi)
  }

  /**
   * `float(v)` of the reported `p_flip`: None when it is missing or null, or
   * when the conversion raises; `floatOfStr` is Python's float literal syntax.
   */
  function PyFloat(v: Value, floatOfStr: string -> Option<real>): (r: Option<real>)
    ensures v.Null? || v.Arr? || v.Obj? ==> r.None?
    ensures v.Int? ==> r == Some(v.ival as real)
  {
    match v
    case Int(i) => Some(i as real)
    case Float(x) => Some(x)
    case Bool(b) => Some(if b then 1.0 else 0.0)
    case Str(s) => floatOfStr(s)
    case _ => None
  }

  /** The `p_flip` estimate in a device's flattened status. */
  function PFlipEstimate(status: map<string, Value>, floatOfStr: string -> Option<real>): (p: Option<real>)
    ensures "p_flip" !in status ==> p.None?
  {
    if "p_flip" in status then PyFloat(status["p_flip"], floatOfStr) else None
  }

  /**
   * `choose_repetition_rounds_from_hardware`: the fewest rounds when no
   * `p_flip` is reported, the clamped choice otherwise.
   */
  function RoundsFromHardware(status: map<string, Value>, lo: int, hi: int,
                              floatOfStr: string -> Option<real>): (rounds: int)
    ensures PFlipEstimate(status, floatOfStr).None? ==> rounds == lo
    ensures PFlipEstimate(status, floatOfStr).Some? ==> rounds == ChooseRounds(PFlipEstimate(status, floatOfStr).value, lo, hi)
    ensures lo <= hi ==> lo <= rounds <= hi
  {
    match PFlipEstimate(status, floatOfStr)
    case None => lo
    case Some(p) => ChooseRounds(p, lo, hi)
  }
}
