/** Decimal text for integers: what `std::to_string` writes and what a digit run reads back as. */
module Decimal {
  predicate IsDigit(c: char) { '0' <= c <= '9' }

  predicate AllDigits(s: string) { forall i :: 0 <= i < |s| ==> IsDigit(s[i]) }

  function DigitChar(d: nat): (c: char)
    requires d < 10
    ensures IsDigit(c)
  {
    "0123456789"[d]
  }

  function DigitValue(c: char): (d: nat)
    requires IsDigit(c)
    ensures d < 10 && DigitChar(d) == c
  {
    (c as int - '0' as int) as nat
  }

  /** The decimal digits of `n`, most significant first, without leading zeros. */
  function NatText(n: nat): (s: string)
    ensures |s| > 0 && AllDigits(s)
    ensures |s| > 1 ==> s[0] != '0'
  {
    if n < 10 then [DigitChar(n)] else NatText(n / 10) + [DigitChar(n % 10)]
  }

  /** The value of a run of decimal digits. */
  function DigitsValue(s: string): (n: nat)
    requires AllDigits(s)
  {
    if s == [] then 0 else 10 * DigitsValue(s[..|s| - 1]) + DigitValue(s[|s| - 1])
  }

  /** `std::to_string(int)`. */
  function IntText(i: int): (s: string)
    ensures |s| > 0
    ensures i < 0 <==> s[0] == '-'
    ensures i >= 0 ==> AllDigits(s)
  {
    if i < 0 then "-" + NatText(-i) else NatText(i)
  }

  /** An optional minus sign followed by at least one digit. */
  predicate IsIntText(s: string)
  {
    |s| > 0 && (if s[0] == '-' then |s| > 1 && AllDigits(s[1..]) else AllDigits(s))
  }

  /** Reads back what IntText writes. */
  function ParseIntText(s: string): (r: int)
    requires IsIntText(s)
    ensures r < 0 ==> s[0] == '-'
  {
    if s[0] == '-' then 0 - DigitsValue(s[1..]) else DigitsValue(s)
  }

  lemma {:induction false} NatTextRoundTrip(n: nat)
    ensures DigitsValue(NatText(n)) == n
  {
    if n >= 10 {
      var s := NatText(n);
      assert s == NatText(n / 10) + [DigitChar(n % 10)];
      assert s[..|s| - 1] == NatText(n / 10);
      NatTextRoundTrip(n / 10);
      DigitRoundTrip(n % 10);
      assert DigitsValue(s) == 10 * (n / 10) + n % 10;
    } else {
      DigitRoundTrip(n);
    }
  }

  lemma DigitRoundTrip(d: nat)
    requires d < 10
    ensures DigitValue(DigitChar(d)) == d
  {
  }

  /** Decimal rendering loses nothing: the text reads back as the same integer. */
  lemma IntTextRoundTrip(i: int)
    ensures IsIntText(IntText(i)) && ParseIntText(IntText(i)) == i
  {
    if i < 0 {
      NegTextRoundTrip(i);
    } else {
      NatTextReadsBack(i);
    }
  }

  lemma NegTextRoundTrip(i: int)
    requires i < 0
    ensures IsIntText(IntText(i)) && ParseIntText(IntText(i)) == i
  {
    var t := NatText(-i);
    var s := IntText(i);
    assert s == "-" + t;
    assert s[0] == '-' && s[1..] == t;
    NatTextRoundTrip(-i);
  }

  lemma NatTextReadsBack(i: int)
    requires i >= 0
    ensures IsIntText(IntText(i)) && ParseIntText(IntText(i)) == i
  {
    var s := IntText(i);
    assert s == NatText(i);
    assert IsDigit(s[0]);
    NatTextRoundTrip(i);
  }

  /** Different integers render differently. */
  lemma IntTextInjective(i: int, j: int)
    requires IntText(i) == IntText(j)
    ensures i == j
  {
    IntTextRoundTrip(i);
    IntTextRoundTrip(j);
  }
}

/** The catalogued error codes and detail strings, and the E2400 message form. */
module ErrorCatalog {
  import Decimal

  const E2400_CONTROL_REJECTED: int := 2400
  const E2410_SESSION_DROPPED: int := 2410

  const MSG_E2400_PREFIX: string := "Error 2400: Control message rejected: "
  const MSG_E2410_SESSION_DROPPED: string := "Error 2410: WebSocket session dropped unexpectedly"

  const D2400_INVALID_REQUEST: string := "invalid request"
  const D2400_RPC_MISSING_ID: string := "rpc request missing id"
  const D2400_RPC_MISSING_METHOD: string := "rpc request missing method"
  const D2400_RPC_UNKNOWN_METHOD: string := "unknown rpc method"
  const D2400_MISSING_DEVICE_ID: string := "missing params.device_id"
  const D2400_MISSING_ACTION: string := "missing params.action"
  const D2400_UNKNOWN_DEVICE: string := "unknown device"
  const D2400_RECORDER_NOT_INITIALIZED: string := "recorder not initialized"
  const D2400_RECORD_START_FAILED: string := "record.start failed"
  const D2400_MISSING_RECORDING_ID: string := "missing params.recording_id"
  const D2400_UNKNOWN_RECORDING_ID: string := "unknown recording_id"
  const D2400_QEC_MEASUREMENTS_NOT_ARRAY: string := "params.measurements must be array"

  const D2400_RECORD_PARAMS_NOT_OBJECT: string := "record.start params must be object"
  const D2400_RECORD_STREAMS_REQUIRED: string := "record.start requires non-empty streams[]"
  const D2400_RECORD_STREAM_MISSING_DEVICE_ID: string := "record.start stream missing device_id"
  const D2400_RECORD_STREAM_RATE_INVALID: string := "record.start stream rate_hz must be > 0"
  const D2400_RECORD_NO_VALID_STREAMS: string := "record.start: no valid streams"
  const D2400_RECORD_OPEN_FILE_FAILED: string := "failed to open recording file"

  /** `code_string`: the decimal rendering of the code, which reads back as the code. */
  function CodeString(code: int): (s: string)
    ensures |s| > 0
    ensures code >= 0 ==> Decimal.AllDigits(s)
  {
    Decimal.IntText(code)
  }

  lemma CodeStringOfE2400()
    ensures CodeString(E2400_CONTROL_REJECTED) == "2400"
  {
    calc {
      Decimal.NatText(2400);
      Decimal.NatText(240) + ['0'];
      Decimal.NatText(24) + ['0'] + ['0'];
      Decimal.NatText(2) + ['4'] + ['0'] + ['0'];
    }
  }

  /** Two codes share a code string only when they are the same code. */
  lemma CodeStringInjective(c1: int, c2: int)
    requires CodeString(c1) == CodeString(c2)
    ensures c1 == c2
  {
    Decimal.IntTextInjective(c1, c2);
  }

  /** `format_E2400_control_rejected`: the prefix, then the detail or "invalid request" for an empty one. */
  function FormatControlRejected(detail: string): (msg: string)
    ensures |msg| > |MSG_E2400_PREFIX| && msg[..|MSG_E2400_PREFIX|] == MSG_E2400_PREFIX
    ensures detail != "" ==> msg[|MSG_E2400_PREFIX|..] == detail
    ensures detail == "" ==> msg[|MSG_E2400_PREFIX|..] == D2400_INVALID_REQUEST
  {
    MSG_E2400_PREFIX + (if detail == "" then D2400_INVALID_REQUEST else detail)
  }

  /** The detail part of a formatted E2400 message. */
  function DetailOf(msg: string): (detail: string)
    requires |msg| >= |MSG_E2400_PREFIX|
  {
    msg[|MSG_E2400_PREFIX|..]
  }

  /** The detail can be read back from the message; an empty detail reads back as "invalid request". */
  lemma FormatDetailRoundTrip(detail: string)
    ensures DetailOf(FormatControlRejected(detail)) == (if detail == "" then D2400_INVALID_REQUEST else detail)
  {
  }

  /** Distinct non-empty details give distinct messages; the empty detail and "invalid request" coincide. */
  lemma FormatInjective(d1: string, d2: string)
    requires FormatControlRejected(d1) == FormatControlRejected(d2)
    ensures d1 == d2 || {d1, d2} == {"", D2400_INVALID_REQUEST}
  {
    FormatDetailRoundTrip(d1);
    FormatDetailRoundTrip(d2);
  }
}
