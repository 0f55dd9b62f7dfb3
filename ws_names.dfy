/**
 * The two string helpers the graph RPCs rely on: the schematic-name
 * sanitiser that turns a client-supplied name into a safe file stem, and
 * the FNV-1a 64-bit content hash rendered as 16 hex digits.
 */
module SchematicNames {
  /** Characters a schematic name keeps as they are. */
  predicate KeptChar(c: char)
  {
    ('a' <= c <= 'z') || ('A' <= c <= 'Z') || ('0' <= c <= '9') || c == '_' || c == '-' || c == '.'
  }

  /** Characters a schematic name turns into `_`. */
  predicate SeparatorChar(c: char)
  {
    c == ' ' || c == '/' || c == '\\'
  }

  const MAX_NAME_LENGTH: nat := 96
  const DEFAULT_NAME: string := "schematic"

  /** What one input character contributes to the name: itself, `_`, or nothing. */
  function CharImage(c: char): (out: string)
    ensures |out| <= 1
    ensures forall i :: 0 <= i < |out| ==> KeptChar(out[i])
  {
    if KeptChar(c) then [c] else if SeparatorChar(c) then "_" else ""
  }

  /** Every character of the input mapped through CharImage, with no length cap. */
  function Mapped(s: string): (out: string)
    ensures |out| <= |s|
    ensures forall i :: 0 <= i < |out| ==> KeptChar(out[i])
  {
    if s == [] then [] else Mapped(s[..|s| - 1]) + CharImage(s[|s| - 1])
  }

  function TrimLeadingDots(s: string): (t: string)
    ensures |t| <= |s|
    ensures t != [] ==> t[0] != '.'
    ensures t == s[|s| - |t|..]
  {
    if s != [] && s[0] == '.' then TrimLeadingDots(s[1..]) else s
  }

  function TrimTrailingDots(s: string): (t: string)
    ensures |t| <= |s|
    ensures t != [] ==> t[|t| - 1] != '.'
    ensures t == s[..|t|]
  {
    if s != [] && s[|s| - 1] == '.' then TrimTrailingDots(s[..|s| - 1]) else s
  }

  /** The name `sg_sanitize_schematic_name` returns for `s`. */
  function SanitizedName(s: string): string
  {
    var t := TrimTrailingDots(TrimLeadingDots(Capped(s)));
    if t == [] then DEFAULT_NAME else t
  }

  /** A safe name: only kept characters, at most 96 of them, non-empty, no dot at either end. */
  predicate IsSafeName(s: string)
  {
    0 < |s| <= MAX_NAME_LENGTH
    && (forall i :: 0 <= i < |s| ==> KeptChar(s[i]))
    && s[0] != '.' && s[|s| - 1] != '.'
  }

  lemma {:induction false} MappedAppend(a: string, b: string)
    ensures Mapped(a + b) == Mapped(a) + Mapped(b)
    decreases |b|
  {
    if b == [] {
      assert a + b == a;
    } else {
      var b' := b[..|b| - 1];
      assert (a + b)[..|a + b| - 1] == a + b';
      assert (a + b)[|a + b| - 1] == b[|b| - 1];
      MappedAppend(a, b');
    }
  }

  /** The name capped at 96 characters, before trimming. */
  function Capped(s: string): (c: string)
    ensures |c| <= MAX_NAME_LENGTH
    ensures forall i :: 0 <= i < |c| ==> KeptChar(c[i])
  {
    var m := Mapped(s);
    if |m| <= MAX_NAME_LENGTH then m else m[..MAX_NAME_LENGTH]
  }

  /** Once 96 characters are out, the rest of the input no longer matters. */
  lemma CappedAfterBreak(s: string, n: nat)
    requires n <= |s| && |Mapped(s[..n])| == MAX_NAME_LENGTH
    ensures Capped(s) == Mapped(s[..n])
  {
    assert s == s[..n] + s[n..];
    MappedAppend(s[..n], s[n..]);
  }

  /** Mapping leaves a string of kept characters as it is. */
  lemma {:induction false} MappedOfKept(s: string)
    requires forall i :: 0 <= i < |s| ==> KeptChar(s[i])
    ensures Mapped(s) == s
  {
    if s != [] {
      MappedOfKept(s[..|s| - 1]);
      assert s == s[..|s| - 1] + [s[|s| - 1]];
    }
  }

  lemma {:induction false} TrimLeadingKeeps(s: string)
    requires s != [] ==> s[0] != '.'
    ensures TrimLeadingDots(s) == s
  {
  }

  lemma {:induction false} TrimTrailingKeeps(s: string)
    requires s != [] ==> s[|s| - 1] != '.'
    ensures TrimTrailingDots(s) == s
  {
  }

  /** Trimming both ends keeps only characters of the input and leaves no dot at either end. */
  lemma TrimBoth(s: string)
    requires forall i :: 0 <= i < |s| ==> KeptChar(s[i])
    ensures var t := TrimTrailingDots(TrimLeadingDots(s));
      |t| <= |s| && (forall i :: 0 <= i < |t| ==> KeptChar(t[i]))
      && (t != [] ==> t[0] != '.' && t[|t| - 1] != '.')
  {
    var lead := TrimLeadingDots(s);
    KeptSlice(s, |s| - |lead|, |s|);
    var t := TrimTrailingDots(lead);
    KeptSlice(lead, 0, |t|);
    if t != [] {
      assert t[0] == lead[0];
    }
  }

  /** A slice of a string of kept characters holds only kept characters. */
  lemma KeptSlice(s: string, a: nat, b: nat)
    requires forall i :: 0 <= i < |s| ==> KeptChar(s[i])
    requires a <= b <= |s|
    ensures forall i :: 0 <= i < b - a ==> KeptChar(s[a..b][i])
  {
    forall i | 0 <= i < b - a
      ensures KeptChar(s[a..b][i])
    {
      assert s[a..b][i] == s[a + i];
    }
  }

  /** Every sanitised name is safe (kept characters only, length 1..96, no dot at either end). */
  lemma SanitizedIsSafe(s: string)
    ensures IsSafeName(SanitizedName(s))
  {
    var c := Capped(s);
    TrimBoth(c);
    var t := TrimTrailingDots(TrimLeadingDots(c));
    if t == [] {
      DefaultNameIsSafe();
    } else {
      assert SanitizedName(s) == t;
      assert IsSafeName(t);
    }
  }

  lemma DefaultNameIsSafe()
    ensures IsSafeName(DEFAULT_NAME)
  {
    assert forall i :: 0 <= i < |DEFAULT_NAME| ==> 'a' <= DEFAULT_NAME[i] <= 'z';
  }

  /** A safe name sanitises to itself. */
  lemma SafeNameIsFixed(s: string)
    requires IsSafeName(s)
    ensures SanitizedName(s) == s
  {
    MappedOfKept(s);
    assert Capped(s) == s;
    TrimLeadingKeeps(s);
    TrimTrailingKeeps(s);
    assert TrimTrailingDots(TrimLeadingDots(Capped(s))) == s;
  }

  /** Sanitising twice is the same as sanitising once. */
  lemma SanitizeIdempotent(s: string)
    ensures SanitizedName(SanitizedName(s)) == SanitizedName(s)
  {
    SanitizedIsSafe(s);
    SafeNameIsFixed(SanitizedName(s));
  }

  /**
   * `sg_sanitize_schematic_name`: keeps `[A-Za-z0-9_.-]`, turns space, `/`
   * and `\` into `_`, drops everything else, stops once 96 characters are
   * out, trims dots from both ends and falls back to "schematic".
   */
  method SanitizeSchematicName(input: string) returns (out: string)
    ensures out == SanitizedName(input)
    ensures IsSafeName(out)
  {
    var capped := MapCapped(input);
    out := TrimDots(capped);
    if out == [] {
      out := DEFAULT_NAME;
    }
    SanitizedIsSafe(input);
  }

  /** The character loop: maps each character and stops once 96 are out. */
  method MapCapped(input: string) returns (out: string)
    ensures out == Capped(input)
  {
    out := "";
    var i := 0;
    while i < |input|
      invariant 0 <= i <= |input|
      invariant out == Mapped(input[..i]) && |out| < MAX_NAME_LENGTH
    {
      var c := input[i];
      if KeptChar(c) {
        out := out + [c];
      } else if SeparatorChar(c) {
        out := out + ['_'];
      }
      assert input[..i + 1][..i] == input[..i];
      i := i + 1;
      if |out| >= MAX_NAME_LENGTH {
        break;
      }
    }
    if |out| >= MAX_NAME_LENGTH {
      CappedAfterBreak(input, i);
    } else {
      assert input[..i] == input;
    }
  }

  /** The two trimming loops: leading dots first, then trailing dots. */
  method TrimDots(s: string) returns (out: string)
    ensures out == TrimTrailingDots(TrimLeadingDots(s))
  {
    out := s;
    while out != [] && out[0] == '.'
      invariant TrimLeadingDots(out) == TrimLeadingDots(s)
    {
      out := out[1..];
    }
    ghost var lead := out;
    while out != [] && out[|out| - 1] == '.'
      invariant TrimTrailingDots(out) == TrimTrailingDots(lead)
    {
      out := out[..|out| - 1];
    }
  }
}

/** 64-bit values as 16 lowercase hex digits, the rendering `sg_fnv1a64_hex` uses. */
module HexText {
  const HEX_DIGITS: string := "0123456789abcdef"


  /** `4 * k` for k = 0..15, the shift that brings nibble k to the bottom. */
  const NIBBLE_SHIFTS: seq<bv64> := [0, 4, 8, 12, 16, 20, 24, 28, 32, 36, 40, 44, 48, 52, 56, 60]

  /** `(h >> (k * 4)) & 0xF`: bits 4k..4k+3 of `h`. */
  function Nibble(h: bv64, k: nat): bv4
    requires k < 16
  {
    ((h >> NIBBLE_SHIFTS[k]) & 0xF) as bv4
  }

  /** `hex[n]`. */
  function HexChar(n: bv4): char
  {
    HEX_DIGITS[n as int]
  }

  function HexValue(c: char): bv4
    requires c in HEX_DIGITS
  {
    if c <= '9' then (c as int - '0' as int) as bv4 else (c as int - 'a' as int + 10) as bv4
  }

  lemma HexCharValue(n: bv4)
    ensures HexChar(n) in HEX_DIGITS && HexValue(HexChar(n)) == n
  {
  }

  /** The 16-digit rendering: position j holds nibble 15 - j, so the most significant digit comes first. */
  function Hex16(h: bv64): (s: string)
    ensures |s| == 16
  {
    seq(16, j requires 0 <= j < 16 => HexChar(Nibble(h, 15 - j)))
  }

  predicate IsHex16(s: string)
  {
    |s| == 16 && forall j :: 0 <= j < 16 ==> s[j] in HEX_DIGITS
  }

  /** Sixteen nibbles, most significant first, put together into 64 bits. */
  function Assemble(n15: bv4, n14: bv4, n13: bv4, n12: bv4, n11: bv4, n10: bv4, n9: bv4, n8: bv4,
                    n7: bv4, n6: bv4, n5: bv4, n4: bv4, n3: bv4, n2: bv4, n1: bv4, n0: bv4): bv64
  {
    ((n15 as bv64) << 60) | ((n14 as bv64) << 56) | ((n13 as bv64) << 52) | ((n12 as bv64) << 48)
    | ((n11 as bv64) << 44) | ((n10 as bv64) << 40) | ((n9 as bv64) << 36) | ((n8 as bv64) << 32)
    | ((n7 as bv64) << 28) | ((n6 as bv64) << 24) | ((n5 as bv64) << 20) | ((n4 as bv64) << 16)
    | ((n3 as bv64) << 12) | ((n2 as bv64) << 8) | ((n1 as bv64) << 4) | (n0 as bv64)
  }

  /** The values of the digits of `s`, most significant first. */
  function DigitValues(s: string): (d: seq<bv4>)
    requires IsHex16(s)
    ensures |d| == 16
  {
    seq(16, j requires 0 <= j < 16 => HexValue(s[j]))
  }

  /** Reads 16 lowercase hex digits, most significant first, back into 64 bits. */
  function ParseHex16(s: string): bv64
    requires IsHex16(s)
  {
    var d := DigitValues(s);
    Assemble(d[0], d[1], d[2], d[3], d[4], d[5], d[6], d[7], d[8], d[9], d[10], d[11], d[12], d[13], d[14], d[15])
  }

  /** The 64 bits reassembled from their 16 nibbles. */
  lemma NibblesReassemble(h: bv64)
    ensures h == Assemble(Nibble(h, 15), Nibble(h, 14), Nibble(h, 13), Nibble(h, 12),
                          Nibble(h, 11), Nibble(h, 10), Nibble(h, 9), Nibble(h, 8),
                          Nibble(h, 7), Nibble(h, 6), Nibble(h, 5), Nibble(h, 4),
                          Nibble(h, 3), Nibble(h, 2), Nibble(h, 1), Nibble(h, 0))
  {
    assert NIBBLE_SHIFTS == [0, 4, 8, 12, 16, 20, 24, 28, 32, 36, 40, 44, 48, 52, 56, 60];
  }

  /** The rendering is 16 lowercase hex digits that read back as the same 64-bit value. */
  lemma Hex16RoundTrip(h: bv64)
    ensures IsHex16(Hex16(h)) && ParseHex16(Hex16(h)) == h
  {
    DigitsOfHex16(h);
    AssembleNibbles(h);
  }

  /** The nibbles of `h`, most significant first. */
  function Nibbles(h: bv64): (d: seq<bv4>)
    ensures |d| == 16
  {
    seq(16, j requires 0 <= j < 16 => Nibble(h, 15 - j))
  }

  /** Each digit of the rendering is a hex digit whose value is the nibble it was made from. */
  lemma DigitsOfHex16(h: bv64)
    ensures IsHex16(Hex16(h)) && DigitValues(Hex16(h)) == Nibbles(h)
  {
    var s := Hex16(h);
    forall j | 0 <= j < 16
      ensures s[j] in HEX_DIGITS && HexValue(s[j]) == Nibbles(h)[j]
    {
      HexCharValue(Nibble(h, 15 - j));
    }
  }

  /** The nibble sequence put back together is the value it came from. */
  lemma AssembleNibbles(h: bv64)
    ensures var d := Nibbles(h);
      Assemble(d[0], d[1], d[2], d[3], d[4], d[5], d[6], d[7], d[8], d[9], d[10], d[11], d[12], d[13], d[14], d[15]) == h
  {
    NibblesReassemble(h);
  }

  /** The rendering loop of `sg_fnv1a64_hex`: digit 15 - k is nibble k. */
  method RenderHex16(h: bv64) returns (out: string)
    ensures out == Hex16(h)
  {
    ghost var want := Hex16(h);
    var digits := new char[16];
    var k := 0;
    while k < 16
      invariant 0 <= k <= 16
      invariant forall j :: 16 - k <= j < 16 ==> digits[j] == want[j]
    {
      assert want[15 - k] == HexChar(Nibble(h, k));
      digits[15 - k] := HexChar(Nibble(h, k));
      k := k + 1;
    }
    out := digits[..];
    assert forall j :: 0 <= j < 16 ==> out[j] == want[j];
  }

}

/** FNV-1a over 64 bits, as `sg_fnv1a64_hex` computes it. */
module ContentHash {
  import HexText

  const FNV_OFFSET_BASIS: bv64 := 1469598103934665603
  const FNV_PRIME: bv64 := 1099511628211

  /** One FNV-1a round: xor in the byte, then multiply by the prime, modulo 2^64. */
  function FnvStep(h: bv64, c: bv8): bv64
  {
    (h ^ (c as bv64)) * FNV_PRIME
  }

  /** The hash of `bytes`: one round per byte, starting from the offset basis. */
  function Fnv1a64(bytes: seq<bv8>): bv64
  {
    if bytes == [] then FNV_OFFSET_BASIS
    else FnvStep(Fnv1a64(bytes[..|bytes| - 1]), bytes[|bytes| - 1])
  }

  /** The hashing loop of `sg_fnv1a64_hex`. */
  method HashBytes(bytes: seq<bv8>) returns (h: bv64)
    ensures h == Fnv1a64(bytes)
  {
    h := FNV_OFFSET_BASIS;
    var i := 0;
    while i < |bytes|
      invariant 0 <= i <= |bytes|
      invariant h == Fnv1a64(bytes[..i])
    {
      assert bytes[..i + 1][..i] == bytes[..i];
      h := FnvStep(h, bytes[i]);
      i := i + 1;
    }
    assert bytes[..i] == bytes;
  }

  /** `sg_fnv1a64_hex`: the FNV-1a hash of the bytes as 16 lowercase hex digits, most significant first. */
  method Fnv1a64Hex(bytes: seq<bv8>) returns (out: string)
    ensures out == HexText.Hex16(Fnv1a64(bytes))
    ensures HexText.IsHex16(out) && HexText.ParseHex16(out) == Fnv1a64(bytes)
  {
    var h := HashBytes(bytes);
    out := HexText.RenderHex16(h);
    HexText.Hex16RoundTrip(h);
  }
}
