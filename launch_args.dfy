/**
 * The server's command line: the listening port and simulator mode resolved
 * from the arguments, and `std::stoi`, which reads every port value.
 */
module LaunchArgs {
  import opened Wrappers
  import opened Decimal

  const INT_MIN: int := -0x8000_0000
  const INT_MAX: int := 0x7FFF_FFFF

  /** The default port, and the port simulator mode switches to. */
  const DEFAULT_PORT: int := 9001
  const SIM_PORT: int := 8080

  /** `isspace` in the C locale. */
  predicate IsSpace(c: char)
  {
    c == ' ' || c == '\t' || c == '\n' || c == '\r' || c == 11 as char || c == 12 as char
  }

  function SkipSpace(s: string): (t: string)
    ensures |t| <= |s| && t == s[|s| - |t|..]
    ensures t == [] || !IsSpace(t[0])
  {
    if s != [] && IsSpace(s[0]) then SkipSpace(s[1..]) else s
  }

  /** The length of the run of digits `s` starts with. */
  function DigitRun(s: string): (n: nat)
    ensures n <= |s| && AllDigits(s[..n])
    ensures n < |s| ==> !IsDigit(s[n])
  {
    if s != [] && IsDigit(s[0]) then
      var n := 1 + DigitRun(s[1..]);
      assert s[..n] == [s[0]] + s[1..][..n - 1];
      n
    else 0
  }

  /**
   * `std::stoi(s)`: leading white space, an optional sign and then the
   * longest run of digits, read in base 10; no digit, or a value outside
   * `int`, throws (None here). Characters after the digits are ignored.
   */
  function Stoi(s: string): (r: Option<int>)
    ensures r.Some? ==> INT_MIN <= r.value <= INT_MAX
  {
    var t := SkipSpace(s);
    var neg := t != [] && t[0] == '-';
    var u := if t != [] && (t[0] == '-' || t[0] == '+') then t[1..] else t;
    var n := DigitRun(u);
    if n == 0 then None
    else
      var v := if neg then 0 - DigitsValue(u[..n]) else DigitsValue(u[..n]);
      if INT_MIN <= v <= INT_MAX then Some(v) else None
  }

  /** A string of digits reads as its value whenever that fits in an `int`. */
  lemma StoiOfDigits(s: string)
    requires s != [] && AllDigits(s)
    ensures Stoi(s) == if DigitsValue(s) <= INT_MAX then Some(DigitsValue(s)) else None
  {
    assert IsDigit(s[0]);
    assert !IsSpace(s[0]) && s[0] != '-' && s[0] != '+';
    assert SkipSpace(s) == s;
    DigitRunAll(s);
    assert s[..|s|] == s;
  }

  lemma {:induction false} DigitRunAll(s: string)
    requires AllDigits(s)
    ensures DigitRun(s) == |s|
  {
    if s != [] {
      DigitRunAll(s[1..]);
    }
  }

  /** `stoi` reads back the decimal text of every non-negative `int`. */
  lemma StoiNatText(n: nat)
    requires n <= INT_MAX
    ensures Stoi(NatText(n)) == Some(n)
  {
    NatTextRoundTrip(n);
    StoiOfDigits(NatText(n));
  }

  /** The outcome of argument resolution: print the usage and exit 0, or serve. */
  datatype Launch = Help | Serve(port: int, sim: bool)

  predicate IsHelp(a: string) { a == "-h" || a == "--help" }
  predicate IsSim(a: string) { a == "--sim" || a == "-s" }
  predicate IsPortFlag(a: string) { a == "--port" || a == "-p" }
  predicate IsPortAssign(a: string) { |a| >= 7 && a[..7] == "--port=" }

  /** The port before the loop: an all-digit first argument sets it when `stoi` reads it. */
  function InitialPort(args: seq<string>): (port: int)
    ensures args == [] || args[0] == [] || !AllDigits(args[0]) ==> port == DEFAULT_PORT
  {
    if args != [] && args[0] != [] && AllDigits(args[0]) && Stoi(args[0]).Some? then Stoi(args[0]).value
    else DEFAULT_PORT
  }

  /** A port value that `stoi` rejects leaves the port as it was. */
  function Keep(r: Option<int>, port: int): int
  {
    if r.Some? then r.value else port
  }

  /** What argument `i` (not a help flag) does to the port and the mode. */
  function Step(args: seq<string>, i: nat, port: int, sim: bool): (int, bool)
    requires i < |args|
  {
    var a := args[i];
    var p1 := if IsSim(a) then SIM_PORT else port;
    var p2 := if IsPortFlag(a) && i + 1 < |args| then Keep(Stoi(args[i + 1]), p1) else p1;
    var p3 := if IsPortAssign(a) then Keep(Stoi(a[7..]), p2) else p2;
    (p3, sim || IsSim(a))
  }

  /** The arguments from `i` on, left to right; a help flag stops everything. */
  function Scan(args: seq<string>, i: nat, port: int, sim: bool): Launch
    requires i <= |args|
    decreases |args| - i
  {
    if i == |args| then Serve(port, sim)
    else if IsHelp(args[i]) then Help
    else
      var (p, s) := Step(args, i, port, sim);
      Scan(args, i + 1, p, s)
  }

  function Resolve(args: seq<string>): Launch
  {
    Scan(args, 0, InitialPort(args), false)
  }

  /** The argument loop of the server's entry point; `args` excludes the program name. */
  method ResolveArgs(args: seq<string>) returns (r: Launch)
    ensures r == Resolve(args)
  {
    var port := DEFAULT_PORT;
    if |args| > 0 {
      var first := args[0];
      if first != [] && AllDigits(first) {
        var p := Stoi(first);
        if p.Some? {
          port := p.value;
        }
      }
    }
    var sim := false;
    var i := 0;
    while i < |args|
      invariant 0 <= i <= |args|
      invariant Scan(args, i, port, sim) == Resolve(args)
    {
      var a := args[i];
      if IsHelp(a) {
        return Help;
      }
      if IsSim(a) {
        sim := true;
        port := SIM_PORT;
      }
      if IsPortFlag(a) && i + 1 < |args| {
        var p := Stoi(args[i + 1]);
        if p.Some? {
          port := p.value;
        }
      }
      if |a| >= 7 && a[..7] == "--port=" {
        var p := Stoi(a[7..]);
        if p.Some? {
          port := p.value;
        }
      }
      i := i + 1;
    }
    r := Serve(port, sim);
  }

  /** Help is asked for exactly when some argument is `-h` or `--help`, wherever it stands. */
  lemma {:induction false} ScanHelpIff(args: seq<string>, i: nat, port: int, sim: bool)
    requires i <= |args|
    ensures Scan(args, i, port, sim).Help? <==> exists j :: i <= j < |args| && IsHelp(args[j])
    decreases |args| - i
  {
    if i < |args| && !IsHelp(args[i]) {
      var (p, s) := Step(args, i, port, sim);
      ScanHelpIff(args, i + 1, p, s);
    }
  }

  lemma HelpIff(args: seq<string>)
    ensures Resolve(args).Help? <==> exists j :: 0 <= j < |args| && IsHelp(args[j])
  {
    ScanHelpIff(args, 0, InitialPort(args), false);
  }

  /** Simulator mode is on exactly when some argument is `--sim` or `-s`. */
  lemma {:induction false} ScanSimIff(args: seq<string>, i: nat, port: int, sim: bool)
    requires i <= |args|
    ensures Scan(args, i, port, sim).Serve? ==>
      (Scan(args, i, port, sim).sim <==> sim || exists j :: i <= j < |args| && IsSim(args[j]))
    decreases |args| - i
  {
    if i < |args| && !IsHelp(args[i]) {
      var (p, s) := Step(args, i, port, sim);
      ScanSimIff(args, i + 1, p, s);
    }
  }

  lemma SimIff(args: seq<string>)
    requires Resolve(args).Serve?
    ensures Resolve(args).sim <==> exists j :: 0 <= j < |args| && IsSim(args[j])
  {
    ScanSimIff(args, 0, InitialPort(args), false);
  }

  /** Skipping ahead over arguments that hold no help flag. */
  lemma {:induction false} ScanReaches(args: seq<string>, i: nat, k: nat, port: int, sim: bool)
    returns (p: int, s: bool)
    requires i <= k <= |args|
    requires forall j :: i <= j < k ==> !IsHelp(args[j])
    ensures Scan(args, i, port, sim) == Scan(args, k, p, s)
    decreases k - i
  {
    if i == k {
      return port, sim;
    }
    var st := Step(args, i, port, sim);
    assert Scan(args, i, port, sim) == Scan(args, i + 1, st.0, st.1);
    p, s := ScanReaches(args, i + 1, k, st.0, st.1);
  }

  /** With no help flag, a trailing `--sim` or `-s` serves on 8080 in simulator mode, whatever came before. */
  lemma TrailingSimWins(args: seq<string>)
    requires args != [] && IsSim(args[|args| - 1])
    requires forall j :: 0 <= j < |args| ==> !IsHelp(args[j])
    ensures Resolve(args) == Serve(SIM_PORT, true)
  {
    var p, s := ScanReaches(args, 0, |args| - 1, InitialPort(args), false);
  }

  /**
   * With no help flag, a trailing `--port X` or `-p X` whose value `stoi`
   * reads serves on that port: the last port setting wins.
   */
  lemma TrailingPortWins(args: seq<string>, v: int)
    requires |args| >= 2 && IsPortFlag(args[|args| - 2])
    requires Stoi(args[|args| - 1]) == Some(v)
    requires forall j :: 0 <= j < |args| ==> !IsHelp(args[j])
    requires !IsSim(args[|args| - 1]) && !IsPortAssign(args[|args| - 1])
    ensures Resolve(args).Serve? && Resolve(args).port == v
  {
    var p, s := ScanReaches(args, 0, |args| - 2, InitialPort(args), false);
    var n := |args|;
    assert !IsSim(args[n - 2]) && !IsPortAssign(args[n - 2]);
    var (p1, s1) := Step(args, n - 2, p, s);
    assert p1 == v;
    var (p2, s2) := Step(args, n - 1, p1, s1);
    assert p2 == v;
    assert Scan(args, n - 1, p1, s1) == Serve(p2, s2);
    assert Scan(args, n - 2, p, s) == Scan(args, n - 1, p1, s1);
  }

  /** With no help flag, a trailing `--port=X` whose value `stoi` reads serves on that port. */
  lemma TrailingPortAssignWins(args: seq<string>, x: string, v: int)
    requires args != [] && args[|args| - 1] == "--port=" + x && Stoi(x) == Some(v)
    requires forall j :: 0 <= j < |args| ==> !IsHelp(args[j])
    ensures Resolve(args).Serve? && Resolve(args).port == v
  {
    var p, s := ScanReaches(args, 0, |args| - 1, InitialPort(args), false);
    var a := args[|args| - 1];
    assert a[..7] == "--port=" && a[7..] == x;
    assert !IsSim(a) && !IsPortFlag(a) by {
      assert |a| >= 7;
    }
    assert Step(args, |args| - 1, p, s).0 == v;
  }

  /** An argument that sets nothing, and is no help flag, changes neither the port nor the mode. */
  predicate Inert(a: string)
  {
    !IsHelp(a) && !IsSim(a) && !IsPortFlag(a) && !IsPortAssign(a)
  }

  lemma {:induction false} ScanInert(args: seq<string>, i: nat, port: int, sim: bool)
    requires i <= |args|
    requires forall j :: i <= j < |args| ==> Inert(args[j])
    ensures Scan(args, i, port, sim) == Serve(port, sim)
    decreases |args| - i
  {
    if i < |args| {
      ScanInert(args, i + 1, port, sim);
    }
  }

  /** Without any flag the server listens on 9001, or on an all-digit first argument that `stoi` reads. */
  lemma DefaultLaunch(args: seq<string>)
    requires forall j :: 0 <= j < |args| ==> Inert(args[j])
    ensures Resolve(args) == Serve(InitialPort(args), false)
    ensures args != [] && args[0] != [] && AllDigits(args[0]) && DigitsValue(args[0]) <= INT_MAX
            ==> Resolve(args) == Serve(DigitsValue(args[0]), false)
  {
    ScanInert(args, 0, InitialPort(args), false);
    if args != [] && args[0] != [] && AllDigits(args[0]) {
      StoiOfDigits(args[0]);
    }
  }
}
