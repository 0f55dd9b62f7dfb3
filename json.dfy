/** Option and Result, the usual wrappers for absent values and error returns. */
module Wrappers {
  datatype Option<T> = None | Some(value: T)

  datatype Result<T, E> = Ok(value: T) | Err(error: E)
}

/**
 * The order in which a JSON object's keys are visited. nlohmann::json keeps
 * object members in a std::map<std::string, json>, so every loop over an
 * object sees its keys in ascending std::string order: lexicographic by
 * character code.
 */
module KeyOrder {
  /** `a < b` for std::string. */
  predicate Less(a: string, b: string)
  {
    if |a| == 0 then |b| > 0
    else |b| > 0 && (a[0] < b[0] || (a[0] == b[0] && Less(a[1..], b[1..])))
  }

  lemma {:induction false} LessIrreflexive(a: string)
    ensures !Less(a, a)
  {
    if |a| > 0 { LessIrreflexive(a[1..]); }
  }

  lemma {:induction false} LessAsymmetric(a: string, b: string)
    requires Less(a, b)
    ensures !Less(b, a)
  {
    if |a| > 0 && a[0] == b[0] { LessAsymmetric(a[1..], b[1..]); }
  }

  lemma {:induction false} LessTransitive(a: string, b: string, c: string)
    requires Less(a, b) && Less(b, c)
    ensures Less(a, c)
  {
    if |a| > 0 && a[0] == b[0] && b[0] == c[0] {
      LessTransitive(a[1..], b[1..], c[1..]);
    }
  }

  lemma {:induction false} LessTotal(a: string, b: string)
    ensures a == b || Less(a, b) || Less(b, a)
  {
    if |a| > 0 && |b| > 0 && a[0] == b[0] {
      LessTotal(a[1..], b[1..]);
      if a[1..] == b[1..] {
        assert a == [a[0]] + a[1..] && b == [b[0]] + b[1..];
      }
    }
  }

  /** `m` is the least element of `s`. */
  predicate IsLeast(m: string, s: set<string>)
  {
    m in s && forall x :: x in s && x != m ==> Less(m, x)
  }

  lemma {:induction false} LeastExists(s: set<string>)
    requires s != {}
    ensures exists m :: IsLeast(m, s)
    decreases |s|
  {
    var x :| x in s;
    if s == {x} {
      assert IsLeast(x, s);
    } else {
      LeastExists(s - {x});
      var m :| IsLeast(m, s - {x});
      LessTotal(m, x);
      if Less(m, x) {
        assert IsLeast(m, s);
      } else {
        forall y | y in s && y != x
          ensures Less(x, y)
        {
          if y != m { LessTransitive(x, m, y); }
        }
        assert IsLeast(x, s);
      }
    }
  }

  lemma LeastUnique(s: set<string>)
    ensures forall m1, m2 :: IsLeast(m1, s) && IsLeast(m2, s) ==> m1 == m2
  {
    forall m1, m2 | IsLeast(m1, s) && IsLeast(m2, s)
      ensures m1 == m2
    {
      if m1 != m2 { LessAsymmetric(m1, m2); }
    }
  }

  /** The least key of a non-empty key set: `begin()` of the std::map. */
  function Least(s: set<string>): (m: string)
    requires s != {}
    ensures IsLeast(m, s)
  {
    LeastExists(s);
    LeastUnique(s);
    var m :| IsLeast(m, s);
    m
  }

  predicate Ascending(keys: seq<string>)
  {
    forall i, j :: 0 <= i < j < |keys| ==> Less(keys[i], keys[j])
  }

  /** The keys of an object in the order nlohmann::json iterates them. */
  function SortedKeys(s: set<string>): (keys: seq<string>)
    ensures |keys| == |s|
    ensures forall k :: k in keys <==> k in s
    ensures Ascending(keys)
    decreases |s|
  {
    if s == {} then []
    else
      var m := Least(s);
      [m] + SortedKeys(s - {m})
  }

  lemma {:induction false} AscendingDistinct(keys: seq<string>, i: int, j: int)
    requires Ascending(keys) && 0 <= i < |keys| && 0 <= j < |keys| && i != j
    ensures keys[i] != keys[j]
  {
    if i < j { LessIrreflexive(keys[i]); } else { LessIrreflexive(keys[j]); }
  }
}

/**
 * JSON values as nlohmann::json and Python's json module hold them, with the
 * conversions nlohmann performs when C++ code asks for a typed value.
 * Integers are unbounded and floats are exact reals (see README).
 */
module Json {
  import opened Wrappers

  datatype Value =
    | Null
    | Bool(bval: bool)
    | Int(ival: int)
    | Float(fval: real)
    | Str(sval: string)
    | Arr(items: seq<Value>)
    | Obj(fields: map<string, Value>)

  /** `is_number()`. */
  predicate IsNumber(v: Value) { v.Int? || v.Float? }

  /** `contains(key)`: false for anything that is not an object. */
  predicate Contains(v: Value, key: string)
  {
    v.Obj? && key in v.fields
  }

  /** The map has `key`, bound to `x`. */
  predicate HasField(fields: map<string, Value>, key: string, x: Value)
  {
    key in fields && fields[key] == x
  }

  /** `m` is an object whose member `key` is `x`. */
  predicate Has(m: Value, key: string, x: Value)
  {
    m.Obj? && HasField(m.fields, key, x)
  }

  /** Truncation toward zero, the C++ floating-to-integral conversion. */
  function Trunc(x: real): (n: int)
    ensures 0.0 <= x ==> n as real <= x < n as real + 1.0
    ensures x < 0.0 ==> n as real - 1.0 < x <= n as real
  {
    if x >= 0.0 then x.Floor else -((-x).Floor)
  }

  /** `get<double>()`: numbers and booleans convert, anything else throws. */
  function AsReal(v: Value): (r: Option<real>)
    ensures r.Some? <==> (IsNumber(v) || v.Bool?)
    ensures v.Int? ==> r == Some(v.ival as real)
    ensures v.Float? ==> r == Some(v.fval)
  {
    match v
    case Int(i) => Some(i as real)
    case Float(x) => Some(x)
    case Bool(b) => Some(if b then 1.0 else 0.0)
    case _ => None
  }

  /** `get<int>()`: integers as they are, floats truncated, booleans as 0/1; anything else throws. */
  function AsInt(v: Value): (r: Option<int>)
    ensures r.Some? <==> (IsNumber(v) || v.Bool?)
    ensures v.Int? ==> r == Some(v.ival)
    ensures v.Float? ==> r == Some(Trunc(v.fval))
  {
    match v
    case Int(i) => Some(i)
    case Float(x) => Some(Trunc(x))
    case Bool(b) => Some(if b then 1 else 0)
    case _ => None
  }

  /** `get<bool>()`: only booleans convert. */
  function AsBool(v: Value): (r: Option<bool>)
    ensures r.Some? <==> v.Bool?
  {
    if v.Bool? then Some(v.bval) else None
  }

  /** `get<std::string>()`: only strings convert. */
  function AsString(v: Value): (r: Option<string>)
    ensures r.Some? <==> v.Str?
  {
    if v.Str? then Some(v.sval) else None
  }

  /**
   * `obj.value(key, dflt)` with a json default: throws on a non-object,
   * gives the default when the key is absent and the member otherwise.
   */
  function ValueOf(obj: Value, key: string, dflt: Value): (r: Option<Value>)
    ensures r.Some? <==> obj.Obj?
    ensures obj.Obj? && key !in obj.fields ==> r == Some(dflt)
    ensures Contains(obj, key) ==> r == Some(obj.fields[key])
  {
    if !obj.Obj? then None
    else if key in obj.fields then Some(obj.fields[key])
    else Some(dflt)
  }

  /** `obj.value(key, std::string{dflt})`. */
  function ValueString(obj: Value, key: string, dflt: string): (r: Option<string>)
    ensures r.Some? <==> obj.Obj? && (key in obj.fields ==> obj.fields[key].Str?)
    ensures obj.Obj? && key !in obj.fields ==> r == Some(dflt)
    ensures Contains(obj, key) && obj.fields[key].Str? ==> r == Some(obj.fields[key].sval)
  {
    if !obj.Obj? then None
    else if key in obj.fields then AsString(obj.fields[key])
    else Some(dflt)
  }

  /** `obj.value(key, int{dflt})`. */
  function ValueInt(obj: Value, key: string, dflt: int): (r: Option<int>)
    ensures r.Some? <==> obj.Obj? && (key in obj.fields ==> IsNumber(obj.fields[key]) || obj.fields[key].Bool?)
    ensures obj.Obj? && key !in obj.fields ==> r == Some(dflt)
  {
    if !obj.Obj? then None
    else if key in obj.fields then AsInt(obj.fields[key])
    else Some(dflt)
  }

  /** `obj.value(key, double{dflt})`. */
  function ValueReal(obj: Value, key: string, dflt: real): (r: Option<real>)
    ensures r.Some? <==> obj.Obj? && (key in obj.fields ==> IsNumber(obj.fields[key]) || obj.fields[key].Bool?)
    ensures obj.Obj? && key !in obj.fields ==> r == Some(dflt)
  {
    if !obj.Obj? then None
    else if key in obj.fields then AsReal(obj.fields[key])
    else Some(dflt)
  }

  /** `type_name()`, the word nlohmann puts in its type_error messages. */
  function TypeName(v: Value): (name: string)
    ensures name in {"null", "boolean", "number", "string", "array", "object"}
    ensures name == "number" <==> IsNumber(v)
  {
    match v
    case Null => "null"
    case Bool(_) => "boolean"
    case Int(_) => "number"
    case Float(_) => "number"
    case Str(_) => "string"
    case Arr(_) => "array"
    case Obj(_) => "object"
  }

  /** Python truthiness of a decoded JSON value. */
  predicate Truthy(v: Value)
  {
    match v
    case Null => false
    case Bool(b) => b
    case Int(i) => i != 0
    case Float(x) => x != 0.0
    case Str(s) => s != ""
    case Arr(a) => a != []
    case Obj(m) => m != map[]
  }
}
