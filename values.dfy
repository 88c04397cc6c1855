/**
 * JSON values as the client sees them, and the two Python conversions the
 * renderers rely on: `str(value)` and the truthiness of a value.
 */
module Values {

  datatype Option<+T> = None | Some(value: T)

  /** A JSON scalar as decoded by the HTTP library: null, a boolean, an integer or a string. */
  datatype Scalar = Null | Bool(b: bool) | Int(i: int) | Str(s: string)

  /** A raw record: one decoded JSON object, keyed by the platform's field names. */
  type RawRecord = map<string, Scalar>

  /** A decoded response payload: a JSON object or a JSON array of objects. */
  datatype Body = Object(fields: RawRecord) | Array(items: seq<RawRecord>)

  /** Python truthiness: None, False, 0 and "" are false, everything else is true. */
  predicate Truthy(v: Scalar)
  {
    match v
    case Null => false
    case Bool(b) => b
    case Int(i) => i != 0
    case Str(s) => s != ""
  }

  /** The decimal digits of a natural number, most significant first. */
  function Digits(n: nat): (r: string)
    ensures |r| > 0
    ensures forall k :: 0 <= k < |r| ==> '0' <= r[k] <= '9'
    decreases n
  {
    var d := [(n % 10 + 48) as char];
    if n < 10 then d else Digits(n / 10) + d
  }

  /** The number a string of decimal digits denotes, most significant first. */
  function DigitsValue(s: string): int
    decreases |s|
  {
    if s == [] then 0 else DigitsValue(s[..|s| - 1]) * 10 + (s[|s| - 1] as int - '0' as int)
  }

  /** The digits of `n` denote `n`. */
  lemma {:induction false} DigitsDenote(n: nat)
    ensures DigitsValue(Digits(n)) == n
    decreases n
  {
    var r := Digits(n);
    if n >= 10 {
      DigitsDenote(n / 10);
      assert r[..|r| - 1] == Digits(n / 10);
    }
  }

  /** Python's `str()` of a scalar. */
  function Text(v: Scalar): (r: string)
    ensures v.Str? ==> r == v.s
    ensures !v.Str? ==> r != ""
  {
    match v
    case Null => "None"
    case Bool(b) => if b then "True" else "False"
    case Int(i) => if i < 0 then "-" + Digits(-i) else Digits(i)
    case Str(s) => s
  }

  /** Python's `==` on scalars: booleans compare as the integers 0 and 1. */
  predicate ScalarEquals(a: Scalar, b: Scalar)
  {
    match (a, b)
    case (Bool(x), Int(y)) => (if x then 1 else 0) == y
    case (Int(x), Bool(y)) => x == (if y then 1 else 0)
    case _ => a == b
  }

  /** Python's `==` on scalars is an equivalence, so it can key a dictionary. */
  lemma ScalarEqualsEquivalence(a: Scalar, b: Scalar, c: Scalar)
    ensures ScalarEquals(a, a)
    ensures ScalarEquals(a, b) ==> ScalarEquals(b, a)
    ensures ScalarEquals(a, b) && ScalarEquals(b, c) ==> ScalarEquals(a, c)
  {
  }

  /** Python's `" " * n`. */
  function Spaces(n: nat): (r: string)
    ensures |r| == n
    ensures forall k :: 0 <= k < n ==> r[k] == ' '
  {
    seq(n, _ => ' ')
  }
}
