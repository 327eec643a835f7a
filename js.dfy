/**
  JavaScript values as the route handlers see them.

  Numbers are modelled as `real` (exact arithmetic, no rounding or overflow);
  a `parseFloat`/`parseInt` that yields NaN is `None`. The operator `x || d`
  on a number keeps `x` unless it is NaN or 0, and on a string keeps it
  unless it is empty or absent.
 */
module Js {

  datatype Option<+T> = None | Some(value: T)

  /** A string-valued JSON field of an upstream quote (`"close": "189.95"`)
      together with what `parseFloat` and `parseInt(…, 10)` make of it. */
  datatype Field = Field(raw: string, parsedFloat: Option<real>, parsedInt: Option<int>)

  /** A string field is truthy when it is present and not empty. */
  predicate Truthy(f: Option<Field>)
  {
    f.Some? && f.value.raw != ""
  }

  /** `a || b` on two optional string fields. */
  function Or(a: Option<Field>, b: Option<Field>): (r: Option<Field>)
    ensures Truthy(a) ==> r == a
    ensures !Truthy(a) ==> r == b
  {
    if Truthy(a) then a else b
  }

  /** `parseFloat(f || d)` where `d` is a literal numeral such as `'0'`, whose value is `d`. */
  function ParseFloatOr(f: Option<Field>, d: real): (r: Option<real>)
    ensures Truthy(f) ==> r == f.value.parsedFloat
    ensures !Truthy(f) ==> r == Some(d)
  {
    if Truthy(f) then f.value.parsedFloat else Some(d)
  }

  /** `parseInt(f || d, 10)` where `d` is a literal numeral. */
  function ParseIntOr(f: Option<Field>, d: int): (r: Option<int>)
    ensures Truthy(f) ==> r == f.value.parsedInt
    ensures !Truthy(f) ==> r == Some(d)
  {
    if Truthy(f) then f.value.parsedInt else Some(d)
  }

  /** `x || 0` on a number: NaN becomes 0, every other value (0 included) is kept. */
  function OrZero(x: Option<real>): (r: real)
    ensures x.Some? ==> r == x.value
    ensures x.None? ==> r == 0.0
  {
    if x.Some? then x.value else 0.0
  }

  function IntOrZero(x: Option<int>): (r: int)
    ensures x.Some? ==> r == x.value
    ensures x.None? ==> r == 0
  {
    if x.Some? then x.value else 0
  }

  /** A number is truthy when it is neither NaN nor 0. */
  predicate NumberTruthy(x: Option<real>)
  {
    x.Some? && x.value != 0.0
  }

  /** `x || d` on numbers. */
  function NumberOr(x: Option<real>, d: real): (r: real)
    ensures NumberTruthy(x) ==> r == x.value
    ensures !NumberTruthy(x) ==> r == d
  {
    if NumberTruthy(x) then x.value else d
  }

  /** `a || b` on two strings. */
  function StringOr(a: string, b: string): (r: string)
    ensures a != "" ==> r == a
    ensures a == "" ==> r == b
  {
    if a != "" then a else b
  }

  /** The decimal numeral of `n`, as `String(n)` writes it. */
  function Decimal(n: nat): (r: string)
    ensures |r| >= 1
    ensures forall i :: 0 <= i < |r| ==> '0' <= r[i] <= '9'
    ensures |r| > 1 ==> r[0] != '0'
  {
    var digit := [(48 + n % 10) as char];
    if n < 10 then digit else Decimal(n / 10) + digit
  }

  /** The number a string of decimal digits denotes, read most significant digit first. */
  function NumeralValue(s: string): (v: int)
    decreases |s|
  {
    if s == [] then 0 else 10 * NumeralValue(s[..|s| - 1]) + (s[|s| - 1] as int - 48)
  }

  /** `Decimal` writes the numeral of `n`: reading it back gives `n`. */
  lemma {:induction false} DecimalDenotes(n: nat)
    ensures NumeralValue(Decimal(n)) == n
  {
    if n >= 10 {
      DecimalDenotes(n / 10);
      var r := Decimal(n);
      assert r[..|r| - 1] == Decimal(n / 10);
    }
  }
}
