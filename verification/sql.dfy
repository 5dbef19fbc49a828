/**
 The fragment of Spark SQL column semantics that the patient driver relies on:
 three-valued (Kleene) logic for comparisons with NULL, the `when ... otherwise`
 conditional, null-propagating arithmetic and `round(x, 1)`.
 */
module Sql {
  import opened Options

  /** SQL truth value: a comparison with a NULL operand is Unknown. */
  datatype Truth = True | False | Unknown

  function FromBool(b: bool): (t: Truth)
    ensures t != Unknown
    ensures t == True <==> b
  {
    if b then True else False
  }

  /** Kleene conjunction (`&` on columns, `AND` in a filter string). */
  function And(a: Truth, b: Truth): (t: Truth)
    ensures t == True <==> a == True && b == True
    ensures t == False <==> a == False || b == False
  {
    if a == False || b == False then False
    else if a == True && b == True then True
    else Unknown
  }

  /** Kleene disjunction (`|` on columns, `OR` in a filter string). */
  function Or(a: Truth, b: Truth): (t: Truth)
    ensures t == True <==> a == True || b == True
    ensures t == False <==> a == False && b == False
  {
    if a == True || b == True then True
    else if a == False && b == False then False
    else Unknown
  }

  function Less(x: Option<real>, c: real): (t: Truth)
    ensures t == Unknown <==> x.None?
    ensures t == True <==> x.Some? && x.value < c
  {
    match x
    case None => Unknown
    case Some(v) => FromBool(v < c)
  }

  function Greater(x: Option<real>, c: real): (t: Truth)
    ensures t == Unknown <==> x.None?
    ensures t == True <==> x.Some? && x.value > c
  {
    match x
    case None => Unknown
    case Some(v) => FromBool(v > c)
  }

  function AtMost(x: Option<real>, c: real): (t: Truth)
    ensures t == Unknown <==> x.None?
    ensures t == True <==> x.Some? && x.value <= c
  {
    match x
    case None => Unknown
    case Some(v) => FromBool(v <= c)
  }

  function Equal<T(==)>(x: Option<T>, c: T): (t: Truth)
    ensures t == Unknown <==> x.None?
    ensures t == True <==> x == Some(c)
  {
    match x
    case None => Unknown
    case Some(v) => FromBool(v == c)
  }

  function NotEqual<T(==)>(x: Option<T>, c: T): (t: Truth)
    ensures t == Unknown <==> x.None?
    ensures t == True <==> x.Some? && x.value != c
  {
    match x
    case None => Unknown
    case Some(v) => FromBool(v != c)
  }

  /** `IS NULL` never yields Unknown. */
  function IsNull<T>(x: Option<T>): (t: Truth)
    ensures t != Unknown
    ensures t == True <==> x.None?
  {
    FromBool(x.None?)
  }

  /** `IS NOT NULL` never yields Unknown. */
  function IsNotNull<T>(x: Option<T>): (t: Truth)
    ensures t != Unknown
    ensures t == True <==> x.Some?
  {
    FromBool(x.Some?)
  }

  /** `when(c, a).otherwise(b)`: only a True condition selects `a`; False and Unknown fall through. */
  function When<T>(c: Truth, a: T, otherwise: T): (r: T)
  {
    if c == True then a else otherwise
  }

  /** Column addition: NULL if either operand is NULL. */
  function Plus(x: Option<real>, y: Option<real>): (r: Option<real>)
    ensures r.Some? <==> x.Some? && y.Some?
    ensures r.Some? ==> r.value == x.value + y.value
  {
    if x.Some? && y.Some? then Some(x.value + y.value) else None
  }

  /**
   Column division: NULL if the dividend is NULL, or if the divisor is zero
   under Spark's default non-ANSI mode (ANSI mode raises an error instead).
   */
  function Divide(x: Option<real>, d: real): (r: Option<real>)
    ensures r.Some? <==> x.Some? && d != 0.0
    ensures r.Some? ==> r.value * d == x.value
  {
    if x.Some? && d != 0.0 then Some(x.value / d) else None
  }

  /** A value that is a whole number of tenths. */
  predicate OnTenths(x: real)
  {
    (x * 10.0).Floor as real == x * 10.0
  }

  /**
   `round(x, 1)` with HALF_UP rounding: the nearest tenth, halves rounded away
   from zero.
   */
  function RoundTenth(x: real): (r: real)
    ensures OnTenths(r)
    ensures x - 0.05 <= r <= x + 0.05
    ensures x >= 0.0 ==> 0.0 <= r && x - 0.05 < r
    ensures x < 0.0 ==> r <= 0.0 && r < x + 0.05
  {
    if x >= 0.0 then
      var y := x * 10.0 + 0.5;
      var k := y.Floor;
      assert k as real <= y < k as real + 1.0;
      assert (k as real / 10.0) * 10.0 == k as real;
      assert (k as real).Floor == k;
      k as real / 10.0
    else
      var y := -x * 10.0 + 0.5;
      var k := y.Floor;
      assert k as real <= y < k as real + 1.0;
      assert (-(k as real) / 10.0) * 10.0 == (-k) as real;
      assert ((-k) as real).Floor == -k;
      -(k as real) / 10.0
  }

  /** `round(x, 1)` on a nullable column. */
  function Round(x: Option<real>): (r: Option<real>)
    ensures r.Some? <==> x.Some?
    ensures r.Some? ==> OnTenths(r.value) && x.value - 0.05 <= r.value <= x.value + 0.05
    ensures r.Some? && x.value >= 0.0 ==> x.value - 0.05 < r.value
    ensures r.Some? && x.value < 0.0 ==> r.value < x.value + 0.05
  {
    match x
    case None => None
    case Some(v) => Some(RoundTenth(v))
  }

  /** A tenth-aligned value is left unchanged by rounding. */
  lemma RoundTenthFixesTenths(x: real)
    requires OnTenths(x)
    ensures RoundTenth(x) == x
  {
    var m := (x * 10.0).Floor;
    assert x == m as real / 10.0;
    if x >= 0.0 {
      assert (x * 10.0 + 0.5).Floor == m;
    } else {
      assert (-x * 10.0 + 0.5).Floor == -m;
    }
  }
}
