/** Shared vocabulary: optional values, outcomes of operations that may raise,
    and Python's decimal rounding over exact reals. */
module Prelude {

  datatype Option<+T> = None | Some(value: T)

  /** The outcome of an operation that either returns or raises. */
  datatype Result<+T> = Ok(value: T) | Raised(error: string)
  {
    predicate IsFailure() {
      Raised?
    }

    function PropagateFailure<U>(): Result<U>
      requires Raised?
    {
      Raised(error)
    }

    function Extract(): T
      requires Ok?
    {
      value
    }
  }

  function Max(x: real, y: real): (m: real)
    ensures m >= x && m >= y && (m == x || m == y)
  {
    if x >= y then x else y
  }

  function Min(x: real, y: real): (m: real)
    ensures m <= x && m <= y && (m == x || m == y)
  {
    if x <= y then x else y
  }

  function Abs(x: real): (a: real)
    ensures a >= 0.0 && (a == x || a == -x)
  {
    if x < 0.0 then -x else x
  }

  /** The nearest integer, ties to the even neighbour. */
  function RoundHalfEven(x: real): (n: int)
    ensures x - 0.5 <= n as real <= x + 0.5
  {
    var f := x.Floor;
    var d := x - f as real;
    if d < 0.5 then f
    else if d > 0.5 then f + 1
    else if f % 2 == 0 then f
    else f + 1
  }

  /** `round(x, 2)`, `round(x, 4)` and `round(x, 6)`. */
  function Round2(x: real): real {
    RoundHalfEven(x * 100.0) as real / 100.0
  }

  function Round4(x: real): real {
    RoundHalfEven(x * 10000.0) as real / 10000.0
  }

  function Round6(x: real): real {
    RoundHalfEven(x * 1000000.0) as real / 1000000.0
  }

  /** Nothing is nearer, and of two nearest integers it is the even one. */
  lemma RoundMeaning(x: real, m: int)
    ensures Abs(x - RoundHalfEven(x) as real) <= Abs(x - m as real)
    ensures m != RoundHalfEven(x) && Abs(x - RoundHalfEven(x) as real) == Abs(x - m as real) ==>
              RoundHalfEven(x) % 2 == 0
  {
    var f := x.Floor;
    assert m <= f || m >= f + 1;
  }

  lemma RoundMonotone(x: real, y: real)
    requires x <= y
    ensures RoundHalfEven(x) <= RoundHalfEven(y)
  {
    assert x.Floor <= y.Floor;
  }

  lemma RoundInteger(n: int)
    ensures RoundHalfEven(n as real) == n
  {
    assert (n as real).Floor == n;
  }

  lemma Round2Error(x: real)
    ensures x - 0.005 <= Round2(x) <= x + 0.005
  {
  }

  lemma Round4Error(x: real)
    ensures x - 0.00005 <= Round4(x) <= x + 0.00005
    ensures x >= 0.0 ==> Round4(x) >= 0.0
  {
  }

  lemma Round6Error(x: real)
    ensures x - 0.0000005 <= Round6(x) <= x + 0.0000005
  {
  }

  lemma Round4Monotone(x: real, y: real)
    requires x <= y
    ensures Round4(x) <= Round4(y)
  {
    RoundMonotone(x * 10000.0, y * 10000.0);
  }

  lemma Round6Monotone(x: real, y: real)
    requires x <= y
    ensures Round6(x) <= Round6(y)
  {
    RoundMonotone(x * 1000000.0, y * 1000000.0);
  }

  /** A price that already lies on the four-decimal grid is a fixed point. */
  ghost predicate OnGrid4(x: real) {
    Round4(x) == x
  }

  lemma Round4OnGrid(x: real)
    ensures OnGrid4(Round4(x))
  {
    var n := RoundHalfEven(x * 10000.0);
    assert Round4(x) * 10000.0 == n as real;
    RoundInteger(n);
  }

  /** An amount of whole cents. */
  ghost predicate Cents(x: real) {
    (x * 100.0).Floor as real == x * 100.0
  }

  lemma Round2IsCents(x: real)
    ensures Cents(Round2(x))
  {
    assert Round2(x) * 100.0 == RoundHalfEven(x * 100.0) as real;
  }

  /** To the nearest cent. */
  ghost predicate NearestCent(amount: real, exact: real) {
    Cents(amount) && amount - 0.005 <= exact <= amount + 0.005
  }

  lemma Round2IsNearest(x: real)
    ensures NearestCent(Round2(x), x)
  {
    Round2IsCents(x);
    Round2Error(x);
    hide Round2;
  }

  lemma WholeIsOwnFloor(x: real, n: int)
    requires x == n as real
    ensures x.Floor as real == x
  {
  }

  lemma CentsAdd(x: real, y: real)
    requires Cents(x) && Cents(y)
    ensures Cents(x + y) && Cents(x - y)
  {
    var a, b := (x * 100.0).Floor, (y * 100.0).Floor;
    WholeIsOwnFloor((x + y) * 100.0, a + b);
    WholeIsOwnFloor((x - y) * 100.0, a - b);
  }

  /** Whole cents smaller than one cent are zero. */
  lemma CentsBelowOne(x: real)
    requires Cents(x) && Abs(x) < 0.01
    ensures x == 0.0
  {
  }
}
