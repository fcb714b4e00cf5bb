/** Vocabulary shared by every module: optional values, identifiers, instants and
    the truncation that the decimal library calls IntPart. */
module Basics {

  datatype Option<+T> = None | Some(value: T)

  type Uuid = nat

  /** Instants and durations, both in the same unit. */
  type Time = int

  /** Truncation toward zero. */
  function IntPart(d: real): (n: int)
    ensures 0.0 <= d ==> n as real <= d < n as real + 1.0
    ensures d <= 0.0 ==> n as real - 1.0 < d <= n as real
  {
    if 0.0 <= d then d.Floor else -(-d).Floor
  }

  function Min(a: int, b: int): (m: int)
    ensures m <= a && m <= b && (m == a || m == b)
  {
    if a < b then a else b
  }

  function MinReal(a: real, b: real): (m: real)
    ensures m <= a && m <= b && (m == a || m == b)
  {
    if a < b then a else b
  }

  predicate Distinct<T(==)>(s: seq<T>) {
    forall i, j :: 0 <= i < j < |s| ==> s[i] != s[j]
  }

  lemma ConcatAssociates<T>(a: seq<T>, b: seq<T>, c: seq<T>)
    ensures a + (b + c) == (a + b) + c
  {}

  // ---- products of reals: kept behind a name so that proofs stay linear ----

  function Mul(a: real, b: real): real {
    a * b
  }

  function Quotient(a: real, b: real): (q: real)
    requires b != 0.0
    ensures Mul(q, b) == Mul(b, q) == a
  {
    a / b
  }

  lemma MulPositive(a: real, b: real)
    requires a > 0.0 && b > 0.0
    ensures Mul(a, b) > 0.0
  {}

  lemma MulMono(a: real, b: real, x: real)
    requires a <= b && x >= 0.0
    ensures Mul(a, x) <= Mul(b, x)
  {}

  /** Multiplying by a positive number keeps the sign. */
  lemma MulSign(a: real, b: real)
    requires a > 0.0
    ensures Mul(a, b) > 0.0 <==> b > 0.0
    ensures Mul(a, b) == 0.0 <==> b == 0.0
  {
    if b > 0.0 { MulPositive(a, b); }
    if b < 0.0 { MulPositive(a, -b); }
  }

  lemma MulLinear(a: real, b: real, c: real)
    ensures Mul(a, b - c) == Mul(a, b) - Mul(a, c)
    ensures Mul(b - c, a) == Mul(b, a) - Mul(c, a)
    ensures Mul(b + c, a) == Mul(b, a) + Mul(c, a)
    ensures Mul(a, b) == Mul(b, a)
    ensures Mul(1.0, a) == Mul(a, 1.0) == a
    ensures Mul(0.0, a) == 0.0
  {}

  lemma FractionOf(x: real, a: real)
    requires x >= 0.0 && 0.0 <= a <= 1.0
    ensures 0.0 <= Mul(x, a) <= x && Mul(a, x) == Mul(x, a)
  {
    MulMono(0.0, a, x);
    MulMono(a, 1.0, x);
  }
}
