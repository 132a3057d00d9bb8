/** Small facts of real arithmetic that the solver is given one at a time. */
module Arithmetic {

  function Max(a: int, b: int): int { if a < b then b else a }

  function MinReal(a: real, b: real): real { if a < b then a else b }

  function MaxReal(a: real, b: real): real { if a < b then b else a }

  function Abs(x: real): real { if x < 0.0 then -x else x }

  lemma MulMonotone(a: real, b: real, c: real)
    requires a <= b && c >= 0.0
    ensures a * c <= b * c
  {
  }

  lemma MulPositive(a: real, b: real)
    requires a > 0.0 && b > 0.0
    ensures a * b > 0.0
  {
  }

  lemma MulStrict(a: real, b: real, c: real)
    requires a < b && c > 0.0
    ensures a * c < b * c
  {
  }

  lemma CancelFactor(a: real, b: real, c: real)
    requires c > 0.0 && a * c > b * c
    ensures a > b
  {
    if a <= b { MulMonotone(a, b, c); }
  }

  lemma CancelFactorWeakly(a: real, b: real, c: real)
    requires c > 0.0 && a * c <= b * c
    ensures a <= b
  {
    if a > b { MulPositive(a - b, c); }
  }

  lemma DivideMonotone(x: real, y: real, q: real)
    requires q > 0.0 && x <= y
    ensures x / q <= y / q
  {
  }

  lemma PercentOf(part: real, whole: real)
    requires whole != 0.0
    ensures part / whole * 100.0 == 100.0 * part / whole
  {
    assert (part / whole * 100.0) * whole == 100.0 * part;
  }

  lemma Divided(x: real, q: real)
    requires q != 0.0
    ensures (x / q) * q == x
  {
  }

  /** A value near a multiple is near it after a division. */
  lemma DivideBound(a: real, b: real, eps: real, q: real)
    requires q > 0.0 && Abs(a - b * q) <= eps
    ensures Abs(a / q - b) <= eps / q
  {
    Divided(a, q);
    Divided(eps, q);
    var distance, bound := a / q - b, eps / q;
    assert distance * q == a - b * q;
    if distance > bound { MulStrict(bound, distance, q); }
    if distance < -bound { MulStrict(distance, -bound, q); }
  }
}
