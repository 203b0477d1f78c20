/** One-step facts about real multiplication, division and floor, used to keep proofs linear. */
module RealArith {

  /** Dividing and multiplying back by a non-zero number cancels. */
  lemma DivMul(a: real, n: real)
    requires n != 0.0
    ensures (a / n) * n == a
    ensures n * (a / n) == a
  {
  }

  /** A positive factor keeps strict order, in both directions. */
  lemma ScaleStrict(a: real, b: real, c: real)
    requires c > 0.0
    ensures a < b <==> a * c < b * c
    ensures a < b <==> c * a < c * b
  {
    assert b * c - a * c == (b - a) * c;
    assert c * b - c * a == (b - a) * c;
  }

  /** A non-negative factor keeps weak order. */
  lemma ScaleWeak(a: real, b: real, c: real)
    requires c >= 0.0
    requires a <= b
    ensures a * c <= b * c
  {
    assert b * c - a * c == (b - a) * c;
  }

  /** The floor of x is the integer i with i <= x < i + 1. */
  lemma FloorIs(x: real, i: int)
    ensures x.Floor == i <==> i as real <= x < i as real + 1.0
  {
  }

  /** Floor is monotone. */
  lemma FloorMonotone(x: real, y: real)
    requires x <= y
    ensures x.Floor <= y.Floor
  {
  }

  /** Dividing by a positive number keeps weak order. */
  lemma DivMonotone(a: real, b: real, n: real)
    requires n > 0.0
    requires a <= b
    ensures a / n <= b / n
  {
    DivMul(a, n);
    DivMul(b, n);
    ScaleStrict(b / n, a / n, n);
  }

  /** Comparing with a quotient is comparing with the product. */
  lemma DivCompare(a: real, p: real, n: real)
    requires n > 0.0
    ensures a / n <= p <==> a <= p * n
    ensures p < a / n <==> p * n < a
  {
    DivMul(a, n);
    ScaleStrict(p, a / n, n);
  }

  /** A non-zero factor cancels. */
  lemma Cancel(a: real, b: real, n: real)
    requires n != 0.0
    requires a * n == b * n
    ensures a == b
  {
    assert (a - b) * n == 0.0;
  }
}
