/** Products of reals behind a name, with the few laws the vector arithmetic needs. */
module Products {
  function Mul(x: real, y: real): real { x * y }

  lemma Zero(y: real)
    ensures Mul(0.0, y) == 0.0 && Mul(y, 0.0) == 0.0
  {
  }

  lemma Positive(x: real, y: real)
    requires x > 0.0 && y > 0.0
    ensures Mul(x, y) > 0.0
  {
  }

  lemma Nonnegative(x: real, y: real)
    requires x >= 0.0 && y >= 0.0
    ensures Mul(x, y) >= 0.0
  {
  }

  lemma BothNegated(x: real, y: real)
    ensures Mul(-x, -y) == Mul(x, y)
  {
  }

  lemma Square(x: real)
    ensures Mul(x, x) >= 0.0
    ensures Mul(x, x) == 0.0 <==> x == 0.0
  {
    hide Mul;
    Zero(x);
    if x > 0.0 {
      Positive(x, x);
    } else if x < 0.0 {
      Positive(-x, -x);
      BothNegated(x, x);
    }
  }

  lemma Distribute(a: real, b: real, c: real)
    ensures Mul(a + b, c) == Mul(a, c) + Mul(b, c)
  {
  }

  lemma Associate(a: real, b: real, c: real)
    ensures Mul(Mul(a, b), c) == Mul(a, Mul(b, c))
  {
  }

  lemma Commute(a: real, b: real)
    ensures Mul(a, b) == Mul(b, a)
  {
  }

  lemma Quotient(x: real, m: real)
    requires m != 0.0
    ensures Mul(x / m, m) == x
  {
  }

  lemma QuotientSquare(x: real, m: real)
    requires m != 0.0
    ensures Mul(Mul(x / m, x / m), Mul(m, m)) == Mul(x, x)
  {
    hide Mul;
    var q := x / m;
    assert Mul(q, m) == x by { Quotient(x, m); }
    Associate(q, q, Mul(m, m));
    Associate(q, m, m);
    Commute(x, m);
    Commute(q, Mul(x, m));
    Associate(x, m, q);
    Commute(m, q);
  }

  lemma DifferenceSquare(x: real, y: real)
    ensures Mul(x - y, x - y) == Mul(x, x) + Mul(y, y) - 2.0 * Mul(x, y)
  {
  }

  lemma SquareDifference(m: real, n: real)
    ensures Mul(m - n, m + n) == Mul(m, m) - Mul(n, n)
  {
  }

  lemma NoZeroDivisors(x: real, y: real)
    requires Mul(x, y) == 0.0 && x > 0.0
    ensures y == 0.0
  {
    hide Mul;
    if y > 0.0 {
      Positive(x, y);
    } else if y < 0.0 {
      Positive(x, -y);
      Distribute(y, -y, x);
      Commute(y, x);
      Commute(-y, x);
      Zero(x);
    }
  }

  lemma UnitFactor(s: real, x: real)
    requires x > 0.0 && Mul(s, x) == x
    ensures s == 1.0
  {
    assert Mul(x, s - 1.0) == 0.0;
    hide Mul;
    NoZeroDivisors(x, s - 1.0);
  }
}
