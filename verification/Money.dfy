/** Exact decimal arithmetic, kept as named operations as in the money package. */
module Money {
  function Mul(a: real, b: real): real {
    a * b
  }

  function Div(a: real, b: real): real
    requires b != 0.0
  {
    a / b
  }

  lemma MulDistributes(k: real, a: real, b: real)
    ensures Mul(k, a + b) == Mul(k, a) + Mul(k, b)
    ensures Mul(a + b, k) == Mul(a, k) + Mul(b, k)
    ensures Mul(k, 0.0) == 0.0
  {
  }

  lemma MulAssociates(a: real, b: real, c: real)
    ensures Mul(Mul(a, b), c) == Mul(a, Mul(b, c)) == Mul(Mul(a, c), b)
  {
  }

  lemma MulSign(a: real, b: real)
    requires a > 0.0
    ensures Mul(a, b) > 0.0 <==> b > 0.0
  {
    if b > 0.0 {
      assert a * b > 0.0;
    } else {
      assert a * (-b) >= 0.0;
    }
  }
}
