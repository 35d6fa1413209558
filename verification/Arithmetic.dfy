/** Division by a positive number. */
module Arithmetic {
  lemma DivStep(a: int, b: int)
    requires b > 0 && a >= 0
    ensures (a + b) / b == a / b + 1
  {
    DivUnique(a + b, b, a / b + 1);
  }

  lemma DivOnce(a: int, b: int)
    requires b > 0 && b <= a < b + b
    ensures a / b == 1
  {
    DivUnique(a, b, 1);
  }

  lemma DivNone(a: int, b: int)
    requires b > 0 && 0 <= a < b
    ensures a / b == 0
  {
    DivUnique(a, b, 0);
  }

  lemma DivUnique(a: int, b: int, q: int)
    requires b > 0 && q * b <= a < q * b + b
    ensures a / b == q
  {
    var r := a / b;
    assert a == r * b + a % b;
    ProductOrder(r + 1, q, b);
    ProductOrder(q + 1, r, b);
  }

  lemma ProductOrder(x: int, y: int, b: int)
    requires b > 0
    ensures x <= y ==> x * b <= y * b
  {
  }

  lemma ModStep(a: int, b: int)
    requires b > 0 && a >= 0
    ensures (a + b) % b == a % b
  {
    DivStep(a, b);
  }

  lemma ModSmall(a: int, b: int)
    requires 0 <= a < b
    ensures a % b == a
  {
  }
}
