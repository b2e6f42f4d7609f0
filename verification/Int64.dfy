/** Signed 64-bit arithmetic as the Go runtime does it: results are reduced modulo 2^64. */
module Int64 {

  const TWO_64: int := 0x1_0000_0000_0000_0000
  const TWO_63: int := 0x8000_0000_0000_0000

  predicate InRange(x: int) {
    -TWO_63 <= x < TWO_63
  }

  function Wrap(x: int): (r: int)
    ensures InRange(r)
    ensures Congruent(x, r)
  {
    (x + TWO_63) % TWO_64 - TWO_63
  }

  predicate Congruent(a: int, b: int) {
    (a - b) % TWO_64 == 0
  }

  lemma {:induction false} MultipleIsZero(k: int)
    ensures (k * TWO_64) % TWO_64 == 0
  {}

  lemma {:induction false} CongruentSum(a: int, b: int, c: int, d: int)
    requires Congruent(a, b) && Congruent(c, d)
    ensures Congruent(a + c, b + d)
  {}

  lemma {:induction false} CongruentProduct(p: int, a: int, b: int)
    requires Congruent(a, b)
    ensures Congruent(p * a, p * b)
  {
    var k := (a - b) / TWO_64;
    assert a == b + k * TWO_64;
    calc {
      p * a - p * b;
      p * (b + k * TWO_64) - p * b;
      p * (k * TWO_64);
      (p * k) * TWO_64;
    }
    MultipleIsZero(p * k);
  }

  /* Two numbers wrap to the same word exactly when they are congruent. */
  lemma {:induction false} WrapAgrees(a: int, b: int)
    ensures Wrap(a) == Wrap(b) <==> Congruent(a, b)
  {}

  lemma {:induction false} WrapSum(a: int, b: int)
    ensures Wrap(Wrap(a) + b) == Wrap(a + b)
  {
    CongruentSum(Wrap(a), a, b, b);
    WrapAgrees(Wrap(a) + b, a + b);
  }
}
