/** BabyBear: integers modulo P, as their canonical representatives. */
module BabyBear {

  const P: nat := 0x7800_0001

  function FAdd(a: int, b: int): nat { (a + b) % P }
  function FSub(a: int, b: int): nat { (a - b) % P }
  function FMul(a: int, b: int): nat { (a * b) % P }
  function FNeg(a: int): nat { (0 - a) % P }

  lemma {:induction false} ModShift(a: int, k: int)
    ensures (a + P * k) % P == a % P
  {}

  /** Reducing a factor first does not change a product modulo P. */
  lemma {:induction false} ModFactor(a: int, b: int)
    ensures ((a % P) * b) % P == (a * b) % P
  {
    var q, r := a / P, a % P;
    assert a == P * q + r;
    assert a * b == r * b + P * (q * b) by { assert (P * q + r) * b == P * (q * b) + r * b; }
    ModShift(r * b, q * b);
  }

  lemma {:induction false} ModProduct(a: int, b: int)
    ensures FMul(a % P, b % P) == FMul(a, b)
  { ModFactor(a, b % P); ModFactor(b, a); assert a * (b % P) == (b % P) * a; assert a * b == b * a; }

  lemma {:induction false} ModSum(a: int, b: int)
    ensures FAdd(a % P, b % P) == FAdd(a, b) && FSub(a % P, b % P) == FSub(a, b) && FNeg(b % P) == FNeg(b)
  {
    var x, y, q, r := a % P, b % P, a / P, b / P;
    assert a == x + P * q && b == y + P * r;
    ModShift(x + y, q + r); ModShift(x - y, q - r); ModShift(-y, -r);
  }
}
