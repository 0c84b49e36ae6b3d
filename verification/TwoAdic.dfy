/** Fields with roots of unity of power-of-two order, and the domains built from them. */
module TwoAdic {
  import opened Bits
  import opened Fields

  /** `gens[k]` is the two-adic generator of order 2^k, for k up to the field's two-adicity. */
  datatype TwoAdicField<!F(!new)> = TwoAdicField(f: Field<F>, gens: seq<F>, bits: nat) {

    /** `two_adic_generator(k)`. */
    function Gen(k: nat): F { if k < |gens| then gens[k] else f.one }

    ghost predicate Laws() {
      && f.Laws()
      && f.Two() != f.zero
      && |gens| == bits + 1
      && Gen(0) == f.one
      && (bits > 0 ==> Gen(1) == f.Neg(f.one))
      && (forall k: nat {:trigger At1(k)} :: k < bits ==> f.Mul(Gen(k + 1), Gen(k + 1)) == Gen(k))
    }

    lemma {:induction false} GenSquare(k: nat)
      requires Laws() && k < bits
      ensures f.Mul(Gen(k + 1), Gen(k + 1)) == Gen(k)
    { assert At1(k); }

    lemma {:induction false} GenPow(k: nat, j: nat)
      requires Laws() && j <= k <= bits
      ensures f.Pow(Gen(k), Pow2(j)) == Gen(k - j)
    {
      if j == 0 { f.Unit(Gen(k)); assert f.Pow(Gen(k), 1) == f.Mul(Gen(k), f.Pow(Gen(k), 0)); }
      else {
        GenPow(k, j - 1);
        GenSquare(k - j);
        f.PowAdd(Gen(k), Pow2(j - 1), Pow2(j - 1));
      }
    }

    lemma {:induction false} GenOrder(k: nat)
      requires Laws() && k <= bits
      ensures f.Pow(Gen(k), Pow2(k)) == f.one
      ensures k > 0 ==> f.Pow(Gen(k), Pow2(k - 1)) == f.Neg(f.one)
      ensures Gen(k) != f.zero
    {
      GenPow(k, k);
      if k > 0 { GenPow(k, k - 1); }
      if Gen(k) == f.zero { f.MulZero(f.Pow(Gen(k), Pow2(k) - 1)); }
    }

    lemma {:induction false} NegOneNotOne()
      requires Laws()
      ensures f.Neg(f.one) != f.one
    { f.Unit(f.one); }

    /** No smaller positive power of the generator is one. */
    lemma {:induction false} GenPrimitive(k: nat, m: nat)
      requires Laws() && k <= bits && 0 < m < Pow2(k)
      ensures f.Pow(Gen(k), m) != f.one
      decreases k
    {
      var g := Gen(k);
      if m % 2 == 0 {
        f.PowMul(g, 2, m / 2);
        f.Unit(g); assert f.Pow(g, 1) == f.Mul(g, f.Pow(g, 0));
        GenSquare(k - 1);
        GenPrimitive(k - 1, m / 2);
      } else if f.Pow(g, m) == f.one {
        // g^(m 2^(k-1)) is both 1 and (-1)^m = -1.
        var h := Pow2(k - 1);
        f.PowMul(g, m, h); f.PowOne(h);
        f.PowMul(g, h, m); GenOrder(k);
        assert m * h == h * m;
        OddPowNegOne(m / 2);
        NegOneNotOne();
      }
    }

    lemma {:induction false} OddPowNegOne(n: nat)
      requires Laws()
      ensures f.Pow(f.Neg(f.one), 2 * n + 1) == f.Neg(f.one)
    {
      var e := f.Neg(f.one);
      f.Unit(e); f.MulNeg(f.one, f.one); f.Unit(f.one);
      if n == 0 { assert f.Pow(e, 1) == f.Mul(e, f.Pow(e, 0)); }
      else {
        OddPowNegOne(n - 1);
        assert f.Pow(e, 2 * n + 1) == f.Mul(e, f.Mul(e, f.Pow(e, 2 * n - 1)));
      }
    }

    /** The j-th element, in bit-reversed order, of the subgroup of order 2^k. */
    function Point(k: nat, j: nat): F { f.Pow(Gen(k), BitRev(j, k)) }

    lemma {:induction false} PointNonZero(k: nat, j: nat)
      requires Laws() && k <= bits
      ensures Point(k, j) != f.zero
    { GenOrder(k); f.PowNonZero(Gen(k), BitRev(j, k)); }

    /** Neighbours in a bit-reversed domain are opposite, and their common square is the parent. */
    lemma {:induction false} PointPair(k: nat, i: nat)
      requires Laws() && k < bits
      ensures Point(k + 1, 2 * i) == f.Pow(Gen(k + 1), BitRev(i, k))
      ensures Point(k + 1, 2 * i + 1) == f.Neg(Point(k + 1, 2 * i))
      ensures f.Mul(Point(k + 1, 2 * i), Point(k + 1, 2 * i)) == Point(k, i)
      ensures f.Mul(Point(k + 1, 2 * i + 1), Point(k + 1, 2 * i + 1)) == Point(k, i)
    {
      var g, r := Gen(k + 1), BitRev(i, k);
      var x := Point(k + 1, 2 * i);
      assert (2 * i + 1) / 2 == i;
      assert x == f.Pow(g, r);
      GenOrder(k + 1);
      f.PowAdd(g, Pow2(k), r); f.MulNeg(f.one, x); f.Unit(x);
      GenSquare(k);
      f.PowProduct(g, g, r);
      f.MulNeg(x, x);
    }
  }
}
