/** Folding a codeword: the prover's whole-vector form, the verifier's one-pair form, and what both
    mean for the polynomial behind the codeword. */
module FriFold {
  import opened Bits
  import opened Fields
  import opened TwoAdic

  /** Twiddle factors of the fold: beta / 2 times the powers of the inverse generator, bit-reversed. */
  function Twiddles<F(!new)>(T: TwoAdicField<F>, k: nat, beta: F): (r: seq<F>)
    ensures |r| == Pow2(k)
  {
    var halfBeta := T.f.Mul(beta, T.f.Inv(T.f.Two()));
    BitReversed(T.f.ShiftedPowers(halfBeta, T.f.Inv(T.Gen(k + 1)), Pow2(k)), k)
  }

  lemma {:induction false} TwiddleAt<F(!new)>(T: TwoAdicField<F>, k: nat, beta: F, i: nat)
    requires i < Pow2(k)
    ensures Twiddles(T, k, beta)[i]
         == T.f.Mul(T.f.Mul(beta, T.f.Inv(T.f.Two())), T.f.Pow(T.f.Inv(T.Gen(k + 1)), BitRev(i, k)))
  {
    var halfBeta, gInv := T.f.Mul(beta, T.f.Inv(T.f.Two())), T.f.Inv(T.Gen(k + 1));
    BitReversedAt(T.f.ShiftedPowers(halfBeta, gInv, Pow2(k)), k, i);
    T.f.ShiftedPowersAt(halfBeta, gInv, Pow2(k), BitRev(i, k));
  }

  /** The first n entries of the fold: 1/2 (r0 + r1) + power (r0 - r1) for each pair (r0, r1). */
  function FoldPrefix<F(!new)>(f: Field<F>, poly: seq<F>, powers: seq<F>, n: nat): (r: seq<F>)
    requires n <= |powers| && 2 * n <= |poly|
    ensures |r| == n
  {
    if n == 0 then [] else
    var r0, r1 := poly[2 * n - 2], poly[2 * n - 1];
    FoldPrefix(f, poly, powers, n - 1)
      + [f.Add(f.Mul(f.Inv(f.Two()), f.Add(r0, r1)), f.Mul(powers[n - 1], f.Sub(r0, r1)))]
  }

  /** The prover's fold of a bit-reversed codeword of length 2^(k+1). */
  function FoldEvenOdd<F(!new)>(T: TwoAdicField<F>, k: nat, poly: seq<F>, beta: F): (r: seq<F>)
    requires |poly| == Pow2(k + 1)
    ensures |r| == Pow2(k)
  { FoldPrefix(T.f, poly, Twiddles(T, k, beta), Pow2(k)) }

  lemma {:induction false} FoldPrefixAt<F(!new)>(f: Field<F>, poly: seq<F>, powers: seq<F>, n: nat, i: nat)
    requires i < n <= |powers| && 2 * n <= |poly|
    ensures FoldPrefix(f, poly, powers, n)[i]
         == f.Add(f.Mul(f.Inv(f.Two()), f.Add(poly[2 * i], poly[2 * i + 1])),
             f.Mul(powers[i], f.Sub(poly[2 * i], poly[2 * i + 1])))
  { if i < n - 1 { FoldPrefixAt(f, poly, powers, n - 1, i); } }

  /** The verifier's fold of one pair: the line through (x0, e0) and (x1, e1), evaluated at beta. */
  function Interpolate<F(!new)>(f: Field<F>, x0: F, x1: F, e0: F, e1: F, beta: F): F {
    f.Add(e0, f.Div(f.Mul(f.Sub(beta, x0), f.Sub(e1, e0)), f.Sub(x1, x0)))
  }

  /** One entry of the prover's fold, with the twiddle factor written as an inverse. */
  function FoldPair<F(!new)>(f: Field<F>, x: F, e0: F, e1: F, beta: F): F {
    var half := f.Inv(f.Two());
    f.Add(f.Mul(half, f.Add(e0, e1)), f.Mul(f.Mul(f.Mul(beta, half), f.Inv(x)), f.Sub(e0, e1)))
  }

  lemma {:induction false} HalfSum<F(!new)>(f: Field<F>, a: F)
    requires f.Laws() && f.Two() != f.zero
    ensures f.Mul(f.Inv(f.Two()), f.Add(a, a)) == a
  {
    var h := f.Inv(f.Two());
    f.Distrib(a, f.one, f.one); f.Unit(a);
    assert f.Add(a, a) == f.Mul(a, f.Two());
    f.MulComm(a, f.Two()); f.MulAssoc(h, f.Two(), a); f.Inverse(f.Two());
  }

  /** half * (e0 + e1) = e0 - half * (e0 - e1). */
  lemma {:induction false} HalfMean<F(!new)>(f: Field<F>, e0: F, e1: F)
    requires f.Laws() && f.Two() != f.zero
    ensures f.Mul(f.Inv(f.Two()), f.Add(e0, e1)) == f.Sub(e0, f.Mul(f.Inv(f.Two()), f.Sub(e0, e1)))
  {
    var h, d := f.Inv(f.Two()), f.Sub(e0, e1);
    f.NegAdd(e0, e1); f.AddAssoc(e0, e0, f.Sub(e1, e0)); f.SubAdd(e1, e0);
    f.AddComm(e0, f.Sub(e1, e0));
    assert f.Sub(f.Add(e0, e0), d) == f.Add(e0, e1);
    f.DistribSub(h, f.Add(e0, e0), d);
    HalfSum(f, e0);
  }

  lemma {:induction false} FoldPairIsInterpolation<F(!new)>(f: Field<F>, x: F, e0: F, e1: F, beta: F)
    requires f.Laws() && f.Two() != f.zero && x != f.zero
    ensures FoldPair(f, x, e0, e1, beta) == Interpolate(f, x, f.Neg(x), e0, e1, beta)
  {
    var h, t, d := f.Inv(f.Two()), f.Inv(x), f.Sub(e0, e1);
    // The denominator -x - x = -(2x) has inverse -(h t).
    f.NegAdd(x, x); f.Distrib(x, f.one, f.one); f.Unit(x); f.MulComm(x, f.Two());
    assert f.Sub(f.Neg(x), x) == f.Neg(f.Mul(f.Two(), x));
    f.InverseMul(f.Two(), x); f.InverseNeg(f.Mul(f.Two(), x));
    assert f.Inv(f.Sub(f.Neg(x), x)) == f.Neg(f.Mul(h, t));
    // ((beta - x) (-d)) (-(h t)) = (beta d)(h t) - (x d)(h t).
    f.NegAdd(e0, e1);
    f.MulNeg(f.Sub(beta, x), d);
    f.MulNeg(f.Mul(f.Sub(beta, x), d), f.Mul(h, t));
    f.DistribSub(d, beta, x);
    f.DistribSub(f.Mul(h, t), f.Mul(beta, d), f.Mul(x, d));
    var bd, xd := f.Mul(f.Mul(beta, d), f.Mul(h, t)), f.Mul(f.Mul(x, d), f.Mul(h, t));
    assert f.Div(f.Mul(f.Sub(beta, x), f.Sub(e1, e0)), f.Sub(f.Neg(x), x)) == f.Sub(bd, xd);
    // (x d)(h t) = h d and (beta d)(h t) = ((beta h) t) d.
    f.MulComm(x, d); f.MulSwap(d, x, h, t); f.Inverse(x); f.MulComm(d, h); f.Unit(f.Mul(h, d));
    assert xd == f.Mul(h, d);
    f.MulSwap(beta, d, h, t); f.MulComm(d, t); f.MulAssoc(f.Mul(beta, h), t, d);
    HalfMean(f, e0, e1);
    // e0 + (bd - hd) = (e0 - hd) + bd.
    f.AddComm(bd, f.Neg(xd)); f.AddAssoc(e0, f.Neg(xd), bd);
  }

  /** Every entry of the prover's fold is the pair formula at the right domain point. */
  lemma {:induction false} FoldEntry<F(!new)>(T: TwoAdicField<F>, k: nat, poly: seq<F>, beta: F, i: nat)
    requires T.Laws() && k < T.bits && |poly| == Pow2(k + 1) && i < Pow2(k)
    ensures FoldEvenOdd(T, k, poly, beta)[i]
        == FoldPair(T.f, T.Point(k + 1, 2 * i), poly[2 * i], poly[2 * i + 1], beta)
  {
    var f, g, r := T.f, T.Gen(k + 1), BitRev(i, k);
    FoldPrefixAt(f, poly, Twiddles(T, k, beta), Pow2(k), i);
    TwiddleAt(T, k, beta, i);
    T.PointPair(k, i); T.GenOrder(k + 1); f.PowInverse(g, r);
  }

  /** The verifier's fold of the pair that holds `index`, given the domain point x of `index`:
      the other point of the pair is x times the generator of order two. */
  function FoldAt<F(!new)>(T: TwoAdicField<F>, index: nat, x: F, e0: F, e1: F, beta: F): F {
    var x' := T.f.Mul(x, T.Gen(1));
    if index % 2 == 0 then Interpolate(T.f, x, x', e0, e1, beta) else Interpolate(T.f, x', x, e0, e1, beta)
  }

  lemma {:induction false} FoldAtPair<F(!new)>(T: TwoAdicField<F>, k: nat, i: nat, e0: F, e1: F, beta: F)
    requires T.Laws() && k < T.bits
    ensures FoldAt(T, 2 * i, T.Point(k + 1, 2 * i), e0, e1, beta)
        == FoldPair(T.f, T.Point(k + 1, 2 * i), e0, e1, beta)
    ensures FoldAt(T, 2 * i + 1, T.Point(k + 1, 2 * i + 1), e0, e1, beta)
        == FoldPair(T.f, T.Point(k + 1, 2 * i), e0, e1, beta)
  {
    var f, x := T.f, T.Point(k + 1, 2 * i);
    T.PointPair(k, i); T.PointNonZero(k + 1, 2 * i);
    FoldPairIsInterpolation(f, x, e0, e1, beta);
    f.MulNeg(x, f.one); f.MulNeg(f.Neg(x), f.one); f.Unit(x); f.Unit(f.Neg(x)); f.NegNeg(x);
    assert (2 * i + 1) % 2 == 1;
  }

  /** The prover's fold and the verifier's fold agree at every index, whichever of the two
      positions of the pair the verifier starts from. */
  lemma {:induction false} FoldAgrees<F(!new)>(T: TwoAdicField<F>, k: nat, poly: seq<F>, beta: F, index: nat)
    requires T.Laws() && k < T.bits && |poly| == Pow2(k + 1) && index < Pow2(k + 1)
    ensures FoldEvenOdd(T, k, poly, beta)[index / 2]
         == FoldAt(T, index, T.Point(k + 1, index), poly[index / 2 * 2], poly[index / 2 * 2 + 1], beta)
  {
    var i := index / 2;
    FoldEntry(T, k, poly, beta, i);
    FoldAtPair(T, k, i, poly[2 * i], poly[2 * i + 1], beta);
    assert index == 2 * i || index == 2 * i + 1;
  }

  // ---------- polynomials ----------

  /** Value of the polynomial with the given coefficients, lowest degree first. */
  function Eval<F(!new)>(f: Field<F>, p: seq<F>, x: F): F {
    if p == [] then f.zero else f.Add(p[0], f.Mul(x, Eval(f, p[1..], x)))
  }

  function CodewordPrefix<F(!new)>(T: TwoAdicField<F>, k: nat, p: seq<F>, n: nat): (r: seq<F>)
    ensures |r| == n
  { if n == 0 then [] else CodewordPrefix(T, k, p, n - 1) + [Eval(T.f, p, T.Point(k, n - 1))] }

  /** The bit-reversed codeword of a polynomial on the subgroup of order 2^k. */
  function Codeword<F(!new)>(T: TwoAdicField<F>, k: nat, p: seq<F>): (r: seq<F>)
    ensures |r| == Pow2(k)
  { CodewordPrefix(T, k, p, Pow2(k)) }

  function Evens<T>(p: seq<T>): (r: seq<T>)
    ensures |r| == (|p| + 1) / 2
  { if p == [] then [] else [p[0]] + Odds(p[1..]) }

  function Odds<T>(p: seq<T>): (r: seq<T>)
    ensures |r| == |p| / 2
  { if p == [] then [] else Evens(p[1..]) }

  /** p(x) = p_even(x^2) + x p_odd(x^2). */
  lemma {:induction false} EvalSplit<F(!new)>(f: Field<F>, p: seq<F>, x: F)
    requires f.Laws()
    ensures Eval(f, p, x) == f.Add(Eval(f, Evens(p), f.Mul(x, x)), f.Mul(x, Eval(f, Odds(p), f.Mul(x, x))))
  {
    if p == [] { f.MulZero(x); f.Unit(f.zero); }
    else {
      var q, y := p[1..], f.Mul(x, x);
      EvalSplit(f, q, x);
      var e, o := Eval(f, Evens(q), y), Eval(f, Odds(q), y);
      assert Evens(p)[1..] == Odds(q);
      f.Distrib(x, e, f.Mul(x, o)); f.MulAssoc(x, x, o);
      f.AddComm(f.Mul(x, e), f.Mul(y, o)); f.AddAssoc(p[0], f.Mul(y, o), f.Mul(x, e));
    }
  }

  /** p_even + beta p_odd. */
  function FoldPoly<F(!new)>(f: Field<F>, p: seq<F>, beta: F): (r: seq<F>)
    ensures |r| == (|p| + 1) / 2
  {
    var e, o := Evens(p), Odds(p);
    seq(|e|, i requires 0 <= i < |e| => if i < |o| then f.Add(e[i], f.Mul(beta, o[i])) else e[i])
  }

  lemma {:induction false} EvalCombine<F(!new)>(f: Field<F>, e: seq<F>, o: seq<F>, r: seq<F>, beta: F, y: F)
    requires f.Laws() && |o| <= |e| == |r|
    requires forall i :: 0 <= i < |r| ==> r[i] == if i < |o| then f.Add(e[i], f.Mul(beta, o[i])) else e[i]
    ensures Eval(f, r, y) == f.Add(Eval(f, e, y), f.Mul(beta, Eval(f, o, y)))
  {
    if o == [] {
      assert r == e; f.MulZero(beta); f.Unit(Eval(f, e, y));
    } else {
      EvalCombine(f, e[1..], o[1..], r[1..], beta, y);
      var a, b := Eval(f, e[1..], y), Eval(f, o[1..], y);
      f.Distrib(y, a, f.Mul(beta, b)); f.MulLift(y, beta, b); f.Distrib(beta, o[0], f.Mul(y, b));
      f.AddSwap(e[0], f.Mul(beta, o[0]), f.Mul(y, a), f.Mul(beta, f.Mul(y, b)));
    }
  }

  /** Folding the pair (p(x), p(-x)) gives p_even(x^2) + beta p_odd(x^2). */
  lemma {:induction false} FoldPairOfPoly<F(!new)>(f: Field<F>, p: seq<F>, x: F, beta: F)
    requires f.Laws() && f.Two() != f.zero && x != f.zero
    ensures FoldPair(f, x, Eval(f, p, x), Eval(f, p, f.Neg(x)), beta) == Eval(f, FoldPoly(f, p, beta), f.Mul(x, x))
  {
    var y, half, t := f.Mul(x, x), f.Inv(f.Two()), f.Inv(x);
    var e, o := Eval(f, Evens(p), y), Eval(f, Odds(p), y);
    var xo := f.Mul(x, o);
    EvalSplit(f, p, x); EvalSplit(f, p, f.Neg(x)); f.MulNeg(x, x); f.MulNeg(x, o);
    // sum = 2e, difference = 2 x o
    f.AddSwap(e, xo, e, f.Neg(xo)); f.Unit(xo); f.Unit(f.Add(e, e));
    f.SubSwap(e, xo, e, f.Neg(xo)); f.NegNeg(xo); f.Unit(e); f.Unit(f.Add(xo, xo));
    HalfSum(f, e);
    // ((beta half) t) (2 x o) = beta o
    f.MulAssoc(f.Mul(beta, half), t, f.Add(xo, xo));
    f.MulComm(t, f.Add(xo, xo)); f.MulAssoc(beta, half, f.Mul(f.Add(xo, xo), t));
    f.MulAssoc(half, f.Add(xo, xo), t); HalfSum(f, xo);
    f.MulComm(x, o); f.MulAssoc(o, x, t); f.Inverse(x); f.Unit(o);
    EvalCombine(f, Evens(p), Odds(p), FoldPoly(f, p, beta), beta, y);
  }

  /** `fold_even_odd` maps the codeword of p to the codeword of p_even + beta p_odd. */
  lemma {:induction false} FoldOfCodeword<F(!new)>(T: TwoAdicField<F>, k: nat, p: seq<F>, beta: F)
    requires T.Laws() && k < T.bits
    ensures FoldEvenOdd(T, k, Codeword(T, k + 1, p), beta) == Codeword(T, k, FoldPoly(T.f, p, beta))
  {
    forall i | 0 <= i < Pow2(k)
      ensures FoldEvenOdd(T, k, Codeword(T, k + 1, p), beta)[i] == Codeword(T, k, FoldPoly(T.f, p, beta))[i]
    { FoldOfCodewordAt(T, k, p, beta, i); CodewordAt(T, k, FoldPoly(T.f, p, beta), i); }
  }

  lemma {:induction false} FoldOfCodewordAt<F(!new)>(T: TwoAdicField<F>, k: nat, p: seq<F>, beta: F, i: nat)
    requires T.Laws() && k < T.bits && i < Pow2(k)
    ensures FoldEvenOdd(T, k, Codeword(T, k + 1, p), beta)[i] == Eval(T.f, FoldPoly(T.f, p, beta), T.Point(k, i))
  {
    CodewordPair(T, k, p, i);
    FoldEntry(T, k, Codeword(T, k + 1, p), beta, i);
    FoldPairOfPoly(T.f, p, T.Point(k + 1, 2 * i), beta);
  }

  lemma {:induction false} CodewordPair<F(!new)>(T: TwoAdicField<F>, k: nat, p: seq<F>, i: nat)
    requires T.Laws() && k < T.bits && i < Pow2(k)
    ensures var x := T.Point(k + 1, 2 * i);
            && x != T.f.zero && T.f.Mul(x, x) == T.Point(k, i)
            && Codeword(T, k + 1, p)[2 * i] == Eval(T.f, p, x)
            && Codeword(T, k + 1, p)[2 * i + 1] == Eval(T.f, p, T.f.Neg(x))
  {
    CodewordAt(T, k + 1, p, 2 * i); CodewordAt(T, k + 1, p, 2 * i + 1);
    PointPairNonZero(T, k, i);
  }

  lemma {:induction false} PointPairNonZero<F(!new)>(T: TwoAdicField<F>, k: nat, i: nat)
    requires T.Laws() && k < T.bits
    ensures var x := T.Point(k + 1, 2 * i);
            x != T.f.zero && T.f.Mul(x, x) == T.Point(k, i) && T.Point(k + 1, 2 * i + 1) == T.f.Neg(x)
  { T.PointPair(k, i); T.PointNonZero(k + 1, 2 * i); }

  lemma {:induction false} CodewordAt<F(!new)>(T: TwoAdicField<F>, k: nat, p: seq<F>, j: nat)
    requires j < Pow2(k)
    ensures Codeword(T, k, p)[j] == Eval(T.f, p, T.Point(k, j))
  { CodewordPrefixAt(T, k, p, Pow2(k), j); }

  lemma {:induction false} CodewordPrefixAt<F(!new)>(T: TwoAdicField<F>, k: nat, p: seq<F>, n: nat, j: nat)
    requires j < n
    ensures CodewordPrefix(T, k, p, n)[j] == Eval(T.f, p, T.Point(k, j))
  { if j < n - 1 { CodewordPrefixAt(T, k, p, n - 1, j); } }

  lemma {:induction false} EvalAdd<F(!new)>(f: Field<F>, p: seq<F>, q: seq<F>, r: seq<F>, x: F)
    requires f.Laws() && |q| <= |p| == |r|
    requires forall i :: 0 <= i < |r| ==> r[i] == if i < |q| then f.Add(p[i], q[i]) else p[i]
    ensures Eval(f, r, x) == f.Add(Eval(f, p, x), Eval(f, q, x))
  {
    forall i | 0 <= i < |q| ensures f.Mul(f.one, q[i]) == q[i] { f.Unit(q[i]); }
    EvalCombine(f, p, q, r, f.one, x); f.Unit(Eval(f, q, x));
  }

  /** The sum of two polynomials; its length is the longer of the two. */
  function AddPoly<F(!new)>(f: Field<F>, p: seq<F>, q: seq<F>): (r: seq<F>)
    ensures |r| == if |p| < |q| then |q| else |p|
  {
    seq(if |p| < |q| then |q| else |p|, i requires 0 <= i =>
      if i < |p| && i < |q| then f.Add(p[i], q[i]) else if i < |p| then p[i] else if i < |q| then q[i] else f.zero)
  }

  lemma {:induction false} EvalAddPoly<F(!new)>(f: Field<F>, p: seq<F>, q: seq<F>, x: F)
    requires f.Laws()
    ensures Eval(f, AddPoly(f, p, q), x) == f.Add(Eval(f, p, x), Eval(f, q, x))
  {
    if |q| <= |p| { EvalAdd(f, p, q, AddPoly(f, p, q), x); }
    else {
      forall i | 0 <= i < |p| ensures f.Add(p[i], q[i]) == f.Add(q[i], p[i]) { f.AddComm(p[i], q[i]); }
      EvalAdd(f, q, p, AddPoly(f, p, q), x);
      f.AddComm(Eval(f, p, x), Eval(f, q, x));
    }
  }
}
