/** Barycentric interpolation on a coset of a two-adic subgroup, from shared inverse denominators. */
module Barycentric {
  import opened Bits
  import opened Fields
  import opened TwoAdic
  import opened FriFold
  import opened Mmcs

  /** The i-th element, in natural order, of the coset shift * <g> with g of order 2^k. */
  function CosetAt<F(!new)>(T: TwoAdicField<F>, k: nat, shift: F, i: nat): F { T.f.Mul(shift, T.f.Pow(T.Gen(k), i)) }

  /** z is not on the coset. */
  ghost predicate OffCoset<F(!new)>(T: TwoAdicField<F>, k: nat, shift: F, z: F) {
    forall i: nat {:trigger AtIndex(i)} :: i < Pow2(k) ==> T.f.Sub(z, CosetAt(T, k, shift, i)) != T.f.zero
  }

  /** `from_canonical_usize`. */
  function OfNat<F(!new)>(f: Field<F>, n: nat): F { if n == 0 then f.zero else f.Add(OfNat(f, n - 1), f.one) }

  /** `two_adic_coset_zerofier`. */
  function Zerofier<F(!new)>(f: Field<F>, k: nat, shift: F, z: F): F
  { f.Sub(f.Pow(z, Pow2(k)), f.Pow(shift, Pow2(k))) }

  function Denominator<F(!new)>(f: Field<F>, k: nat, shift: F): F
  { f.Mul(OfNat(f, Pow2(k)), f.Pow(shift, Pow2(k) - 1)) }

  // ---------- the formula on one column ----------

  /** Term i: the value, times 1 / (z - x_i), times g^i. */
  function Term<F(!new)>(T: TwoAdicField<F>, k: nat, shift: F, z: F, p: seq<F>, i: nat): F {
    var x := CosetAt(T, k, shift, i);
    T.f.Mul(Eval(T.f, p, x), T.f.Mul(T.f.Inv(T.f.Sub(z, x)), T.f.Pow(T.Gen(k), i)))
  }

  function TermsTo<F(!new)>(T: TwoAdicField<F>, k: nat, shift: F, z: F, p: seq<F>, n: nat): F {
    if n == 0 then T.f.zero else T.f.Add(TermsTo(T, k, shift, z, p, n - 1), Term(T, k, shift, z, p, n - 1))
  }

  // ---------- one pair of opposite points ----------

  /** (e + x o)(z + x) - (e - x o)(z - x) = 2 x (e + z o). */
  lemma {:induction false} CrossTerms<F(!new)>(f: Field<F>, e: F, o: F, x: F, z: F)
    requires f.Laws()
    ensures f.Sub(f.Mul(f.Add(e, f.Mul(x, o)), f.Add(z, x)), f.Mul(f.Sub(e, f.Mul(x, o)), f.Sub(z, x)))
         == f.Mul(f.Mul(f.Two(), x), f.Add(e, f.Mul(z, o)))
  {
    var xo := f.Mul(x, o);
    // (e + xo)(z + x) = (ez + xo x) + (xo z + e x), and with the signs of xo and x changed the second half flips.
    Expand(f, e, xo, z, x); Expand(f, e, f.Neg(xo), z, f.Neg(x));
    f.MulNeg(xo, x); f.MulNeg(xo, z); f.MulNeg(e, x);
    var a, b := f.Add(f.Mul(e, z), f.Mul(xo, x)), f.Add(f.Mul(xo, z), f.Mul(e, x));
    f.NegAdd(f.Mul(xo, z), f.Mul(e, x));
    assert f.Mul(f.Sub(e, xo), f.Sub(z, x)) == f.Sub(a, b);
    f.NegAdd(a, b); f.AddSwap(a, b, b, f.Neg(a)); f.AddComm(a, b); f.AddComm(b, f.Neg(a));
        f.AddSwap(b, a, b, f.Neg(a));
    f.Unit(a); f.Unit(f.Add(b, b));
    assert f.Sub(f.Add(a, b), f.Sub(a, b)) == f.Add(b, b);
    // b = x (z o + e)
    f.MulAssoc(x, o, z); f.MulComm(o, z); f.MulComm(e, x); f.Distrib(x, f.Mul(z, o), e); f.AddComm(f.Mul(z, o), e);
    var v := f.Add(e, f.Mul(z, o));
    assert b == f.Mul(x, v);
    f.Distrib(b, f.one, f.one); f.Unit(b); f.MulAssoc(f.Two(), x, v);
  }

  lemma {:induction false} Expand<F(!new)>(f: Field<F>, a: F, b: F, c: F, d: F)
    requires f.Laws()
    ensures f.Mul(f.Add(a, b), f.Add(c, d)) == f.Add(f.Add(f.Mul(a, c), f.Mul(b, d)), f.Add(f.Mul(b, c), f.Mul(a, d)))
  {
    f.Distrib(f.Add(c, d), a, b); f.Distrib(a, c, d); f.Distrib(b, c, d);
    f.AddComm(f.Mul(b, c), f.Mul(b, d));
    f.AddSwap(f.Mul(a, c), f.Mul(a, d), f.Mul(b, d), f.Mul(b, c));
    f.AddComm(f.Mul(a, d), f.Mul(b, c));
  }

  lemma {:induction false} DifferenceOfSquares<F(!new)>(f: Field<F>, z: F, x: F)
    requires f.Laws()
    ensures f.Mul(f.Sub(z, x), f.Add(z, x)) == f.Sub(f.Mul(z, z), f.Mul(x, x))
  {
    Expand(f, z, f.Neg(x), z, x);
    f.MulNeg(x, x); f.MulNeg(x, z); f.MulComm(x, z); f.Unit(f.Mul(z, x)); f.Unit(f.Sub(f.Mul(z, z), f.Mul(x, x)));
  }

  /** u (a w) for a = r c is (u r)(c w). */
  lemma {:induction false} Regroup<F(!new)>(f: Field<F>, u: F, r: F, c: F, w: F)
    requires f.Laws()
    ensures f.Mul(u, f.Mul(f.Mul(r, c), w)) == f.Mul(f.Mul(u, r), f.Mul(c, w))
  { f.MulAssoc(r, c, w); f.MulAssoc(u, r, f.Mul(c, w)); }

  /** 1 / (z - x) = (z + x) / (z^2 - x^2), and likewise with the signs exchanged. */
  lemma {:induction false} InverseByConjugate<F(!new)>(f: Field<F>, d: F, e: F)
    requires f.Laws() && d != f.zero && e != f.zero
    ensures var c := f.Inv(f.Mul(d, e)); f.Mul(d, e) != f.zero && f.Inv(d) == f.Mul(e, c) && f.Inv(e) == f.Mul(d, c)
  {
    var i, j := f.Inv(d), f.Inv(e);
    f.InverseMul(d, e); f.Inverse(d); f.Inverse(e);
    f.MulLift(e, i, j); f.Unit(i);
    f.MulAssoc(d, i, j); f.Unit(j);
  }

  /** (2 (s w) v)(c w) = (2 s)(v (c (w w))). */
  lemma {:induction false} PullScale<F(!new)>(f: Field<F>, t: F, s: F, w: F, v: F, c: F)
    requires f.Laws()
    ensures f.Mul(f.Mul(f.Mul(t, f.Mul(s, w)), v), f.Mul(c, w)) == f.Mul(f.Mul(t, s), f.Mul(v, f.Mul(c, f.Mul(w, w))))
  {
    f.MulAssoc(t, s, w);
    var ts := f.Mul(t, s);
    f.MulAssoc(ts, w, v); f.MulAssoc(ts, f.Mul(w, v), f.Mul(c, w));
    f.MulComm(w, v); f.MulAssoc(v, w, f.Mul(c, w)); f.MulLift(w, c, w);
  }

  /** The terms of two opposite points x and -x, x = s w, make one term on the squared coset. */
  lemma {:induction false} PairSum<F(!new)>(f: Field<F>, e: F, o: F, s: F, w: F, z: F)
    requires f.Laws() && f.Sub(z, f.Mul(s, w)) != f.zero && f.Add(z, f.Mul(s, w)) != f.zero
    ensures var x := f.Mul(s, w); var xo := f.Mul(x, o);
      && f.Sub(f.Mul(z, z), f.Mul(x, x)) != f.zero
      && f.Add(f.Mul(f.Add(e, xo), f.Mul(f.Inv(f.Sub(z, x)), w)),
          f.Mul(f.Sub(e, xo), f.Mul(f.Inv(f.Add(z, x)), f.Neg(w))))
         == f.Mul(f.Mul(f.Two(), s),
             f.Mul(f.Add(e, f.Mul(z, o)), f.Mul(f.Inv(f.Sub(f.Mul(z, z), f.Mul(x, x))), f.Mul(w, w))))
  {
    var x := f.Mul(s, w);
    var xo, d, r := f.Mul(x, o), f.Sub(z, x), f.Add(z, x);
    DifferenceOfSquares(f, z, x);
    InverseByConjugate(f, d, r);
    var c := f.Inv(f.Mul(d, r));
    var u, v := f.Add(e, xo), f.Sub(e, xo);
    Regroup(f, u, r, c, w); Regroup(f, v, d, c, w);
    f.MulNeg(f.Inv(r), w); f.MulNeg(v, f.Mul(f.Inv(r), w));
    f.DistribSub(f.Mul(c, w), f.Mul(u, r), f.Mul(v, d));
    CrossTerms(f, e, o, x, z);
    PullScale(f, f.Two(), s, w, f.Add(e, f.Mul(z, o)), c);
  }

  /** Half way round the subgroup is minus one. */
  lemma {:induction false} Opposite<F(!new)>(T: TwoAdicField<F>, k: nat, shift: F, i: nat)
    requires T.Laws() && k < T.bits
    ensures T.f.Pow(T.Gen(k + 1), i + Pow2(k)) == T.f.Neg(T.f.Pow(T.Gen(k + 1), i))
    ensures CosetAt(T, k + 1, shift, i + Pow2(k)) == T.f.Neg(CosetAt(T, k + 1, shift, i))
    ensures T.f.Mul(T.f.Pow(T.Gen(k + 1), i), T.f.Pow(T.Gen(k + 1), i)) == T.f.Pow(T.Gen(k), i)
    ensures T.f.Mul(CosetAt(T, k + 1, shift, i), CosetAt(T, k + 1, shift, i))
        == CosetAt(T, k, T.f.Mul(shift, shift), i)
  {
    var f, g := T.f, T.Gen(k + 1);
    var w := f.Pow(g, i);
    T.GenOrder(k + 1);
    f.PowAdd(g, i, Pow2(k)); f.MulNeg(w, f.one); f.Unit(w);
    f.MulNeg(shift, w);
    f.PowProduct(g, g, i); T.GenSquare(k);
    f.MulSwap(shift, w, shift, w);
  }

  lemma {:induction false} PairTerms<F(!new)>(T: TwoAdicField<F>, k: nat, shift: F, z: F, p: seq<F>, i: nat)
    requires T.Laws() && k < T.bits && i < Pow2(k) && OffCoset(T, k + 1, shift, z)
    ensures var f := T.f;
      && f.Sub(f.Mul(z, z), CosetAt(T, k, f.Mul(shift, shift), i)) != f.zero
      && f.Add(Term(T, k + 1, shift, z, p, i), Term(T, k + 1, shift, z, p, i + Pow2(k)))
         == f.Mul(f.Mul(f.Two(), shift), Term(T, k, f.Mul(shift, shift), f.Mul(z, z), FoldPoly(f, p, z), i))
  {
    var f, w := T.f, T.f.Pow(T.Gen(k + 1), i);
    var x := CosetAt(T, k + 1, shift, i);
    var y := f.Mul(x, x);
    var e, o := Eval(f, Evens(p), y), Eval(f, Odds(p), y);
    Opposite(T, k, shift, i);
    assert AtIndex(i); assert AtIndex(i + Pow2(k));
    f.NegNeg(x);
    EvalSplit(f, p, x); EvalSplit(f, p, f.Neg(x)); f.MulNeg(x, x); f.MulNeg(x, o);
    EvalCombine(f, Evens(p), Odds(p), FoldPoly(f, p, z), z, y);
    PairSum(f, e, o, shift, w, z);
  }

  // ---------- the whole sum ----------

  /** n terms from lo on. */
  function TermsFrom<F(!new)>(T: TwoAdicField<F>, k: nat, shift: F, z: F, p: seq<F>, lo: nat, n: nat): F {
    if n == 0 then T.f.zero else T.f.Add(TermsFrom(T, k, shift, z, p, lo, n - 1), Term(T, k, shift, z, p, n - 1 + lo))
  }

  lemma {:induction false} TermsSplit<F(!new)>(T: TwoAdicField<F>, k: nat, shift: F, z: F, p: seq<F>, lo: nat, n: nat)
    requires T.f.Laws()
    ensures TermsTo(T, k, shift, z, p, n + lo)
        == T.f.Add(TermsTo(T, k, shift, z, p, lo), TermsFrom(T, k, shift, z, p, lo, n))
  {
    var f, a := T.f, TermsTo(T, k, shift, z, p, lo);
    if n == 0 { f.Unit(a); }
    else {
      TermsSplit(T, k, shift, z, p, lo, n - 1);
      f.AddAssoc(a, TermsFrom(T, k, shift, z, p, lo, n - 1), Term(T, k, shift, z, p, n - 1 + lo));
    }
  }

  /** The first n terms of each half, together, are 2 * shift times n terms of the sum for q. */
  ghost predicate Paired<F(!new)>(T: TwoAdicField<F>, k: nat, shift: F, z: F, p: seq<F>, q: seq<F>, n: nat) {
    var f := T.f;
    f.Add(TermsTo(T, k + 1, shift, z, p, n), TermsFrom(T, k + 1, shift, z, p, Pow2(k), n))
    == f.Mul(f.Mul(f.Two(), shift), TermsTo(T, k, f.Mul(shift, shift), f.Mul(z, z), q, n))
  }

  /** The same of the two terms i. */
  ghost predicate PairOf<F(!new)>(T: TwoAdicField<F>, k: nat, shift: F, z: F, p: seq<F>, q: seq<F>, i: nat) {
    var f := T.f;
    f.Add(Term(T, k + 1, shift, z, p, i), Term(T, k + 1, shift, z, p, i + Pow2(k)))
    == f.Mul(f.Mul(f.Two(), shift), Term(T, k, f.Mul(shift, shift), f.Mul(z, z), q, i))
  }

  lemma {:induction false} TermsPaired<F(!new)>(
    T: TwoAdicField<F>, k: nat, shift: F, z: F, p: seq<F>, q: seq<F>, n: nat)
    requires T.Laws() && k < T.bits && n <= Pow2(k) && OffCoset(T, k + 1, shift, z) && q == FoldPoly(T.f, p, z)
    ensures Paired(T, k, shift, z, p, q, n)
    decreases n
  {
    if n > 0 {
      TermsPaired(T, k, shift, z, p, q, n - 1);
      PairTerms(T, k, shift, z, p, n - 1);
    }
    PairedNext(T, k, shift, z, p, q, n);
  }

  lemma {:induction false} PairedNext<F(!new)>(
    T: TwoAdicField<F>, k: nat, shift: F, z: F, p: seq<F>, q: seq<F>, n: nat)
    requires T.f.Laws() && (n > 0 ==> Paired(T, k, shift, z, p, q, n - 1) && PairOf(T, k, shift, z, p, q, n - 1))
    ensures Paired(T, k, shift, z, p, q, n)
  {
    var f := T.f;
    var c := f.Mul(f.Two(), shift);
    if n == 0 { f.MulZero(c); f.Unit(f.zero); }
    else {
      TermsStep(T, k, shift, z, p, n, q);
      PairedSums(f, c, TermsTo(T, k + 1, shift, z, p, n - 1), Term(T, k + 1, shift, z, p, n - 1),
                 TermsFrom(T, k + 1, shift, z, p, Pow2(k), n - 1), Term(T, k + 1, shift, z, p, n - 1 + Pow2(k)),
                 TermsTo(T, k, f.Mul(shift, shift), f.Mul(z, z), q, n - 1),
                 Term(T, k, f.Mul(shift, shift), f.Mul(z, z), q, n - 1));
    }
  }

  /** One more term in each of the three sums. */
  lemma {:induction false} TermsStep<F(!new)>(
    T: TwoAdicField<F>, k: nat, shift: F, z: F, p: seq<F>, n: nat, q: seq<F>)
    requires n > 0
    ensures TermsTo(T, k + 1, shift, z, p, n)
         == T.f.Add(TermsTo(T, k + 1, shift, z, p, n - 1), Term(T, k + 1, shift, z, p, n - 1))
    ensures TermsFrom(T, k + 1, shift, z, p, Pow2(k), n)
         == T.f.Add(TermsFrom(T, k + 1, shift, z, p, Pow2(k), n - 1), Term(T, k + 1, shift, z, p, n - 1 + Pow2(k)))
    ensures var s, y := T.f.Mul(shift, shift), T.f.Mul(z, z);
      TermsTo(T, k, s, y, q, n) == T.f.Add(TermsTo(T, k, s, y, q, n - 1), Term(T, k, s, y, q, n - 1))
  {}

  lemma {:induction false} PairedSums<F(!new)>(f: Field<F>, c: F, a: F, t: F, b: F, u: F, s: F, w: F)
    requires f.Laws() && f.Add(a, b) == f.Mul(c, s) && f.Add(t, u) == f.Mul(c, w)
    ensures f.Add(f.Add(a, t), f.Add(b, u)) == f.Mul(c, f.Add(s, w))
  { f.AddSwap(a, t, b, u); f.Distrib(c, s, w); }

  lemma {:induction false} SquaredOff<F(!new)>(T: TwoAdicField<F>, k: nat, shift: F, z: F)
    requires T.Laws() && k < T.bits && OffCoset(T, k + 1, shift, z)
    ensures OffCoset(T, k, T.f.Mul(shift, shift), T.f.Mul(z, z))
  {
    forall i: nat | i < Pow2(k) ensures T.f.Sub(T.f.Mul(z, z), CosetAt(T, k, T.f.Mul(shift, shift), i)) != T.f.zero {
      PairTerms(T, k, shift, z, [], i);
    }
  }

  lemma {:induction false} OfNatAdd<F(!new)>(f: Field<F>, m: nat, n: nat)
    requires f.Laws()
    ensures OfNat(f, m + n) == f.Add(OfNat(f, m), OfNat(f, n))
  {
    if n == 0 { f.Unit(OfNat(f, m)); }
    else { OfNatAdd(f, m, n - 1); f.AddAssoc(OfNat(f, m), OfNat(f, n - 1), f.one); }
  }

  /** The denominator of the doubled domain is 2 * shift times that of the squared one. */
  lemma {:induction false} DenominatorStep<F(!new)>(f: Field<F>, k: nat, shift: F)
    requires f.Laws()
    ensures Denominator(f, k + 1, shift) == f.Mul(f.Mul(f.Two(), shift), Denominator(f, k, f.Mul(shift, shift)))
  {
    var h, n := Pow2(k), OfNat(f, Pow2(k));
    OfNatAdd(f, h, h);
    f.Distrib(n, f.one, f.one); f.Unit(n); f.MulComm(n, f.Two());
    assert OfNat(f, Pow2(k + 1)) == f.Mul(f.Two(), n);
    f.PowMul(shift, 2, h - 1);
    PowTwo(f, shift);
    var q := f.Pow(f.Mul(shift, shift), h - 1);
    assert f.Pow(shift, 2 * h - 1) == f.Mul(shift, f.Pow(shift, 2 * (h - 1)));
    f.MulSwap(f.Two(), n, shift, q);
  }

  lemma {:induction false} PowTwo<F(!new)>(f: Field<F>, x: F)
    requires f.Laws()
    ensures f.Pow(x, 1) == x && f.Pow(x, 2) == f.Mul(x, x)
  { f.Unit(x); assert f.Pow(x, 0) == f.one; assert f.Pow(x, 1) == f.Mul(x, f.Pow(x, 0)); }

  lemma {:induction false} DenominatorNonZero<F(!new)>(f: Field<F>, k: nat, shift: F)
    requires f.Laws() && f.Two() != f.zero && shift != f.zero
    ensures Denominator(f, k, shift) != f.zero
  {
    if k == 0 {
      assert OfNat(f, 0) == f.zero && OfNat(f, 1) == f.Add(OfNat(f, 0), f.one);
      f.Unit(f.one); assert f.Pow(shift, 0) == f.one;
    } else {
      f.NoZeroDivisors(shift, shift);
      DenominatorNonZero(f, k - 1, f.Mul(shift, shift));
      DenominatorStep(f, k - 1, shift);
      f.NoZeroDivisors(f.Two(), shift);
      f.NoZeroDivisors(f.Mul(f.Two(), shift), Denominator(f, k - 1, f.Mul(shift, shift)));
    }
  }

  lemma {:induction false} ZerofierStep<F(!new)>(f: Field<F>, k: nat, shift: F, z: F)
    requires f.Laws()
    ensures Zerofier(f, k + 1, shift, z) == Zerofier(f, k, f.Mul(shift, shift), f.Mul(z, z))
  { f.PowMul(z, 2, Pow2(k)); f.PowMul(shift, 2, Pow2(k)); PowTwo(f, z); PowTwo(f, shift); }

  /** (v / (c d)) (c t) = (v / d) t. */
  lemma {:induction false} CancelScale<F(!new)>(f: Field<F>, v: F, c: F, d: F, t: F)
    requires f.Laws() && c != f.zero && d != f.zero
    ensures f.Mul(f.Mul(v, f.Inv(f.Mul(c, d))), f.Mul(c, t)) == f.Mul(f.Mul(v, f.Inv(d)), t)
  {
    var ci, di := f.Inv(c), f.Inv(d);
    f.InverseMul(c, d); f.MulComm(ci, di); f.MulAssoc(v, di, ci);
    f.MulAssoc(f.Mul(v, di), ci, f.Mul(c, t)); f.MulAssoc(ci, c, t); f.Inverse(c); f.Unit(t);
  }

  /** The barycentric formula recovers the value at z of a polynomial with at most 2^k coefficients
      from its values on the coset. */
  lemma {:induction false} BarycentricCorrect<F(!new)>(T: TwoAdicField<F>, k: nat, shift: F, z: F, p: seq<F>)
    requires T.Laws() && k <= T.bits && shift != T.f.zero && |p| <= Pow2(k) && OffCoset(T, k, shift, z)
    ensures var f := T.f;
      f.Mul(f.Mul(Zerofier(f, k, shift, z), f.Inv(Denominator(f, k, shift))), TermsTo(T, k, shift, z, p, Pow2(k)))
          == Eval(f, p, z)
    decreases k
  {
    var f := T.f;
    if k == 0 { BarycentricPoint(T, shift, z, p); }
    else {
      var s, y, q := f.Mul(shift, shift), f.Mul(z, z), FoldPoly(f, p, z);
      SquaredOff(T, k - 1, shift, z);
      f.NoZeroDivisors(shift, shift);
      BarycentricCorrect(T, k - 1, s, y, q);
      TermsSplit(T, k, shift, z, p, Pow2(k - 1), Pow2(k - 1));
      TermsPaired(T, k - 1, shift, z, p, FoldPoly(f, p, z), Pow2(k - 1));
      DenominatorStep(f, k - 1, shift); DenominatorNonZero(f, k - 1, s);
      ZerofierStep(f, k - 1, shift, z);
      f.NoZeroDivisors(f.Two(), shift);
      CancelScale(f, Zerofier(f, k, shift, z), f.Mul(f.Two(), shift), Denominator(f, k - 1, s),
          TermsTo(T, k - 1, s, y, q, Pow2(k - 1)));
      EvalSplit(f, p, z);
      EvalCombine(f, Evens(p), Odds(p), q, z, y);
    }
  }

  /** On one point: a constant. */
  lemma {:induction false} BarycentricPoint<F(!new)>(T: TwoAdicField<F>, shift: F, z: F, p: seq<F>)
    requires T.Laws() && |p| <= 1 && OffCoset(T, 0, shift, z)
    ensures var f := T.f;
      f.Mul(f.Mul(Zerofier(f, 0, shift, z), f.Inv(Denominator(f, 0, shift))), TermsTo(T, 0, shift, z, p, 1))
          == Eval(f, p, z)
  {
    var f, d := T.f, T.f.Sub(z, shift);
    assert AtIndex(0);
    f.Unit(shift); f.Unit(f.one); f.Unit(d); PowTwo(f, z); PowTwo(f, shift);
    assert CosetAt(T, 0, shift, 0) == shift;
    assert OfNat(f, 0) == f.zero && OfNat(f, 1) == f.Add(OfNat(f, 0), f.one);
    assert f.Pow(shift, 0) == f.one;
    f.InverseUnique(f.one, f.one);
    assert f.Mul(Zerofier(f, 0, shift, z), f.Inv(Denominator(f, 0, shift))) == d;
    ConstantEval(f, p, shift); ConstantEval(f, p, z);
    var e := Eval(f, p, z);
    f.Unit(f.Inv(d));
    assert Term(T, 0, shift, z, p, 0) == f.Mul(e, f.Inv(d));
    assert TermsTo(T, 0, shift, z, p, 0) == f.zero;
    f.Unit(f.Mul(e, f.Inv(d)));
    f.MulLift(d, e, f.Inv(d)); f.Inverse(d); f.Unit(e);
  }

  lemma {:induction false} ConstantEval<F(!new)>(f: Field<F>, p: seq<F>, x: F)
    requires f.Laws() && |p| <= 1
    ensures Eval(f, p, x) == if p == [] then f.zero else p[0]
  { if p != [] { assert p[1..] == []; f.MulZero(x); f.Unit(p[0]); } }

  // ---------- `interpolate_coset_precomputed` ----------

  /** The dot product of column c of the first n rows with diff_inv[i] * g^i. */
  function DotColumn<F(!new)>(T: TwoAdicField<F>, k: nat, evals: Matrix<F>, diffInvs: seq<F>, c: nat, n: nat): F
    requires n <= |evals| && n <= |diffInvs| && forall i :: 0 <= i < n ==> c < |evals[i]|
  {
    if n == 0 then T.f.zero
    else T.f.Add(DotColumn(T, k, evals, diffInvs, c, n - 1),
         T.f.Mul(evals[n - 1][c], T.f.Mul(diffInvs[n - 1], T.f.Pow(T.Gen(k), n - 1))))
  }

  ghost predicate Rectangular<F>(m: Matrix<F>, width: nat) { forall i :: 0 <= i < |m| ==> |m[i]| == width }

  /** The first n columns, interpolated at z. */
  function InterpolateColumns<F(!new)>(
    T: TwoAdicField<F>, k: nat, evals: Matrix<F>, shift: F, z: F, diffInvs: seq<F>, width: nat, n: nat): (ys: seq<F>)
    requires |evals| == |diffInvs| == Pow2(k) && Rectangular(evals, width) && n <= width
    ensures |ys| == n
  {
    if n == 0 then []
    else
      var scale := T.f.Mul(Zerofier(T.f, k, shift, z), T.f.Inv(Denominator(T.f, k, shift)));
      InterpolateColumns(T, k, evals, shift, z, diffInvs, width, n - 1)
          + [T.f.Mul(scale, DotColumn(T, k, evals, diffInvs, n - 1, Pow2(k)))]
  }

  function InterpolateCosetPrecomputed<F(!new)>(
    T: TwoAdicField<F>, k: nat, evals: Matrix<F>, shift: F, z: F, diffInvs: seq<F>, width: nat): (ys: seq<F>)
    requires |evals| == |diffInvs| == Pow2(k) && Rectangular(evals, width)
    ensures |ys| == width
  { InterpolateColumns(T, k, evals, shift, z, diffInvs, width, width) }

  /** Column c of the rows, in natural order, holds the values of polynomial c on the coset. */
  ghost predicate ColumnIs<F(!new)>(T: TwoAdicField<F>, k: nat, evals: Matrix<F>, shift: F, c: nat, p: seq<F>) {
    forall i: nat {:trigger AtIndex(i)} :: i < |evals| ==>
        c < |evals[i]| && evals[i][c] == Eval(T.f, p, CosetAt(T, k, shift, i))
  }

  ghost predicate DiffInvsAre<F(!new)>(T: TwoAdicField<F>, k: nat, shift: F, z: F, diffInvs: seq<F>) {
    forall i: nat {:trigger AtIndex(i)} :: i < |diffInvs| ==>
        diffInvs[i] == T.f.Inv(T.f.Sub(z, CosetAt(T, k, shift, i)))
  }

  lemma {:induction false} DotIsTerms<F(!new)>(
    T: TwoAdicField<F>, k: nat, evals: Matrix<F>, shift: F, z: F, diffInvs: seq<F>, width: nat, c: nat, p: seq<F>,
    n: nat)
    requires n <= |evals| && n <= |diffInvs| && Rectangular(evals, width) && c < width
    requires ColumnIs(T, k, evals, shift, c, p) && DiffInvsAre(T, k, shift, z, diffInvs)
    ensures DotColumn(T, k, evals, diffInvs, c, n) == TermsTo(T, k, shift, z, p, n)
  {
    if n > 0 {
      DotIsTerms(T, k, evals, shift, z, diffInvs, width, c, p, n - 1);
      assert AtIndex(n - 1);
    }
  }

  lemma {:induction false} InterpolateColumnsAt<F(!new)>(
    T: TwoAdicField<F>, k: nat, evals: Matrix<F>, shift: F, z: F, diffInvs: seq<F>, width: nat, n: nat, c: nat)
    requires |evals| == |diffInvs| == Pow2(k) && Rectangular(evals, width) && c < n <= width
    ensures InterpolateColumns(T, k, evals, shift, z, diffInvs, width, n)[c]
         == T.f.Mul(T.f.Mul(Zerofier(T.f, k, shift, z), T.f.Inv(Denominator(T.f, k, shift))),
             DotColumn(T, k, evals, diffInvs, c, Pow2(k)))
  { if c < n - 1 { InterpolateColumnsAt(T, k, evals, shift, z, diffInvs, width, n - 1, c); } }

  /** Every column is interpolated correctly. */
  lemma {:induction false} InterpolationCorrect<F(!new)>(
    T: TwoAdicField<F>, k: nat, evals: Matrix<F>, shift: F, z: F, diffInvs: seq<F>, width: nat, c: nat, p: seq<F>)
    requires T.Laws() && k <= T.bits && shift != T.f.zero && |p| <= Pow2(k) && OffCoset(T, k, shift, z)
    requires |evals| == |diffInvs| == Pow2(k) && Rectangular(evals, width) && c < width
    requires ColumnIs(T, k, evals, shift, c, p) && DiffInvsAre(T, k, shift, z, diffInvs)
    ensures InterpolateCosetPrecomputed(T, k, evals, shift, z, diffInvs, width)[c] == Eval(T.f, p, z)
  {
    InterpolateColumnsAt(T, k, evals, shift, z, diffInvs, width, width, c);
    DotIsTerms(T, k, evals, shift, z, diffInvs, width, c, p, Pow2(k));
    BarycentricCorrect(T, k, shift, z, p);
  }
}
