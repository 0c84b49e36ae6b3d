/** Why honest reduced openings are codewords of low degree: (p(X) - p(z)) / (X - z) is a polynomial. */
module PcsLowDegree {
  import opened Basics
  import opened Bits
  import opened Fields
  import opened TwoAdic
  import opened FriFold
  import opened InverseDenominators
  import opened PcsReduce

  // ---------- polynomials ----------

  function ScalePoly<F(!new)>(f: Field<F>, c: F, p: seq<F>): (r: seq<F>)
    ensures |r| == |p|
  { if p == [] then [] else [f.Mul(c, p[0])] + ScalePoly(f, c, p[1..]) }

  lemma {:induction false} EvalScale<F(!new)>(f: Field<F>, c: F, p: seq<F>, x: F)
    requires f.Laws()
    ensures Eval(f, ScalePoly(f, c, p), x) == f.Mul(c, Eval(f, p, x))
  {
    if p == [] { f.MulZero(c); }
    else {
      var e := Eval(f, p[1..], x);
      EvalScale(f, c, p[1..], x);
      f.MulLift(x, c, e); f.Distrib(c, p[0], f.Mul(x, e));
    }
  }

  /** p(s X). */
  function ShiftPoly<F(!new)>(f: Field<F>, s: F, p: seq<F>): (r: seq<F>)
    ensures |r| == |p|
  { if p == [] then [] else [p[0]] + ScalePoly(f, s, ShiftPoly(f, s, p[1..])) }

  lemma {:induction false} EvalShift<F(!new)>(f: Field<F>, s: F, p: seq<F>, t: F)
    requires f.Laws()
    ensures Eval(f, ShiftPoly(f, s, p), t) == Eval(f, p, f.Mul(s, t))
  {
    if p != [] {
      var q := ShiftPoly(f, s, p[1..]);
      EvalShift(f, s, p[1..], t);
      EvalScale(f, s, q, t);
      f.MulAssoc(t, s, Eval(f, q, t)); f.MulComm(t, s);
    }
  }

  /** Synthetic division: the quotient of p(X) - p(z) by X - z. */
  function Quotient<F(!new)>(f: Field<F>, p: seq<F>, z: F): (q: seq<F>)
    ensures |q| == if p == [] then 0 else |p| - 1
  { if p == [] then [] else AddPoly(f, p[1..], ScalePoly(f, z, Quotient(f, p[1..], z))) }

  lemma {:induction false} QuotientDivides<F(!new)>(f: Field<F>, p: seq<F>, z: F, x: F)
    requires f.Laws()
    ensures f.Sub(Eval(f, p, x), Eval(f, p, z)) == f.Mul(f.Sub(x, z), Eval(f, Quotient(f, p, z), x))
  {
    if p == [] { f.Unit(f.zero); f.MulZero(f.Sub(x, z)); }
    else {
      var r, q := p[1..], Quotient(f, p[1..], z);
      var rx, rz, qx, d := Eval(f, r, x), Eval(f, r, z), Eval(f, q, x), f.Sub(x, z);
      QuotientDivides(f, r, z, x);
      EvalScale(f, z, q, x);
      EvalAddPoly(f, r, ScalePoly(f, z, q), x);
      f.SubSwap(p[0], f.Mul(x, rx), p[0], f.Mul(z, rz)); f.Unit(p[0]);
      var diff := f.Sub(f.Mul(x, rx), f.Mul(z, rz));
      f.Unit(diff);
      CrossDifference(f, x, z, rx, rz);
      f.Distrib(d, rx, f.Mul(z, qx)); f.MulLift(d, z, qx);
    }
  }

  /** x a - z b = (x - z) a + z (a - b). */
  lemma {:induction false} CrossDifference<F(!new)>(f: Field<F>, x: F, z: F, a: F, b: F)
    requires f.Laws()
    ensures f.Sub(f.Mul(x, a), f.Mul(z, b)) == f.Add(f.Mul(f.Sub(x, z), a), f.Mul(z, f.Sub(a, b)))
  {
    f.DistribSub(a, x, z); f.DistribSub(z, a, b);
    var xa, za, zb := f.Mul(x, a), f.Mul(z, a), f.Mul(z, b);
    f.AddAssoc(f.Sub(xa, za), za, f.Neg(zb)); f.SubAdd(xa, za);
  }

  /** Sum of alpha^c p_c over the first n columns. */
  function Combine<F(!new)>(f: Field<F>, alpha: F, polys: seq<seq<F>>, n: nat): (r: seq<F>)
    requires n <= |polys|
  {
    if n == 0 then []
    else AddPoly(f, Combine(f, alpha, polys, n - 1), ScalePoly(f, f.Pow(alpha, n - 1), polys[n - 1]))
  }

  ghost predicate ShortPolys<F>(polys: seq<seq<F>>, bound: nat)
  { forall c :: 0 <= c < |polys| ==> |polys[c]| <= bound }

  lemma {:induction false} CombineShort<F(!new)>(f: Field<F>, alpha: F, polys: seq<seq<F>>, n: nat, bound: nat)
    requires n <= |polys| && ShortPolys(polys, bound)
    ensures |Combine(f, alpha, polys, n)| <= bound
  { if n > 0 { CombineShort(f, alpha, polys, n - 1, bound); } }

  /** The values of the columns at x. */
  ghost predicate ValuesAt<F(!new)>(f: Field<F>, polys: seq<seq<F>>, x: F, ys: seq<F>) {
    |ys| == |polys| && forall c: nat {:trigger AtIndex(c)} :: c < |ys| ==> ys[c] == Eval(f, polys[c], x)
  }

  lemma {:induction false} CombineEval<F(!new)>(f: Field<F>, alpha: F, polys: seq<seq<F>>, x: F, ys: seq<F>, n: nat)
    requires f.Laws() && ValuesAt(f, polys, x, ys) && n <= |polys|
    ensures Eval(f, Combine(f, alpha, polys, n), x) == PowerSum(f, alpha, ys, n)
  {
    if n > 0 {
      var a := f.Pow(alpha, n - 1);
      CombineEval(f, alpha, polys, x, ys, n - 1);
      assert AtIndex(n - 1);
      EvalScale(f, a, polys[n - 1], x);
      EvalAddPoly(f, Combine(f, alpha, polys, n - 1), ScalePoly(f, a, polys[n - 1]), x);
    }
  }

  // ---------- one point ----------

  /** What one opening point adds to the codeword. */
  function AddedPoly<F(!new)>(f: Field<F>, alpha: F, shift: F, offset: F, polys: seq<seq<F>>, z: F): seq<F> {
    ScalePoly(f, offset, ShiftPoly(f, shift, Quotient(f, Combine(f, alpha, polys, |polys|), z)))
  }

  /** (inv * offset) * (row sum - opened sum) is that polynomial's value, for inv = 1 / (x - z). */
  lemma {:induction false} AddedValue<F(!new)>(
    f: Field<F>, alpha: F, shift: F, offset: F, polys: seq<seq<F>>, z: F, t: F, row: seq<F>, ys: seq<F>)
    requires f.Laws() && f.Sub(f.Mul(shift, t), z) != f.zero
    requires ValuesAt(f, polys, f.Mul(shift, t), row) && ValuesAt(f, polys, z, ys)
    ensures f.Mul(f.Mul(f.Inv(f.Sub(f.Mul(shift, t), z)), offset),
        f.Sub(PowerSum(f, alpha, row, |row|), PowerSum(f, alpha, ys, |ys|)))
         == Eval(f, AddedPoly(f, alpha, shift, offset, polys, z), t)
  {
    var x := f.Mul(shift, t);
    var p, d := Combine(f, alpha, polys, |polys|), f.Sub(x, z);
    var q := Quotient(f, p, z);
    CombineEval(f, alpha, polys, x, row, |polys|);
    CombineEval(f, alpha, polys, z, ys, |polys|);
    QuotientDivides(f, p, z, x);
    EvalShift(f, shift, q, t);
    EvalScale(f, offset, ShiftPoly(f, shift, q), t);
    var v := Eval(f, q, x);
    f.MulComm(f.Inv(d), offset); f.MulAssoc(offset, f.Inv(d), f.Mul(d, v));
    f.MulAssoc(f.Inv(d), d, v); f.Inverse(d); f.Unit(v);
  }

  /** The columns of a matrix are the values of these polynomials on the coset, and every claim is
      their value at its point. */
  ghost predicate HonestMat<F(!new)>(
    T: TwoAdicField<F>, shift: F, logBlowup: nat, mo: MatOpen<F>, polys: seq<seq<F>>) {
    && MatOk(mo) && logBlowup <= mo.log <= T.bits && ShortPolys(polys, Pow2(mo.log - logBlowup))
    && (forall j: nat {:trigger AtIndex(j)} :: j < |mo.mat| ==>
        ValuesAt(T.f, polys, T.f.Mul(shift, T.Point(mo.log, j)), mo.mat[j]))
    && (forall p :: 0 <= p < |mo.opens| ==> ValuesAt(T.f, polys, mo.opens[p].z, mo.opens[p].ys))
    && (forall p :: 0 <= p < |mo.opens| ==> OffDomain(T, shift, mo.log, mo.opens[p].z))
  }

  /** Adding one point's contribution keeps a codeword a codeword. */
  lemma {:induction false} PointKeepsCodeword<F(!new)>(
    T: TwoAdicField<F>, shift: F, alpha: F, logBlowup: nat, inv: seq<F>, offset: F, mo: MatOpen<F>,
    polys: seq<seq<F>>, p: nat, q: seq<F>)
    requires T.Laws() && HonestMat(T, shift, logBlowup, mo, polys) && p < |mo.opens|
        && Serves(T, shift, inv, mo.opens[p].z, mo.log)
    ensures NewEntries(T.f, alpha, Codeword(T, mo.log, q), inv, offset, mo.mat, mo.opens[p].ys, Pow2(mo.log))
         == Codeword(T, mo.log, AddPoly(T.f, q, AddedPoly(T.f, alpha, shift, offset, polys, mo.opens[p].z)))
  {
    var f, h, o := T.f, mo.log, mo.opens[p];
    var a := AddedPoly(f, alpha, shift, offset, polys, o.z);
    var v := NewEntries(f, alpha, Codeword(T, h, q), inv, offset, mo.mat, o.ys, Pow2(h));
    assert OffDomain(T, shift, h, o.z) && ValuesAt(f, polys, o.z, o.ys);
    forall j: nat | j < Pow2(h) ensures v[j] == Codeword(T, h, AddPoly(f, q, a))[j] {
      assert AtIndex(j);
      NewEntriesAt(f, alpha, Codeword(T, h, q), inv, offset, mo.mat, o.ys, Pow2(h), j);
      CodewordAt(T, h, q, j); CodewordAt(T, h, AddPoly(f, q, a), j);
      AddedValue(f, alpha, shift, offset, polys, o.z, T.Point(h, j), mo.mat[j], o.ys);
      EvalAddPoly(f, q, a, T.Point(h, j));
    }
  }

  // ---------- the whole reduction ----------

  /** Every reduced opening is the codeword of a polynomial with fewer than 2^(h - log_blowup)
      coefficients; at height log_blowup that is the zero polynomial. */
  ghost predicate Low<F(!new)>(T: TwoAdicField<F>, logBlowup: nat, top: nat, st: Reduced<F>, qs: seq<seq<F>>) {
    && ReducedOk(st) && |qs| == 32
    && forall h: nat {:trigger AtIndex(h)} :: h < 32 && st.openings[h].Some? ==>
         logBlowup <= h <= top && st.openings[h].value == Codeword(T, h, qs[h]) && |qs[h]| < Pow2(h - logBlowup)
  }

  lemma {:induction false} ZeroVectorIsCodeword<F(!new)>(T: TwoAdicField<F>, h: nat)
    ensures ZeroVector(T.f, Pow2(h)) == Codeword(T, h, [])
  {
    forall j | 0 <= j < Pow2(h) ensures ZeroVector(T.f, Pow2(h))[j] == Codeword(T, h, [])[j]
        { CodewordAt(T, h, [], j); }
  }

  /** Low openings stay low when the one of height g becomes another short codeword. */
  lemma {:induction false} LowUpdate<F(!new)>(
    T: TwoAdicField<F>, logBlowup: nat, top: nat, st: Reduced<F>, qs: seq<seq<F>>, g: nat, q: seq<F>, t: Reduced<F>)
    requires Low(T, logBlowup, top, st, qs) && logBlowup <= g <= top && g < 32 && |q| < Pow2(g - logBlowup)
    requires ReducedOk(t) && t.openings == st.openings[g := Some(Codeword(T, g, q))]
    ensures Low(T, logBlowup, top, t, qs[g := q])
  {
    var rs := qs[g := q];
    forall h: nat | h < 32 && t.openings[h].Some?
      ensures logBlowup <= h <= top && t.openings[h].value == Codeword(T, h, rs[h]) && |rs[h]| < Pow2(h - logBlowup)
    { assert AtIndex(h); }
  }

  lemma {:induction false} EnsureLow<F(!new)>(
    T: TwoAdicField<F>, logBlowup: nat, top: nat, st: Reduced<F>, qs: seq<seq<F>>, g: nat) returns (rs: seq<seq<F>>)
    requires Low(T, logBlowup, top, st, qs) && logBlowup <= g <= top < 32
    ensures Low(T, logBlowup, top, EnsureHeight(T.f, st, g), rs)
  {
    if st.openings[g].Some? { rs := qs; }
    else {
      ZeroVectorIsCodeword(T, g);
      LowUpdate(T, logBlowup, top, st, qs, g, [], EnsureHeight(T.f, st, g));
      rs := qs[g := []];
    }
  }

  lemma {:induction false} AddedShort<F(!new)>(
    f: Field<F>, alpha: F, shift: F, offset: F, polys: seq<seq<F>>, z: F, bound: nat)
    requires ShortPolys(polys, bound) && bound > 0
    ensures |AddedPoly(f, alpha, shift, offset, polys, z)| < bound
  { CombineShort(f, alpha, polys, |polys|, bound); }

  lemma {:induction false} PointLow<F(!new)>(
    T: TwoAdicField<F>, shift: F, alpha: F, logBlowup: nat, top: nat, inv: seq<F>, st: Reduced<F>, qs: seq<seq<F>>,
    mo: MatOpen<F>, polys: seq<seq<F>>, p: nat)
    returns (rs: seq<seq<F>>)
    requires T.Laws() && Low(T, logBlowup, top, st, qs) && HonestMat(T, shift, logBlowup, mo, polys) && p < |mo.opens|
        && mo.log <= top
    requires st.openings[mo.log].Some? && Serves(T, shift, inv, mo.opens[p].z, mo.log)
    ensures Low(T, logBlowup, top, ReducePoint(T.f, alpha, inv, st, mo, mo.opens[p].ys), rs)
  {
    var f, g, offset := T.f, mo.log, T.f.Pow(alpha, st.num[mo.log]);
    var added := AddedPoly(f, alpha, shift, offset, polys, mo.opens[p].z);
    AddedShort(f, alpha, shift, offset, polys, mo.opens[p].z, Pow2(g - logBlowup));
    assert AtIndex(g);
    PointKeepsCodeword(T, shift, alpha, logBlowup, inv, offset, mo, polys, p, qs[g]);
    var q := AddPoly(f, qs[g], added);
    LowUpdate(T, logBlowup, top, st, qs, g, q, ReducePoint(f, alpha, inv, st, mo, mo.opens[p].ys));
    rs := qs[g := q];
  }

  lemma {:induction false} PointsLow<F(!new)>(
    T: TwoAdicField<F>, shift: F, alpha: F, logBlowup: nat, top: nat, denoms: map<F, seq<F>>, st: Reduced<F>,
    qs: seq<seq<F>>,
    mo: MatOpen<F>, polys: seq<seq<F>>, n: nat) returns (rs: seq<seq<F>>)
    requires T.Laws() && Low(T, logBlowup, top, st, qs) && HonestMat(T, shift, logBlowup, mo, polys)
        && n <= |mo.opens| && mo.log <= top
    requires st.openings[mo.log].Some? && MatServed(T, shift, denoms, mo) && Denominators(denoms, mo)
    ensures Low(T, logBlowup, top, ReducePoints(T.f, alpha, denoms, st, mo, n), rs)
  {
    if n == 0 { rs := qs; }
    else {
      rs := PointsLow(T, shift, alpha, logBlowup, top, denoms, st, qs, mo, polys, n - 1);
      rs := PointLow(T, shift, alpha, logBlowup, top, denoms[mo.opens[n - 1].z],
          ReducePoints(T.f, alpha, denoms, st, mo, n - 1), rs, mo, polys, n - 1);
    }
  }

  ghost predicate HonestMats<F(!new)>(
    T: TwoAdicField<F>, shift: F, logBlowup: nat, top: nat, mos: seq<MatOpen<F>>, polys: seq<seq<seq<F>>>) {
    |polys| == |mos| && forall m :: 0 <= m < |mos| ==>
        HonestMat(T, shift, logBlowup, mos[m], polys[m]) && mos[m].log <= top
  }

  lemma {:induction false} MatsLow<F(!new)>(
    T: TwoAdicField<F>, shift: F, alpha: F, logBlowup: nat, top: nat, denoms: map<F, seq<F>>, st: Reduced<F>,
    qs: seq<seq<F>>,
    mos: seq<MatOpen<F>>, polys: seq<seq<seq<F>>>, n: nat) returns (rs: seq<seq<F>>)
    requires T.Laws() && Low(T, logBlowup, top, st, qs) && HonestMats(T, shift, logBlowup, top, mos, polys)
        && n <= |mos| && top < 32
    requires MatsServed(T, shift, denoms, mos)
    ensures Low(T, logBlowup, top, ReduceMats(T.f, alpha, denoms, st, mos, n), rs)
  {
    if n == 0 { rs := qs; }
    else {
      rs := MatsLow(T, shift, alpha, logBlowup, top, denoms, st, qs, mos, polys, n - 1);
      var s, mo := ReduceMats(T.f, alpha, denoms, st, mos, n - 1), mos[n - 1];
      rs := EnsureLow(T, logBlowup, top, s, rs, mo.log);
      rs := PointsLow(T, shift, alpha, logBlowup, top, denoms, EnsureHeight(T.f, s, mo.log), rs, mo, polys[n - 1],
          |mo.opens|);
    }
  }

  ghost predicate HonestRounds<F(!new)>(
    T: TwoAdicField<F>, shift: F, logBlowup: nat, top: nat, rounds: seq<seq<MatOpen<F>>>,
    polys: seq<seq<seq<seq<F>>>>) {
    |polys| == |rounds| && forall r :: 0 <= r < |rounds| ==> HonestMats(T, shift, logBlowup, top, rounds[r], polys[r])
  }

  /** The reduced openings of honest matrices have low degree. */
  lemma {:induction false} RoundsLow<F(!new)>(
    T: TwoAdicField<F>, shift: F, alpha: F, logBlowup: nat, top: nat, denoms: map<F, seq<F>>,
    rounds: seq<seq<MatOpen<F>>>, polys: seq<seq<seq<seq<F>>>>, n: nat) returns (rs: seq<seq<F>>)
    requires T.Laws() && HonestRounds(T, shift, logBlowup, top, rounds, polys) && n <= |rounds| && top < 32
    requires RoundsServed(T, shift, denoms, rounds)
    ensures Low(T, logBlowup, top, ReduceRounds(T.f, alpha, denoms, rounds, n), rs)
  {
    if n == 0 { rs := EmptyPolys(32); }
    else {
      rs := RoundsLow(T, shift, alpha, logBlowup, top, denoms, rounds, polys, n - 1);
      rs := MatsLow(T, shift, alpha, logBlowup, top, denoms, ReduceRounds(T.f, alpha, denoms, rounds, n - 1), rs,
          rounds[n - 1], polys[n - 1], |rounds[n - 1]|);
    }
  }

  function EmptyPolys<F>(n: nat): (r: seq<seq<F>>)
    ensures |r| == n
  { if n == 0 then [] else EmptyPolys(n - 1) + [[]] }
}
