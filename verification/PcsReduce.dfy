/** Batching all openings of one height into a single codeword: the prover's vector form and the
    verifier's column-by-column form at one index. */
module PcsReduce {
  import opened Basics
  import opened Bits
  import opened Fields
  import opened TwoAdic
  import opened Mmcs
  import opened Fri
  import opened Barycentric
  import opened InverseDenominators

  /** An opening point and the claimed values of all columns there. */
  datatype PointOpen<F> = PointOpen(z: F, ys: seq<F>)

  /** A committed matrix, its width and log height, and its openings. */
  datatype MatOpen<F> = MatOpen(mat: Matrix<F>, width: nat, log: nat, opens: seq<PointOpen<F>>)

  ghost predicate MatOk<F>(mo: MatOpen<F>) {
    && mo.log < 32 && |mo.mat| == Pow2(mo.log) && Rectangular(mo.mat, mo.width)
    && forall p :: 0 <= p < |mo.opens| ==> |mo.opens[p].ys| == mo.width
  }

  ghost predicate Denominators<F>(denoms: map<F, seq<F>>, mo: MatOpen<F>) {
    forall p :: 0 <= p < |mo.opens| ==> mo.opens[p].z in denoms && Pow2(mo.log) <= |denoms[mo.opens[p].z]|
  }

  // ---------- powers of alpha ----------

  /** `reduce_ext`: the first n powers times the first n values. */
  function PowersDot<F(!new)>(f: Field<F>, powers: seq<F>, xs: seq<F>, n: nat): F
    requires n <= |powers| && n <= |xs|
  { if n == 0 then f.zero else f.Add(PowersDot(f, powers, xs, n - 1), f.Mul(powers[n - 1], xs[n - 1])) }

  /** Sum of alpha^i x_i, by powers. */
  function PowerSum<F(!new)>(f: Field<F>, alpha: F, xs: seq<F>, n: nat): F
    requires n <= |xs|
  { if n == 0 then f.zero else f.Add(PowerSum(f, alpha, xs, n - 1), f.Mul(f.Pow(alpha, n - 1), xs[n - 1])) }

  lemma {:induction false} PowersDotIs<F(!new)>(f: Field<F>, alpha: F, powers: seq<F>, xs: seq<F>, n: nat)
    requires n <= |powers| && n <= |xs| && forall i :: 0 <= i < |powers| ==> powers[i] == f.Pow(alpha, i)
    ensures PowersDot(f, powers, xs, n) == PowerSum(f, alpha, xs, n)
  { if n > 0 { PowersDotIs(f, alpha, powers, xs, n - 1); } }

  // ---------- the prover ----------

  /** `reduced_openings` and `num_reduced`. */
  datatype Reduced<F> = Reduced(openings: Input<F>, num: seq<nat>)

  ghost predicate ReducedOk<F>(st: Reduced<F>) { InputOk(st.openings) && |st.num| == 32 }

  function ZeroVector<F(!new)>(f: Field<F>, n: nat): (r: seq<F>)
    ensures |r| == n && forall i :: 0 <= i < n ==> r[i] == f.zero
  { if n == 0 then [] else ZeroVector(f, n - 1) + [f.zero] }

  /** `get_or_insert_with(zeros)`. */
  function EnsureHeight<F(!new)>(f: Field<F>, st: Reduced<F>, h: nat): (r: Reduced<F>)
    requires h < |st.openings|
  { if st.openings[h].Some? then st else st.(openings := st.openings[h := Some(ZeroVector(f, Pow2(h)))]) }

  /** One entry: old + (inverse denominator * alpha offset) * (row sum - opened sum). */
  function NewEntry<F(!new)>(f: Field<F>, alpha: F, prior: F, inv: F, offset: F, row: seq<F>, ys: seq<F>): F {
    f.Add(prior, f.Mul(f.Mul(inv, offset), f.Sub(PowerSum(f, alpha, row, |row|), PowerSum(f, alpha, ys, |ys|))))
  }

  function NewEntries<F(!new)>(
    f: Field<F>, alpha: F, v: seq<F>, inv: seq<F>, offset: F, mat: Matrix<F>, ys: seq<F>, n: nat): (r: seq<F>)
    requires n <= |v| && n <= |inv| && n <= |mat|
    ensures |r| == n
  {
    if n == 0 then []
    else NewEntries(f, alpha, v, inv, offset, mat, ys, n - 1)
         + [NewEntry(f, alpha, v[n - 1], inv[n - 1], offset, mat[n - 1], ys)]
  }

  lemma {:induction false} NewEntriesAt<F(!new)>(
    f: Field<F>, alpha: F, v: seq<F>, inv: seq<F>, offset: F, mat: Matrix<F>, ys: seq<F>, n: nat, j: nat)
    requires j < n <= |v| && n <= |inv| && n <= |mat|
    ensures NewEntries(f, alpha, v, inv, offset, mat, ys, n)[j]
        == NewEntry(f, alpha, v[j], inv[j], offset, mat[j], ys)
  { if j < n - 1 { NewEntriesAt(f, alpha, v, inv, offset, mat, ys, n - 1, j); } }

  /** One opening point of a matrix. */
  function ReducePoint<F(!new)>(
    f: Field<F>, alpha: F, inv: seq<F>, st: Reduced<F>, mo: MatOpen<F>, ys: seq<F>): (r: Reduced<F>)
    requires ReducedOk(st) && mo.log < 32 && |mo.mat| == Pow2(mo.log) <= |inv| && st.openings[mo.log].Some?
    ensures ReducedOk(r) && r.openings[mo.log].Some?
  {
    var h := mo.log;
    var v := NewEntries(f, alpha, st.openings[h].value, inv, f.Pow(alpha, st.num[h]), mo.mat, ys, Pow2(h));
    Reduced(st.openings[h := Some(v)], st.num[h := st.num[h] + mo.width])
  }

  function ReducePoints<F(!new)>(
    f: Field<F>, alpha: F, denoms: map<F, seq<F>>, st: Reduced<F>, mo: MatOpen<F>, n: nat): (r: Reduced<F>)
    requires ReducedOk(st) && MatOk(mo) && Denominators(denoms, mo) && st.openings[mo.log].Some? && n <= |mo.opens|
    ensures ReducedOk(r) && r.openings[mo.log].Some?
  {
    if n == 0 then st
    else ReducePoint(f, alpha, denoms[mo.opens[n - 1].z], ReducePoints(f, alpha, denoms, st, mo, n - 1), mo,
         mo.opens[n - 1].ys)
  }

  function ReduceMats<F(!new)>(
    f: Field<F>, alpha: F, denoms: map<F, seq<F>>, st: Reduced<F>, mos: seq<MatOpen<F>>, n: nat): (r: Reduced<F>)
    requires ReducedOk(st) && n <= |mos| && MatsReady(denoms, mos)
    ensures ReducedOk(r)
  {
    if n == 0 then st
    else
      var mo := mos[n - 1];
      ReducePoints(f, alpha, denoms, EnsureHeight(f, ReduceMats(f, alpha, denoms, st, mos, n - 1), mo.log), mo,
          |mo.opens|)
  }

  ghost predicate RoundsReady<F>(denoms: map<F, seq<F>>, rounds: seq<seq<MatOpen<F>>>) {
    forall r :: 0 <= r < |rounds| ==> MatsReady(denoms, rounds[r])
  }

  function NoInputs<F>(n: nat): (r: Input<F>)
    ensures |r| == n && forall i :: 0 <= i < n ==> r[i].None?
  { if n == 0 then [] else NoInputs(n - 1) + [None] }

  function Fresh<F(!new)>(): (r: Reduced<F>)
    ensures ReducedOk(r)
  { Reduced(NoInputs(32), Zeros(32)) }

  /** The state after n rounds. */
  function ReduceRounds<F(!new)>(
    f: Field<F>, alpha: F, denoms: map<F, seq<F>>, rounds: seq<seq<MatOpen<F>>>, n: nat): (r: Reduced<F>)
    requires RoundsReady(denoms, rounds) && n <= |rounds|
    ensures ReducedOk(r)
  {
    if n == 0 then Fresh()
    else ReduceMats(f, alpha, denoms, ReduceRounds(f, alpha, denoms, rounds, n - 1), rounds[n - 1], |rounds[n - 1]|)
  }

  /** One opening point: the whole vector of its height. */
  method AccumulatePoint<F(!new)>(
    f: Field<F>, alpha: F, powers: seq<F>, inv: seq<F>, st: Reduced<F>, mo: MatOpen<F>, ys: seq<F>)
    returns (r: Reduced<F>)
    requires ReducedOk(st) && MatOk(mo) && Pow2(mo.log) <= |inv| && st.openings[mo.log].Some?
        && |ys| == mo.width <= |powers|
    requires forall i :: 0 <= i < |powers| ==> powers[i] == f.Pow(alpha, i)
    ensures r == ReducePoint(f, alpha, inv, st, mo, ys)
  {
    var h := mo.log;
    var offset := f.Pow(alpha, st.num[h]);
    PowersDotIs(f, alpha, powers, ys, |ys|);
    var claimed := PowersDot(f, powers, ys, |ys|);
    var prior := st.openings[h].value;
    var v := [];
    for j := 0 to Pow2(h)
      invariant v == NewEntries(f, alpha, prior, inv, offset, mo.mat, ys, j)
    {
      var row := mo.mat[j];
      PowersDotIs(f, alpha, powers, row, |row|);
      var rowSum := PowersDot(f, powers, row, |row|);
      v := v + [f.Add(prior[j], f.Mul(f.Mul(inv[j], offset), f.Sub(rowSum, claimed)))];
    }
    r := Reduced(st.openings[h := Some(v)], st.num[h := st.num[h] + mo.width]);
  }

  ghost predicate Narrow<F>(rounds: seq<seq<MatOpen<F>>>, width: nat) {
    forall r, m :: 0 <= r < |rounds| && 0 <= m < |rounds[r]| ==> rounds[r][m].width <= width
  }

  /** The reduction loop of `open`. */
  method ReduceOpenings<F(!new)>(
    f: Field<F>, alpha: F, maxWidth: nat, denoms: map<F, seq<F>>, rounds: seq<seq<MatOpen<F>>>)
    returns (st: Reduced<F>)
    requires f.Laws() && RoundsReady(denoms, rounds) && Narrow(rounds, maxWidth)
    ensures st == ReduceRounds(f, alpha, denoms, rounds, |rounds|)
  {
    var powers := f.ShiftedPowers(f.one, alpha, maxWidth);
    forall i | 0 <= i < maxWidth ensures powers[i] == f.Pow(alpha, i)
        { f.ShiftedPowersAt(f.one, alpha, maxWidth, i); f.Unit(f.Pow(alpha, i)); }
    st := Fresh();
    for r := 0 to |rounds|
      invariant st == ReduceRounds(f, alpha, denoms, rounds, r)
    { st := ReduceRound(f, alpha, powers, denoms, st, rounds[r]); }
  }

  /** One round. */
  method ReduceRound<F(!new)>(
    f: Field<F>, alpha: F, powers: seq<F>, denoms: map<F, seq<F>>, before: Reduced<F>, mos: seq<MatOpen<F>>)
    returns (st: Reduced<F>)
    requires ReducedOk(before) && MatsReady(denoms, mos) && forall m :: 0 <= m < |mos| ==> mos[m].width <= |powers|
    requires forall i :: 0 <= i < |powers| ==> powers[i] == f.Pow(alpha, i)
    ensures st == ReduceMats(f, alpha, denoms, before, mos, |mos|)
  {
    st := before;
    for m := 0 to |mos|
      invariant st == ReduceMats(f, alpha, denoms, before, mos, m)
    { st := ReduceMatrix(f, alpha, powers, denoms, st, mos[m]); }
  }

  method ReduceMatrix<F(!new)>(
    f: Field<F>, alpha: F, powers: seq<F>, denoms: map<F, seq<F>>, st: Reduced<F>, mo: MatOpen<F>)
    returns (r: Reduced<F>)
    requires ReducedOk(st) && MatOk(mo) && Denominators(denoms, mo) && mo.width <= |powers|
    requires forall i :: 0 <= i < |powers| ==> powers[i] == f.Pow(alpha, i)
    ensures r == ReducePoints(f, alpha, denoms, EnsureHeight(f, st, mo.log), mo, |mo.opens|)
  {
    var start := EnsureHeight(f, st, mo.log);
    r := start;
    for p := 0 to |mo.opens|
      invariant r == ReducePoints(f, alpha, denoms, start, mo, p)
    { r := AccumulatePoint(f, alpha, powers, denoms[mo.opens[p].z], r, mo, mo.opens[p].ys); }
  }

  // ---------- which heights there are ----------

  /** No height above `top`, and the heights in `hs` are there. */
  ghost predicate Capped<F>(st: Reduced<F>, top: nat) {
    ReducedOk(st) && forall h :: 0 <= h < 32 && st.openings[h].Some? ==> h <= top
  }

  ghost predicate Keeps<F>(a: Reduced<F>, b: Reduced<F>) {
    ReducedOk(a) && ReducedOk(b) && forall h :: 0 <= h < 32 && a.openings[h].Some? ==> b.openings[h].Some?
  }

  lemma {:induction false} PointsHeights<F(!new)>(
    f: Field<F>, alpha: F, denoms: map<F, seq<F>>, st: Reduced<F>, mo: MatOpen<F>, n: nat, top: nat)
    requires Capped(st, top) && MatOk(mo) && Denominators(denoms, mo) && st.openings[mo.log].Some? && n <= |mo.opens|
    ensures var t := ReducePoints(f, alpha, denoms, st, mo, n); Capped(t, top) && Keeps(st, t)
  { if n > 0 { PointsHeights(f, alpha, denoms, st, mo, n - 1, top); } }

  ghost predicate LogsCapped<F>(mos: seq<MatOpen<F>>, top: nat) { forall m :: 0 <= m < |mos| ==> mos[m].log <= top }

  ghost predicate MatsReady<F>(denoms: map<F, seq<F>>, mos: seq<MatOpen<F>>) {
    forall m :: 0 <= m < |mos| ==> MatOk(mos[m]) && Denominators(denoms, mos[m])
  }

  /** The heights of the first n matrices are there. */
  ghost predicate HasLogs<F>(st: Reduced<F>, mos: seq<MatOpen<F>>, n: nat)
    requires n <= |mos|
  { ReducedOk(st) && forall m :: 0 <= m < n ==> mos[m].log < 32 && st.openings[mos[m].log].Some? }

  lemma {:induction false} EnsureHeights<F(!new)>(f: Field<F>, st: Reduced<F>, h: nat, top: nat)
    requires Capped(st, top) && h < 32 && h <= top
    ensures var t := EnsureHeight(f, st, h); Capped(t, top) && Keeps(st, t) && t.openings[h].Some?
  {}

  lemma {:induction false} LogsKept<F>(a: Reduced<F>, b: Reduced<F>, mos: seq<MatOpen<F>>, n: nat)
    requires n <= |mos| && HasLogs(a, mos, n) && Keeps(a, b)
    ensures HasLogs(b, mos, n)
  {}

  lemma {:induction false} KeepsOn<F>(a: Reduced<F>, b: Reduced<F>, c: Reduced<F>)
    requires Keeps(a, b) && Keeps(b, c)
    ensures Keeps(a, c)
  {}

  lemma {:induction false} MatsHeights<F(!new)>(
    f: Field<F>, alpha: F, denoms: map<F, seq<F>>, st: Reduced<F>, mos: seq<MatOpen<F>>, n: nat, top: nat)
    requires Capped(st, top) && n <= |mos| && MatsReady(denoms, mos) && LogsCapped(mos, top)
    ensures var t := ReduceMats(f, alpha, denoms, st, mos, n); Capped(t, top) && Keeps(st, t) && HasLogs(t, mos, n)
  {
    if n > 0 {
      var mo, before := mos[n - 1], ReduceMats(f, alpha, denoms, st, mos, n - 1);
      MatsHeights(f, alpha, denoms, st, mos, n - 1, top);
      EnsureHeights(f, before, mo.log, top);
      var there := EnsureHeight(f, before, mo.log);
      PointsHeights(f, alpha, denoms, there, mo, |mo.opens|, top);
      var after := ReducePoints(f, alpha, denoms, there, mo, |mo.opens|);
      KeepsOn(before, there, after); KeepsOn(st, before, after);
      LogsKept(before, after, mos, n - 1);
    }
  }

  /** Every height of the first n rounds is there. */
  ghost predicate HasRounds<F>(st: Reduced<F>, rounds: seq<seq<MatOpen<F>>>, n: nat)
    requires n <= |rounds|
  { forall r :: 0 <= r < n ==> HasLogs(st, rounds[r], |rounds[r]|) }

  lemma {:induction false} RoundsHeights<F(!new)>(
    f: Field<F>, alpha: F, denoms: map<F, seq<F>>, rounds: seq<seq<MatOpen<F>>>, n: nat, top: nat)
    requires RoundsReady(denoms, rounds) && n <= |rounds| && forall r :: 0 <= r < |rounds| ==>
        LogsCapped(rounds[r], top)
    ensures var t := ReduceRounds(f, alpha, denoms, rounds, n); Capped(t, top) && HasRounds(t, rounds, n)
  {
    if n > 0 {
      var before := ReduceRounds(f, alpha, denoms, rounds, n - 1);
      RoundsHeights(f, alpha, denoms, rounds, n - 1, top);
      MatsHeights(f, alpha, denoms, before, rounds[n - 1], |rounds[n - 1]|, top);
      var after := ReduceMats(f, alpha, denoms, before, rounds[n - 1], |rounds[n - 1]|);
      forall r | 0 <= r < n - 1 ensures HasLogs(after, rounds[r], |rounds[r]|)
          { LogsKept(before, after, rounds[r], |rounds[r]|); }
    }
  }

  lemma {:induction false} TallestIs<F>(input: Input<F>, top: nat, h: nat)
    requires top < h <= |input| && input[top].Some? && forall g :: top < g < |input| ==> input[g].None?
    ensures Tallest(input, h) == Some(top)
  { if h - 1 > top { TallestIs(input, top, h - 1); } }

  // ---------- the verifier ----------

  /** `ro` and `alpha_pow`, by log height. */
  datatype Running<F> = Running(ro: seq<F>, pow: seq<F>)

  ghost predicate RunningOk<F>(vs: Running<F>) { |vs.ro| == |vs.pow| == 32 }

  /** The opened row of a matrix, with its log height and its claims. */
  datatype RowOpen<F> = RowOpen(row: seq<F>, log: nat, opens: seq<PointOpen<F>>)

  /** `izip!` stops at the shorter of row and claim. */
  function Paired<F>(row: seq<F>, ys: seq<F>): (n: nat)
    ensures n <= |row| && n <= |ys| && (n == |row| || n == |ys|)
  { if |row| < |ys| then |row| else |ys| }

  /** The first n columns of one claim: ro += alpha_pow * (p(x) - p(z)) / (x - z); alpha_pow *= alpha. */
  function Columns<F(!new)>(f: Field<F>, alpha: F, ro: F, pow: F, row: seq<F>, ys: seq<F>, z: F, x: F, n: nat): (F, F)
    requires n <= |row| && n <= |ys|
  {
    if n == 0 then (ro, pow)
    else
      var (r, a) := Columns(f, alpha, ro, pow, row, ys, z, x, n - 1);
      (f.Add(r, f.Mul(a, f.Div(f.Add(f.Neg(ys[n - 1]), row[n - 1]), f.Add(f.Neg(z), x)))), f.Mul(a, alpha))
  }

  /** The point at which a query opens a matrix of log height h. */
  function QueryPoint<F(!new)>(T: TwoAdicField<F>, shift: F, top: nat, index: nat, h: nat): F
    requires h <= top
  { T.f.Mul(shift, T.f.Pow(T.Gen(h), BitRev(Shr(index, top - h), h))) }

  function CheckPoints<F(!new)>(
    T: TwoAdicField<F>, shift: F, alpha: F, top: nat, index: nat, vs: Running<F>, w: RowOpen<F>,
    n: nat): (r: Running<F>)
    requires RunningOk(vs) && w.log <= top && w.log < 32 && n <= |w.opens|
    ensures RunningOk(r)
  {
    if n == 0 then vs
    else
      var u, o := CheckPoints(T, shift, alpha, top, index, vs, w, n - 1), w.opens[n - 1];
      var (r, a) := Columns(T.f, alpha, u.ro[w.log], u.pow[w.log], w.row, o.ys, o.z,
          QueryPoint(T, shift, top, index, w.log), Paired(w.row, o.ys));
      Running(u.ro[w.log := r], u.pow[w.log := a])
  }

  function CheckMats<F(!new)>(
    T: TwoAdicField<F>, shift: F, alpha: F, top: nat, index: nat, vs: Running<F>, ws: seq<RowOpen<F>>,
    n: nat): (r: Running<F>)
    requires RunningOk(vs) && n <= |ws| && forall m :: 0 <= m < |ws| ==> ws[m].log <= top && ws[m].log < 32
    ensures RunningOk(r)
  {
    if n == 0 then vs
    else CheckPoints(T, shift, alpha, top, index, CheckMats(T, shift, alpha, top, index, vs, ws, n - 1), ws[n - 1],
         |ws[n - 1].opens|)
  }

  ghost predicate RowsOk<F>(rounds: seq<seq<RowOpen<F>>>, top: nat) {
    forall r, m :: 0 <= r < |rounds| && 0 <= m < |rounds[r]| ==> rounds[r][m].log <= top
  }

  function Ones<F(!new)>(f: Field<F>, n: nat): (r: seq<F>)
    ensures |r| == n && forall i :: 0 <= i < n ==> r[i] == f.one
  { if n == 0 then [] else Ones(f, n - 1) + [f.one] }

  function CheckRounds<F(!new)>(
    T: TwoAdicField<F>, shift: F, alpha: F, top: nat, index: nat, rounds: seq<seq<RowOpen<F>>>,
    n: nat): (r: Running<F>)
    requires RowsOk(rounds, top) && top < 32 && n <= |rounds|
    ensures RunningOk(r)
  {
    if n == 0 then Running(ZeroVector(T.f, 32), Ones(T.f, 32))
    else CheckMats(T, shift, alpha, top, index, CheckRounds(T, shift, alpha, top, index, rounds, n - 1),
         rounds[n - 1], |rounds[n - 1]|)
  }

  // ---------- they agree ----------

  /** One column: the sums grow by alpha^n (p - y). */
  lemma {:induction false} SumsGrow<F(!new)>(f: Field<F>, alpha: F, row: seq<F>, ys: seq<F>, n: nat)
    requires f.Laws() && n < |row| && n < |ys|
    ensures f.Sub(PowerSum(f, alpha, row, n + 1), PowerSum(f, alpha, ys, n + 1))
         == f.Add(f.Sub(PowerSum(f, alpha, row, n), PowerSum(f, alpha, ys, n)),
             f.Mul(f.Pow(alpha, n), f.Add(f.Neg(ys[n]), row[n])))
  {
    var a, p, y := f.Pow(alpha, n), row[n], ys[n];
    f.SubSwap(PowerSum(f, alpha, row, n), f.Mul(a, p), PowerSum(f, alpha, ys, n), f.Mul(a, y));
    f.DistribSub(a, p, y); f.AddComm(f.Neg(y), p);
  }

  /** Column by column is the batched form. */
  lemma {:induction false} ColumnsBatched<F(!new)>(
    f: Field<F>, alpha: F, ro: F, pow: F, row: seq<F>, ys: seq<F>, z: F, x: F, n: nat)
    requires f.Laws() && n <= |row| && n <= |ys|
    ensures Columns(f, alpha, ro, pow, row, ys, z, x, n)
         == (f.Add(ro, f.Mul(f.Mul(f.Inv(f.Sub(x, z)), pow),
             f.Sub(PowerSum(f, alpha, row, n), PowerSum(f, alpha, ys, n)))),
             f.Mul(pow, f.Pow(alpha, n)))
  {
    var i := f.Inv(f.Sub(x, z));
    var c := f.Mul(i, pow);
    f.AddComm(f.Neg(z), x);
    if n == 0 {
      f.Unit(f.zero); f.MulZero(c); f.Unit(ro); f.Unit(pow);
    } else {
      ColumnsBatched(f, alpha, ro, pow, row, ys, z, x, n - 1);
      SumsGrow(f, alpha, row, ys, n - 1);
      var s := f.Sub(PowerSum(f, alpha, row, n - 1), PowerSum(f, alpha, ys, n - 1));
      var a, d := f.Pow(alpha, n - 1), f.Add(f.Neg(ys[n - 1]), row[n - 1]);
      f.Distrib(c, s, f.Mul(a, d)); f.AddAssoc(ro, f.Mul(c, s), f.Mul(c, f.Mul(a, d)));
      f.MulComm(i, pow); f.MulSwap(pow, i, a, d); f.MulComm(i, d);
      f.MulAssoc(pow, a, alpha); f.MulComm(a, alpha);
    }
  }

  /** The verifier's state at an index is the prover's state at that index. */
  ghost predicate Agree<F(!new)>(f: Field<F>, alpha: F, st: Reduced<F>, vs: Running<F>, top: nat, index: nat) {
    && ReducedOk(st) && RunningOk(vs) && top < 32 && index < Pow2(top)
    && forall h: nat {:trigger AtIndex(h)} :: h <= top ==> AgreeAt(f, alpha, st, vs, top, index, h)
  }

  ghost predicate AgreeAt<F(!new)>(
    f: Field<F>, alpha: F, st: Reduced<F>, vs: Running<F>, top: nat, index: nat, h: nat)
    requires ReducedOk(st) && RunningOk(vs) && h <= top < 32
  {
    var j := Shr(index, top - h);
    && vs.pow[h] == f.Pow(alpha, st.num[h])
    && (st.openings[h].Some? ==> j < |st.openings[h].value|)
    && vs.ro[h] == if st.openings[h].None? then f.zero else st.openings[h].value[j]
  }

  /** The verifier's view of a matrix is the prover's matrix at the queried row. */
  ghost predicate SameClaim<F>(mo: MatOpen<F>, w: RowOpen<F>, top: nat, index: nat) {
    && MatOk(mo) && w.log == mo.log <= top && w.opens == mo.opens
    && Shr(index, top - w.log) < |mo.mat| && w.row == mo.mat[Shr(index, top - w.log)]
  }

  lemma {:induction false} EnsureAgrees<F(!new)>(
    f: Field<F>, alpha: F, st: Reduced<F>, vs: Running<F>, top: nat, index: nat, g: nat)
    requires f.Laws() && Agree(f, alpha, st, vs, top, index) && g <= top
    ensures Agree(f, alpha, EnsureHeight(f, st, g), vs, top, index) && EnsureHeight(f, st, g).openings[g].Some?
  {
    var t := EnsureHeight(f, st, g);
    forall h: nat | h <= top ensures AgreeAt(f, alpha, t, vs, top, index, h) {
      assert AtIndex(h);
      ShrBound(index, h, top - h);
    }
  }

  lemma {:induction false} PointAgrees<F(!new)>(
    T: TwoAdicField<F>, shift: F, alpha: F, inv: seq<F>, st: Reduced<F>, vs: Running<F>, top: nat, index: nat,
    mo: MatOpen<F>, w: RowOpen<F>, p: nat)
    requires T.Laws() && Agree(T.f, alpha, st, vs, top, index) && SameClaim(mo, w, top, index) && p < |mo.opens|
    requires st.openings[mo.log].Some? && Serves(T, shift, inv, mo.opens[p].z, mo.log)
    ensures var o := mo.opens[p];
      var (r, a) := Columns(T.f, alpha, vs.ro[w.log], vs.pow[w.log], w.row, o.ys, o.z,
          QueryPoint(T, shift, top, index, w.log), Paired(w.row, o.ys));
      Agree(T.f, alpha, ReducePoint(T.f, alpha, inv, st, mo, o.ys), Running(vs.ro[w.log := r], vs.pow[w.log := a]),
          top, index)
  {
    var f, g, o := T.f, mo.log, mo.opens[p];
    var j, x := Shr(index, top - g), QueryPoint(T, shift, top, index, g);
    assert AtIndex(g); assert AtIndex(j);
    ColumnsBatched(f, alpha, vs.ro[g], vs.pow[g], w.row, o.ys, o.z, x, |w.row|);
    NewEntriesAt(f, alpha, st.openings[g].value, inv, f.Pow(alpha, st.num[g]), mo.mat, o.ys, Pow2(g), j);
    f.PowAdd(alpha, st.num[g], mo.width);
    var t := ReducePoint(f, alpha, inv, st, mo, o.ys);
    var (r, a) := Columns(f, alpha, vs.ro[g], vs.pow[g], w.row, o.ys, o.z, x, |w.row|);
    var us := Running(vs.ro[g := r], vs.pow[g := a]);
    forall h: nat | h <= top ensures AgreeAt(f, alpha, t, us, top, index, h) { assert AtIndex(h); }
  }

  /** Every point of the matrix has inverse denominators that serve it. */
  ghost predicate MatServed<F(!new)>(T: TwoAdicField<F>, shift: F, denoms: map<F, seq<F>>, mo: MatOpen<F>) {
    forall p :: 0 <= p < |mo.opens| ==>
        mo.opens[p].z in denoms && Serves(T, shift, denoms[mo.opens[p].z], mo.opens[p].z, mo.log)
  }

  lemma {:induction false} ServedReady<F(!new)>(T: TwoAdicField<F>, shift: F, denoms: map<F, seq<F>>, mo: MatOpen<F>)
    requires MatServed(T, shift, denoms, mo)
    ensures Denominators(denoms, mo)
  {}

  lemma {:induction false} PointsAgree<F(!new)>(
    T: TwoAdicField<F>, shift: F, alpha: F, denoms: map<F, seq<F>>, st: Reduced<F>, vs: Running<F>, top: nat,
    index: nat, mo: MatOpen<F>, w: RowOpen<F>, n: nat)
    requires T.Laws() && Agree(T.f, alpha, st, vs, top, index) && SameClaim(mo, w, top, index) && n <= |mo.opens|
    requires st.openings[mo.log].Some? && MatServed(T, shift, denoms, mo) && Denominators(denoms, mo)
    ensures Agree(T.f, alpha, ReducePoints(T.f, alpha, denoms, st, mo, n),
        CheckPoints(T, shift, alpha, top, index, vs, w, n), top, index)
  {
    if n > 0 {
      PointsAgree(T, shift, alpha, denoms, st, vs, top, index, mo, w, n - 1);
      PointAgrees(T, shift, alpha, denoms[mo.opens[n - 1].z], ReducePoints(T.f, alpha, denoms, st, mo, n - 1),
                  CheckPoints(T, shift, alpha, top, index, vs, w, n - 1), top, index, mo, w, n - 1);
    }
  }

  ghost predicate SameClaims<F>(mos: seq<MatOpen<F>>, ws: seq<RowOpen<F>>, top: nat, index: nat) {
    |mos| == |ws| && forall m :: 0 <= m < |mos| ==> SameClaim(mos[m], ws[m], top, index)
  }

  ghost predicate MatsServed<F(!new)>(T: TwoAdicField<F>, shift: F, denoms: map<F, seq<F>>, mos: seq<MatOpen<F>>) {
    forall m :: 0 <= m < |mos| ==>
        MatOk(mos[m]) && MatServed(T, shift, denoms, mos[m]) && Denominators(denoms, mos[m])
  }

  lemma {:induction false} MatsAgree<F(!new)>(
    T: TwoAdicField<F>, shift: F, alpha: F, denoms: map<F, seq<F>>, st: Reduced<F>, vs: Running<F>, top: nat,
    index: nat,
    mos: seq<MatOpen<F>>, ws: seq<RowOpen<F>>, n: nat)
    requires T.Laws() && Agree(T.f, alpha, st, vs, top, index) && SameClaims(mos, ws, top, index) && n <= |mos|
        && MatsServed(T, shift, denoms, mos)
    ensures Agree(T.f, alpha, ReduceMats(T.f, alpha, denoms, st, mos, n),
        CheckMats(T, shift, alpha, top, index, vs, ws, n), top, index)
  {
    if n > 0 {
      MatsAgree(T, shift, alpha, denoms, st, vs, top, index, mos, ws, n - 1);
      var mo, w := mos[n - 1], ws[n - 1];
      var s, v := ReduceMats(T.f, alpha, denoms, st, mos, n - 1),
          CheckMats(T, shift, alpha, top, index, vs, ws, n - 1);
      EnsureAgrees(T.f, alpha, s, v, top, index, mo.log);
      PointsAgree(T, shift, alpha, denoms, EnsureHeight(T.f, s, mo.log), v, top, index, mo, w, |mo.opens|);
    }
  }

  ghost predicate SameRounds<F>(rounds: seq<seq<MatOpen<F>>>, rows: seq<seq<RowOpen<F>>>, top: nat, index: nat) {
    |rounds| == |rows| && forall r :: 0 <= r < |rounds| ==> SameClaims(rounds[r], rows[r], top, index)
  }

  ghost predicate RoundsServed<F(!new)>(
    T: TwoAdicField<F>, shift: F, denoms: map<F, seq<F>>, rounds: seq<seq<MatOpen<F>>>) {
    forall r :: 0 <= r < |rounds| ==> MatsServed(T, shift, denoms, rounds[r])
  }

  lemma {:induction false} StartAgrees<F(!new)>(f: Field<F>, alpha: F, top: nat, index: nat)
    requires f.Laws() && top < 32 && index < Pow2(top)
    ensures Agree(f, alpha, Fresh(), Running(ZeroVector(f, 32), Ones(f, 32)), top, index)
  {
    forall h: nat | h <= top
        ensures AgreeAt(f, alpha, Fresh(), Running(ZeroVector(f, 32), Ones(f, 32)), top, index, h) {
      assert f.Pow(alpha, 0) == f.one;
    }
  }

  /** Batched openings agree: after any number of rounds, matrices, columns and points, the verifier's
      reduced opening at every height is the prover's vector at the queried row. */
  lemma {:induction false} RoundsAgree<F(!new)>(
    T: TwoAdicField<F>, shift: F, alpha: F, denoms: map<F, seq<F>>, top: nat, index: nat,
    rounds: seq<seq<MatOpen<F>>>, rows: seq<seq<RowOpen<F>>>, n: nat)
    requires T.Laws() && top < 32 && index < Pow2(top) && n <= |rounds|
    requires SameRounds(rounds, rows, top, index) && RoundsServed(T, shift, denoms, rounds)
    ensures Agree(T.f, alpha, ReduceRounds(T.f, alpha, denoms, rounds, n),
        CheckRounds(T, shift, alpha, top, index, rows, n), top, index)
  {
    if n == 0 { StartAgrees(T.f, alpha, top, index); }
    else {
      RoundsAgree(T, shift, alpha, denoms, top, index, rounds, rows, n - 1);
      MatsAgree(T, shift, alpha, denoms, ReduceRounds(T.f, alpha, denoms, rounds, n - 1),
                CheckRounds(T, shift, alpha, top, index, rows, n - 1),
                top, index, rounds[n - 1], rows[n - 1], |rounds[n - 1]|);
    }
  }
}
