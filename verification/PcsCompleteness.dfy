/** What `open` produces for committed low-degree extensions, `verify` accepts. */
module PcsCompleteness {
  import opened Basics
  import opened Bits
  import opened Fields
  import opened TwoAdic
  import opened FriFold
  import opened Mmcs
  import opened Transcripts
  import opened Fri
  import opened FriCompleteness
  import opened Barycentric
  import opened InverseDenominators
  import opened PcsReduce
  import opened PcsLowDegree
  import opened Pcs
  import opened PcsVerify

  // ---------- the opened values are right ----------

  /** The rows of the matrix are the values of its column polynomials on the shifted domain, in
      bit-reversed order. */
  ghost predicate Extends<F(!new), C(!new), P, D(!new), Q(!new)>(
    pcs: Params<F, C, P, D, Q>, m: Matrix<F>, polys: seq<seq<F>>)
    requires MatShape(pcs, m)
  {
    && |polys| == WidthOf(m) && ShortPolys(polys, Pow2(LogHeight(m) - pcs.fri.logBlowup))
    && forall j: nat {:trigger AtIndex(j)} :: j < |m| ==>
        ValuesAt(pcs.T.f, polys, pcs.T.f.Mul(pcs.shift, pcs.T.Point(LogHeight(m), j)), m[j])
  }

  /** The first rows of the extension, put in natural order, run through the small coset. */
  lemma {:induction false} LowPoint<F(!new)>(T: TwoAdicField<F>, shift: F, k: nat, log: nat, i: nat)
    requires T.Laws() && k <= log <= T.bits && i < Pow2(k)
    ensures T.f.Mul(shift, T.Point(log, BitRev(i, k))) == CosetAt(T, k, shift, i)
  {
    PointTruncates(T, k, log, BitRev(i, k));
    BitRevInvolution(i, k);
  }

  lemma {:induction false} FlipInverse<F(!new)>(f: Field<F>, x: F, z: F)
    requires f.Laws() && f.Sub(x, z) != f.zero
    ensures f.Sub(z, x) != f.zero && f.Neg(f.Inv(f.Sub(x, z))) == f.Inv(f.Sub(z, x))
  { f.NegAdd(x, z); f.InverseNeg(f.Sub(x, z)); }

  lemma {:induction false} OffTheCoset<F(!new)>(T: TwoAdicField<F>, shift: F, k: nat, log: nat, z: F, i: nat)
    requires T.Laws() && k <= log <= T.bits && i < Pow2(k) && OffDomain(T, shift, log, z)
    ensures T.f.Sub(CosetAt(T, k, shift, i), z) != T.f.zero
  {
    LowPoint(T, shift, k, log, i);
    Pow2Monotone(k, log);
    assert AtIndex(BitRev(i, k));
  }

  lemma {:induction false} DiffInverses<F(!new)>(T: TwoAdicField<F>, shift: F, k: nat, log: nat, inv: seq<F>, z: F)
    requires T.Laws() && k <= log <= T.bits && Serves(T, shift, inv, z, log) && OffDomain(T, shift, log, z)
    ensures Pow2(k) <= |inv| && DiffInvsAre(T, k, shift, z, NegatedInverses(T.f, inv, k, Pow2(k)))
        && OffCoset(T, k, shift, z)
  {
    Pow2Monotone(k, log);
    var d := NegatedInverses(T.f, inv, k, Pow2(k));
    forall i: nat | i < Pow2(k)
      ensures d[i] == T.f.Inv(T.f.Sub(z, CosetAt(T, k, shift, i))) && T.f.Sub(z, CosetAt(T, k, shift, i)) != T.f.zero
    {
      NegatedInversesAt(T.f, inv, k, Pow2(k), i);
      assert AtIndex(BitRev(i, k));
      LowPoint(T, shift, k, log, i);
      OffTheCoset(T, shift, k, log, z, i);
      FlipInverse(T.f, CosetAt(T, k, shift, i), z);
    }
  }

  lemma {:induction false} LowColumn<F(!new), C(!new), P, D(!new), Q(!new)>(
    pcs: Params<F, C, P, D, Q>, m: Matrix<F>, polys: seq<seq<F>>, c: nat)
    requires pcs.T.Laws() && MatShape(pcs, m) && Extends(pcs, m, polys) && c < WidthOf(m)
    ensures var k := LogHeight(m) - pcs.fri.logBlowup;
      Pow2(k) <= |m| && ColumnIs(pcs.T, k, BitReversed(m[..Pow2(k)], k), pcs.shift, c, polys[c])
  {
    var k := LogHeight(m) - pcs.fri.logBlowup;
    Pow2Monotone(k, LogHeight(m));
    var low := m[..Pow2(k)];
    forall i: nat | i < Pow2(k)
      ensures c < |BitReversed(low, k)[i]|
          && BitReversed(low, k)[i][c] == Eval(pcs.T.f, polys[c], CosetAt(pcs.T, k, pcs.shift, i))
    {
      BitReversedAt(low, k, i);
      LowPoint(pcs.T, pcs.shift, k, LogHeight(m), i);
      assert AtIndex(BitRev(i, k)); assert AtIndex(c);
    }
  }

  /** The values that `open` reports are the values of the column polynomials. */
  lemma {:induction false} OpenedCorrectly<F(!new), C(!new), P, D(!new), Q(!new)>(
    pcs: Params<F, C, P, D, Q>, m: Matrix<F>, polys: seq<seq<F>>, inv: seq<F>, z: F)
    requires pcs.T.Laws() && pcs.shift != pcs.T.f.zero && MatShape(pcs, m) && Extends(pcs, m, polys)
    requires Serves(pcs.T, pcs.shift, inv, z, LogHeight(m)) && OffDomain(pcs.T, pcs.shift, LogHeight(m), z)
    ensures ValuesAt(pcs.T.f, polys, z, ValuesAtPoint(pcs.T, pcs.shift, pcs.fri.logBlowup, m, inv, z))
  {
    var k := LogHeight(m) - pcs.fri.logBlowup;
    var ys := ValuesAtPoint(pcs.T, pcs.shift, pcs.fri.logBlowup, m, inv, z);
    DiffInverses(pcs.T, pcs.shift, k, LogHeight(m), inv, z);
    forall c: nat | c < |ys| ensures ys[c] == Eval(pcs.T.f, polys[c], z) {
      LowColumn(pcs, m, polys, c);
      BitReversedRows(m[..Pow2(k)], k, WidthOf(m));
      InterpolationCorrect(pcs.T, k, BitReversed(m[..Pow2(k)], k), pcs.shift, z,
          NegatedInverses(pcs.T.f, inv, k, Pow2(k)), WidthOf(m), c, polys[c]);
    }
  }

  // ---------- the claims are honest and served ----------

  ghost predicate AllExtend<F(!new), C(!new), P, D(!new), Q(!new)>(
    pcs: Params<F, C, P, D, Q>, rounds: seq<Round<F>>, polys: seq<seq<seq<seq<F>>>>)
    requires Shape(pcs, rounds)
  {
    && |polys| == |rounds|
    && (forall r :: 0 <= r < |rounds| ==> |polys[r]| == |rounds[r].mats|)
    && forall r, m :: 0 <= r < |rounds| && 0 <= m < |rounds[r].mats| ==> Extends(pcs, rounds[r].mats[m], polys[r][m])
  }

  /** Everything completeness needs of one matrix and its points. */
  ghost predicate MatReady<F(!new), C(!new), P, D(!new), Q(!new)>(
    pcs: Params<F, C, P, D, Q>, denoms: map<F, seq<F>>, m: Matrix<F>, points: seq<F>, polys: seq<seq<F>>) {
    && MatShape(pcs, m) && Extends(pcs, m, polys)
    && forall p :: 0 <= p < |points| ==>
        points[p] in denoms && Serves(pcs.T, pcs.shift, denoms[points[p]], points[p], LogHeight(m))
                                         && OffDomain(pcs.T, pcs.shift, LogHeight(m), points[p])
  }

  lemma {:induction false} MatHonest<F(!new), C(!new), P, D(!new), Q(!new)>(
    pcs: Params<F, C, P, D, Q>, denoms: map<F, seq<F>>, m: Matrix<F>, points: seq<F>, polys: seq<seq<F>>)
    requires pcs.T.Laws() && pcs.shift != pcs.T.f.zero && MatReady(pcs, denoms, m, points, polys)
    ensures PointsReady(denoms, m, points)
    ensures var mo := ClaimOf(pcs, denoms, m, points);
        HonestMat(pcs.T, pcs.shift, pcs.fri.logBlowup, mo, polys) && MatServed(pcs.T, pcs.shift, denoms, mo)
  {
    assert PointsReady(denoms, m, points);
    var mo := ClaimOf(pcs, denoms, m, points);
    forall p | 0 <= p < |points| ensures ValuesAt(pcs.T.f, polys, mo.opens[p].z, mo.opens[p].ys) {
      OpenedCorrectly(pcs, m, polys, denoms[points[p]], points[p]);
    }
    forall j: nat | j < |m|
        ensures ValuesAt(pcs.T.f, polys, pcs.T.f.Mul(pcs.shift, pcs.T.Point(mo.log, j)), mo.mat[j])
        { assert AtIndex(j); }
  }

  lemma {:induction false} MatIsReady<F(!new), C(!new), P, D(!new), Q(!new)>(
    pcs: Params<F, C, P, D, Q>, rounds: seq<Round<F>>, polys: seq<seq<seq<seq<F>>>>, r: nat, m: nat)
    requires Openable(pcs, rounds) && AllExtend(pcs, rounds, polys) && r < |rounds| && m < |rounds[r].mats|
    ensures MatReady(pcs, Denoms(pcs, rounds), rounds[r].mats[m], rounds[r].points[m], polys[r][m])
  {
    DimsShape(pcs, rounds);
    var points, denoms := rounds[r].points[m], Denoms(pcs, rounds);
    assert MatShape(pcs, rounds[r].mats[m]);
    forall p | 0 <= p < |points|
      ensures points[p] in denoms
          && Serves(pcs.T, pcs.shift, denoms[points[p]], points[p], LogHeight(rounds[r].mats[m]))
              && OffDomain(pcs.T, pcs.shift, LogHeight(rounds[r].mats[m]), points[p])
    { DenomsServe(pcs.T, pcs.shift, DimsOf(rounds), r, m, p); }
  }

  /** The claims of all rounds, as the reduction sees them. */
  lemma {:induction false} ClaimsHonest<F(!new), C(!new), P, D(!new), Q(!new)>(
    pcs: Params<F, C, P, D, Q>, rounds: seq<Round<F>>, polys: seq<seq<seq<seq<F>>>>, r: nat)
    requires Openable(pcs, rounds) && AllExtend(pcs, rounds, polys) && pcs.shift != pcs.T.f.zero && r < |rounds|
    requires AllReady(Denoms(pcs, rounds), rounds)
    ensures var mos := ClaimsOf(pcs, Denoms(pcs, rounds), rounds[r], |rounds[r].mats|);
      HonestMats(pcs.T, pcs.shift, pcs.fri.logBlowup, TopLog(rounds), mos, polys[r])
          && MatsServed(pcs.T, pcs.shift, Denoms(pcs, rounds), mos)
  {
    var denoms := Denoms(pcs, rounds);
    var mos := ClaimsOf(pcs, denoms, rounds[r], |rounds[r].mats|);
    RoundBelowTop(rounds, r);
    forall m | 0 <= m < |mos|
      ensures HonestMat(pcs.T, pcs.shift, pcs.fri.logBlowup, mos[m], polys[r][m]) && mos[m].log <= TopLog(rounds)
              && MatServed(pcs.T, pcs.shift, denoms, mos[m]) && Denominators(denoms, mos[m])
    {
      MatIsReady(pcs, rounds, polys, r, m);
      MatHonest(pcs, denoms, rounds[r].mats[m], rounds[r].points[m], polys[r][m]);
      ClaimsAt(pcs, denoms, rounds[r], |rounds[r].mats|, m);
      MatBelowRound(rounds[r].mats, m);
      ServedReady(pcs.T, pcs.shift, denoms, mos[m]);
    }
  }

  lemma {:induction false} AllHonest<F(!new), C(!new), P, D(!new), Q(!new)>(
    pcs: Params<F, C, P, D, Q>, rounds: seq<Round<F>>, polys: seq<seq<seq<seq<F>>>>)
    requires Openable(pcs, rounds) && AllExtend(pcs, rounds, polys) && pcs.shift != pcs.T.f.zero
    requires AllReady(Denoms(pcs, rounds), rounds)
    ensures var denoms := Denoms(pcs, rounds); var claims := AllClaims(pcs, denoms, rounds, |rounds|);
      HonestRounds(pcs.T, pcs.shift, pcs.fri.logBlowup, TopLog(rounds), claims, polys)
          && RoundsServed(pcs.T, pcs.shift, denoms, claims)
  {
    var denoms := Denoms(pcs, rounds);
    var claims := AllClaims(pcs, denoms, rounds, |rounds|);
    forall r | 0 <= r < |claims|
      ensures HonestMats(pcs.T, pcs.shift, pcs.fri.logBlowup, TopLog(rounds), claims[r], polys[r])
          && MatsServed(pcs.T, pcs.shift, denoms, claims[r])
    {
      AllClaimsAt(pcs, denoms, rounds, |rounds|, r);
      ClaimsHonest(pcs, rounds, polys, r);
    }
  }

  // ---------- the verifier's view ----------

  function ClaimedOf<F>(mos: seq<MatOpen<F>>, logBlowup: nat, n: nat): (r: seq<Claimed<F>>)
    requires n <= |mos| && forall m :: 0 <= m < |mos| ==> logBlowup <= mos[m].log
    ensures |r| == n
  {
    if n == 0 then [] else ClaimedOf(mos, logBlowup, n - 1) + [Claimed(mos[n - 1].log - logBlowup, mos[n - 1].opens)]
  }

  lemma {:induction false} ClaimedAt<F>(mos: seq<MatOpen<F>>, logBlowup: nat, n: nat, m: nat)
    requires m < n <= |mos| && forall m :: 0 <= m < |mos| ==> logBlowup <= mos[m].log
    ensures ClaimedOf(mos, logBlowup, n)[m] == Claimed(mos[m].log - logBlowup, mos[m].opens)
  { if m < n - 1 { ClaimedAt(mos, logBlowup, n - 1, m); } }

  ghost predicate LogsAbove<F>(rounds: seq<seq<MatOpen<F>>>, logBlowup: nat) {
    forall r :: 0 <= r < |rounds| ==> forall m :: 0 <= m < |rounds[r]| ==> logBlowup <= rounds[r][m].log
  }

  /** What the verifier is given: the commitments, the domains and the opened values. */
  function VerifierView<F(!new), C(!new), P, D(!new), Q(!new)>(
    pcs: Params<F, C, P, D, Q>, rounds: seq<Round<F>>, claims: seq<seq<MatOpen<F>>>,
    n: nat): (r: seq<VerifierRound<F, D>>)
    requires n <= |rounds| && n <= |claims| && LogsAbove(claims, pcs.fri.logBlowup)
    ensures |r| == n
  {
    if n == 0 then []
    else VerifierView(pcs, rounds, claims, n - 1)
         + [VerifierRound(pcs.mmcs.Commit(rounds[n - 1].mats),
             ClaimedOf(claims[n - 1], pcs.fri.logBlowup, |claims[n - 1]|))]
  }

  lemma {:induction false} ViewAt<F(!new), C(!new), P, D(!new), Q(!new)>(
    pcs: Params<F, C, P, D, Q>, rounds: seq<Round<F>>, claims: seq<seq<MatOpen<F>>>, n: nat, r: nat)
    requires r < n <= |rounds| && n <= |claims| && LogsAbove(claims, pcs.fri.logBlowup)
    ensures VerifierView(pcs, rounds, claims, n)[r]
        == VerifierRound(pcs.mmcs.Commit(rounds[r].mats), ClaimedOf(claims[r], pcs.fri.logBlowup, |claims[r]|))
  { if r < n - 1 { ViewAt(pcs, rounds, claims, n - 1, r); } }

  lemma {:induction false} ClaimsAbove<F(!new), C(!new), P, D(!new), Q(!new)>(
    pcs: Params<F, C, P, D, Q>, denoms: map<F, seq<F>>, rounds: seq<Round<F>>)
    requires Shape(pcs, rounds) && AllReady(denoms, rounds)
    ensures LogsAbove(AllClaims(pcs, denoms, rounds, |rounds|), pcs.fri.logBlowup)
  {
    var claims: seq<seq<MatOpen<F>>> := AllClaims(pcs, denoms, rounds, |rounds|);
    forall r, m | 0 <= r < |claims| && 0 <= m < |claims[r]| ensures pcs.fri.logBlowup <= claims[r][m].log {
      AllClaimsAt(pcs, denoms, rounds, |rounds|, r);
      ClaimsAt(pcs, denoms, rounds[r], |rounds[r].mats|, m);
      assert MatShape(pcs, rounds[r].mats[m]);
    }
  }

  lemma {:induction false} SameOpens<F>(mos: seq<MatOpen<F>>, logBlowup: nat)
    requires forall m :: 0 <= m < |mos| ==> logBlowup <= mos[m].log
    ensures ClaimedOpens(ClaimedOf(mos, logBlowup, |mos|)) == OpensIn(mos)
  {
    var claimed := ClaimedOf(mos, logBlowup, |mos|);
    forall m | 0 <= m < |mos| ensures ClaimedOpens(claimed)[m] == OpensIn(mos)[m]
        { ClaimedAt(mos, logBlowup, |mos|, m); }
  }

  /** Both sides show the challenger the same values. */
  lemma {:induction false} SameValues<F(!new), C(!new), P, D(!new), Q(!new)>(
    pcs: Params<F, C, P, D, Q>, rounds: seq<Round<F>>, claims: seq<seq<MatOpen<F>>>)
    requires |rounds| == |claims| && LogsAbove(claims, pcs.fri.logBlowup)
    ensures ClaimedValues(VerifierView(pcs, rounds, claims, |rounds|)) == ValuesIn(claims)
  {
    var view := VerifierView(pcs, rounds, claims, |rounds|);
    forall r | 0 <= r < |rounds| ensures ClaimedOpens(view[r].mats) == OpensIn(claims[r]) {
      ViewAt(pcs, rounds, claims, |rounds|, r);
      SameOpens(claims[r], pcs.fri.logBlowup);
    }
  }

  // ---------- one query ----------

  /** The rows opened at a query, as the verifier pairs them with the claims of one round. */
  function RowsAt<F(!new), C(!new), P, D(!new), Q(!new)>(
    pcs: Params<F, C, P, D, Q>, round: Round<F>, mos: seq<MatOpen<F>>, i: nat): (r: seq<RowOpen<F>>)
    requires RoundShape(pcs, round) && |mos| == |round.mats| && i < Pow2(RoundLog(round.mats))
    requires forall m :: 0 <= m < |mos| ==> pcs.fri.logBlowup <= mos[m].log
    ensures |r| == |mos|
  {
    RoundWellShaped(pcs, round, i);
    RowOpens(OpenRows(round.mats, i), ClaimedOf(mos, pcs.fri.logBlowup, |mos|), pcs.fri.logBlowup, |mos|)
  }

  /** A row opened through the round's index is the matrix's row at its own reduced index. */
  lemma {:induction false} RowIndex(index: nat, top: nat, round: nat, log: nat)
    requires log <= round <= top
    ensures Shr(Shr(index, top - round), round - log) == Shr(index, top - log)
  { ShrShr(index, top - round, round - log); }

  /** The row of one matrix in a round's opening. */
  lemma {:induction false} RoundRow<F(!new), C(!new), P, D(!new), Q(!new)>(
    pcs: Params<F, C, P, D, Q>, round: Round<F>, i: nat, m: nat)
    requires RoundShape(pcs, round) && i < Pow2(RoundLog(round.mats)) && m < |round.mats|
        && WellShaped(Heights(round.mats)) && InRange(Heights(round.mats), i)
    ensures LogHeight(round.mats[m]) <= RoundLog(round.mats)
    ensures var j := Shr(i, RoundLog(round.mats) - LogHeight(round.mats[m]));
      j < |round.mats[m]| && OpenRows(round.mats, i)[m] == round.mats[m][j]
  {
    MatBelowRound(round.mats, m);
    OpenRowsAt(round.mats, i, m);
  }

  lemma {:induction false} RowIs<F(!new), C(!new), P, D(!new), Q(!new)>(
    pcs: Params<F, C, P, D, Q>, round: Round<F>, mos: seq<MatOpen<F>>, i: nat, m: nat)
    requires RoundShape(pcs, round) && |mos| == |round.mats| && i < Pow2(RoundLog(round.mats)) && m < |mos|
    requires WellShaped(Heights(round.mats)) && InRange(Heights(round.mats), i)
    requires forall l :: 0 <= l < |mos| ==> pcs.fri.logBlowup <= mos[l].log
    ensures RowsAt(pcs, round, mos, i)[m] == RowOpen(OpenRows(round.mats, i)[m], mos[m].log, mos[m].opens)
  {
    RowOpensAt(OpenRows(round.mats, i), ClaimedOf(mos, pcs.fri.logBlowup, |mos|), pcs.fri.logBlowup, |mos|, m);
    ClaimedAt(mos, pcs.fri.logBlowup, |mos|, m);
  }

  lemma {:induction false} RowMatches<F(!new), C(!new), P, D(!new), Q(!new)>(
    pcs: Params<F, C, P, D, Q>, round: Round<F>, mos: seq<MatOpen<F>>, top: nat, index: nat, i: nat, m: nat)
    requires RoundShape(pcs, round) && RoundLog(round.mats) <= top && |mos| == |round.mats| && m < |mos|
    requires i == Shr(index, top - RoundLog(round.mats)) < Pow2(RoundLog(round.mats))
    requires forall l :: 0 <= l < |mos| ==> pcs.fri.logBlowup <= mos[l].log
    requires MatOk(mos[m]) && mos[m].mat == round.mats[m] && mos[m].log == LogHeight(round.mats[m])
    ensures SameClaim(mos[m], RowsAt(pcs, round, mos, i)[m], top, index)
  {
    RoundWellShaped(pcs, round, i);
    RowIs(pcs, round, mos, i, m);
    RoundRow(pcs, round, i, m);
    RowIndex(index, top, RoundLog(round.mats), LogHeight(round.mats[m]));
  }

  lemma {:induction false} RoundIndexIs<F>(rounds: seq<Round<F>>, index: nat, r: nat)
    requires r < |rounds| && index < Pow2(TopLog(rounds))
    ensures RoundLog(rounds[r].mats) <= TopLog(rounds)
    ensures RoundIndex(rounds, index, r)
        == Shr(index, TopLog(rounds) - RoundLog(rounds[r].mats)) < Pow2(RoundLog(rounds[r].mats))
  { RoundBelowTop(rounds, r); }

  /** The claims of a round are about points off the domains of their matrices. */
  ghost predicate ClaimsOff<F(!new)>(T: TwoAdicField<F>, shift: F, mos: seq<MatOpen<F>>) {
    forall m, p :: 0 <= m < |mos| && 0 <= p < |mos[m].opens| ==> OffDomain(T, shift, mos[m].log, mos[m].opens[p].z)
  }

  /** What the claims of a round keep of its matrices. */
  ghost predicate ClaimsMatch<F(!new), C(!new), P, D(!new), Q(!new)>(
    pcs: Params<F, C, P, D, Q>, round: Round<F>, mos: seq<MatOpen<F>>) {
    && RoundShape(pcs, round) && |mos| == |round.mats|
    && (forall m :: 0 <= m < |mos| ==> pcs.fri.logBlowup <= mos[m].log)
    && (forall m :: 0 <= m < |mos| ==>
        MatOk(mos[m]) && mos[m].mat == round.mats[m] && mos[m].log == LogHeight(round.mats[m]))
    && ClaimsOff(pcs.T, pcs.shift, mos)
  }

  /** The points of a round are off the domains of their matrices. */
  ghost predicate RoundOff<F(!new), C(!new), P, D(!new), Q(!new)>(pcs: Params<F, C, P, D, Q>, round: Round<F>)
    requires |round.points| == |round.mats|
  {
    forall m, p :: 0 <= m < |round.mats| && 0 <= p < |round.points[m]| ==>
      OffDomain(pcs.T, pcs.shift, LogHeight(round.mats[m]), round.points[m][p])
  }

  lemma {:induction false} ClaimsDoMatch<F(!new), C(!new), P, D(!new), Q(!new)>(
    pcs: Params<F, C, P, D, Q>, denoms: map<F, seq<F>>, round: Round<F>)
    requires RoundShape(pcs, round) && RoundReady(denoms, round) && RoundOff(pcs, round)
    ensures ClaimsMatch(pcs, round, ClaimsOf(pcs, denoms, round, |round.mats|))
  {
    var mos := ClaimsOf(pcs, denoms, round, |round.mats|);
    forall m | 0 <= m < |mos| ensures pcs.fri.logBlowup <= mos[m].log && MatOk(mos[m]) && mos[m].mat == round.mats[m]
        && mos[m].log == LogHeight(round.mats[m]) {
      ClaimsAt(pcs, denoms, round, |round.mats|, m);
      assert MatShape(pcs, round.mats[m]);
    }
    forall m, p | 0 <= m < |mos| && 0 <= p < |mos[m].opens|
        ensures OffDomain(pcs.T, pcs.shift, mos[m].log, mos[m].opens[p].z)
    { ClaimsAt(pcs, denoms, round, |round.mats|, m); }
  }

  lemma {:induction false} RowsMatch<F(!new), C(!new), P, D(!new), Q(!new)>(
    pcs: Params<F, C, P, D, Q>, round: Round<F>, mos: seq<MatOpen<F>>, top: nat, index: nat, i: nat)
    requires ClaimsMatch(pcs, round, mos) && RoundLog(round.mats) <= top
        && i == Shr(index, top - RoundLog(round.mats)) < Pow2(RoundLog(round.mats))
    ensures SameClaims(mos, RowsAt(pcs, round, mos, i), top, index)
  {
    var ws := RowsAt(pcs, round, mos, i);
    forall m | 0 <= m < |mos| ensures SameClaim(mos[m], ws[m], top, index)
        { RowMatches(pcs, round, mos, top, index, i, m); }
  }

  /** The verifier reconstructs the heights of the committed matrices. */
  lemma {:induction false} HeightsMatch<F(!new), C(!new), P, D(!new), Q(!new)>(
    pcs: Params<F, C, P, D, Q>, round: Round<F>, mos: seq<MatOpen<F>>, top: nat)
    requires RoundShape(pcs, round) && RoundLog(round.mats) <= top && |mos| == |round.mats|
    requires forall m :: 0 <= m < |mos| ==> mos[m].log == LogHeight(round.mats[m]) && pcs.fri.logBlowup <= mos[m].log
    ensures var claimed := ClaimedOf(mos, pcs.fri.logBlowup, |mos|);
      Fits(claimed, pcs.fri.logBlowup, top) && BatchHeights(claimed, pcs.fri.logBlowup) == Heights(round.mats)
  {
    var b, claimed := pcs.fri.logBlowup, ClaimedOf(mos, pcs.fri.logBlowup, |mos|);
    forall m | 0 <= m < |mos| ensures claimed[m].log + b <= top
        && BatchHeights(claimed, b)[m] == Heights(round.mats)[m] {
      ClaimedAt(mos, b, |mos|, m);
      MatBelowRound(round.mats, m);
      BatchHeightsAt(claimed, b, m);
      assert MatShape(pcs, round.mats[m]);
    }
  }

  /** The query point of a matrix is on its domain, so no claimed point equals it. */
  lemma {:induction false} QueryOff<F(!new)>(
    T: TwoAdicField<F>, shift: F, top: nat, index: nat, round: nat, h: nat, z: F)
    requires T.f.Laws() && h <= round <= top && Shr(index, top - round) < Pow2(round) && OffDomain(T, shift, h, z)
    ensures T.f.Add(T.f.Neg(z), QueryPoint(T, shift, top, index, h)) != T.f.zero
  {
    var j := Shr(index, top - h);
    RowIndex(index, top, round, h);
    ShrBound(Shr(index, top - round), h, round - h);
    assert AtIndex(j);
    T.f.AddComm(T.f.Neg(z), QueryPoint(T, shift, top, index, h));
  }

  /** So the verifier divides by nothing that is zero. */
  lemma {:induction false} HonestDivisible<F(!new), C(!new), P, D(!new), Q(!new)>(
    pcs: Params<F, C, P, D, Q>, round: Round<F>, mos: seq<MatOpen<F>>, top: nat, index: nat, rows: seq<seq<F>>,
    claimed: seq<Claimed<F>>, n: nat)
    requires pcs.T.Laws() && ClaimsMatch(pcs, round, mos) && RoundLog(round.mats) <= top
        && Shr(index, top - RoundLog(round.mats)) < Pow2(RoundLog(round.mats))
    requires claimed == ClaimedOf(mos, pcs.fri.logBlowup, |mos|) && Fits(claimed, pcs.fri.logBlowup, top)
        && n <= |rows| && n <= |mos|
    ensures Divisible(pcs.T, pcs.shift, pcs.fri.logBlowup, top, index, rows, claimed, n)
  {
    var T, shift, b := pcs.T, pcs.shift, pcs.fri.logBlowup;
    forall m, p | 0 <= m < n && 0 <= p < |claimed[m].opens|
      ensures T.f.Add(T.f.Neg(claimed[m].opens[p].z),
          QueryPoint(T, shift, top, index, claimed[m].log + b)) != T.f.zero
    {
      ClaimedAt(mos, b, |mos|, m);
      ClaimOff(pcs, round, mos, top, index, m, p);
    }
  }

  lemma {:induction false} ClaimOff<F(!new), C(!new), P, D(!new), Q(!new)>(
    pcs: Params<F, C, P, D, Q>, round: Round<F>, mos: seq<MatOpen<F>>, top: nat, index: nat, m: nat, p: nat)
    requires pcs.T.Laws() && ClaimsMatch(pcs, round, mos) && RoundLog(round.mats) <= top
        && Shr(index, top - RoundLog(round.mats)) < Pow2(RoundLog(round.mats))
    requires m < |mos| && p < |mos[m].opens|
    ensures mos[m].log <= top
    ensures pcs.T.f.Add(pcs.T.f.Neg(mos[m].opens[p].z),
        QueryPoint(pcs.T, pcs.shift, top, index, mos[m].log)) != pcs.T.f.zero
  {
    MatBelowRound(round.mats, m);
    QueryOff(pcs.T, pcs.shift, top, index, RoundLog(round.mats), mos[m].log, mos[m].opens[p].z);
  }

  lemma {:induction false} BatchIndexIs<F(!new), C(!new), P, D(!new), Q(!new)>(
    pcs: Params<F, C, P, D, Q>, round: Round<F>, top: nat, index: nat, claimed: seq<Claimed<F>>)
    requires RoundLog(round.mats) <= top && Fits(claimed, pcs.fri.logBlowup, top)
    requires BatchHeights(claimed, pcs.fri.logBlowup) == Heights(round.mats)
    ensures BatchIndex(claimed, pcs.fri.logBlowup, top, index) == Shr(index, top - RoundLog(round.mats))
  {}

  /** The opening that the prover sends for a round verifies. */
  lemma {:induction false} SentVerifies<F(!new), C(!new), P, D(!new), Q(!new)>(
    pcs: Params<F, C, P, D, Q>, round: Round<F>, i: nat)
    requires pcs.mmcs.Complete() && RoundShape(pcs, round) && i < Pow2(RoundLog(round.mats))
    ensures pcs.mmcs.Verify(pcs.mmcs.Commit(round.mats), Heights(round.mats), i, BatchAt(pcs, round, i).rows,
        BatchAt(pcs, round, i).proof)
  {
    RoundWellShaped(pcs, round, i);
    pcs.mmcs.Accepts(round.mats, i);
  }

  /** The honest opening of a round verifies against its commitment. */
  lemma {:induction false} BatchVerifies<F(!new), C(!new), P, D(!new), Q(!new)>(
    pcs: Params<F, C, P, D, Q>, round: Round<F>, mos: seq<MatOpen<F>>, top: nat, index: nat, i: nat,
    claimed: seq<Claimed<F>>)
    requires pcs.mmcs.Complete() && ClaimsMatch(pcs, round, mos) && RoundLog(round.mats) <= top
    requires i == Shr(index, top - RoundLog(round.mats)) < Pow2(RoundLog(round.mats))
    requires claimed == ClaimedOf(mos, pcs.fri.logBlowup, |mos|)
    ensures Fits(claimed, pcs.fri.logBlowup, top)
    ensures pcs.mmcs.Verify(pcs.mmcs.Commit(round.mats), BatchHeights(claimed, pcs.fri.logBlowup),
                            BatchIndex(claimed, pcs.fri.logBlowup, top, index),
                            BatchAt(pcs, round, i).rows, BatchAt(pcs, round, i).proof)
  {
    HeightsMatch(pcs, round, mos, top);
    BatchIndexIs(pcs, round, top, index, claimed);
    SentVerifies(pcs, round, i);
  }

  /** It passes every check of its round. */
  lemma {:induction false} BatchAccepted<F(!new), C(!new), P, D(!new), Q(!new)>(
    pcs: Params<F, C, P, D, Q>, round: Round<F>, mos: seq<MatOpen<F>>, top: nat, index: nat, i: nat, vs: Running<F>,
    alpha: F, claimed: seq<Claimed<F>>)
    requires pcs.T.Laws() && pcs.mmcs.Complete() && ClaimsMatch(pcs, round, mos) && RoundLog(round.mats) <= top < 32
        && RunningOk(vs)
    requires i == Shr(index, top - RoundLog(round.mats)) < Pow2(RoundLog(round.mats))
    requires claimed == ClaimedOf(mos, pcs.fri.logBlowup, |mos|)
    ensures Fits(claimed, pcs.fri.logBlowup, top)
    ensures var batch := BatchAt(pcs, round, i);
      && InField(pcs.T, pcs.fri.logBlowup, claimed, Min(|batch.rows|, |claimed|))
      && CheckBatch(pcs, alpha, top, index, vs, batch, VerifierRound(pcs.mmcs.Commit(round.mats), claimed))
         == Ok(ReduceBatch(pcs, alpha, top, index, vs, batch.rows, claimed))
  {
    var batch := BatchAt(pcs, round, i);
    var n := Min(|batch.rows|, |claimed|);
    BatchVerifies(pcs, round, mos, top, index, i, claimed);
    HonestInField(pcs, round, mos, claimed, n);
    HonestDivisible(pcs, round, mos, top, index, batch.rows, claimed, n);
    NothingFails(pcs, alpha, top, index, vs, batch, VerifierRound(pcs.mmcs.Commit(round.mats), claimed));
  }

  /** Committed matrices are within the field's two-adicity. */
  lemma {:induction false} HonestInField<F(!new), C(!new), P, D(!new), Q(!new)>(
    pcs: Params<F, C, P, D, Q>, round: Round<F>, mos: seq<MatOpen<F>>, claimed: seq<Claimed<F>>, n: nat)
    requires ClaimsMatch(pcs, round, mos) && claimed == ClaimedOf(mos, pcs.fri.logBlowup, |mos|) && n <= |mos|
    ensures InField(pcs.T, pcs.fri.logBlowup, claimed, n)
  {
    forall m | 0 <= m < n ensures HeightOk(pcs.T, claimed[m].log + pcs.fri.logBlowup) {
      ClaimedAt(mos, pcs.fri.logBlowup, |mos|, m);
      assert MatShape(pcs, round.mats[m]);
    }
  }

  lemma {:induction false} NothingFails<F(!new), C(!new), P, D(!new), Q(!new)>(
    pcs: Params<F, C, P, D, Q>, alpha: F, top: nat, index: nat, vs: Running<F>, batch: BatchOpening<F, Q>,
    round: VerifierRound<F, D>)
    requires RunningOk(vs) && Fits(round.mats, pcs.fri.logBlowup, top)
    requires pcs.mmcs.Verify(round.commit, BatchHeights(round.mats, pcs.fri.logBlowup),
                             BatchIndex(round.mats, pcs.fri.logBlowup, top, index), batch.rows, batch.proof)
    requires InField(pcs.T, pcs.fri.logBlowup, round.mats, Min(|batch.rows|, |round.mats|))
    requires Divisible(pcs.T, pcs.shift, pcs.fri.logBlowup, top, index, batch.rows, round.mats,
                       Min(|batch.rows|, |round.mats|))
    ensures CheckBatch(pcs, alpha, top, index, vs, batch, round)
         == Ok(ReduceBatch(pcs, alpha, top, index, vs, batch.rows, round.mats))
  {}

  /** And its reduction is the one over the rows of the committed matrices. */
  lemma {:induction false} BatchReduces<F(!new), C(!new), P, D(!new), Q(!new)>(
    pcs: Params<F, C, P, D, Q>, round: Round<F>, mos: seq<MatOpen<F>>, top: nat, index: nat, i: nat, vs: Running<F>,
    alpha: F)
    requires RoundShape(pcs, round) && RoundLog(round.mats) <= top < 32 && |mos| == |round.mats| && RunningOk(vs)
    requires i < Pow2(RoundLog(round.mats))
    requires forall m :: 0 <= m < |mos| ==> mos[m].log == LogHeight(round.mats[m]) && pcs.fri.logBlowup <= mos[m].log
    requires forall m :: 0 <= m < |mos| ==> RowsAt(pcs, round, mos, i)[m].log <= top
    requires var claimed := ClaimedOf(mos, pcs.fri.logBlowup, |mos|);
      InField(pcs.T, pcs.fri.logBlowup, claimed, Min(|BatchAt(pcs, round, i).rows|, |claimed|))
    ensures var claimed := ClaimedOf(mos, pcs.fri.logBlowup, |mos|);
      Fits(claimed, pcs.fri.logBlowup, top)
      && ReduceBatch(pcs, alpha, top, index, vs, BatchAt(pcs, round, i).rows, claimed)
         == CheckMats(pcs.T, pcs.shift, alpha, top, index, vs, RowsAt(pcs, round, mos, i), |mos|)
  {
    HeightsMatch(pcs, round, mos, top);
    RoundWellShaped(pcs, round, i);
  }

  /** One round of one query on an honest opening. */
  lemma {:induction false} RoundPasses<F(!new), C(!new), P, D(!new), Q(!new)>(
    pcs: Params<F, C, P, D, Q>, round: Round<F>, mos: seq<MatOpen<F>>, top: nat, index: nat, i: nat, vs: Running<F>,
    alpha: F)
    requires pcs.T.Laws() && pcs.mmcs.Complete() && ClaimsMatch(pcs, round, mos) && RoundLog(round.mats) <= top < 32
        && RunningOk(vs)
    requires i == Shr(index, top - RoundLog(round.mats)) < Pow2(RoundLog(round.mats))
    ensures forall m :: 0 <= m < |mos| ==> RowsAt(pcs, round, mos, i)[m].log <= top
    ensures CheckBatch(pcs, alpha, top, index, vs, BatchAt(pcs, round, i), ViewOf(pcs, round, mos))
         == Ok(CheckMats(pcs.T, pcs.shift, alpha, top, index, vs, RowsAt(pcs, round, mos, i), |mos|))
  {
    RowsMatch(pcs, round, mos, top, index, i);
    BatchAccepted(pcs, round, mos, top, index, i, vs, alpha, ClaimedOf(mos, pcs.fri.logBlowup, |mos|));
    BatchReduces(pcs, round, mos, top, index, i, vs, alpha);
  }

  // ---------- all rounds of one query ----------

  ghost predicate AllMatch<F(!new), C(!new), P, D(!new), Q(!new)>(
    pcs: Params<F, C, P, D, Q>, rounds: seq<Round<F>>, claims: seq<seq<MatOpen<F>>>) {
    |claims| == |rounds| && forall r :: 0 <= r < |rounds| ==> ClaimsMatch(pcs, rounds[r], claims[r])
  }

  lemma {:induction false} AllDoMatch<F(!new), C(!new), P, D(!new), Q(!new)>(
    pcs: Params<F, C, P, D, Q>, denoms: map<F, seq<F>>, rounds: seq<Round<F>>)
    requires Shape(pcs, rounds) && AllReady(denoms, rounds) && forall r :: 0 <= r < |rounds| ==>
        RoundOff(pcs, rounds[r])
    ensures AllMatch(pcs, rounds, AllClaims(pcs, denoms, rounds, |rounds|))
  {
    var claims: seq<seq<MatOpen<F>>> := AllClaims(pcs, denoms, rounds, |rounds|);
    forall r | 0 <= r < |rounds| ensures ClaimsMatch(pcs, rounds[r], claims[r]) {
      AllClaimsAt(pcs, denoms, rounds, |rounds|, r);
      ClaimsDoMatch(pcs, denoms, rounds[r]);
    }
  }

  /** The rows of the first n rounds at one query. */
  function AllRowsAt<F(!new), C(!new), P, D(!new), Q(!new)>(
    pcs: Params<F, C, P, D, Q>, rounds: seq<Round<F>>, claims: seq<seq<MatOpen<F>>>, index: nat,
    n: nat): (r: seq<seq<RowOpen<F>>>)
    requires AllMatch(pcs, rounds, claims) && index < Pow2(TopLog(rounds)) && n <= |rounds|
    ensures |r| == n
  {
    if n == 0 then []
    else AllRowsAt(pcs, rounds, claims, index, n - 1)
         + [RowsAt(pcs, rounds[n - 1], claims[n - 1], RoundIndex(rounds, index, n - 1))]
  }

  lemma {:induction false} AllRowsLast<F(!new), C(!new), P, D(!new), Q(!new)>(
    pcs: Params<F, C, P, D, Q>, rounds: seq<Round<F>>, claims: seq<seq<MatOpen<F>>>, index: nat, n: nat)
    requires AllMatch(pcs, rounds, claims) && index < Pow2(TopLog(rounds)) && 0 < n <= |rounds|
    ensures AllRowsAt(pcs, rounds, claims, index, n)[n - 1]
        == RowsAt(pcs, rounds[n - 1], claims[n - 1], RoundIndex(rounds, index, n - 1))
  {}

  lemma {:induction false} AllRowsBefore<F(!new), C(!new), P, D(!new), Q(!new)>(
    pcs: Params<F, C, P, D, Q>, rounds: seq<Round<F>>, claims: seq<seq<MatOpen<F>>>, index: nat, n: nat, r: nat,
    rows: seq<seq<RowOpen<F>>>, before: seq<seq<RowOpen<F>>>)
    requires AllMatch(pcs, rounds, claims) && index < Pow2(TopLog(rounds)) && r < n - 1 && n <= |rounds|
    requires rows == AllRowsAt(pcs, rounds, claims, index, n)
        && before == AllRowsAt(pcs, rounds, claims, index, n - 1)
    ensures rows[r] == before[r]
  {}

  lemma {:induction false} AllRowsIs<F(!new), C(!new), P, D(!new), Q(!new)>(
    pcs: Params<F, C, P, D, Q>, rounds: seq<Round<F>>, claims: seq<seq<MatOpen<F>>>, index: nat, n: nat, r: nat,
    rows: seq<seq<RowOpen<F>>>)
    requires AllMatch(pcs, rounds, claims) && index < Pow2(TopLog(rounds)) && r < n <= |rounds|
    requires rows == AllRowsAt(pcs, rounds, claims, index, n)
    ensures rows[r] == RowsAt(pcs, rounds[r], claims[r], RoundIndex(rounds, index, r))
  {
    if r == n - 1 { AllRowsLast(pcs, rounds, claims, index, n); }
    else {
      var before := AllRowsAt(pcs, rounds, claims, index, n - 1);
      AllRowsIs(pcs, rounds, claims, index, n - 1, r, before);
      AllRowsBefore(pcs, rounds, claims, index, n, r, rows, before);
    }
  }

  lemma {:induction false} RoundRowsMatch<F(!new), C(!new), P, D(!new), Q(!new)>(
    pcs: Params<F, C, P, D, Q>, rounds: seq<Round<F>>, claims: seq<seq<MatOpen<F>>>, index: nat, r: nat)
    requires AllMatch(pcs, rounds, claims) && index < Pow2(TopLog(rounds)) && r < |rounds|
    ensures SameClaims(claims[r], RowsAt(pcs, rounds[r], claims[r], RoundIndex(rounds, index, r)), TopLog(rounds),
        index)
  {
    RoundIndexIs(rounds, index, r);
    RowsMatch(pcs, rounds[r], claims[r], TopLog(rounds), index, RoundIndex(rounds, index, r));
  }

  lemma {:induction false} AllRowsMatch<F(!new), C(!new), P, D(!new), Q(!new)>(
    pcs: Params<F, C, P, D, Q>, rounds: seq<Round<F>>, claims: seq<seq<MatOpen<F>>>, index: nat, top: nat,
    rows: seq<seq<RowOpen<F>>>)
    requires AllMatch(pcs, rounds, claims) && top == TopLog(rounds) && index < Pow2(top)
        && rows == AllRowsAt(pcs, rounds, claims, index, |rounds|)
    ensures SameRounds(claims, rows, top, index)
  {
    forall r | 0 <= r < |rounds| ensures SameClaims(claims[r], rows[r], top, index) {
      AllRowsIs(pcs, rounds, claims, index, |rounds|, r, rows);
      RoundRowsMatch(pcs, rounds, claims, index, r);
    }
  }

  lemma {:induction false} BatchesIs<F(!new), C(!new), P, D(!new), Q(!new)>(
    pcs: Params<F, C, P, D, Q>, rounds: seq<Round<F>>, index: nat, n: nat, r: nat)
    requires Shape(pcs, rounds) && index < Pow2(TopLog(rounds)) && r < n <= |rounds|
    ensures BatchesAt(pcs, rounds, index, n)[r] == BatchAt(pcs, rounds[r], RoundIndex(rounds, index, r))
  {
    var before, last := BatchesAt(pcs, rounds, index, n - 1),
        BatchAt(pcs, rounds[n - 1], RoundIndex(rounds, index, n - 1));
    assert BatchesAt(pcs, rounds, index, n) == before + [last];
    if r < n - 1 { BatchesIs(pcs, rounds, index, n - 1, r); assert (before + [last])[r] == before[r]; }
  }

  function ViewOf<F(!new), C(!new), P, D(!new), Q(!new)>(
    pcs: Params<F, C, P, D, Q>, round: Round<F>, mos: seq<MatOpen<F>>): VerifierRound<F, D>
    requires forall m :: 0 <= m < |mos| ==> pcs.fri.logBlowup <= mos[m].log
  { VerifierRound(pcs.mmcs.Commit(round.mats), ClaimedOf(mos, pcs.fri.logBlowup, |mos|)) }

  /** Marks the states at which a round is considered. */
  ghost predicate AtState<F>(vs: Running<F>) { true }

  /** From the state vs, the round passes and reduces to the pass over its rows. */
  ghost predicate Passes<F(!new), C(!new), P, D(!new), Q(!new)>(
    pcs: Params<F, C, P, D, Q>, alpha: F, top: nat, index: nat, batch: BatchOpening<F, Q>,
    claimed: VerifierRound<F, D>, ws: seq<RowOpen<F>>, vs: Running<F>)
    requires top < 32 && RunningOk(vs) && forall m :: 0 <= m < |ws| ==> ws[m].log <= top
  {
    NextBatch(pcs, alpha, top, index, Ok(vs), batch, claimed)
        == Ok(CheckMats(pcs.T, pcs.shift, alpha, top, index, vs, ws, |ws|))
  }

  /** Whatever came before, the round passes. */
  ghost predicate Faithful<F(!new), C(!new), P, D(!new), Q(!new)>(
    pcs: Params<F, C, P, D, Q>, alpha: F, top: nat, index: nat, batch: BatchOpening<F, Q>,
    claimed: VerifierRound<F, D>, ws: seq<RowOpen<F>>)
    requires top < 32
  {
    && (forall m :: 0 <= m < |ws| ==> ws[m].log <= top)
    && forall vs: Running<F> {:trigger AtState(vs)} :: RunningOk(vs) ==>
        Passes(pcs, alpha, top, index, batch, claimed, ws, vs)
  }

  lemma {:induction false} RoundFaithful<F(!new), C(!new), P, D(!new), Q(!new)>(
    pcs: Params<F, C, P, D, Q>, rounds: seq<Round<F>>, claims: seq<seq<MatOpen<F>>>, index: nat, alpha: F, top: nat,
    r: nat)
    requires pcs.T.Laws() && pcs.mmcs.Complete() && AllMatch(pcs, rounds, claims) && top == TopLog(rounds) < 32
        && index < Pow2(top) && r < |rounds|
    ensures var i := RoundIndex(rounds, index, r);
      Faithful(pcs, alpha, top, index, BatchAt(pcs, rounds[r], i), ViewOf(pcs, rounds[r], claims[r]),
          RowsAt(pcs, rounds[r], claims[r], i))
  {
    var i := RoundIndex(rounds, index, r);
    var batch, view, ws := BatchAt(pcs, rounds[r], i), ViewOf(pcs, rounds[r], claims[r]),
        RowsAt(pcs, rounds[r], claims[r], i);
    RoundStep(pcs, rounds, claims, index, alpha, top, r, Running(ZeroVector(pcs.T.f, 32), Ones(pcs.T.f, 32)));
    forall vs: Running<F> | RunningOk(vs) ensures Passes(pcs, alpha, top, index, batch, view, ws, vs)
    { RoundStep(pcs, rounds, claims, index, alpha, top, r, vs); }
  }

  ghost predicate AllFaithful<F(!new), C(!new), P, D(!new), Q(!new)>(
    pcs: Params<F, C, P, D, Q>, alpha: F, top: nat, index: nat, batches: seq<BatchOpening<F, Q>>,
    view: seq<VerifierRound<F, D>>, rows: seq<seq<RowOpen<F>>>)
  {
    && top < 32 && |view| == |batches| == |rows|
    && forall r: nat {:trigger AtIndex(r)} :: r < |rows| ==>
        Faithful(pcs, alpha, top, index, batches[r], view[r], rows[r])
  }

  lemma {:induction false} QueryFaithful<F(!new), C(!new), P, D(!new), Q(!new)>(
    pcs: Params<F, C, P, D, Q>, rounds: seq<Round<F>>, claims: seq<seq<MatOpen<F>>>, index: nat, alpha: F, top: nat)
    requires pcs.T.Laws() && pcs.mmcs.Complete() && Shape(pcs, rounds) && AllMatch(pcs, rounds, claims)
        && top == TopLog(rounds) < 32 && index < Pow2(top)
    requires LogsAbove(claims, pcs.fri.logBlowup)
    ensures AllFaithful(pcs, alpha, top, index, BatchesAt(pcs, rounds, index, |rounds|),
                        VerifierView(pcs, rounds, claims, |rounds|),
                        AllRowsAt(pcs, rounds, claims, index, |rounds|))
  {
    var batches, view, rows := BatchesAt(pcs, rounds, index, |rounds|), VerifierView(pcs, rounds, claims, |rounds|),
        AllRowsAt(pcs, rounds, claims, index, |rounds|);
    forall r: nat | r < |rounds| ensures Faithful(pcs, alpha, top, index, batches[r], view[r], rows[r]) {
      ViewAt(pcs, rounds, claims, |rounds|, r);
      BatchesIs(pcs, rounds, index, |rounds|, r);
      AllRowsIs(pcs, rounds, claims, index, |rounds|, r, rows);
      RoundFaithful(pcs, rounds, claims, index, alpha, top, r);
    }
  }

  /** After n rounds the verifier has passed them and holds the pass over their rows. */
  ghost predicate Passed<F(!new), C(!new), P, D(!new), Q(!new)>(
    pcs: Params<F, C, P, D, Q>, alpha: F, top: nat, index: nat, batches: seq<BatchOpening<F, Q>>,
    view: seq<VerifierRound<F, D>>,
    rows: seq<seq<RowOpen<F>>>, n: nat)
    requires top < 32 && RowsOk(rows, top) && n <= |rows| == |view| == |batches|
  {
    CheckBatches(pcs, alpha, top, index, batches, view, n)
        == Ok(CheckRounds(pcs.T, pcs.shift, alpha, top, index, rows, n))
  }

  /** The verifier's pass over the first n rounds of an honest query. */
  lemma {:induction false} QueryPasses<F(!new), C(!new), P, D(!new), Q(!new)>(
    pcs: Params<F, C, P, D, Q>, alpha: F, top: nat, index: nat, batches: seq<BatchOpening<F, Q>>,
    view: seq<VerifierRound<F, D>>,
    rows: seq<seq<RowOpen<F>>>, n: nat)
    requires AllFaithful(pcs, alpha, top, index, batches, view, rows) && RowsOk(rows, top) && n <= |rows|
    ensures Passed(pcs, alpha, top, index, batches, view, rows, n)
  {
    if n > 0 {
      QueryPasses(pcs, alpha, top, index, batches, view, rows, n - 1);
      ChainStep(pcs, alpha, top, index, batches, view, rows, n);
    }
  }

  lemma {:induction false} ChainStep<F(!new), C(!new), P, D(!new), Q(!new)>(
    pcs: Params<F, C, P, D, Q>, alpha: F, top: nat, index: nat, batches: seq<BatchOpening<F, Q>>,
    view: seq<VerifierRound<F, D>>, rows: seq<seq<RowOpen<F>>>, n: nat)
    requires AllFaithful(pcs, alpha, top, index, batches, view, rows) && RowsOk(rows, top) && 0 < n <= |rows|
    requires Passed(pcs, alpha, top, index, batches, view, rows, n - 1)
    ensures Passed(pcs, alpha, top, index, batches, view, rows, n)
  {
    assert AtIndex(n - 1);
    BatchesStep(pcs, alpha, top, index, batches, view, n);
    RowsStep(pcs.T, pcs.shift, alpha, top, index, rows, n);
    PassesOn(pcs, alpha, top, index, batches[n - 1], view[n - 1], rows[n - 1],
        CheckBatches(pcs, alpha, top, index, batches, view, n - 1),
        CheckBatches(pcs, alpha, top, index, batches, view, n),
        CheckRounds(pcs.T, pcs.shift, alpha, top, index, rows, n - 1),
        CheckRounds(pcs.T, pcs.shift, alpha, top, index, rows, n));
  }

  lemma {:induction false} PassesOn<F(!new), C(!new), P, D(!new), Q(!new)>(
    pcs: Params<F, C, P, D, Q>, alpha: F, top: nat, index: nat, batch: BatchOpening<F, Q>,
    claimed: VerifierRound<F, D>, ws: seq<RowOpen<F>>,
    before: Result<Running<F>, PcsError>, after: Result<Running<F>, PcsError>, vs: Running<F>, next: Running<F>)
    requires top < 32 && RunningOk(vs) && Faithful(pcs, alpha, top, index, batch, claimed, ws)
    requires before == Ok(vs) && after == NextBatch(pcs, alpha, top, index, before, batch, claimed)
    requires next == CheckMats(pcs.T, pcs.shift, alpha, top, index, vs, ws, |ws|)
    ensures after == Ok(next)
  { assert AtState(vs); }

  lemma {:induction false} BatchesStep<F(!new), C(!new), P, D(!new), Q(!new)>(
    pcs: Params<F, C, P, D, Q>, alpha: F, top: nat, index: nat, batches: seq<BatchOpening<F, Q>>,
    view: seq<VerifierRound<F, D>>, n: nat)
    requires 0 < n <= |batches| && n <= |view|
    ensures CheckBatches(pcs, alpha, top, index, batches, view, n)
         == NextBatch(pcs, alpha, top, index, CheckBatches(pcs, alpha, top, index, batches, view, n - 1),
                      batches[n - 1], view[n - 1])
  {}

  lemma {:induction false} RowsStep<F(!new)>(
    T: TwoAdicField<F>, shift: F, alpha: F, top: nat, index: nat, rows: seq<seq<RowOpen<F>>>, n: nat)
    requires RowsOk(rows, top) && top < 32 && 0 < n <= |rows|
    ensures CheckRounds(T, shift, alpha, top, index, rows, n)
         == CheckMats(T, shift, alpha, top, index, CheckRounds(T, shift, alpha, top, index, rows, n - 1), rows[n - 1],
             |rows[n - 1]|)
  {}

  lemma {:induction false} RoundStep<F(!new), C(!new), P, D(!new), Q(!new)>(
    pcs: Params<F, C, P, D, Q>, rounds: seq<Round<F>>, claims: seq<seq<MatOpen<F>>>, index: nat, alpha: F, top: nat,
    r: nat, vs: Running<F>)
    requires pcs.T.Laws() && pcs.mmcs.Complete() && AllMatch(pcs, rounds, claims) && top == TopLog(rounds) < 32
        && index < Pow2(top) && r < |rounds| && RunningOk(vs)
    ensures var ws := RowsAt(pcs, rounds[r], claims[r], RoundIndex(rounds, index, r));
        forall m :: 0 <= m < |ws| ==> ws[m].log <= top
    ensures var i := RoundIndex(rounds, index, r);
      Passes(pcs, alpha, top, index, BatchAt(pcs, rounds[r], i), ViewOf(pcs, rounds[r], claims[r]),
          RowsAt(pcs, rounds[r], claims[r], i), vs)
  {
    var round, mos, i := rounds[r], claims[r], RoundIndex(rounds, index, r);
    RoundIndexIs(rounds, index, r);
    assert ClaimsMatch(pcs, round, mos);
    assert RoundLog(round.mats) <= top && i == Shr(index, top - RoundLog(round.mats)) < Pow2(RoundLog(round.mats));
    RoundPasses(pcs, round, mos, top, index, i, vs, alpha);
  }

  // ---------- the theorem ----------

  /** An honest opening before FRI: the claims, their reduction, and why both are as they should be. */
  ghost predicate Sound<F(!new), C(!new), P, D(!new), Q(!new)>(
    pcs: Params<F, C, P, D, Q>, rounds: seq<Round<F>>, claims: seq<seq<MatOpen<F>>>, denoms: map<F, seq<F>>,
    alpha: F, st: Reduced<F>, qs: seq<seq<F>>)
  {
    && pcs.T.Laws() && pcs.mmcs.Complete() && Shape(pcs, rounds) && AllMatch(pcs, rounds, claims)
        && LogsAbove(claims, pcs.fri.logBlowup)
    && RoundsServed(pcs.T, pcs.shift, denoms, claims) && RoundsReady(denoms, claims)
    && pcs.fri.logBlowup <= TopLog(rounds) < 32 && TopOk(st.openings, TopLog(rounds))
    && st == ReduceRounds(pcs.T.f, alpha, denoms, claims, |rounds|)
    && Low(pcs.T, pcs.fri.logBlowup, TopLog(rounds), st, qs)
  }

  /** The reduced openings of a query: those of the prover's input, and zero at log_blowup. */
  ghost predicate RoHonest<F(!new)>(f: Field<F>, input: Input<F>, logBlowup: nat, top: nat, index: nat, ro: seq<F>) {
    |ro| == 32 && OpeningsMatch(f, input, top, index, ro) && logBlowup <= top && ro[logBlowup] == f.zero
  }

  ghost predicate AllRoHonest<F(!new)>(
    f: Field<F>, input: Input<F>, logBlowup: nat, top: nat, indices: seq<nat>, ros: seq<seq<F>>) {
    |ros| == |indices| && forall i: nat {:trigger AtIndex(i)} :: i < |ros| ==>
        RoHonest(f, input, logBlowup, top, indices[i], ros[i])
  }

  lemma {:induction false} AgreeingRo<F(!new)>(
    T: TwoAdicField<F>, alpha: F, logBlowup: nat, st: Reduced<F>, vs: Running<F>, top: nat, index: nat,
    qs: seq<seq<F>>)
    requires T.f.Laws() && Agree(T.f, alpha, st, vs, top, index) && TopOk(st.openings, top) && logBlowup <= top
        && Low(T, logBlowup, top, st, qs)
    ensures RoHonest(T.f, st.openings, logBlowup, top, index, vs.ro)
  {
    forall h | 0 <= h <= top ensures vs.ro[h] == OpeningAt(T.f, st.openings, top, index, h) { assert AtIndex(h); }
    assert AtIndex(logBlowup);
    ShrBound(index, logBlowup, top - logBlowup);
    if st.openings[logBlowup].Some? { CodewordAt(T, logBlowup, qs[logBlowup], Shr(index, top - logBlowup)); }
  }

  lemma {:induction false} FaithfulRows<F(!new), C(!new), P, D(!new), Q(!new)>(
    pcs: Params<F, C, P, D, Q>, alpha: F, top: nat, index: nat, batches: seq<BatchOpening<F, Q>>,
    view: seq<VerifierRound<F, D>>, rows: seq<seq<RowOpen<F>>>)
    requires AllFaithful(pcs, alpha, top, index, batches, view, rows)
    ensures RowsOk(rows, top)
  { forall r, m | 0 <= r < |rows| && 0 <= m < |rows[r]| ensures rows[r][m].log <= top { assert AtIndex(r); } }

  lemma {:induction false} HonestQuery<F(!new), C(!new), P, D(!new), Q(!new)>(
    pcs: Params<F, C, P, D, Q>, rounds: seq<Round<F>>, claims: seq<seq<MatOpen<F>>>, denoms: map<F, seq<F>>,
    alpha: F, st: Reduced<F>, qs: seq<seq<F>>,
    index: nat, top: nat) returns (ro: seq<F>)
    requires Sound(pcs, rounds, claims, denoms, alpha, st, qs) && top == TopLog(rounds) && index < Pow2(top)
    ensures RoIs(pcs, alpha, top, index, BatchesAt(pcs, rounds, index, |rounds|),
        VerifierView(pcs, rounds, claims, |rounds|), ro)
    ensures RoHonest(pcs.T.f, st.openings, pcs.fri.logBlowup, top, index, ro)
  {
    var batches, view, rows := BatchesAt(pcs, rounds, index, |rounds|), VerifierView(pcs, rounds, claims, |rounds|),
        AllRowsAt(pcs, rounds, claims, index, |rounds|);
    QueryFaithful(pcs, rounds, claims, index, alpha, top);
    FaithfulRows(pcs, alpha, top, index, batches, view, rows);
    QueryPasses(pcs, alpha, top, index, batches, view, rows, |rounds|);
    AllRowsMatch(pcs, rounds, claims, index, top, rows);
    RoundsAgree(pcs.T, pcs.shift, alpha, denoms, top, index, claims, rows, |rounds|);
    var vs := CheckRounds(pcs.T, pcs.shift, alpha, top, index, rows, |rounds|);
    AgreeingRo(pcs.T, alpha, pcs.fri.logBlowup, st, vs, top, index, qs);
    ro := vs.ro;
  }

  /** A query whose reduced openings are what they should be. */
  ghost predicate GoodRo<F(!new), C(!new), P, D(!new), Q(!new)>(
    pcs: Params<F, C, P, D, Q>, alpha: F, top: nat, input: Input<F>, index: nat, batches: seq<BatchOpening<F, Q>>,
    view: seq<VerifierRound<F, D>>, ro: seq<F>)
  {
    top < 32 && RoIs(pcs, alpha, top, index, batches, view, ro)
        && RoHonest(pcs.T.f, input, pcs.fri.logBlowup, top, index, ro)
  }

  ghost predicate GoodRos<F(!new), C(!new), P, D(!new), Q(!new)>(
    pcs: Params<F, C, P, D, Q>, alpha: F, top: nat, input: Input<F>, indices: seq<nat>,
    openings: seq<seq<BatchOpening<F, Q>>>, view: seq<VerifierRound<F, D>>, ros: seq<seq<F>>)
  {
    && |ros| <= |indices| == |openings|
    && forall i: nat {:trigger AtIndex(i)} :: i < |ros| ==>
        GoodRo(pcs, alpha, top, input, indices[i], openings[i], view, ros[i])
  }

  lemma {:induction false} PushRo<F(!new), C(!new), P, D(!new), Q(!new)>(
    pcs: Params<F, C, P, D, Q>, alpha: F, top: nat, input: Input<F>, indices: seq<nat>,
    openings: seq<seq<BatchOpening<F, Q>>>, view: seq<VerifierRound<F, D>>,
    ros: seq<seq<F>>, ro: seq<F>)
    requires GoodRos(pcs, alpha, top, input, indices, openings, view, ros) && |ros| < |indices|
    requires GoodRo(pcs, alpha, top, input, indices[|ros|], openings[|ros|], view, ro)
    ensures GoodRos(pcs, alpha, top, input, indices, openings, view, ros + [ro])
  {
    var all := ros + [ro];
    forall i: nat | i < |all| ensures GoodRo(pcs, alpha, top, input, indices[i], openings[i], view, all[i])
        { assert AtIndex(i); }
  }

  lemma {:induction false} HonestQueries<F(!new), C(!new), P, D(!new), Q(!new)>(
    pcs: Params<F, C, P, D, Q>, rounds: seq<Round<F>>, claims: seq<seq<MatOpen<F>>>, denoms: map<F, seq<F>>,
    alpha: F, st: Reduced<F>, qs: seq<seq<F>>,
    indices: seq<nat>, openings: seq<seq<BatchOpening<F, Q>>>, view: seq<VerifierRound<F, D>>, top: nat, n: nat)
    returns (ros: seq<seq<F>>)
    requires Sound(pcs, rounds, claims, denoms, alpha, st, qs) && top == TopLog(rounds)
        && IndicesBelow(indices, Pow2(top)) && n <= |indices|
    requires openings == AllBatches(pcs, rounds, indices, |indices|)
        && view == VerifierView(pcs, rounds, claims, |rounds|)
    ensures |ros| == n && GoodRos(pcs, alpha, top, st.openings, indices, openings, view, ros)
  {
    if n == 0 { ros := []; }
    else {
      ros := HonestQueries(pcs, rounds, claims, denoms, alpha, st, qs, indices, openings, view, top, n - 1);
      var ro := QueryRo(pcs, rounds, claims, denoms, alpha, st, qs, indices, openings, view, top, n - 1);
      PushRo(pcs, alpha, top, st.openings, indices, openings, view, ros, ro);
      ros := ros + [ro];
    }
  }

  lemma {:induction false} QueryRo<F(!new), C(!new), P, D(!new), Q(!new)>(
    pcs: Params<F, C, P, D, Q>, rounds: seq<Round<F>>, claims: seq<seq<MatOpen<F>>>, denoms: map<F, seq<F>>,
    alpha: F, st: Reduced<F>, qs: seq<seq<F>>,
    indices: seq<nat>, openings: seq<seq<BatchOpening<F, Q>>>, view: seq<VerifierRound<F, D>>, top: nat, i: nat)
    returns (ro: seq<F>)
    requires Sound(pcs, rounds, claims, denoms, alpha, st, qs) && top == TopLog(rounds)
        && IndicesBelow(indices, Pow2(top)) && i < |indices|
    requires openings == AllBatches(pcs, rounds, indices, |indices|)
        && view == VerifierView(pcs, rounds, claims, |rounds|)
    ensures GoodRo(pcs, alpha, top, st.openings, indices[i], openings[i], view, ro)
  {
    ro := HonestQuery(pcs, rounds, claims, denoms, alpha, st, qs, indices[i], top);
    AllBatchesAt(pcs, rounds, indices, |indices|, i);
  }

  lemma {:induction false} LowIsLowDegree<F(!new)>(
    T: TwoAdicField<F>, logBlowup: nat, top: nat, st: Reduced<F>, qs: seq<seq<F>>)
    requires Low(T, logBlowup, top, st, qs) && TopOk(st.openings, top)
    ensures LowDegree(T, st.openings, top, logBlowup, qs)
  {
    forall h | logBlowup <= h <= top && st.openings[h].Some? ensures st.openings[h].value == Codeword(T, h, qs[h])
        && |qs[h]| <= Pow2(h - logBlowup) { assert AtIndex(h); }
  }

  /** What `Prepare` sets up is sound. */
  lemma {:induction false} PreparedSound<F(!new), C(!new), P, W(!new), D(!new), Q(!new)>(
    pcs: Params<F, C, P, D, Q>, sponge: Sponge<F, C, W>, log: Transcript<F, C, W>, rounds: seq<Round<F>>,
    polys: seq<seq<seq<seq<F>>>>)
    returns (st: Reduced<F>, qs: seq<seq<F>>)
    requires Openable(pcs, rounds) && AllExtend(pcs, rounds, polys) && pcs.shift != pcs.T.f.zero
        && pcs.mmcs.Complete()
    ensures var p := Prepare(pcs, sponge, log, rounds);
      && p.setup.input == st.openings && Sound(pcs, rounds, p.claims, Denoms(pcs, rounds), p.alpha, st, qs)
      && HonestRounds(pcs.T, pcs.shift, pcs.fri.logBlowup, TopLog(rounds), p.claims, polys)
  {
    DenomsReady(pcs, rounds);
    var p, denoms := Prepare(pcs, sponge, log, rounds), Denoms(pcs, rounds);
    ClaimsReady(pcs, denoms, rounds);
    TallestReduced(pcs, denoms, rounds, p.alpha);
    AllHonest(pcs, rounds, polys);
    AllDoMatch(pcs, denoms, rounds);
    ClaimsAbove(pcs, denoms, rounds);
    st := ReduceRounds(pcs.T.f, p.alpha, denoms, p.claims, |rounds|);
    qs := RoundsLow(pcs.T, pcs.shift, p.alpha, pcs.fri.logBlowup, TopLog(rounds), denoms, p.claims, polys, |rounds|);
  }

  /** FRI accepts: from `FriComplete`, with zero openings at height log_blowup. */
  lemma {:induction false} FriPart<F(!new), C(!new), P, W(!new), D(!new), Q(!new)>(
    pcs: Params<F, C, P, D, Q>, s: Setup<F, C, P, W>, qs: seq<seq<F>>, ros: seq<seq<F>>, indices: seq<nat>)
    requires s.Valid() && s.cfg == pcs.fri && s.T == pcs.T && s.T.Laws() && s.sponge.Laws() && s.cfg.mmcs.Complete()
        && s.cfg.logBlowup <= s.top <= s.T.bits
    requires LowDegree(s.T, s.input, s.top, s.cfg.logBlowup, qs)
    requires FriOutcome(s).Some? && indices == FriOutcome(s).value.1 && |ros| == |indices|
    requires AllRoHonest(s.T.f, s.input, s.cfg.logBlowup, s.top, indices, ros)
    ensures var proof := FriOutcome(s).value.0; var ch := SampledChallenges(s.cfg, s.sponge, proof, s.log);
      && |proof.commits| + s.cfg.logBlowup == s.top && ch.Ok? && ch.value.indices == indices && RosOk(ros, s.top)
      && AllAccepted(pcs.fri, pcs.T, proof, ch.value, ros, Zipped(ch.value, proof, ros))
  {
    var t := Rounds(s, NumRounds(s.top, s.cfg.logBlowup));
    forall i | 0 <= i < |ros| ensures OpeningsMatch(s.T.f, s.input, s.top, QueryIndices(s, t)[i], ros[i])
        && ros[i][s.cfg.logBlowup] == s.T.f.zero && |ros[i]| == 32 {
      assert AtIndex(i);
    }
    FriComplete(s, qs, ros);
  }

  lemma {:induction false} OutcomeExists<F(!new), C(!new), P, W(!new)>(s: Setup<F, C, P, W>, qs: seq<seq<F>>)
    requires s.Valid() && s.T.Laws() && s.sponge.Laws() && s.cfg.logBlowup <= s.top <= s.T.bits
        && LowDegree(s.T, s.input, s.top, s.cfg.logBlowup, qs)
    ensures FriOutcome(s).Some?
  { CommitPhaseEndsConstant(s, qs); }

  lemma {:induction false} GoodMeansHonest<F(!new), C(!new), P, D(!new), Q(!new)>(
    pcs: Params<F, C, P, D, Q>, alpha: F, top: nat, input: Input<F>, indices: seq<nat>,
    openings: seq<seq<BatchOpening<F, Q>>>, view: seq<VerifierRound<F, D>>, ros: seq<seq<F>>)
    requires GoodRos(pcs, alpha, top, input, indices, openings, view, ros) && |ros| == |indices| && top < 32
    ensures RosAre(pcs, alpha, top, indices, view, openings, ros)
    ensures AllRoHonest(pcs.T.f, input, pcs.fri.logBlowup, top, indices, ros)
  {
    forall i: nat | i < |ros| ensures RoIs(pcs, alpha, top, indices[i], openings[i], view, ros[i])
        && RoHonest(pcs.T.f, input, pcs.fri.logBlowup, top, indices[i], ros[i]) {
      assert AtIndex(i);
    }
  }

  /** From a sound reduction to an accepting verification. */
  lemma {:induction false} SoundAccepted<F(!new), C(!new), P, W(!new), D(!new), Q(!new)>(
    pcs: Params<F, C, P, D, Q>, s: Setup<F, C, P, W>, log: Transcript<F, C, W>, rounds: seq<Round<F>>,
    claims: seq<seq<MatOpen<F>>>, denoms: map<F, seq<F>>,
    alpha: F, st: Reduced<F>, qs: seq<seq<F>>, indices: seq<nat>, openings: seq<seq<BatchOpening<F, Q>>>)
    requires Sound(pcs, rounds, claims, denoms, alpha, st, qs) && pcs.fri.mmcs.Complete()
        && TopLog(rounds) <= pcs.T.bits
    requires SetUp(pcs, s, log, rounds, claims, alpha, st)
    requires FriOutcome(s).Some? && indices == FriOutcome(s).value.1 && IndicesBelow(indices, Pow2(TopLog(rounds)))
    requires openings == AllBatches(pcs, rounds, indices, |indices|)
    ensures Accepted(pcs, s.sponge, log, VerifierView(pcs, rounds, claims, |rounds|),
        PcsProof(FriOutcome(s).value.0, openings))
  {
    var top, view := TopLog(rounds), VerifierView(pcs, rounds, claims, |rounds|);
    LowIsLowDegree(pcs.T, pcs.fri.logBlowup, top, st, qs);
    var ros := HonestQueries(pcs, rounds, claims, denoms, alpha, st, qs, indices, openings, view, top, |indices|);
    GoodMeansHonest(pcs, alpha, top, st.openings, indices, openings, view, ros);
    FriAndQueries(pcs, s, qs, ros, indices, alpha, view, openings);
    Accepting(pcs, s.sponge, log, rounds, claims, alpha, PcsProof(FriOutcome(s).value.0, openings), ros);
  }

  lemma {:induction false} FriAndQueries<F(!new), C(!new), P, W(!new), D(!new), Q(!new)>(
    pcs: Params<F, C, P, D, Q>, s: Setup<F, C, P, W>, qs: seq<seq<F>>, ros: seq<seq<F>>, indices: seq<nat>, alpha: F,
    view: seq<VerifierRound<F, D>>, openings: seq<seq<BatchOpening<F, Q>>>)
    requires s.Valid() && s.cfg == pcs.fri && s.T == pcs.T && s.T.Laws() && s.sponge.Laws() && s.cfg.mmcs.Complete()
        && s.cfg.logBlowup <= s.top <= s.T.bits
    requires LowDegree(s.T, s.input, s.top, s.cfg.logBlowup, qs)
    requires FriOutcome(s).Some? && indices == FriOutcome(s).value.1 && |ros| == |indices| == |openings|
    requires RosAre(pcs, alpha, s.top, indices, view, openings, ros)
    requires AllRoHonest(s.T.f, s.input, s.cfg.logBlowup, s.top, indices, ros)
    ensures var proof := PcsProof(FriOutcome(s).value.0, openings);
        var ch := SampledChallenges(s.cfg, s.sponge, proof.fri, s.log);
      ch.Ok? && QueriesAccepted(pcs, alpha, ch.value, view, proof, ros)
  {
    FriPart(pcs, s, qs, ros, indices);
    var proof := PcsProof(FriOutcome(s).value.0, openings);
    var ch := SampledChallenges(s.cfg, s.sponge, proof.fri, s.log);
    AcceptedByFri(pcs, alpha, ch.value, view, proof, ros, s.top);
  }

  lemma {:induction false} AcceptedByFri<F(!new), C(!new), P, W(!new), D(!new), Q(!new)>(
    pcs: Params<F, C, P, D, Q>, alpha: F, ch: Challenges<F>, view: seq<VerifierRound<F, D>>,
    proof: PcsProof<F, C, P, W, Q>, ros: seq<seq<F>>, top: nat)
    requires top == |proof.fri.commits| + pcs.fri.logBlowup && HeightOk(pcs.T, top) && RosOk(ros, top)
    requires RosAre(pcs, alpha, top, ch.indices, view, proof.openings, ros)
        && AllAccepted(pcs.fri, pcs.T, proof.fri, ch, ros, Zipped(ch, proof.fri, ros))
    ensures QueriesAccepted(pcs, alpha, ch, view, proof, ros)
  {}

  /** The FRI setup of an opening. */
  ghost predicate SetUp<F(!new), C(!new), P, W(!new), D(!new), Q(!new)>(
    pcs: Params<F, C, P, D, Q>, s: Setup<F, C, P, W>, log: Transcript<F, C, W>, rounds: seq<Round<F>>,
    claims: seq<seq<MatOpen<F>>>, alpha: F, st: Reduced<F>)
  {
    var seen := SeeRounds(log, ValuesIn(claims), |ValuesIn(claims)|);
    && s.Valid() && s.sponge.Laws() && s.cfg == pcs.fri && s.T == pcs.T && s.input == st.openings
        && s.top == TopLog(rounds)
    && s.log == seen + [DrewExt] && alpha == s.sponge.Ext(seen)
  }

  lemma {:induction false} PreparedSetUp<F(!new), C(!new), P, W(!new), D(!new), Q(!new)>(
    pcs: Params<F, C, P, D, Q>, sponge: Sponge<F, C, W>, log: Transcript<F, C, W>, rounds: seq<Round<F>>,
    st: Reduced<F>)
    requires Openable(pcs, rounds) && sponge.Laws() && Prepare(pcs, sponge, log, rounds).setup.input == st.openings
    ensures var p := Prepare(pcs, sponge, log, rounds);
        SetUp(pcs, p.setup, log, rounds, p.claims, p.alpha, st) && p.setup.sponge == sponge
  { PreparedTallest(pcs, sponge, log, rounds); }

  /** PCS completeness.  Commit to any number of rounds of matrices whose columns are low-degree
      extensions, and open them at any points off their domains.  Then `open` succeeds, the values it
      reports are the values of the column polynomials, and `verify`, starting from the same
      transcript, accepts. */
  lemma {:induction false} PcsComplete<F(!new), C(!new), P, W(!new), D(!new), Q(!new)>(
    pcs: Params<F, C, P, D, Q>, sponge: Sponge<F, C, W>, log: Transcript<F, C, W>, rounds: seq<Round<F>>,
    polys: seq<seq<seq<seq<F>>>>)
    requires Openable(pcs, rounds) && AllExtend(pcs, rounds, polys) && pcs.shift != pcs.T.f.zero
    requires sponge.Laws() && pcs.mmcs.Complete() && pcs.fri.mmcs.Complete()
    ensures Opening(pcs, sponge, log, rounds).Some?
    ensures var (claims, proof) := Opening(pcs, sponge, log, rounds).value;
        OpenedAndAccepted(pcs, sponge, log, rounds, polys, claims, proof)
  {
    var p := Prepare(pcs, sponge, log, rounds);
    var st, qs := PreparedSound(pcs, sponge, log, rounds, polys);
    PreparedSetUp(pcs, sponge, log, rounds, st);
    TopWithin(pcs, rounds);
    OpeningAccepted(pcs, p.setup, log, rounds, p.claims, Denoms(pcs, rounds), p.alpha, st, qs);
  }

  /** The claimed values are those of the column polynomials, and the verifier accepts them. */
  ghost predicate OpenedAndAccepted<F(!new), C(!new), P, W(!new), D(!new), Q(!new)>(
    pcs: Params<F, C, P, D, Q>, sponge: Sponge<F, C, W>, log: Transcript<F, C, W>, rounds: seq<Round<F>>,
    polys: seq<seq<seq<seq<F>>>>,
    claims: seq<seq<MatOpen<F>>>, proof: PcsProof<F, C, P, W, Q>)
  {
    && HonestRounds(pcs.T, pcs.shift, pcs.fri.logBlowup, TopLog(rounds), claims, polys)
    && |claims| == |rounds| && LogsAbove(claims, pcs.fri.logBlowup)
    && Accepted(pcs, sponge, log, VerifierView(pcs, rounds, claims, |rounds|), proof)
  }

  /** From a sound preparation to an accepted proof. */
  lemma {:induction false} OpeningAccepted<F(!new), C(!new), P, W(!new), D(!new), Q(!new)>(
    pcs: Params<F, C, P, D, Q>, s: Setup<F, C, P, W>, log: Transcript<F, C, W>, rounds: seq<Round<F>>,
    claims: seq<seq<MatOpen<F>>>, denoms: map<F, seq<F>>,
    alpha: F, st: Reduced<F>, qs: seq<seq<F>>)
    requires Sound(pcs, rounds, claims, denoms, alpha, st, qs) && pcs.fri.mmcs.Complete()
        && TopLog(rounds) <= pcs.T.bits
    requires SetUp(pcs, s, log, rounds, claims, alpha, st)
    ensures FriOutcome(s).Some? && IndicesBelow(FriOutcome(s).value.1, Pow2(TopLog(rounds)))
    ensures var (fri, indices) := FriOutcome(s).value;
      Accepted(pcs, s.sponge, log, VerifierView(pcs, rounds, claims, |rounds|),
          PcsProof(fri, AllBatches(pcs, rounds, indices, |indices|)))
  {
    LowIsLowDegree(pcs.T, pcs.fri.logBlowup, TopLog(rounds), st, qs);
    OutcomeExists(s, qs);
    OutcomeIndices(s);
    var indices := FriOutcome(s).value.1;
    SoundAccepted(pcs, s, log, rounds, claims, denoms, alpha, st, qs, indices,
        AllBatches(pcs, rounds, indices, |indices|));
  }

  lemma {:induction false} TopWithin<F(!new), C(!new), P, D(!new), Q(!new)>(
    pcs: Params<F, C, P, D, Q>, rounds: seq<Round<F>>)
    requires Openable(pcs, rounds)
    ensures pcs.fri.logBlowup <= TopLog(rounds) <= pcs.T.bits
  {
    DenomsReady(pcs, rounds);
    ClaimsReady(pcs, Denoms(pcs, rounds), rounds);
    TallestReduced(pcs, Denoms(pcs, rounds), rounds, pcs.T.f.zero);
  }

  /** The pieces of an accepting verification. */
  lemma {:induction false} Accepting<F(!new), C(!new), P, W(!new), D(!new), Q(!new)>(
    pcs: Params<F, C, P, D, Q>, sponge: Sponge<F, C, W>, log: Transcript<F, C, W>, rounds: seq<Round<F>>,
    claims: seq<seq<MatOpen<F>>>, alpha: F,
    proof: PcsProof<F, C, P, W, Q>, ros: seq<seq<F>>)
    requires |claims| == |rounds| && LogsAbove(claims, pcs.fri.logBlowup)
    requires var seen := SeeRounds(log, ValuesIn(claims), |ValuesIn(claims)|);
      var ch := SampledChallenges(pcs.fri, sponge, proof.fri, seen + [DrewExt]);
      && alpha == sponge.Ext(seen) && ch.Ok?
          && QueriesAccepted(pcs, alpha, ch.value, VerifierView(pcs, rounds, claims, |rounds|), proof, ros)
    ensures Accepted(pcs, sponge, log, VerifierView(pcs, rounds, claims, |rounds|), proof)
  { SameValues(pcs, rounds, claims); }
}
