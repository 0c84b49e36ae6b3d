/** The two-adic FRI polynomial commitment scheme: opening committed matrices at points, and
    verifying such an opening. */
module Pcs {
  import opened Basics
  import opened Bits
  import opened Fields
  import opened TwoAdic
  import opened Mmcs
  import opened Transcripts
  import opened Fri
  import opened Barycentric
  import opened InverseDenominators
  import opened PcsReduce

  /** One committed round: its matrices (bit-reversed low-degree extensions on the shifted domain) and,
      for each matrix, the points to open it at. */
  datatype Round<F> = Round(mats: seq<Matrix<F>>, points: seq<seq<F>>)

  /** `shift` is the multiplicative generator; `mmcs` commits to the rounds. */
  datatype Params<!F(!new), !C(!new), !P, !D(!new), !Q(!new)> = Params(T: TwoAdicField<F>, shift: F,
      fri: Config<F, C, P>, mmcs: Scheme<F, D, Q>)

  // ---------- shapes ----------

  function LogHeight<F>(m: Matrix<F>): nat { if |m| == 0 then 0 else Log2Ceil(|m|) }
  function WidthOf<F>(m: Matrix<F>): nat { if m == [] then 0 else |m[0]| }

  /** A power-of-two height of at least the blowup, within the field's two-adicity. */
  ghost predicate MatShape<F(!new), C(!new), P, D(!new), Q(!new)>(pcs: Params<F, C, P, D, Q>, m: Matrix<F>) {
    && |m| > 0 && |m| == Pow2(LogHeight(m)) && pcs.fri.logBlowup <= LogHeight(m) <= pcs.T.bits && LogHeight(m) < 32
    && Rectangular(m, WidthOf(m))
  }

  ghost predicate RoundShape<F(!new), C(!new), P, D(!new), Q(!new)>(pcs: Params<F, C, P, D, Q>, round: Round<F>) {
    round.mats != [] && |round.points| == |round.mats| && forall m :: 0 <= m < |round.mats| ==>
        MatShape(pcs, round.mats[m])
  }

  ghost predicate Shape<F(!new), C(!new), P, D(!new), Q(!new)>(pcs: Params<F, C, P, D, Q>, rounds: seq<Round<F>>) {
    rounds != [] && forall r :: 0 <= r < |rounds| ==> RoundShape(pcs, rounds[r])
  }

  function LogsOf<F>(mats: seq<Matrix<F>>): (r: seq<nat>)
    ensures |r| == |mats| && forall m :: 0 <= m < |r| ==> r[m] == LogHeight(mats[m])
  { if mats == [] then [] else LogsOf(mats[..|mats| - 1]) + [LogHeight(mats[|mats| - 1])] }

  function DimsOf<F>(rounds: seq<Round<F>>): (r: seq<RoundDims<F>>)
    ensures |r| == |rounds| && forall i :: 0 <= i < |r| ==>
        r[i] == RoundDims(LogsOf(rounds[i].mats), rounds[i].points)
  {
    if rounds == [] then []
    else var n := |rounds| - 1; DimsOf(rounds[..n]) + [RoundDims(LogsOf(rounds[n].mats), rounds[n].points)]
  }

  lemma {:induction false} DimsShape<F(!new), C(!new), P, D(!new), Q(!new)>(
    pcs: Params<F, C, P, D, Q>, rounds: seq<Round<F>>)
    requires Shape(pcs, rounds)
    ensures RoundsOk(DimsOf(rounds)) && AllLogs(DimsOf(rounds), pcs.T.bits)
  {
    forall r, m | 0 <= r < |rounds| && 0 <= m < |DimsOf(rounds)[r].logs|
        ensures DimsOf(rounds)[r].logs[m] <= pcs.T.bits {
      assert MatShape(pcs, rounds[r].mats[m]);
    }
  }

  /** The height of the tallest matrix of the first n rounds. */
  function MaxHeight<F>(rounds: seq<Round<F>>, n: nat): nat
    requires n <= |rounds|
  { if n == 0 then 0 else Max(MaxHeight(rounds, n - 1), MaxOf(Heights(rounds[n - 1].mats))) }

  function LogOf(h: nat): nat { if h == 0 then 0 else Log2Ceil(h) }

  /** `log_global_max_height`, and the log height of one round. */
  function TopLog<F>(rounds: seq<Round<F>>): nat { LogOf(MaxHeight(rounds, |rounds|)) }
  function RoundLog<F>(mats: seq<Matrix<F>>): nat { LogOf(MaxOf(Heights(mats))) }

  lemma {:induction false} LogOfMonotone(g: nat, h: nat)
    requires g <= h
    ensures LogOf(g) <= LogOf(h)
  { if g > 0 { Log2CeilMonotone(g, h); } }

  lemma {:induction false} MaxHeightBounds<F>(rounds: seq<Round<F>>, n: nat, r: nat)
    requires r < n <= |rounds|
    ensures MaxOf(Heights(rounds[r].mats)) <= MaxHeight(rounds, n)
  { if r < n - 1 { MaxHeightBounds(rounds, n - 1, r); } }

  lemma {:induction false} RoundBelowTop<F>(rounds: seq<Round<F>>, r: nat)
    requires r < |rounds|
    ensures RoundLog(rounds[r].mats) <= TopLog(rounds)
  {
    MaxHeightBounds(rounds, |rounds|, r);
    LogOfMonotone(MaxOf(Heights(rounds[r].mats)), MaxHeight(rounds, |rounds|));
  }

  lemma {:induction false} MatBelowRound<F>(mats: seq<Matrix<F>>, m: nat)
    requires m < |mats|
    ensures LogHeight(mats[m]) <= RoundLog(mats)
  { assert Heights(mats)[m] == |mats[m]|; LogOfMonotone(|mats[m]|, MaxOf(Heights(mats))); }

  /** Committed rounds are well-shaped, and every index of the right size is in range. */
  lemma {:induction false} RoundWellShaped<F(!new), C(!new), P, D(!new), Q(!new)>(
    pcs: Params<F, C, P, D, Q>, round: Round<F>, index: nat)
    requires RoundShape(pcs, round) && index < Pow2(RoundLog(round.mats))
    ensures WellShaped(Heights(round.mats)) && InRange(Heights(round.mats), index)
  {
    var hs := Heights(round.mats);
    forall i | 0 <= i < |hs| ensures hs[i] > 0 && hs[i] == Pow2(Log2Ceil(hs[i]))
        { assert MatShape(pcs, round.mats[i]); }
    var t := MaxOfAttained(hs);
    InRangePow2(hs, index);
  }

  // ---------- the values at a point ----------

  function NegatedInverses<F(!new)>(f: Field<F>, inv: seq<F>, k: nat, n: nat): (r: seq<F>)
    requires Pow2(k) <= |inv|
    ensures |r| == n
  { if n == 0 then [] else NegatedInverses(f, inv, k, n - 1) + [f.Neg(inv[BitRev(n - 1, k)])] }

  lemma {:induction false} NegatedInversesAt<F(!new)>(f: Field<F>, inv: seq<F>, k: nat, n: nat, i: nat)
    requires Pow2(k) <= |inv| && i < n
    ensures NegatedInverses(f, inv, k, n)[i] == f.Neg(inv[BitRev(i, k)])
  { if i < n - 1 { NegatedInversesAt(f, inv, k, n - 1, i); } }

  lemma {:induction false} BitReversedRows<F>(m: Matrix<F>, k: nat, width: nat)
    requires |m| == Pow2(k) && Rectangular(m, width)
    ensures Rectangular(BitReversed(m, k), width)
  { forall i | 0 <= i < Pow2(k) ensures |BitReversed(m, k)[i]| == width { BitReversedAt(m, k, i); } }

  /** The values of all columns at z: interpolate on the low coset, with denominators taken from the
      shared vector by negating and bit-reversing. */
  function ValuesAtPoint<F(!new)>(
    T: TwoAdicField<F>, shift: F, logBlowup: nat, m: Matrix<F>, inv: seq<F>, z: F): (ys: seq<F>)
    requires |m| > 0 && |m| == Pow2(LogHeight(m)) <= |inv| && logBlowup <= LogHeight(m) && Rectangular(m, WidthOf(m))
    ensures |ys| == WidthOf(m)
  {
    var k := LogHeight(m) - logBlowup;
    Pow2Monotone(k, LogHeight(m));
    var low := m[..Pow2(k)];
    BitReversedRows(low, k, WidthOf(m));
    InterpolateCosetPrecomputed(T, k, BitReversed(low, k), shift, z, NegatedInverses(T.f, inv, k, Pow2(k)),
        WidthOf(m))
  }

  /** The shared denominators serve the points of a matrix. */
  ghost predicate PointsReady<F>(denoms: map<F, seq<F>>, m: Matrix<F>, points: seq<F>) {
    forall p :: 0 <= p < |points| ==> points[p] in denoms && |m| <= |denoms[points[p]]|
  }

  function OpensOf<F(!new), C(!new), P, D(!new), Q(!new)>(
    pcs: Params<F, C, P, D, Q>, denoms: map<F, seq<F>>, m: Matrix<F>, points: seq<F>, n: nat): (r: seq<PointOpen<F>>)
    requires MatShape(pcs, m) && PointsReady(denoms, m, points) && n <= |points|
    ensures |r| == n && forall p :: 0 <= p < n ==>
        r[p] == PointOpen(points[p],
        ValuesAtPoint(pcs.T, pcs.shift, pcs.fri.logBlowup, m, denoms[points[p]], points[p]))
  {
    if n == 0 then []
    else OpensOf(pcs, denoms, m, points, n - 1)
         + [PointOpen(points[n - 1],
             ValuesAtPoint(pcs.T, pcs.shift, pcs.fri.logBlowup, m, denoms[points[n - 1]], points[n - 1]))]
  }

  function ClaimOf<F(!new), C(!new), P, D(!new), Q(!new)>(
    pcs: Params<F, C, P, D, Q>, denoms: map<F, seq<F>>, m: Matrix<F>, points: seq<F>): (r: MatOpen<F>)
    requires MatShape(pcs, m) && PointsReady(denoms, m, points)
    ensures MatOk(r)
  { MatOpen(m, WidthOf(m), LogHeight(m), OpensOf(pcs, denoms, m, points, |points|)) }

  ghost predicate RoundReady<F>(denoms: map<F, seq<F>>, round: Round<F>) {
    |round.points| == |round.mats| && forall m :: 0 <= m < |round.mats| ==>
        PointsReady(denoms, round.mats[m], round.points[m])
  }

  function ClaimsOf<F(!new), C(!new), P, D(!new), Q(!new)>(
    pcs: Params<F, C, P, D, Q>, denoms: map<F, seq<F>>, round: Round<F>, n: nat): (r: seq<MatOpen<F>>)
    requires RoundShape(pcs, round) && RoundReady(denoms, round) && n <= |round.mats|
    ensures |r| == n
  {
    if n == 0 then []
    else ClaimsOf(pcs, denoms, round, n - 1) + [ClaimOf(pcs, denoms, round.mats[n - 1], round.points[n - 1])]
  }

  lemma {:induction false} ClaimsAt<F(!new), C(!new), P, D(!new), Q(!new)>(
    pcs: Params<F, C, P, D, Q>, denoms: map<F, seq<F>>, round: Round<F>, n: nat, m: nat)
    requires RoundShape(pcs, round) && RoundReady(denoms, round) && m < n <= |round.mats|
    ensures ClaimsOf(pcs, denoms, round, n)[m] == ClaimOf(pcs, denoms, round.mats[m], round.points[m])
  { if m < n - 1 { ClaimsAt(pcs, denoms, round, n - 1, m); } }

  ghost predicate AllReady<F>(denoms: map<F, seq<F>>, rounds: seq<Round<F>>)
  { forall r :: 0 <= r < |rounds| ==> RoundReady(denoms, rounds[r]) }

  /** `all_opened_values`, kept together with the matrices and points. */
  function AllClaims<F(!new), C(!new), P, D(!new), Q(!new)>(
    pcs: Params<F, C, P, D, Q>, denoms: map<F, seq<F>>, rounds: seq<Round<F>>, n: nat): (r: seq<seq<MatOpen<F>>>)
    requires Shape(pcs, rounds) && AllReady(denoms, rounds) && n <= |rounds|
    ensures |r| == n
  {
    if n == 0 then []
    else AllClaims(pcs, denoms, rounds, n - 1) + [ClaimsOf(pcs, denoms, rounds[n - 1], |rounds[n - 1].mats|)]
  }

  lemma {:induction false} AllClaimsAt<F(!new), C(!new), P, D(!new), Q(!new)>(
    pcs: Params<F, C, P, D, Q>, denoms: map<F, seq<F>>, rounds: seq<Round<F>>, n: nat, r: nat)
    requires Shape(pcs, rounds) && AllReady(denoms, rounds) && r < n <= |rounds|
    ensures AllClaims(pcs, denoms, rounds, n)[r] == ClaimsOf(pcs, denoms, rounds[r], |rounds[r].mats|)
  { if r < n - 1 { AllClaimsAt(pcs, denoms, rounds, n - 1, r); } }

  // ---------- what the challenger sees ----------

  function SeeValues<F(!new), C(!new), W(!new)>(log: Transcript<F, C, W>, ys: seq<F>, n: nat): Transcript<F, C, W>
    requires n <= |ys|
  { if n == 0 then log else SeeValues(log, ys, n - 1) + [SawExt(ys[n - 1])] }

  function SeeOpens<F(!new), C(!new), W(!new)>(
    log: Transcript<F, C, W>, opens: seq<PointOpen<F>>, n: nat): Transcript<F, C, W>
    requires n <= |opens|
  { if n == 0 then log else SeeValues(SeeOpens(log, opens, n - 1), opens[n - 1].ys, |opens[n - 1].ys|) }

  function SeeMats<F(!new), C(!new), W(!new)>(
    log: Transcript<F, C, W>, mats: seq<seq<PointOpen<F>>>, n: nat): Transcript<F, C, W>
    requires n <= |mats|
  { if n == 0 then log else SeeOpens(SeeMats(log, mats, n - 1), mats[n - 1], |mats[n - 1]|) }

  function SeeRounds<F(!new), C(!new), W(!new)>(
    log: Transcript<F, C, W>, rounds: seq<seq<seq<PointOpen<F>>>>, n: nat): Transcript<F, C, W>
    requires n <= |rounds|
  { if n == 0 then log else SeeMats(SeeRounds(log, rounds, n - 1), rounds[n - 1], |rounds[n - 1]|) }

  function OpensIn<F>(mos: seq<MatOpen<F>>): (r: seq<seq<PointOpen<F>>>)
    ensures |r| == |mos| && forall m :: 0 <= m < |r| ==> r[m] == mos[m].opens
  { if mos == [] then [] else OpensIn(mos[..|mos| - 1]) + [mos[|mos| - 1].opens] }

  /** The opened values, by round, matrix and point. */
  function ValuesIn<F>(rounds: seq<seq<MatOpen<F>>>): (r: seq<seq<seq<PointOpen<F>>>>)
    ensures |r| == |rounds| && forall i :: 0 <= i < |r| ==> r[i] == OpensIn(rounds[i])
  { if rounds == [] then [] else ValuesIn(rounds[..|rounds| - 1]) + [OpensIn(rounds[|rounds| - 1])] }

  method ObserveYs<F(!new), C(!new), W(!new)>(challenger: Challenger<F, C, W>, ys: seq<F>)
    modifies challenger
    ensures challenger.log == SeeValues(old(challenger.log), ys, |ys|)
  {
    for i := 0 to |ys|
      invariant challenger.log == SeeValues(old(challenger.log), ys, i)
    { challenger.ObserveExt(ys[i]); }
  }

  method ObserveOpens<F(!new), C(!new), W(!new)>(challenger: Challenger<F, C, W>, opens: seq<PointOpen<F>>)
    modifies challenger
    ensures challenger.log == SeeOpens(old(challenger.log), opens, |opens|)
  {
    for p := 0 to |opens|
      invariant challenger.log == SeeOpens(old(challenger.log), opens, p)
    { ObserveYs(challenger, opens[p].ys); }
  }

  method ObserveRound<F(!new), C(!new), W(!new)>(challenger: Challenger<F, C, W>, mats: seq<seq<PointOpen<F>>>)
    modifies challenger
    ensures challenger.log == SeeMats(old(challenger.log), mats, |mats|)
  {
    for m := 0 to |mats|
      invariant challenger.log == SeeMats(old(challenger.log), mats, m)
    { ObserveOpens(challenger, mats[m]); }
  }

  /** Show the challenger every opened value, then draw alpha. */
  method ObserveValues<F(!new), C(!new), W(!new)>(
    challenger: Challenger<F, C, W>, values: seq<seq<seq<PointOpen<F>>>>) returns (alpha: F)
    modifies challenger
    ensures var seen := SeeRounds(old(challenger.log), values, |values|);
      alpha == challenger.sponge.Ext(seen) && challenger.log == seen + [DrewExt]
  {
    ghost var start := challenger.log;
    for r := 0 to |values|
      invariant challenger.log == SeeRounds(start, values, r)
    { ObserveRound(challenger, values[r]); }
    alpha := challenger.SampleExt();
  }

  // ---------- opening ----------

  /** The rows and opening proof of one committed round at one query. */
  datatype BatchOpening<F, Q> = BatchOpening(rows: seq<seq<F>>, proof: Q)

  datatype PcsProof<F, C, P, W, Q> = PcsProof(fri: FriProof<F, C, P, W>, openings: seq<seq<BatchOpening<F, Q>>>)

  function BatchAt<F(!new), C(!new), P, D(!new), Q(!new)>(
    pcs: Params<F, C, P, D, Q>, round: Round<F>, index: nat): BatchOpening<F, Q>
    requires RoundShape(pcs, round) && index < Pow2(RoundLog(round.mats))
  { RoundWellShaped(pcs, round, index); BatchOpening(OpenRows(round.mats, index), pcs.mmcs.Prove(round.mats, index)) }

  /** The row of the tallest matrix of round r that a query index stands for. */
  function RoundIndex<F>(rounds: seq<Round<F>>, index: nat, r: nat): (i: nat)
    requires r < |rounds| && index < Pow2(TopLog(rounds))
    ensures i < Pow2(RoundLog(rounds[r].mats))
  {
    RoundBelowTop(rounds, r);
    var cut := TopLog(rounds) - RoundLog(rounds[r].mats);
    ShrBound(index, RoundLog(rounds[r].mats), cut);
    Shr(index, cut)
  }

  /** The openings of the first n rounds at one query index. */
  function BatchesAt<F(!new), C(!new), P, D(!new), Q(!new)>(
    pcs: Params<F, C, P, D, Q>, rounds: seq<Round<F>>, index: nat, n: nat): (r: seq<BatchOpening<F, Q>>)
    requires Shape(pcs, rounds) && index < Pow2(TopLog(rounds)) && n <= |rounds|
    ensures |r| == n
  {
    if n == 0 then []
    else BatchesAt(pcs, rounds, index, n - 1) + [BatchAt(pcs, rounds[n - 1], RoundIndex(rounds, index, n - 1))]
  }

  ghost predicate IndicesBelow(indices: seq<nat>, bound: nat)
  { forall i :: 0 <= i < |indices| ==> indices[i] < bound }

  function AllBatches<F(!new), C(!new), P, D(!new), Q(!new)>(
    pcs: Params<F, C, P, D, Q>, rounds: seq<Round<F>>, indices: seq<nat>, n: nat): (r: seq<seq<BatchOpening<F, Q>>>)
    requires Shape(pcs, rounds) && IndicesBelow(indices, Pow2(TopLog(rounds))) && n <= |indices|
    ensures |r| == n
  {
    if n == 0 then []
    else AllBatches(pcs, rounds, indices, n - 1) + [BatchesAt(pcs, rounds, indices[n - 1], |rounds|)]
  }

  lemma {:induction false} AllBatchesAt<F(!new), C(!new), P, D(!new), Q(!new)>(
    pcs: Params<F, C, P, D, Q>, rounds: seq<Round<F>>, indices: seq<nat>, n: nat, i: nat)
    requires Shape(pcs, rounds) && IndicesBelow(indices, Pow2(TopLog(rounds))) && i < n <= |indices|
    ensures AllBatches(pcs, rounds, indices, n)[i] == BatchesAt(pcs, rounds, indices[i], |rounds|)
  { if i < n - 1 { AllBatchesAt(pcs, rounds, indices, n - 1, i); } }

  function Denoms<F(!new), C(!new), P, D(!new), Q(!new)>(
    pcs: Params<F, C, P, D, Q>, rounds: seq<Round<F>>): map<F, seq<F>>
    requires RoundsOk(DimsOf(rounds))
  { InvDenoms(pcs.T, pcs.shift, RaiseRounds(DimsOf(rounds), |rounds|)) }

  /** The shared denominators are long enough for every opening. */
  lemma {:induction false} DenomsReady<F(!new), C(!new), P, D(!new), Q(!new)>(
    pcs: Params<F, C, P, D, Q>, rounds: seq<Round<F>>)
    requires pcs.T.Laws() && Shape(pcs, rounds)
    ensures RoundsOk(DimsOf(rounds)) && AllReady(Denoms(pcs, rounds), rounds)
  {
    DimsShape(pcs, rounds);
    var dims, denoms := DimsOf(rounds), Denoms(pcs, rounds);
    forall r, m, p | 0 <= r < |rounds| && 0 <= m < |rounds[r].mats| && 0 <= p < |rounds[r].points[m]|
      ensures rounds[r].points[m][p] in denoms && |rounds[r].mats[m]| <= |denoms[rounds[r].points[m][p]]|
    {
      assert MatShape(pcs, rounds[r].mats[m]);
      DenomsServe(pcs.T, pcs.shift, dims, r, m, p);
    }
  }

  lemma {:induction false} ClaimsReady<F(!new), C(!new), P, D(!new), Q(!new)>(
    pcs: Params<F, C, P, D, Q>, denoms: map<F, seq<F>>, rounds: seq<Round<F>>)
    requires Shape(pcs, rounds) && AllReady(denoms, rounds)
    ensures RoundsReady(denoms, AllClaims(pcs, denoms, rounds, |rounds|))
  {
    var claims := AllClaims(pcs, denoms, rounds, |rounds|);
    forall r, m | 0 <= r < |claims| && 0 <= m < |claims[r]| ensures MatOk(claims[r][m])
        && Denominators(denoms, claims[r][m]) {
      AllClaimsAt(pcs, denoms, rounds, |rounds|, r);
      ClaimsAt(pcs, denoms, rounds[r], |rounds[r].mats|, m);
      assert MatShape(pcs, rounds[r].mats[m]);
    }
  }

  /** The tallest matrix. */
  lemma {:induction false} MaxHeightAttained<F>(rounds: seq<Round<F>>, n: nat) returns (r: nat, m: nat)
    requires 0 < n <= |rounds| && forall i :: 0 <= i < |rounds| ==> rounds[i].mats != []
    ensures r < n && m < |rounds[r].mats| && |rounds[r].mats[m]| == MaxHeight(rounds, n)
  {
    if n == 1 || MaxHeight(rounds, n - 1) <= MaxOf(Heights(rounds[n - 1].mats)) {
      r := n - 1;
      m := MaxOfAttained(Heights(rounds[r].mats));
    } else { r, m := MaxHeightAttained(rounds, n - 1); }
  }

  /** The tallest reduced opening has the height of the tallest matrix. */
  lemma {:induction false} TallestReduced<F(!new), C(!new), P, D(!new), Q(!new)>(
    pcs: Params<F, C, P, D, Q>, denoms: map<F, seq<F>>, rounds: seq<Round<F>>, alpha: F)
    requires Shape(pcs, rounds) && AllReady(denoms, rounds)
        && RoundsReady(denoms, AllClaims(pcs, denoms, rounds, |rounds|))
    ensures TopLog(rounds) < 32 && pcs.fri.logBlowup <= TopLog(rounds) <= pcs.T.bits
    ensures var st := ReduceRounds(pcs.T.f, alpha, denoms, AllClaims(pcs, denoms, rounds, |rounds|), |rounds|);
      Tallest(st.openings, 32) == Some(TopLog(rounds)) && TopOk(st.openings, TopLog(rounds))
  {
    var claims, top := AllClaims(pcs, denoms, rounds, |rounds|), TopLog(rounds);
    forall i | 0 <= i < |claims| ensures LogsCapped(claims[i], top) { ClaimsCapped(pcs, denoms, rounds, i); }
    RoundsHeights(pcs.T.f, alpha, denoms, claims, |rounds|, top);
    var r, m := TallestClaim(pcs, denoms, rounds);
    var st := ReduceRounds(pcs.T.f, alpha, denoms, claims, |rounds|);
    assert HasLogs(st, claims[r], |claims[r]|);
    TallestIs(st.openings, top, 32);
  }

  lemma {:induction false} ClaimsCapped<F(!new), C(!new), P, D(!new), Q(!new)>(
    pcs: Params<F, C, P, D, Q>, denoms: map<F, seq<F>>, rounds: seq<Round<F>>, i: nat)
    requires Shape(pcs, rounds) && AllReady(denoms, rounds) && i < |rounds|
    ensures LogsCapped(AllClaims(pcs, denoms, rounds, |rounds|)[i], TopLog(rounds))
  {
    var mos := ClaimsOf(pcs, denoms, rounds[i], |rounds[i].mats|);
    AllClaimsAt(pcs, denoms, rounds, |rounds|, i);
    RoundBelowTop(rounds, i);
    forall j | 0 <= j < |mos| ensures mos[j].log <= TopLog(rounds)
    { ClaimsAt(pcs, denoms, rounds[i], |rounds[i].mats|, j); MatBelowRound(rounds[i].mats, j); }
  }

  /** The claim about a tallest matrix. */
  lemma {:induction false} TallestClaim<F(!new), C(!new), P, D(!new), Q(!new)>(
    pcs: Params<F, C, P, D, Q>, denoms: map<F, seq<F>>, rounds: seq<Round<F>>)
    returns (r: nat, m: nat)
    requires Shape(pcs, rounds) && AllReady(denoms, rounds)
    ensures TopLog(rounds) < 32 && pcs.fri.logBlowup <= TopLog(rounds) <= pcs.T.bits
    ensures var claims := AllClaims(pcs, denoms, rounds, |rounds|);
      r < |claims| && m < |claims[r]| && claims[r][m].log == TopLog(rounds)
  {
    r, m := MaxHeightAttained(rounds, |rounds|);
    assert MatShape(pcs, rounds[r].mats[m]);
    AllClaimsAt(pcs, denoms, rounds, |rounds|, r);
    ClaimsAt(pcs, denoms, rounds[r], |rounds[r].mats|, m);
  }

  /** What `prove` returns for these inputs and this transcript. */
  function FriOutcome<F(!new, ==), C(!new), P, W(!new)>(
    s: Setup<F, C, P, W>): Option<(FriProof<F, C, P, W>, seq<nat>)>
    requires s.Valid() && s.sponge.Laws()
  {
    var n := NumRounds(s.top, s.cfg.logBlowup);
    var t := Rounds(s, n);
    if |t.Last()| == Pow2(s.cfg.logBlowup) && IsConstant(t.Last()) then
      DrawnInRange(s.sponge, QueryLog(s.sponge, t.Log(), t.Last()[0], s.cfg.powBits), s.top, s.cfg.numQueries);
      RoundsAnswerable(s, n, QueryIndices(s, t));
      Some((ProofOf(s, t), QueryIndices(s, t)))
    else None
  }

  lemma {:induction false} OutcomeIndices<F(!new), C(!new), P, W(!new)>(s: Setup<F, C, P, W>)
    requires s.Valid() && s.sponge.Laws() && FriOutcome(s).Some?
    ensures IndicesBelow(FriOutcome(s).value.1, Pow2(s.top))
  {
    var t := Rounds(s, NumRounds(s.top, s.cfg.logBlowup));
    DrawnInRange(s.sponge, QueryLog(s.sponge, t.Log(), t.Last()[0], s.cfg.powBits), s.top, s.cfg.numQueries);
  }

  /** What the callers of `open` owe: shapes, at least one point, and no point on the domain (the
      batch inversion has no answer there). */
  ghost predicate Openable<F(!new), C(!new), P, D(!new), Q(!new)>(pcs: Params<F, C, P, D, Q>, rounds: seq<Round<F>>) {
    && pcs.T.Laws() && Shape(pcs, rounds)
    && RoundsOk(DimsOf(rounds)) && RaiseRounds(DimsOf(rounds), |rounds|) != map[]
    && forall r, m, p :: 0 <= r < |rounds| && 0 <= m < |rounds[r].mats| && 0 <= p < |rounds[r].points[m]| ==>
         OffDomain(pcs.T, pcs.shift, LogHeight(rounds[r].mats[m]), rounds[r].points[m][p])
  }

  /** The claims, the transcript after alpha, and the FRI setup of an opening. */
  datatype Prepared<!F(!new), !C(!new), !P, !W(!new)> = Prepared(claims: seq<seq<MatOpen<F>>>, alpha: F,
      setup: Setup<F, C, P, W>)

  function Prepare<F(!new, ==), C(!new), P, W(!new), D(!new), Q(!new)>(
    pcs: Params<F, C, P, D, Q>, sponge: Sponge<F, C, W>, log: Transcript<F, C, W>,
    rounds: seq<Round<F>>): (p: Prepared<F, C, P, W>)
    requires Openable(pcs, rounds)
    ensures p.setup.Valid() && p.setup.top == TopLog(rounds) && p.setup.sponge == sponge && p.setup.cfg == pcs.fri
  {
    DenomsReady(pcs, rounds);
    var denoms := Denoms(pcs, rounds);
    var claims := AllClaims(pcs, denoms, rounds, |rounds|);
    ClaimsReady(pcs, denoms, rounds);
    var values := ValuesIn(claims);
    var seen := SeeRounds(log, values, |values|);
    var alpha := sponge.Ext(seen);
    TallestReduced(pcs, denoms, rounds, alpha);
    Prepared(claims, alpha,
        Setup(pcs.fri, pcs.T, sponge, ReduceRounds(pcs.T.f, alpha, denoms, claims, |rounds|).openings,
        TopLog(rounds), seen + [DrewExt]))
  }

  /** The opened values and the proof that `open` returns; `None` when an assertion of the FRI prover
      fails. */
  function Opening<F(!new, ==), C(!new), P, W(!new), D(!new), Q(!new)>(
    pcs: Params<F, C, P, D, Q>, sponge: Sponge<F, C, W>, log: Transcript<F, C, W>, rounds: seq<Round<F>>)
    : Option<(seq<seq<MatOpen<F>>>, PcsProof<F, C, P, W, Q>)>
    requires Openable(pcs, rounds) && sponge.Laws()
  {
    var p := Prepare(pcs, sponge, log, rounds);
    var fri := FriOutcome(p.setup);
    if fri.None? then None
    else
      OutcomeIndices(p.setup);
      Some((p.claims, PcsProof(fri.value.0, AllBatches(pcs, rounds, fri.value.1, |fri.value.1|))))
  }

  /** The transcript after a successful opening. */
  function ClosingLog<F(!new, ==), C(!new), P, W(!new), D(!new), Q(!new)>(
    pcs: Params<F, C, P, D, Q>, sponge: Sponge<F, C, W>, log: Transcript<F, C, W>,
    rounds: seq<Round<F>>): Transcript<F, C, W>
    requires Openable(pcs, rounds)
  {
    var s := Prepare(pcs, sponge, log, rounds).setup;
    EndLog(s, Rounds(s, NumRounds(s.top, s.cfg.logBlowup)))
  }

  /** Interpolate a matrix at its points. */
  method InterpolateMatrix<F(!new, ==), C(!new), P, D(!new), Q(!new)>(
    pcs: Params<F, C, P, D, Q>, denoms: map<F, seq<F>>, mat: Matrix<F>, points: seq<F>)
    returns (mo: MatOpen<F>)
    requires MatShape(pcs, mat) && PointsReady(denoms, mat, points)
    ensures mo == ClaimOf(pcs, denoms, mat, points)
  {
    var opens := [];
    for p := 0 to |points|
      invariant opens == OpensOf(pcs, denoms, mat, points, p)
    {
      opens := opens + [PointOpen(points[p],
          ValuesAtPoint(pcs.T, pcs.shift, pcs.fri.logBlowup, mat, denoms[points[p]], points[p]))];
    }
    mo := MatOpen(mat, WidthOf(mat), LogHeight(mat), opens);
  }

  method InterpolateRound<F(!new, ==), C(!new), P, D(!new), Q(!new)>(
    pcs: Params<F, C, P, D, Q>, denoms: map<F, seq<F>>, round: Round<F>)
    returns (mos: seq<MatOpen<F>>)
    requires RoundShape(pcs, round) && RoundReady(denoms, round)
    ensures mos == ClaimsOf(pcs, denoms, round, |round.mats|)
  {
    mos := [];
    for m := 0 to |round.mats|
      invariant mos == ClaimsOf(pcs, denoms, round, m)
    {
      var mo := InterpolateMatrix(pcs, denoms, round.mats[m], round.points[m]);
      mos := mos + [mo];
    }
  }

  method InterpolateRounds<F(!new, ==), C(!new), P, D(!new), Q(!new)>(
    pcs: Params<F, C, P, D, Q>, denoms: map<F, seq<F>>, rounds: seq<Round<F>>)
    returns (claims: seq<seq<MatOpen<F>>>)
    requires Shape(pcs, rounds) && AllReady(denoms, rounds)
    ensures claims == AllClaims(pcs, denoms, rounds, |rounds|)
  {
    claims := [];
    for i := 0 to |rounds|
      invariant claims == AllClaims(pcs, denoms, rounds, i)
    {
      AllClaimsStep(pcs, denoms, rounds, i);
      var mos := InterpolateRound(pcs, denoms, rounds[i]);
      claims := claims + [mos];
    }
  }

  lemma {:induction false} AllClaimsStep<F(!new), C(!new), P, D(!new), Q(!new)>(
    pcs: Params<F, C, P, D, Q>, denoms: map<F, seq<F>>, rounds: seq<Round<F>>, r: nat)
    requires Shape(pcs, rounds) && AllReady(denoms, rounds) && r < |rounds|
    ensures RoundShape(pcs, rounds[r]) && RoundReady(denoms, rounds[r])
    ensures AllClaims(pcs, denoms, rounds, r + 1)
         == AllClaims(pcs, denoms, rounds, r) + [ClaimsOf(pcs, denoms, rounds[r], |rounds[r].mats|)]
  {}

  method WidestMatrix<F>(rounds: seq<seq<MatOpen<F>>>) returns (width: nat)
    ensures Narrow(rounds, width)
  {
    width := 0;
    for r := 0 to |rounds|
      invariant forall q, m :: 0 <= q < r && 0 <= m < |rounds[q]| ==> rounds[q][m].width <= width
    {
      for m := 0 to |rounds[r]|
        invariant forall q, l :: 0 <= q < r && 0 <= l < |rounds[q]| ==> rounds[q][l].width <= width
        invariant forall l :: 0 <= l < m ==> rounds[r][l].width <= width
      { if width < rounds[r][m].width { width := rounds[r][m].width; } }
    }
  }

  method OpenQuery<F(!new), C(!new), P, D(!new), Q(!new)>(
    pcs: Params<F, C, P, D, Q>, rounds: seq<Round<F>>, index: nat) returns (batch: seq<BatchOpening<F, Q>>)
    requires Shape(pcs, rounds) && index < Pow2(TopLog(rounds))
    ensures batch == BatchesAt(pcs, rounds, index, |rounds|)
  {
    batch := [];
    for r := 0 to |rounds|
      invariant batch == BatchesAt(pcs, rounds, index, r)
    { batch := batch + [BatchAt(pcs, rounds[r], RoundIndex(rounds, index, r))]; }
  }

  method OpenQueries<F(!new), C(!new), P, D(!new), Q(!new)>(
    pcs: Params<F, C, P, D, Q>, rounds: seq<Round<F>>, indices: seq<nat>)
    returns (openings: seq<seq<BatchOpening<F, Q>>>)
    requires Shape(pcs, rounds) && IndicesBelow(indices, Pow2(TopLog(rounds)))
    ensures openings == AllBatches(pcs, rounds, indices, |indices|)
  {
    openings := [];
    for i := 0 to |indices|
      invariant openings == AllBatches(pcs, rounds, indices, i)
    {
      var batch := OpenQuery(pcs, rounds, indices[i]);
      openings := openings + [batch];
    }
  }

  /** Record the points of one round's matrices. */
  method RecordMats<F(==)>(before: map<F, nat>, round: Round<F>) returns (tops: map<F, nat>)
    requires |round.points| == |round.mats|
    ensures tops == RaiseMats(before, RoundDims(LogsOf(round.mats), round.points), |round.mats|)
  {
    ghost var dims := RoundDims(LogsOf(round.mats), round.points);
    tops := before;
    for m := 0 to |round.mats|
      invariant tops == RaiseMats(before, dims, m)
    { tops := RecordPoints(tops, LogHeight(round.mats[m]), round.points[m]); }
  }

  /** Record the points of all rounds. */
  method RecordRounds<F(==)>(rounds: seq<Round<F>>) returns (tops: map<F, nat>)
    requires RoundsOk(DimsOf(rounds))
    ensures tops == RaiseRounds(DimsOf(rounds), |rounds|)
  {
    tops := map[];
    for r := 0 to |rounds|
      invariant tops == RaiseRounds(DimsOf(rounds), r)
    {
      assert DimsOf(rounds)[r] == RoundDims(LogsOf(rounds[r].mats), rounds[r].points);
      tops := RecordMats(tops, rounds[r]);
    }
  }

  /** `compute_inverse_denominators`: from the matrices what the other form computes from their
      dimensions. */
  method ComputeInverseDenominators<F(!new, ==), C(!new), P, D(!new), Q(!new)>(
    pcs: Params<F, C, P, D, Q>, rounds: seq<Round<F>>)
    returns (denoms: map<F, seq<F>>)
    requires pcs.T.Laws() && Shape(pcs, rounds) && RoundsOk(DimsOf(rounds))
        && RaiseRounds(DimsOf(rounds), |rounds|) != map[]
    ensures denoms == Denoms(pcs, rounds)
  {
    var tops := RecordRounds(rounds);
    DimsShape(pcs, rounds);
    RoundsBelow(DimsOf(rounds), |rounds|, pcs.T.bits);
    denoms := InvertPrefixes(pcs.T, pcs.shift, tops);
  }

  /** Everything up to the FRI prover. */
  method PrepareOpening<F(!new, ==), C(!new), P, W(!new), D(!new), Q(!new)>(
    pcs: Params<F, C, P, D, Q>, rounds: seq<Round<F>>, challenger: Challenger<F, C, W>)
    returns (claims: seq<seq<MatOpen<F>>>, input: Input<F>)
    requires Openable(pcs, rounds)
    modifies challenger
    ensures var p := Prepare(pcs, challenger.sponge, old(challenger.log), rounds);
      claims == p.claims && input == p.setup.input && challenger.log == p.setup.log
  {
    DimsShape(pcs, rounds);
    DenomsReady(pcs, rounds);
    var denoms := ComputeInverseDenominators(pcs, rounds);
    claims := InterpolateRounds(pcs, denoms, rounds);
    ClaimsReady(pcs, denoms, rounds);
    var alpha := ObserveValues(challenger, ValuesIn(claims));
    var width := WidestMatrix(claims);
    var st := ReduceOpenings(pcs.T.f, alpha, width, denoms, claims);
    input := st.openings;
  }

  lemma {:induction false} PreparedTallest<F(!new), C(!new), P, W(!new), D(!new), Q(!new)>(
    pcs: Params<F, C, P, D, Q>, sponge: Sponge<F, C, W>, log: Transcript<F, C, W>, rounds: seq<Round<F>>)
    requires Openable(pcs, rounds)
    ensures var s := Prepare(pcs, sponge, log, rounds).setup;
      Tallest(s.input, 32) == Some(TopLog(rounds))
          && s == Setup(pcs.fri, pcs.T, sponge, s.input, TopLog(rounds), s.log)
  {
    DenomsReady(pcs, rounds);
    var denoms := Denoms(pcs, rounds);
    ClaimsReady(pcs, denoms, rounds);
    TallestReduced(pcs, denoms, rounds, Prepare(pcs, sponge, log, rounds).alpha);
  }

  /** `open`. */
  method Open<F(!new, ==), C(!new), P, W(!new), D(!new), Q(!new)>(
    pcs: Params<F, C, P, D, Q>, rounds: seq<Round<F>>, challenger: Challenger<F, C, W>)
    returns (r: Option<(seq<seq<MatOpen<F>>>, PcsProof<F, C, P, W, Q>)>)
    requires Openable(pcs, rounds) && challenger.sponge.Laws()
    modifies challenger
    ensures r == Opening(pcs, challenger.sponge, old(challenger.log), rounds)
    ensures r.Some? ==> challenger.log == ClosingLog(pcs, challenger.sponge, old(challenger.log), rounds)
  {
    ghost var s := Prepare(pcs, challenger.sponge, challenger.log, rounds).setup;
    PreparedTallest(pcs, challenger.sponge, challenger.log, rounds);
    var claims, input := PrepareOpening(pcs, rounds, challenger);
    var fri := Prove(pcs.fri, pcs.T, input, challenger);
    assert fri == FriOutcome(s);
    if fri.None? { return None; }
    OutcomeIndices(s);
    var openings := OpenQueries(pcs, rounds, fri.value.1);
    r := Some((claims, PcsProof(fri.value.0, openings)));
  }
}
