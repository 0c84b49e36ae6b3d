/** Verifying a batch of polynomial openings. */
module PcsVerify {
  import opened Basics
  import opened Bits
  import opened TwoAdic
  import opened Mmcs
  import opened Transcripts
  import opened Fri
  import opened PcsReduce
  import opened Pcs

  /** A matrix as the verifier knows it: the log size of its domain, and the claimed openings. */
  datatype Claimed<F> = Claimed(log: nat, opens: seq<PointOpen<F>>)
  datatype VerifierRound<F, D> = VerifierRound(commit: D, mats: seq<Claimed<F>>)

  /** `Panicked` is a failed index, subtraction, division or `expect`: the verifier stops without accepting. */
  datatype PcsError = InputMmcsError | FriFailed(error: FriError) | Panicked

  function ClaimedOpens<F>(mats: seq<Claimed<F>>): (r: seq<seq<PointOpen<F>>>)
    ensures |r| == |mats| && forall m :: 0 <= m < |r| ==> r[m] == mats[m].opens
  { if mats == [] then [] else ClaimedOpens(mats[..|mats| - 1]) + [mats[|mats| - 1].opens] }

  function ClaimedValues<F, D>(rounds: seq<VerifierRound<F, D>>): (r: seq<seq<seq<PointOpen<F>>>>)
    ensures |r| == |rounds| && forall i :: 0 <= i < |r| ==> r[i] == ClaimedOpens(rounds[i].mats)
  { if rounds == [] then [] else ClaimedValues(rounds[..|rounds| - 1]) + [ClaimedOpens(rounds[|rounds| - 1].mats)] }

  function BatchHeights<F>(mats: seq<Claimed<F>>, logBlowup: nat): (r: seq<nat>)
    ensures |r| == |mats|
  {
    if mats == [] then [] else BatchHeights(mats[..|mats| - 1], logBlowup) + [Pow2(mats[|mats| - 1].log + logBlowup)]
  }

  lemma {:induction false} BatchHeightsAt<F>(mats: seq<Claimed<F>>, logBlowup: nat, m: nat)
    requires m < |mats|
    ensures BatchHeights(mats, logBlowup)[m] == Pow2(mats[m].log + logBlowup)
  { if m < |mats| - 1 { BatchHeightsAt(mats[..|mats| - 1], logBlowup, m); } }

  /** The batch is not empty and none of its matrices is taller than the FRI domain. */
  predicate Fits<F>(mats: seq<Claimed<F>>, logBlowup: nat, top: nat) {
    mats != [] && forall m :: 0 <= m < |mats| ==> mats[m].log + logBlowup <= top
  }

  lemma {:induction false} FitsBelow<F>(mats: seq<Claimed<F>>, logBlowup: nat, top: nat)
    requires Fits(mats, logBlowup, top)
    ensures LogOf(MaxOf(BatchHeights(mats, logBlowup))) <= top
  {
    var hs := BatchHeights(mats, logBlowup);
    var m := MaxOfAttained(hs);
    BatchHeightsAt(mats, logBlowup, m);
    Log2CeilPow2(mats[m].log + logBlowup);
  }

  function RowOpens<F>(rows: seq<seq<F>>, mats: seq<Claimed<F>>, logBlowup: nat, n: nat): (r: seq<RowOpen<F>>)
    requires n <= |rows| && n <= |mats|
    ensures |r| == n
  {
    if n == 0 then []
    else RowOpens(rows, mats, logBlowup, n - 1)
         + [RowOpen(rows[n - 1], mats[n - 1].log + logBlowup, mats[n - 1].opens)]
  }

  lemma {:induction false} RowOpensAt<F>(rows: seq<seq<F>>, mats: seq<Claimed<F>>, logBlowup: nat, n: nat, m: nat)
    requires m < n <= |rows| && n <= |mats|
    ensures RowOpens(rows, mats, logBlowup, n)[m] == RowOpen(rows[m], mats[m].log + logBlowup, mats[m].opens)
  { if m < n - 1 { RowOpensAt(rows, mats, logBlowup, n - 1, m); } }

  lemma {:induction false} RowOpensFit<F(!new)>(
    T: TwoAdicField<F>, rows: seq<seq<F>>, mats: seq<Claimed<F>>, logBlowup: nat, n: nat, top: nat)
    requires Fits(mats, logBlowup, top) && n <= |rows| && n <= |mats| && InField(T, logBlowup, mats, n)
    ensures forall m :: 0 <= m < n ==>
      RowOpens(rows, mats, logBlowup, n)[m].log <= top && RowOpens(rows, mats, logBlowup, n)[m].log < 32
  {
    forall m | 0 <= m < n
      ensures RowOpens(rows, mats, logBlowup, n)[m].log <= top && RowOpens(rows, mats, logBlowup, n)[m].log < 32
    { RowOpensAt(rows, mats, logBlowup, n, m); assert HeightOk(T, mats[m].log + logBlowup); }
  }

  /** The index at which a batch is opened. */
  function BatchIndex<F>(mats: seq<Claimed<F>>, logBlowup: nat, top: nat, index: nat): nat
    requires Fits(mats, logBlowup, top)
  { FitsBelow(mats, logBlowup, top); Shr(index, top - LogOf(MaxOf(BatchHeights(mats, logBlowup)))) }

  /** `two_adic_generator` has an answer for the heights of the first n matrices, and the arrays of
      reduced openings have a place for them. */
  predicate InField<F(!new)>(T: TwoAdicField<F>, logBlowup: nat, mats: seq<Claimed<F>>, n: nat)
    requires n <= |mats|
  { forall m :: 0 <= m < n ==> HeightOk(T, mats[m].log + logBlowup) }

  predicate HeightOk<F(!new)>(T: TwoAdicField<F>, log: nat) { log <= T.bits && log < 32 }

  function ReduceBatch<F(!new), C(!new), P, D(!new), Q(!new)>(
    pcs: Params<F, C, P, D, Q>, alpha: F, top: nat, index: nat, vs: Running<F>, rows: seq<seq<F>>,
    mats: seq<Claimed<F>>): (r: Running<F>)
    requires RunningOk(vs) && Fits(mats, pcs.fri.logBlowup, top)
    requires InField(pcs.T, pcs.fri.logBlowup, mats, Min(|rows|, |mats|))
    ensures RunningOk(r)
  {
    var n := Min(|rows|, |mats|);
    RowOpensFit(pcs.T, rows, mats, pcs.fri.logBlowup, n, top);
    CheckMats(pcs.T, pcs.shift, alpha, top, index, vs, RowOpens(rows, mats, pcs.fri.logBlowup, n), n)
  }

  /** The verifier divides by x - z for every claimed value it pairs with an opened one; none of these
      is a division by zero for the first n matrices. */
  predicate Divisible<F(==, !new)>(
    T: TwoAdicField<F>, shift: F, logBlowup: nat, top: nat, index: nat, rows: seq<seq<F>>, mats: seq<Claimed<F>>,
    n: nat)
    requires n <= |rows| && n <= |mats| && Fits(mats, logBlowup, top)
  {
    forall m, p :: 0 <= m < n && 0 <= p < |mats[m].opens| && Paired(rows[m], mats[m].opens[p].ys) > 0 ==>
      T.f.Add(T.f.Neg(mats[m].opens[p].z), QueryPoint(T, shift, top, index, mats[m].log + logBlowup)) != T.f.zero
  }

  /** One committed round at one query. */
  function CheckBatch<F(==, !new), C(!new), P, D(!new), Q(!new)>(
    pcs: Params<F, C, P, D, Q>, alpha: F, top: nat, index: nat, vs: Running<F>, batch: BatchOpening<F, Q>,
    round: VerifierRound<F, D>)
    : (r: Result<Running<F>, PcsError>)
    requires RunningOk(vs)
    ensures r.Ok? ==> RunningOk(r.value)
  {
    var b, n := pcs.fri.logBlowup, Min(|batch.rows|, |round.mats|);
    if !Fits(round.mats, b, top) then Err(Panicked)
    else if !pcs.mmcs.Verify(round.commit, BatchHeights(round.mats, b), BatchIndex(round.mats, b, top, index),
         batch.rows, batch.proof) then Err(InputMmcsError)
    else if !InField(pcs.T, b, round.mats, n) then Err(Panicked)
    else if !Divisible(pcs.T, pcs.shift, b, top, index, batch.rows, round.mats, n) then Err(Panicked)
    else Ok(ReduceBatch(pcs, alpha, top, index, vs, batch.rows, round.mats))
  }

  /** The first error ends the query. */
  function NextBatch<F(==, !new), C(!new), P, D(!new), Q(!new)>(
    pcs: Params<F, C, P, D, Q>, alpha: F, top: nat, index: nat, before: Result<Running<F>, PcsError>,
    batch: BatchOpening<F, Q>, round: VerifierRound<F, D>)
    : (r: Result<Running<F>, PcsError>)
    requires before.Ok? ==> RunningOk(before.value)
    ensures r.Ok? ==> RunningOk(r.value)
  { if before.Err? then before else CheckBatch(pcs, alpha, top, index, before.value, batch, round) }

  /** The first n rounds at one query. */
  function CheckBatches<F(==, !new), C(!new), P, D(!new), Q(!new)>(
    pcs: Params<F, C, P, D, Q>, alpha: F, top: nat, index: nat, batches: seq<BatchOpening<F, Q>>,
    rounds: seq<VerifierRound<F, D>>, n: nat)
    : (r: Result<Running<F>, PcsError>)
    requires n <= |batches| && n <= |rounds|
    ensures r.Ok? ==> RunningOk(r.value)
  {
    if n == 0 then Ok(Running(ZeroVector(pcs.T.f, 32), Ones(pcs.T.f, 32)))
    else NextBatch(pcs, alpha, top, index, CheckBatches(pcs, alpha, top, index, batches, rounds, n - 1),
         batches[n - 1], rounds[n - 1])
  }

  /** The reduced openings of one query. */
  function QueryOpenings<F(==, !new), C(!new), P, D(!new), Q(!new)>(
    pcs: Params<F, C, P, D, Q>, alpha: F, top: nat, index: nat, batches: seq<BatchOpening<F, Q>>,
    rounds: seq<VerifierRound<F, D>>)
    : (r: Result<Running<F>, PcsError>)
    ensures r.Ok? ==> RunningOk(r.value)
  { CheckBatches(pcs, alpha, top, index, batches, rounds, Min(|batches|, |rounds|)) }

  /** Only the reduced openings, not the powers of alpha, leave a query. */
  function RoResult<F(==, !new), C(!new), P, D(!new), Q(!new)>(
    pcs: Params<F, C, P, D, Q>, alpha: F, top: nat, index: nat, batches: seq<BatchOpening<F, Q>>,
    rounds: seq<VerifierRound<F, D>>)
    : (r: Result<seq<F>, PcsError>)
    ensures r.Ok? ==> |r.value| == 32
  {
    var q := QueryOpenings(pcs, alpha, top, index, batches, rounds);
    if q.Err? then Err(q.error) else Ok(q.value.ro)
  }

  /** These are the reduced openings of the query. */
  ghost predicate RoIs<F(!new), C(!new), P, D(!new), Q(!new)>(
    pcs: Params<F, C, P, D, Q>, alpha: F, top: nat, index: nat, batches: seq<BatchOpening<F, Q>>,
    rounds: seq<VerifierRound<F, D>>, ro: seq<F>)
  { RoResult(pcs, alpha, top, index, batches, rounds) == Ok(ro) }

  /** These are the reduced openings of the first queries. */
  ghost predicate RosTo<F(!new), C(!new), P, D(!new), Q(!new)>(
    pcs: Params<F, C, P, D, Q>, alpha: F, top: nat, indices: seq<nat>, rounds: seq<VerifierRound<F, D>>,
    openings: seq<seq<BatchOpening<F, Q>>>, ros: seq<seq<F>>)
  {
    && |ros| <= |openings| && |ros| <= |indices|
    && forall i: nat {:trigger AtIndex(i)} :: i < |ros| ==>
         RoIs(pcs, alpha, top, indices[i], openings[i], rounds, ros[i])
  }

  /** `zip` stops at the shorter of openings and indices. */
  ghost predicate RosAre<F(!new), C(!new), P, D(!new), Q(!new)>(
    pcs: Params<F, C, P, D, Q>, alpha: F, top: nat, indices: seq<nat>, rounds: seq<VerifierRound<F, D>>,
    openings: seq<seq<BatchOpening<F, Q>>>, ros: seq<seq<F>>)
  { |ros| == Min(|openings|, |indices|) && RosTo(pcs, alpha, top, indices, rounds, openings, ros) }

  /** The number of queries that have everything that is zipped. */
  function Zipped<F, C, P, W>(ch: Challenges<F>, fri: FriProof<F, C, P, W>, ros: seq<seq<F>>): nat
  { Min(|ch.indices|, Min(|fri.queries|, |ros|)) }

  /** The FRI verifier accepts these reduced openings; without queries it checks nothing. */
  ghost predicate FriPasses<F(!new), C(!new), P, W(!new), D(!new), Q(!new)>(
    pcs: Params<F, C, P, D, Q>, ch: Challenges<F>, fri: FriProof<F, C, P, W>, ros: seq<seq<F>>)
  {
    var top := |fri.commits| + pcs.fri.logBlowup;
    Zipped(ch, fri, ros) > 0 ==>
      HeightOk(pcs.T, top) && RosOk(ros, top) && AllAccepted(pcs.fri, pcs.T, fri, ch, ros, Zipped(ch, fri, ros))
  }

  ghost predicate QueriesAccepted<F(!new), C(!new), P, W(!new), D(!new), Q(!new)>(
    pcs: Params<F, C, P, D, Q>, alpha: F, ch: Challenges<F>, rounds: seq<VerifierRound<F, D>>,
    proof: PcsProof<F, C, P, W, Q>, ros: seq<seq<F>>)
  {
    && RosAre(pcs, alpha, |proof.fri.commits| + pcs.fri.logBlowup, ch.indices, rounds, proof.openings, ros)
    && FriPasses(pcs, ch, proof.fri, ros)
  }

  /** Everything the verifier checks. */
  ghost predicate Accepted<F(!new), C(!new), P, W(!new), D(!new), Q(!new)>(
    pcs: Params<F, C, P, D, Q>, sponge: Sponge<F, C, W>, log: Transcript<F, C, W>, rounds: seq<VerifierRound<F, D>>,
    proof: PcsProof<F, C, P, W, Q>)
  {
    var values := ClaimedValues(rounds);
    var seen := SeeRounds(log, values, |values|);
    var ch := SampledChallenges(pcs.fri, sponge, proof.fri, seen + [DrewExt]);
    ch.Ok? && exists ros :: QueriesAccepted(pcs, sponge.Ext(seen), ch.value, rounds, proof, ros)
  }

  // ---------- the outcome, with its first error ----------

  /** What the first n queries reduce to. */
  function Reductions<F(==, !new), C(!new), P, D(!new), Q(!new)>(
    pcs: Params<F, C, P, D, Q>, alpha: F, top: nat, indices: seq<nat>, rounds: seq<VerifierRound<F, D>>,
    openings: seq<seq<BatchOpening<F, Q>>>, n: nat)
    : (rs: seq<Result<seq<F>, PcsError>>)
    requires n <= |openings| && n <= |indices|
    ensures |rs| == n
  {
    if n == 0 then []
    else Reductions(pcs, alpha, top, indices, rounds, openings, n - 1)
         + [RoResult(pcs, alpha, top, indices[n - 1], openings[n - 1], rounds)]
  }

  /** The verdict of the FRI verifier: its first query asks for the generator of the whole domain, and
      the first failure is returned. */
  function FriVerdict<F(==, !new), C(!new), P, W(!new), D(!new), Q(!new)>(
    pcs: Params<F, C, P, D, Q>, ch: Challenges<F>, fri: FriProof<F, C, P, W>, ros: seq<seq<F>>)
    : Result<(), PcsError>
    requires RosOk(ros, 31)
  {
    if Zipped(ch, fri, ros) == 0 then Ok(())
    else if !HeightOk(pcs.T, |fri.commits| + pcs.fri.logBlowup) then Err(Panicked)
    else Lifted(FirstError(Verdicts(pcs.fri, pcs.T, fri, ch, ros, Zipped(ch, fri, ros))))
  }

  function Lifted(v: Result<(), FriError>): Result<(), PcsError> { if v.Ok? then Ok(()) else Err(FriFailed(v.error)) }

  lemma {:induction false} ReductionsAt<F(!new), C(!new), P, D(!new), Q(!new)>(
    pcs: Params<F, C, P, D, Q>, alpha: F, top: nat, indices: seq<nat>, rounds: seq<VerifierRound<F, D>>,
    openings: seq<seq<BatchOpening<F, Q>>>, n: nat, i: nat)
    requires i < n <= |openings| && n <= |indices|
    ensures Reductions(pcs, alpha, top, indices, rounds, openings, n)[i]
         == RoResult(pcs, alpha, top, indices[i], openings[i], rounds)
  { if i < n - 1 { ReductionsAt(pcs, alpha, top, indices, rounds, openings, n - 1, i); } }

  lemma {:induction false} ReducedSizes<F(!new), C(!new), P, D(!new), Q(!new)>(
    pcs: Params<F, C, P, D, Q>, alpha: F, top: nat, indices: seq<nat>, rounds: seq<VerifierRound<F, D>>,
    openings: seq<seq<BatchOpening<F, Q>>>, n: nat)
    requires n <= |openings| && n <= |indices|
    ensures var ros := Collect(Reductions(pcs, alpha, top, indices, rounds, openings, n));
      ros.Ok? ==> |ros.value| == n && RosOk(ros.value, 31)
  {
    var rs := Reductions(pcs, alpha, top, indices, rounds, openings, n);
    CollectSize(rs);
    if Collect(rs).Ok? {
      var ros := Collect(rs).value;
      CollectOk(rs, ros);
      forall i | 0 <= i < n ensures |ros[i]| == 32
      { ReductionsAt(pcs, alpha, top, indices, rounds, openings, n, i); assert rs[i] == Ok(ros[i]); }
    }
  }

  /** The reduced openings of all queries, or the first error. */
  function ReducedAll<F(==, !new), C(!new), P, D(!new), Q(!new)>(
    pcs: Params<F, C, P, D, Q>, alpha: F, top: nat, indices: seq<nat>, rounds: seq<VerifierRound<F, D>>,
    openings: seq<seq<BatchOpening<F, Q>>>)
    : (r: Result<seq<seq<F>>, PcsError>)
    ensures r.Ok? ==> |r.value| == Min(|openings|, |indices|) && RosOk(r.value, 31)
  {
    var k := Min(|openings|, |indices|);
    ReducedSizes(pcs, alpha, top, indices, rounds, openings, k);
    Collect(Reductions(pcs, alpha, top, indices, rounds, openings, k))
  }

  /** What the queries decide. */
  function QueriesOutcome<F(==, !new), C(!new), P, W(!new), D(!new), Q(!new)>(
    pcs: Params<F, C, P, D, Q>, alpha: F, ch: Challenges<F>, rounds: seq<VerifierRound<F, D>>,
    proof: PcsProof<F, C, P, W, Q>)
    : Result<(), PcsError>
  {
    var top := |proof.fri.commits| + pcs.fri.logBlowup;
    AfterReduction(pcs, ch, proof.fri, ReducedAll(pcs, alpha, top, ch.indices, rounds, proof.openings))
  }

  function AfterReduction<F(==, !new), C(!new), P, W(!new), D(!new), Q(!new)>(
    pcs: Params<F, C, P, D, Q>, ch: Challenges<F>, fri: FriProof<F, C, P, W>, ros: Result<seq<seq<F>>, PcsError>)
    : Result<(), PcsError>
    requires ros.Ok? ==> RosOk(ros.value, 31)
  { if ros.Err? then Err(ros.error) else FriVerdict(pcs, ch, fri, ros.value) }

  /** What `verify` returns: success or its first error. */
  function Outcome<F(==, !new), C(!new), P, W(!new), D(!new), Q(!new)>(
    pcs: Params<F, C, P, D, Q>, sponge: Sponge<F, C, W>, log: Transcript<F, C, W>, rounds: seq<VerifierRound<F, D>>,
    proof: PcsProof<F, C, P, W, Q>)
    : Result<(), PcsError>
  {
    var values := ClaimedValues(rounds);
    var seen := SeeRounds(log, values, |values|);
    var ch := SampledChallenges(pcs.fri, sponge, proof.fri, seen + [DrewExt]);
    if ch.Err? then Err(FriFailed(ch.error)) else QueriesOutcome(pcs, sponge.Ext(seen), ch.value, rounds, proof)
  }

  /** The reduced openings of the queries are what the reduction returns, and nothing else is. */
  lemma {:induction false} ReducedIs<F(!new), C(!new), P, D(!new), Q(!new)>(
    pcs: Params<F, C, P, D, Q>, alpha: F, top: nat, indices: seq<nat>, rounds: seq<VerifierRound<F, D>>,
    openings: seq<seq<BatchOpening<F, Q>>>, ros: seq<seq<F>>)
    ensures RosAre(pcs, alpha, top, indices, rounds, openings, ros) <==>
      ReducedAll(pcs, alpha, top, indices, rounds, openings) == Ok(ros)
  {
    var k := Min(|openings|, |indices|);
    var rs := Reductions(pcs, alpha, top, indices, rounds, openings, k);
    if |ros| == k {
      CollectOk(rs, ros);
      forall i | 0 <= i < k
        ensures RoIs(pcs, alpha, top, indices[i], openings[i], rounds, ros[i]) <==> rs[i] == Ok(ros[i])
      { ReductionsAt(pcs, alpha, top, indices, rounds, openings, k, i); }
      if RosAre(pcs, alpha, top, indices, rounds, openings, ros) {
        forall i | 0 <= i < k ensures rs[i] == Ok(ros[i]) { assert AtIndex(i); }
      }
    }
  }

  /** The queries succeed exactly when some reduced openings are accepted. */
  lemma {:induction false} QueriesSucceed<F(!new), C(!new), P, W(!new), D(!new), Q(!new)>(
    pcs: Params<F, C, P, D, Q>, alpha: F, ch: Challenges<F>, rounds: seq<VerifierRound<F, D>>,
    proof: PcsProof<F, C, P, W, Q>)
    ensures QueriesOutcome(pcs, alpha, ch, rounds, proof).Ok? <==>
      exists ros :: QueriesAccepted(pcs, alpha, ch, rounds, proof, ros)
  {
    if QueriesOutcome(pcs, alpha, ch, rounds, proof).Ok? {
      var ros := SuccessAccepted(pcs, alpha, ch, rounds, proof);
    }
    forall ros | QueriesAccepted(pcs, alpha, ch, rounds, proof, ros)
      ensures QueriesOutcome(pcs, alpha, ch, rounds, proof).Ok?
    { AcceptedSucceeds(pcs, alpha, ch, rounds, proof, ros); }
  }

  lemma {:induction false} SuccessAccepted<F(!new), C(!new), P, W(!new), D(!new), Q(!new)>(
    pcs: Params<F, C, P, D, Q>, alpha: F, ch: Challenges<F>, rounds: seq<VerifierRound<F, D>>,
    proof: PcsProof<F, C, P, W, Q>)
    returns (ros: seq<seq<F>>)
    requires QueriesOutcome(pcs, alpha, ch, rounds, proof).Ok?
    ensures QueriesAccepted(pcs, alpha, ch, rounds, proof, ros)
  {
    var top := |proof.fri.commits| + pcs.fri.logBlowup;
    var reduced := ReducedAll(pcs, alpha, top, ch.indices, rounds, proof.openings);
    ros := reduced.value;
    AfterPasses(pcs, ch, proof.fri, reduced, ros);
    ReducedIs(pcs, alpha, top, ch.indices, rounds, proof.openings, ros);
  }

  lemma {:induction false} AcceptedSucceeds<F(!new), C(!new), P, W(!new), D(!new), Q(!new)>(
    pcs: Params<F, C, P, D, Q>, alpha: F, ch: Challenges<F>, rounds: seq<VerifierRound<F, D>>,
    proof: PcsProof<F, C, P, W, Q>, ros: seq<seq<F>>)
    requires QueriesAccepted(pcs, alpha, ch, rounds, proof, ros)
    ensures QueriesOutcome(pcs, alpha, ch, rounds, proof).Ok?
  {
    var top := |proof.fri.commits| + pcs.fri.logBlowup;
    AcceptedReduces(pcs, alpha, ch, rounds, proof, ros, top);
    AfterPasses(pcs, ch, proof.fri, ReducedAll(pcs, alpha, top, ch.indices, rounds, proof.openings), ros);
  }

  lemma {:induction false} AcceptedReduces<F(!new), C(!new), P, W(!new), D(!new), Q(!new)>(
    pcs: Params<F, C, P, D, Q>, alpha: F, ch: Challenges<F>, rounds: seq<VerifierRound<F, D>>,
    proof: PcsProof<F, C, P, W, Q>, ros: seq<seq<F>>, top: nat)
    requires QueriesAccepted(pcs, alpha, ch, rounds, proof, ros) && top == |proof.fri.commits| + pcs.fri.logBlowup
    ensures ReducedAll(pcs, alpha, top, ch.indices, rounds, proof.openings) == Ok(ros) && RosOk(ros, 31)
  { ReducedIs(pcs, alpha, top, ch.indices, rounds, proof.openings, ros); }

  lemma {:induction false} AfterPasses<F(!new), C(!new), P, W(!new), D(!new), Q(!new)>(
    pcs: Params<F, C, P, D, Q>, ch: Challenges<F>, fri: FriProof<F, C, P, W>, reduced: Result<seq<seq<F>>, PcsError>,
    ros: seq<seq<F>>)
    requires reduced == Ok(ros) && RosOk(ros, 31)
    ensures AfterReduction(pcs, ch, fri, reduced).Ok? <==> FriPasses(pcs, ch, fri, ros)
  { VerdictPasses(pcs, ch, fri, ros); }

  lemma {:induction false} VerdictPasses<F(!new), C(!new), P, W(!new), D(!new), Q(!new)>(
    pcs: Params<F, C, P, D, Q>, ch: Challenges<F>, fri: FriProof<F, C, P, W>, ros: seq<seq<F>>)
    requires RosOk(ros, 31)
    ensures FriPasses(pcs, ch, fri, ros) <==> FriVerdict(pcs, ch, fri, ros).Ok?
  {
    if Zipped(ch, fri, ros) > 0 && HeightOk(pcs.T, |fri.commits| + pcs.fri.logBlowup) {
      VerdictsOk(pcs.fri, pcs.T, fri, ch, ros, Zipped(ch, fri, ros));
    }
  }

  /** `verify` succeeds exactly when everything it checks holds. */
  lemma {:induction false} OutcomeAccepted<F(!new), C(!new), P, W(!new), D(!new), Q(!new)>(
    pcs: Params<F, C, P, D, Q>, sponge: Sponge<F, C, W>, log: Transcript<F, C, W>, rounds: seq<VerifierRound<F, D>>,
    proof: PcsProof<F, C, P, W, Q>)
    ensures Outcome(pcs, sponge, log, rounds, proof).Ok? <==> Accepted(pcs, sponge, log, rounds, proof)
  {
    var values := ClaimedValues(rounds);
    var seen := SeeRounds(log, values, |values|);
    var ch := SampledChallenges(pcs.fri, sponge, proof.fri, seen + [DrewExt]);
    if ch.Ok? { QueriesSucceed(pcs, sponge.Ext(seen), ch.value, rounds, proof); }
  }

  // ---------- the verifier ----------

  /** One query's reduced openings. */
  method ReduceQuery<F(==, !new), C(!new), P, D(!new), Q(!new)>(
    pcs: Params<F, C, P, D, Q>, alpha: F, top: nat, index: nat, batches: seq<BatchOpening<F, Q>>,
    rounds: seq<VerifierRound<F, D>>)
    returns (r: Result<Running<F>, PcsError>)
    ensures r == QueryOpenings(pcs, alpha, top, index, batches, rounds)
  {
    r := Ok(Running(ZeroVector(pcs.T.f, 32), Ones(pcs.T.f, 32)));
    for i := 0 to Min(|batches|, |rounds|)
      invariant r == CheckBatches(pcs, alpha, top, index, batches, rounds, i)
    { r := NextBatch(pcs, alpha, top, index, r, batches[i], rounds[i]); }
  }

  /** All queries' reduced openings, or the first error. */
  method ReduceQueries<F(==, !new), C(!new), P, D(!new), Q(!new)>(
    pcs: Params<F, C, P, D, Q>, alpha: F, top: nat, indices: seq<nat>, rounds: seq<VerifierRound<F, D>>,
    openings: seq<seq<BatchOpening<F, Q>>>)
    returns (r: Result<seq<seq<F>>, PcsError>)
    ensures r == ReducedAll(pcs, alpha, top, indices, rounds, openings)
  {
    var k, i := Min(|openings|, |indices|), 0;
    ghost var rs := Reductions(pcs, alpha, top, indices, rounds, openings, k);
    var ros := [];
    while i < k
      invariant i <= k && |ros| == i && forall j :: 0 <= j < i ==> rs[j] == Ok(ros[j])
    {
      ReductionsAt(pcs, alpha, top, indices, rounds, openings, k, i);
      var q := ReduceQuery(pcs, alpha, top, indices[i], openings[i], rounds);
      if q.Err? { CollectAt(rs, i); return Err(q.error); }
      ros := ros + [q.value.ro];
      i := i + 1;
    }
    CollectOk(rs, ros);
    return Ok(ros);
  }

  /** `verify`: success or the first error, and success exactly when every check passes. */
  method Verify<F(!new, ==), C(!new), P, W(!new), D(!new), Q(!new)>(
    pcs: Params<F, C, P, D, Q>, rounds: seq<VerifierRound<F, D>>, proof: PcsProof<F, C, P, W, Q>,
    challenger: Challenger<F, C, W>)
    returns (r: Result<(), PcsError>)
    modifies challenger
    ensures r == Outcome(pcs, challenger.sponge, old(challenger.log), rounds, proof)
    ensures r.Ok? <==> Accepted(pcs, challenger.sponge, old(challenger.log), rounds, proof)
  {
    OutcomeAccepted(pcs, challenger.sponge, challenger.log, rounds, proof);
    var alpha := ObserveValues(challenger, ClaimedValues(rounds));
    var ch := VerifyShapeAndSampleChallenges(pcs.fri, proof.fri, challenger);
    if ch.Err? { return Err(FriFailed(ch.error)); }
    r := CheckQueries(pcs, alpha, ch.value, rounds, proof);
  }

  method CheckQueries<F(!new, ==), C(!new), P, W(!new), D(!new), Q(!new)>(
    pcs: Params<F, C, P, D, Q>, alpha: F, ch: Challenges<F>, rounds: seq<VerifierRound<F, D>>,
    proof: PcsProof<F, C, P, W, Q>)
    returns (r: Result<(), PcsError>)
    ensures r == QueriesOutcome(pcs, alpha, ch, rounds, proof)
  {
    var top := |proof.fri.commits| + pcs.fri.logBlowup;
    var ros := ReduceQueries(pcs, alpha, top, ch.indices, rounds, proof.openings);
    if ros.Err? { return Err(ros.error); }
    r := CheckFri(pcs, ch, proof.fri, ros.value);
  }

  /** `verify_challenges`, with the panic of its first query. */
  method CheckFri<F(!new, ==), C(!new), P, W(!new), D(!new), Q(!new)>(
    pcs: Params<F, C, P, D, Q>, ch: Challenges<F>, fri: FriProof<F, C, P, W>, ros: seq<seq<F>>)
    returns (r: Result<(), PcsError>)
    requires RosOk(ros, 31)
    ensures r == FriVerdict(pcs, ch, fri, ros)
  {
    if Zipped(ch, fri, ros) == 0 { return Ok(()); }
    if !HeightOk(pcs.T, |fri.commits| + pcs.fri.logBlowup) { return Err(Panicked); }
    var verdict := VerifyChallenges(pcs.fri, pcs.T, fri, ch, ros);
    r := Lifted(verdict);
  }
}
