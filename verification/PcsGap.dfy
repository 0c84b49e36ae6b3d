/** Which queries an accepted opening proof has been checked at.  `verify` pairs the openings with the
    query indices and stops with the shorter list; only the number of FRI queries is compared with
    the number that the configuration asks for. */
module PcsGap {
  import opened Basics
  import opened Bits
  import opened TwoAdic
  import opened Transcripts
  import opened Fri
  import opened PcsReduce
  import opened Pcs
  import opened PcsVerify

  /** The transcript at which the verifier samples its challenges, and the challenges. */
  function Sampled<F(!new), C(!new), P, W(!new), D(!new), Q(!new)>(
    pcs: Params<F, C, P, D, Q>, sponge: Sponge<F, C, W>, log: Transcript<F, C, W>, rounds: seq<VerifierRound<F, D>>,
    proof: PcsProof<F, C, P, W, Q>): Result<Challenges<F>, FriError>
  {
    var values := ClaimedValues(rounds);
    SampledChallenges(pcs.fri, sponge, proof.fri, SeeRounds(log, values, |values|) + [DrewExt])
  }

  function Alpha<F(!new), C(!new), W(!new), D(!new)>(
    sponge: Sponge<F, C, W>, log: Transcript<F, C, W>, rounds: seq<VerifierRound<F, D>>): F
  { var values := ClaimedValues(rounds); sponge.Ext(SeeRounds(log, values, |values|)) }

  /** How many queries are checked. */
  function Checked<F(!new), C(!new), P, W(!new), D(!new), Q(!new)>(
    pcs: Params<F, C, P, D, Q>, proof: PcsProof<F, C, P, W, Q>): nat
  { Min(|proof.openings|, pcs.fri.numQueries) }

  /** The FRI proof cut down to one query. */
  function Single<F, C, P, W>(fri: FriProof<F, C, P, W>, i: nat): FriProof<F, C, P, W>
    requires i < |fri.queries|
  { fri.(queries := [fri.queries[i]]) }

  /** Query i passes: its batch openings verify, and so does its FRI query on their reduction. */
  ghost predicate QueryOk<F(!new), C(!new), P, W(!new), D(!new), Q(!new)>(
    pcs: Params<F, C, P, D, Q>, alpha: F, ch: Challenges<F>, rounds: seq<VerifierRound<F, D>>,
    proof: PcsProof<F, C, P, W, Q>, i: nat)
    requires i < |ch.indices| && i < |proof.openings| && i < |proof.fri.queries|
  {
    var top := |proof.fri.commits| + pcs.fri.logBlowup;
    var ro := RoResult(pcs, alpha, top, ch.indices[i], proof.openings[i], rounds);
    && ro.Ok? && HeightOk(pcs.T, top)
    && CheckQuery(pcs.fri, pcs.T, Single(proof.fri, i), Challenges([ch.indices[i]], ch.betas), [ro.value], 0).Ok?
  }

  /** The verdict on a query depends on that query alone. */
  lemma {:induction false} OneQuery<F(!new), C(!new), P, W(!new)>(
    cfg: Config<F, C, P>, T: TwoAdicField<F>, fri: FriProof<F, C, P, W>, ch: Challenges<F>, ros: seq<seq<F>>, i: nat)
    requires i < |ch.indices| && i < |fri.queries| && i < |ros| && |fri.commits| + cfg.logBlowup < |ros[i]|
    ensures CheckQuery(cfg, T, fri, ch, ros, i)
         == CheckQuery(cfg, T, Single(fri, i), Challenges([ch.indices[i]], ch.betas), [ros[i]], 0)
  {}

  lemma {:induction false} SampledSizes<F(!new), C(!new), P, W(!new), D(!new), Q(!new)>(
    pcs: Params<F, C, P, D, Q>, sponge: Sponge<F, C, W>, log: Transcript<F, C, W>, rounds: seq<VerifierRound<F, D>>,
    proof: PcsProof<F, C, P, W, Q>)
    requires Sampled(pcs, sponge, log, rounds, proof).Ok?
    ensures |Sampled(pcs, sponge, log, rounds, proof).value.indices| == pcs.fri.numQueries == |proof.fri.queries|
  {}

  /** With given reduced openings, acceptance is that of every query that has them. */
  lemma {:induction false} AcceptedAt<F(!new), C(!new), P, W(!new), D(!new), Q(!new)>(
    pcs: Params<F, C, P, D, Q>, alpha: F, ch: Challenges<F>, rounds: seq<VerifierRound<F, D>>,
    proof: PcsProof<F, C, P, W, Q>, ros: seq<seq<F>>, i: nat)
    requires QueriesAccepted(pcs, alpha, ch, rounds, proof, ros)
    requires i < |ch.indices| && i < |proof.openings| && i < |proof.fri.queries|
    ensures QueryOk(pcs, alpha, ch, rounds, proof, i)
  {
    assert AtIndex(i);
    assert RoIs(pcs, alpha, |proof.fri.commits|
        + pcs.fri.logBlowup, ch.indices[i], proof.openings[i], rounds, ros[i]);
    OneQuery(pcs.fri, pcs.T, proof.fri, ch, ros, i);
  }

  /** The first n queries reduce without an error. */
  ghost predicate AllReduce<F(!new), C(!new), P, D(!new), Q(!new)>(
    pcs: Params<F, C, P, D, Q>, alpha: F, top: nat, indices: seq<nat>, rounds: seq<VerifierRound<F, D>>,
    openings: seq<seq<BatchOpening<F, Q>>>, n: nat)
    requires n <= |openings| && n <= |indices|
  {
    forall i: nat {:trigger AtIndex(i)} :: i < n ==>
        RoResult(pcs, alpha, top, indices[i], openings[i], rounds).Ok?
  }

  /** The reduced openings of the first n queries. */
  lemma {:induction false} RosOf<F(!new), C(!new), P, D(!new), Q(!new)>(
    pcs: Params<F, C, P, D, Q>, alpha: F, top: nat, indices: seq<nat>, rounds: seq<VerifierRound<F, D>>,
    openings: seq<seq<BatchOpening<F, Q>>>, n: nat)
    returns (ros: seq<seq<F>>)
    requires n <= |openings| && n <= |indices| && AllReduce(pcs, alpha, top, indices, rounds, openings, n)
    ensures |ros| == n && RosOk(ros, 31) && RosTo(pcs, alpha, top, indices, rounds, openings, ros)
    decreases n
  {
    if n == 0 { ros := []; }
    else {
      forall i: nat | i < n - 1 ensures RoResult(pcs, alpha, top, indices[i], openings[i], rounds).Ok?
      { assert AtIndex(i); }
      var init := RosOf(pcs, alpha, top, indices, rounds, openings, n - 1);
      assert AtIndex(n - 1);
      var ro := RoResult(pcs, alpha, top, indices[n - 1], openings[n - 1], rounds).value;
      RosPush(pcs, alpha, top, indices, rounds, openings, init, ro);
      ros := init + [ro];
    }
  }

  lemma {:induction false} RosPush<F(!new), C(!new), P, D(!new), Q(!new)>(
    pcs: Params<F, C, P, D, Q>, alpha: F, top: nat, indices: seq<nat>, rounds: seq<VerifierRound<F, D>>,
    openings: seq<seq<BatchOpening<F, Q>>>, ros: seq<seq<F>>, ro: seq<F>)
    requires RosTo(pcs, alpha, top, indices, rounds, openings, ros) && |ros| < |openings| && |ros| < |indices|
    requires RoIs(pcs, alpha, top, indices[|ros|], openings[|ros|], rounds, ro)
    ensures RosTo(pcs, alpha, top, indices, rounds, openings, ros + [ro])
  {
    var all := ros + [ro];
    forall i: nat | i < |all| ensures RoIs(pcs, alpha, top, indices[i], openings[i], rounds, all[i])
    { assert AtIndex(i); }
  }

  lemma {:induction false} PassingReduce<F(!new), C(!new), P, W(!new), D(!new), Q(!new)>(
    pcs: Params<F, C, P, D, Q>, alpha: F, ch: Challenges<F>, rounds: seq<VerifierRound<F, D>>,
    proof: PcsProof<F, C, P, W, Q>, k: nat)
    requires k <= |proof.openings| && k <= |ch.indices| == |proof.fri.queries|
    requires forall i :: 0 <= i < k ==> QueryOk(pcs, alpha, ch, rounds, proof, i)
    ensures AllReduce(pcs, alpha, |proof.fri.commits| + pcs.fri.logBlowup, ch.indices, rounds, proof.openings, k)
  {
    var top := |proof.fri.commits| + pcs.fri.logBlowup;
    forall i: nat | i < k ensures RoResult(pcs, alpha, top, ch.indices[i], proof.openings[i], rounds).Ok?
    { assert QueryOk(pcs, alpha, ch, rounds, proof, i); }
  }

  lemma {:induction false} PassingFri<F(!new), C(!new), P, W(!new), D(!new), Q(!new)>(
    pcs: Params<F, C, P, D, Q>, alpha: F, ch: Challenges<F>, rounds: seq<VerifierRound<F, D>>,
    proof: PcsProof<F, C, P, W, Q>, ros: seq<seq<F>>)
    requires |ros| <= |proof.openings| && |ros| <= |ch.indices| == |proof.fri.queries| && RosOk(ros, 31)
    requires RosTo(pcs, alpha, |proof.fri.commits| + pcs.fri.logBlowup, ch.indices, rounds, proof.openings, ros)
    requires forall i :: 0 <= i < |ros| ==> QueryOk(pcs, alpha, ch, rounds, proof, i)
    ensures FriPasses(pcs, ch, proof.fri, ros)
  {
    if |ros| > 0 {
      assert QueryOk(pcs, alpha, ch, rounds, proof, 0);
      forall i | 0 <= i < |ros| ensures CheckQuery(pcs.fri, pcs.T, proof.fri, ch, ros, i).Ok?
      { PassesAt(pcs, alpha, ch, rounds, proof, ros, i); }
    }
  }

  lemma {:induction false} AllPass<F(!new), C(!new), P, W(!new), D(!new), Q(!new)>(
    pcs: Params<F, C, P, D, Q>, alpha: F, ch: Challenges<F>, rounds: seq<VerifierRound<F, D>>,
    proof: PcsProof<F, C, P, W, Q>)
    requires |ch.indices| == |proof.fri.queries|
    requires forall i :: 0 <= i < Min(|proof.openings|, |ch.indices|) ==> QueryOk(pcs, alpha, ch, rounds, proof, i)
    ensures exists ros :: QueriesAccepted(pcs, alpha, ch, rounds, proof, ros)
  {
    var top, k := |proof.fri.commits| + pcs.fri.logBlowup, Min(|proof.openings|, |ch.indices|);
    PassingReduce(pcs, alpha, ch, rounds, proof, k);
    var ros := RosOf(pcs, alpha, top, ch.indices, rounds, proof.openings, k);
    PassingFri(pcs, alpha, ch, rounds, proof, ros);
    assert QueriesAccepted(pcs, alpha, ch, rounds, proof, ros);
  }

  lemma {:induction false} PassesAt<F(!new), C(!new), P, W(!new), D(!new), Q(!new)>(
    pcs: Params<F, C, P, D, Q>, alpha: F, ch: Challenges<F>, rounds: seq<VerifierRound<F, D>>,
    proof: PcsProof<F, C, P, W, Q>, ros: seq<seq<F>>, i: nat)
    requires i < |ch.indices| && i < |proof.openings| && i < |proof.fri.queries| && i < |ros|
    requires RosTo(pcs, alpha, |proof.fri.commits| + pcs.fri.logBlowup, ch.indices, rounds, proof.openings, ros)
    requires QueryOk(pcs, alpha, ch, rounds, proof, i)
    ensures |proof.fri.commits| + pcs.fri.logBlowup < |ros[i]|
    ensures CheckQuery(pcs.fri, pcs.T, proof.fri, ch, ros, i).Ok?
  {
    assert AtIndex(i);
    assert RoIs(pcs, alpha, |proof.fri.commits|
        + pcs.fri.logBlowup, ch.indices[i], proof.openings[i], rounds, ros[i]);
    OneQuery(pcs.fri, pcs.T, proof.fri, ch, ros, i);
  }

  /** Exactly the first min(openings, num_queries) queries are checked: a proof whose challenges can be
      sampled is accepted if and only if each of these passes.  They are all the queries if and only
      if there are at least as many openings. */
  lemma {:induction false} CheckedExactly<F(!new), C(!new), P, W(!new), D(!new), Q(!new)>(
    pcs: Params<F, C, P, D, Q>, sponge: Sponge<F, C, W>, log: Transcript<F, C, W>, rounds: seq<VerifierRound<F, D>>,
    proof: PcsProof<F, C, P, W, Q>, ch: Challenges<F>)
    requires Sampled(pcs, sponge, log, rounds, proof) == Ok(ch)
    ensures |ch.indices| == |proof.fri.queries| == pcs.fri.numQueries
    ensures Checked(pcs, proof) == pcs.fri.numQueries <==> |proof.openings| >= pcs.fri.numQueries
    ensures Accepted(pcs, sponge, log, rounds, proof) <==>
      forall i :: 0 <= i < Checked(pcs, proof) ==> QueryOk(pcs, Alpha(sponge, log, rounds), ch, rounds, proof, i)
  {
    var alpha := Alpha(sponge, log, rounds);
    SampledSizes(pcs, sponge, log, rounds, proof);
    if Accepted(pcs, sponge, log, rounds, proof) {
      var ros :| QueriesAccepted(pcs, alpha, ch, rounds, proof, ros);
      forall i | 0 <= i < Checked(pcs, proof) ensures QueryOk(pcs, alpha, ch, rounds, proof, i)
      { AcceptedAt(pcs, alpha, ch, rounds, proof, ros, i); }
    }
    if forall i :: 0 <= i < Checked(pcs, proof) ==> QueryOk(pcs, alpha, ch, rounds, proof, i) {
      AllPass(pcs, alpha, ch, rounds, proof);
    }
  }

  /** A query without openings does not affect the verdict. */
  lemma {:induction false} QueryUnread<F(!new), C(!new), P, W(!new), D(!new), Q(!new)>(
    pcs: Params<F, C, P, D, Q>, sponge: Sponge<F, C, W>, log: Transcript<F, C, W>, rounds: seq<VerifierRound<F, D>>,
    proof: PcsProof<F, C, P, W, Q>, i: nat, steps: seq<ProofStep<F, P>>)
    requires |proof.openings| <= i < |proof.fri.queries|
    ensures var other := proof.(fri := proof.fri.(queries := proof.fri.queries[i := steps]));
      Accepted(pcs, sponge, log, rounds, other) <==> Accepted(pcs, sponge, log, rounds, proof)
  {
    var other := proof.(fri := proof.fri.(queries := proof.fri.queries[i := steps]));
    assert Sampled(pcs, sponge, log, rounds, other) == Sampled(pcs, sponge, log, rounds, proof);
    var ch := Sampled(pcs, sponge, log, rounds, proof);
    if ch.Ok? {
      var alpha := Alpha(sponge, log, rounds);
      CheckedExactly(pcs, sponge, log, rounds, proof, ch.value);
      CheckedExactly(pcs, sponge, log, rounds, other, ch.value);
      forall j | 0 <= j < Checked(pcs, proof)
        ensures QueryOk(pcs, alpha, ch.value, rounds, other, j) <==> QueryOk(pcs, alpha, ch.value, rounds, proof, j)
      { SameQuery(pcs, alpha, ch.value, rounds, proof, i, steps, j); }
    }
  }

  lemma {:induction false} SameQuery<F(!new), C(!new), P, W(!new), D(!new), Q(!new)>(
    pcs: Params<F, C, P, D, Q>, alpha: F, ch: Challenges<F>, rounds: seq<VerifierRound<F, D>>,
    proof: PcsProof<F, C, P, W, Q>, i: nat, steps: seq<ProofStep<F, P>>, j: nat)
    requires j < i < |proof.fri.queries| && j < |ch.indices| && j < |proof.openings|
    ensures var other := proof.(fri := proof.fri.(queries := proof.fri.queries[i := steps]));
      QueryOk(pcs, alpha, ch, rounds, other, j) <==> QueryOk(pcs, alpha, ch, rounds, proof, j)
  {
    var other := proof.(fri := proof.fri.(queries := proof.fri.queries[i := steps]));
    assert Single(other.fri, j) == Single(proof.fri, j);
  }

  /** In particular a proof without openings is accepted as soon as its challenges can be sampled,
      whatever values are claimed. */
  lemma {:induction false} NothingOpened<F(!new), C(!new), P, W(!new), D(!new), Q(!new)>(
    pcs: Params<F, C, P, D, Q>, sponge: Sponge<F, C, W>, log: Transcript<F, C, W>, rounds: seq<VerifierRound<F, D>>,
    proof: PcsProof<F, C, P, W, Q>)
    requires proof.openings == []
    ensures Accepted(pcs, sponge, log, rounds, proof) <==> Sampled(pcs, sponge, log, rounds, proof).Ok?
  {
    var ch := Sampled(pcs, sponge, log, rounds, proof);
    if ch.Ok? { CheckedExactly(pcs, sponge, log, rounds, proof, ch.value); }
  }
}
