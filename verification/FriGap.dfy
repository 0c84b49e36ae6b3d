/** The gap between the FRI prover and verifier: when every honest proof is accepted, said in terms of
    the prover's input, and an input whose honest proof is rejected.  And what a query with fewer
    steps than commitments still verifies. */
module FriGap {
  import opened Basics
  import opened Bits
  import opened Fields
  import opened TwoAdic
  import opened FriFold
  import opened Mmcs
  import opened Transcripts
  import opened Fri
  import opened FriCompleteness

  /** The input at height log_blowup is absent or all zero. */
  ghost predicate LowestVanishes<F(!new)>(f: Field<F>, input: Input<F>, logBlowup: nat)
    requires logBlowup < |input|
  { input[logBlowup].Some? ==> forall j :: 0 <= j < |input[logBlowup].value| ==> input[logBlowup].value[j] == f.zero }

  /** An honest run of low-degree inputs, with the reduced openings that the verifier computes. */
  ghost predicate HonestRun<F(!new), C(!new), P, W(!new)>(
    s: Setup<F, C, P, W>, polys: seq<seq<F>>, ros: seq<seq<F>>) {
    && s.Valid() && s.T.Laws() && s.sponge.Laws() && s.cfg.mmcs.Complete() && s.cfg.logBlowup <= s.top <= s.T.bits
    && LowDegree(s.T, s.input, s.top, s.cfg.logBlowup, polys) && |ros| == s.cfg.numQueries
    && var t := Rounds(s, NumRounds(s.top, s.cfg.logBlowup));
    && forall i :: 0 <= i < |ros| ==> OpeningsMatch(s.T.f, s.input, s.top, QueryIndices(s, t)[i], ros[i])
  }

  /** The verdict on query i of the honest proof. */
  ghost function Verdict<F(!new), C(!new), P, W(!new)>(
    s: Setup<F, C, P, W>, polys: seq<seq<F>>, ros: seq<seq<F>>, i: nat): Result<(), FriError>
    requires HonestRun(s, polys, ros) && i < |ros|
  {
    var t := Rounds(s, NumRounds(s.top, s.cfg.logBlowup));
    FriComplete(s, polys, ros);
    CheckQuery(s.cfg, s.T, ProofOf(s, t), Challenges(QueryIndices(s, t), t.betas), ros, i)
  }

  /** A low-degree input at height log_blowup is constant, so one queried entry decides. */
  lemma {:induction false} OneEntryDecides<F(!new)>(
    T: TwoAdicField<F>, input: Input<F>, top: nat, logBlowup: nat, polys: seq<seq<F>>, index: nat, ro: seq<F>)
    requires T.Laws() && logBlowup <= top && LowDegree(T, input, top, logBlowup, polys)
    requires OpeningsMatch(T.f, input, top, index, ro)
    ensures ro[logBlowup] == T.f.zero <==> LowestVanishes(T.f, input, logBlowup)
  {
    LowInput(T, input, top, logBlowup, polys, logBlowup);
    assert AtIndex(logBlowup);
    if input[logBlowup].Some? {
      ConstantCodeword(T, logBlowup, polys[logBlowup]);
      ShrBound(index, logBlowup, top - logBlowup);
    }
  }

  lemma {:induction false} VerdictIs<F(!new), C(!new), P, W(!new)>(
    s: Setup<F, C, P, W>, polys: seq<seq<F>>, ros: seq<seq<F>>, i: nat)
    requires HonestRun(s, polys, ros) && i < |ros|
    ensures Verdict(s, polys, ros, i) == if LowestVanishes(s.T.f, s.input, s.cfg.logBlowup) then Ok(())
    else Err(FinalPolyMismatch)
  {
    var n := NumRounds(s.top, s.cfg.logBlowup);
    var t := Rounds(s, n);
    FriComplete(s, polys, ros);
    RoundsHonest(s, n);
    HonestQueryVerdict(s, t, n, ros, i);
    OneEntryDecides(s.T, s.input, s.top, s.cfg.logBlowup, polys, QueryIndices(s, t)[i], ros[i]);
  }

  /** With at least one query, all queries of the honest proof are accepted exactly when the input at
      height log_blowup is absent or all zero. */
  lemma {:induction false} AcceptedIff<F(!new), C(!new), P, W(!new)>(
    s: Setup<F, C, P, W>, polys: seq<seq<F>>, ros: seq<seq<F>>)
    requires HonestRun(s, polys, ros) && s.cfg.numQueries >= 1
    ensures (forall i :: 0 <= i < |ros| ==> Verdict(s, polys, ros, i).Ok?) <==>
        LowestVanishes(s.T.f, s.input, s.cfg.logBlowup)
  {
    VerdictIs(s, polys, ros, 0);
    forall i | 0 <= i < |ros| ensures Verdict(s, polys, ros, i).Ok? <==>
        LowestVanishes(s.T.f, s.input, s.cfg.logBlowup)
    { VerdictIs(s, polys, ros, i); }
  }

  // ---------- short queries ----------

  /** The commitments that the rounds of a query before i read. */
  lemma {:induction false} RoundsReadBefore<F(!new), C, P>(
    cfg: Config<F, C, P>, T: TwoAdicField<F>, commits: seq<C>, index: nat, steps: seq<ProofStep<F, P>>,
    betas: seq<F>, ro: seq<F>, top: nat, i: nat, r: nat, c: C)
    requires i <= top && i <= r < |commits| && i <= |steps| && i <= |betas| && top < |ro|
    ensures QueryRounds(cfg, T, commits[r := c], index, steps, betas, ro, top, i)
         == QueryRounds(cfg, T, commits, index, steps, betas, ro, top, i)
  { if i > 0 { RoundsReadBefore(cfg, T, commits, index, steps, betas, ro, top, i - 1, r, c); } }

  /** How many rounds of query i the verifier folds: it stops with the shorter list. */
  function RoundsFolded<F(!new), C, P, W>(proof: FriProof<F, C, P, W>, ch: Challenges<F>, i: nat): nat
    requires i < |proof.queries|
  { Min(|proof.commits|, Min(|proof.queries[i]|, |ch.betas|)) }

  /** A commitment beyond the last step of a query does not affect its verdict. */
  lemma {:induction false} RoundUnread<F(!new), C(!new), P, W(!new)>(
    cfg: Config<F, C, P>, T: TwoAdicField<F>, proof: FriProof<F, C, P, W>, ch: Challenges<F>, ros: seq<seq<F>>,
    i: nat, r: nat, c: C)
    requires i < |ch.indices| && i < |proof.queries| && i < |ros| && |proof.commits| + cfg.logBlowup < |ros[i]|
    requires RoundsFolded(proof, ch, i) <= r < |proof.commits|
    ensures CheckQuery(cfg, T, proof.(commits := proof.commits[r := c]), ch, ros, i)
         == CheckQuery(cfg, T, proof, ch, ros, i)
  {
    RoundsReadBefore(cfg, T, proof.commits, ch.indices[i], proof.queries[i], ch.betas, ros[i],
                     |proof.commits| + cfg.logBlowup, RoundsFolded(proof, ch, i), r, c);
  }

  /** The opening of round r of a query is verified. */
  ghost predicate RoundVerified<F(!new), C, P>(
    cfg: Config<F, C, P>, T: TwoAdicField<F>, commits: seq<C>, index: nat, steps: seq<ProofStep<F, P>>,
    betas: seq<F>, ro: seq<F>, top: nat, r: nat)
    requires r < top < |ro| && r < |commits| && r < |steps| && r < |betas|
  {
    var q := QueryRounds(cfg, T, commits, index, steps, betas, ro, top, r);
    && q.Some?
    && cfg.mmcs.Verify(commits[r], [Pow2(top - r - 1)], q.value.index / 2,
         [PairAt(q.value.index, T.f.Add(q.value.folded, ro[top - r]), steps[r].sibling)], steps[r].opening)
  }

  lemma {:induction false} VerifiedBefore<F(!new), C, P>(
    cfg: Config<F, C, P>, T: TwoAdicField<F>, commits: seq<C>, index: nat, steps: seq<ProofStep<F, P>>,
    betas: seq<F>, ro: seq<F>, top: nat, i: nat, r: nat)
    requires r < i <= top < |ro| && i <= |commits| && i <= |steps| && i <= |betas|
    requires QueryRounds(cfg, T, commits, index, steps, betas, ro, top, i).Some?
    ensures RoundVerified(cfg, T, commits, index, steps, betas, ro, top, r)
  {
    QueryRoundsStep(cfg, T, commits, index, steps, betas, ro, top, i, top - i);
    if r < i - 1 { VerifiedBefore(cfg, T, commits, index, steps, betas, ro, top, i - 1, r); }
  }

  /** An accepted query has verified exactly the rounds that it folds: all of them when it has a step
      for every commitment. */
  lemma {:induction false} RoundRead<F(!new), C(!new), P, W(!new)>(
    cfg: Config<F, C, P>, T: TwoAdicField<F>, proof: FriProof<F, C, P, W>, ch: Challenges<F>, ros: seq<seq<F>>,
    i: nat, r: nat)
    requires i < |ch.indices| && i < |proof.queries| && i < |ros| && |proof.commits| + cfg.logBlowup < |ros[i]|
    requires CheckQuery(cfg, T, proof, ch, ros, i).Ok? && r < RoundsFolded(proof, ch, i)
    ensures RoundVerified(cfg, T, proof.commits, ch.indices[i], proof.queries[i], ch.betas, ros[i],
                          |proof.commits| + cfg.logBlowup, r)
  {
    VerifiedBefore(cfg, T, proof.commits, ch.indices[i], proof.queries[i], ch.betas, ros[i],
                   |proof.commits| + cfg.logBlowup, RoundsFolded(proof, ch, i), r);
  }

  /** A query without steps is accepted exactly when the final value is zero, whatever was committed
      and opened. */
  lemma {:induction false} EmptyQuery<F(!new), C(!new), P, W(!new)>(
    cfg: Config<F, C, P>, T: TwoAdicField<F>, proof: FriProof<F, C, P, W>, ch: Challenges<F>, ros: seq<seq<F>>,
    i: nat)
    requires i < |ch.indices| && i < |proof.queries| && i < |ros| && |proof.commits| + cfg.logBlowup < |ros[i]|
    requires proof.queries[i] == []
    ensures CheckQuery(cfg, T, proof, ch, ros, i).Ok? <==> proof.finalPoly == T.f.zero
  {}

  // ---------- a rejected honest proof ----------

  /** The field of three elements, whose two-adic subgroup is {1, -1}. */
  datatype Trit = Zero | One | Two

  function TritAdd(a: Trit, b: Trit): Trit {
    match a
    case Zero => b
    case One => (match b case Zero => One case One => Two case Two => Zero)
    case Two => (match b case Zero => Two case One => Zero case Two => One)
  }

  function TritNeg(a: Trit): Trit { match a case Zero => Zero case One => Two case Two => One }

  function TritMul(a: Trit, b: Trit): Trit {
    match a case Zero => Zero case One => b case Two => TritNeg(b)
  }

  /** Nonzero elements are their own inverses. */
  function Trits(): Field<Trit> {
    Field(Zero, One, (a, b) => TritAdd(a, b), (a, b) => TritAdd(a, TritNeg(b)), (a, b) => TritMul(a, b),
        (a, b) => TritMul(a, b))
  }

  function TritDomain(): TwoAdicField<Trit> { TwoAdicField(Trits(), [One, Two], 1) }

  /** The operations of the record are the tables. */
  lemma {:induction false} TritOps(x: Trit, y: Trit)
    ensures var f := Trits(); f.Add(x, y) == TritAdd(x, y) && f.Mul(x, y) == TritMul(x, y) && f.Neg(x) == TritNeg(x)
  {}

  lemma {:induction false} TritsAreAField()
    ensures Trits().Laws()
  {
    var f := Trits();
    forall x: Trit, y: Trit ensures f.Add(x, y) == f.Add(y, x) { TritOps(x, y); TritOps(y, x); TritPairs(x, y); }
    forall x: Trit, y: Trit ensures f.Mul(x, y) == f.Mul(y, x) { TritOps(x, y); TritOps(y, x); TritPairs(x, y); }
    forall x: Trit, y: Trit, z: Trit ensures f.Add(f.Add(x, y), z) == f.Add(x, f.Add(y, z))
        { TritAssociates(x, y, z); }
    forall x: Trit, y: Trit, z: Trit ensures f.Mul(f.Mul(x, y), z) == f.Mul(x, f.Mul(y, z))
        { TritAssociates(x, y, z); }
    forall x: Trit, y: Trit, z: Trit ensures f.Mul(x, f.Add(y, z)) == f.Add(f.Mul(x, y), f.Mul(x, z))
        { TritAssociates(x, y, z); }
    forall x: Trit ensures f.Add(x, f.zero) == x && f.Mul(x, f.one) == x && f.Add(x, f.Neg(x)) == f.zero
        { TritUnits(x); }
    forall x: Trit ensures x != f.zero ==> f.Mul(x, f.Inv(x)) == f.one { TritUnits(x); }
  }

  lemma {:induction false} TritUnits(x: Trit)
    ensures var f := Trits(); f.Add(x, f.zero) == x && f.Mul(x, f.one) == x && f.Add(x, f.Neg(x)) == f.zero
    ensures var f := Trits(); x != f.zero ==> f.Mul(x, f.Inv(x)) == f.one
  {}

  lemma {:induction false} TritAssociates(x: Trit, y: Trit, z: Trit)
    ensures var f := Trits();
        f.Add(f.Add(x, y), z) == f.Add(x, f.Add(y, z)) && f.Mul(f.Mul(x, y), z) == f.Mul(x, f.Mul(y, z))
    ensures var f := Trits(); f.Mul(x, f.Add(y, z)) == f.Add(f.Mul(x, y), f.Mul(x, z))
  {
    TritTriples(x, y, z);
    TritOps(x, y); TritOps(y, z); TritOps(x, z);
    TritOps(TritAdd(x, y), z); TritOps(x, TritAdd(y, z)); TritOps(TritMul(x, y), z); TritOps(x, TritMul(y, z));
    TritOps(TritMul(x, y), TritMul(x, z));
  }

  lemma {:induction false} TritPairs(x: Trit, y: Trit)
    ensures TritAdd(x, y) == TritAdd(y, x) && TritMul(x, y) == TritMul(y, x)
  {}

  lemma {:induction false} TritTriples(x: Trit, y: Trit, z: Trit)
    ensures TritAdd(TritAdd(x, y), z) == TritAdd(x, TritAdd(y, z))
    ensures TritMul(TritMul(x, y), z) == TritMul(x, TritMul(y, z))
    ensures TritMul(x, TritAdd(y, z)) == TritAdd(TritMul(x, y), TritMul(x, z))
  {}

  lemma {:induction false} TritDomainLaws()
    ensures TritDomain().Laws()
  {
    var T := TritDomain();
    TritsAreAField();
    assert T.f.Neg(One) == Two && T.f.Mul(Two, Two) == One;
    assert T.Gen(0) == One && T.Gen(1) == Two;
  }

  function Nones<T>(n: nat): (r: seq<Option<T>>)
    ensures |r| == n && forall i :: 0 <= i < n ==> r[i] == None
  { if n == 0 then [] else Nones(n - 1) + [None] }

  function Empties<T>(n: nat): (r: seq<seq<T>>)
    ensures |r| == n && forall i :: 0 <= i < n ==> r[i] == []
  { if n == 0 then [] else Empties(n - 1) + [[]] }

  /** The constant 1 at height log_blowup = 0 and the zero codeword above it. */
  function RejectedInput(): Input<Trit> { [Some([One]), Some([Zero, Zero])] + Nones(30) }

  /** A commitment scheme that accepts every opening. */
  function AcceptAll(): Scheme<Trit, bool, bool> {
    Scheme((heights, mats) => false, (mats, index) => false, (c, heights, index, rows, p) => true)
  }

  lemma {:induction false} AcceptAllAccepts(c: bool, heights: seq<nat>, index: nat, rows: seq<seq<Trit>>, p: bool)
    ensures AcceptAll().Verify(c, heights, index, rows, p)
  {}

  lemma {:induction false} AcceptAllComplete()
    ensures AcceptAll().Complete()
  {
    var m := AcceptAll();
    forall mats: seq<Matrix<Trit>>, index: nat | WellShaped(Heights(mats)) && InRange(Heights(mats), index)
      ensures m.Verify(m.Commit(mats), Heights(mats), index, OpenRows(mats, index), m.Prove(mats, index))
    { AcceptAllAccepts(m.Commit(mats), Heights(mats), index, OpenRows(mats, index), m.Prove(mats, index)); }
  }

  /** One query, that scheme, and a sponge that returns zeros. */
  function RejectedSetup(): Setup<Trit, bool, bool, bool> {
    Setup(Config(0, 1, 0, AcceptAll()), TritDomain(),
          Sponge((t, n) => Zero, (t, n) => 0, (t, n) => false, (t, n, w) => true), RejectedInput(), 1, [])
  }

  lemma {:induction false} RejectedInputLow()
    ensures LowDegree(TritDomain(), RejectedInput(), 1, 0, [[One], []] + Empties(30))
  {
    var T, polys := TritDomain(), [[One], []] + Empties<Trit>(30);
    forall h | 0 <= h < 32 && RejectedInput()[h].Some? ensures |RejectedInput()[h].value| == Pow2(h) {}
    CodewordAt(T, 0, [One], 0);
    CodewordAt(T, 1, [], 0); CodewordAt(T, 1, [], 1);
    assert Eval(T.f, [One], T.Point(0, 0)) == T.f.Add(One, T.f.Mul(T.Point(0, 0), Zero)) by
        { assert [One][1..] == []; }
    assert RejectedInput()[0].value == Codeword(T, 0, polys[0]);
    assert RejectedInput()[1].value == Codeword(T, 1, polys[1]);
  }

  lemma {:induction false} RejectedOpenings()
    ensures OpeningsMatch(Trits(), RejectedInput(), 1, 0, [One, Zero])
  {
    RejectedInputLow();
    assert Shr(0, 1) == 0 && Shr(0, 0) == 0;
    assert OpeningAt(Trits(), RejectedInput(), 1, 0, 0) == One
        && OpeningAt(Trits(), RejectedInput(), 1, 0, 1) == Zero;
  }

  lemma {:induction false} RejectedRun()
    ensures HonestRun(RejectedSetup(), [[One], []] + Empties(30), [[One, Zero]])
  {
    var s := RejectedSetup();
    RejectedInputLow();
    TritDomainLaws();
    RejectedOpenings();
    var t := Rounds(s, NumRounds(s.top, s.cfg.logBlowup));
    AcceptAllComplete();
    assert s.sponge.Laws();
    OneDraw(s, t);
  }

  /** With one query, the index drawn is 0. */
  lemma {:induction false} OneDraw(s: Setup<Trit, bool, bool, bool>, t: Trace<Trit, bool, bool>)
    requires s == RejectedSetup() && t.codewords != [] && t.logs != [] && t.Last() != []
    ensures QueryIndices(s, t) == [0]
  {
    var log := QueryLog(s.sponge, t.Log(), t.Last()[0], 0);
    assert DrawIndices(s.sponge, log, 1, 0) == [];
    assert s.sponge.Bits(AfterDraws(log, 1, 0), 1) == 0;
  }

  /** FRI is not complete: this honest proof of a low-degree input is rejected. */
  lemma {:induction false} HonestButRejected()
    ensures var s, polys, ros := RejectedSetup(), [[One], []] + Empties(30), [[One, Zero]];
            HonestRun(s, polys, ros) && Verdict(s, polys, ros, 0) == Err(FinalPolyMismatch)
  {
    RejectedRun();
    VerdictIs(RejectedSetup(), [[One], []] + Empties(30), [[One, Zero]], 0);
    assert RejectedInput()[0].value[0] == One;
  }
}
