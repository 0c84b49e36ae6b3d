/** The FRI prover and verifier, and why the verifier accepts what the prover sends. */
module Fri {
  import opened Basics
  import opened Bits
  import opened Fields
  import opened TwoAdic
  import opened FriFold
  import opened Mmcs
  import opened Transcripts

  datatype Config<!F(!new), !C, !P> = Config(logBlowup: nat, numQueries: nat, powBits: nat, mmcs: Scheme<F, C, P>)

  /** The sibling of the queried entry in one round, with its commitment opening. */
  datatype ProofStep<F, P> = ProofStep(sibling: F, opening: P)
  datatype FriProof<F, C, P, W> = FriProof(commits: seq<C>, queries: seq<seq<ProofStep<F, P>>>, finalPoly: F, pow: W)
  datatype Challenges<F> = Challenges(indices: seq<nat>, betas: seq<F>)
  datatype FriError = InvalidProofShape | CommitPhaseMmcsError | FinalPolyMismatch | InvalidPowWitness

  /** Inputs by log height: at most one codeword per height, of that height. */
  type Input<F> = seq<Option<seq<F>>>

  ghost predicate InputOk<F>(input: Input<F>) {
    |input| == 32 && forall h :: 0 <= h < 32 && input[h].Some? ==> |input[h].value| == Pow2(h)
  }

  ghost predicate TopOk<F>(input: Input<F>, top: nat) { InputOk(input) && top < 32 && input[top].Some? }

  // ---------- commit phase ----------

  function PairsPrefix<F>(s: seq<F>, n: nat): (m: Matrix<F>)
    requires 2 * n <= |s|
    ensures |m| == n
  { if n == 0 then [] else PairsPrefix(s, n - 1) + [[s[2 * n - 2], s[2 * n - 1]]] }

  /** `RowMajorMatrix::new(current, 2)`. */
  function Pairs<F>(s: seq<F>): (m: Matrix<F>)
    requires |s| % 2 == 0
    ensures |m| == |s| / 2
  { PairsPrefix(s, |s| / 2) }

  lemma {:induction false} PairsPrefixAt<F>(s: seq<F>, n: nat, i: nat)
    requires i < n && 2 * n <= |s|
    ensures PairsPrefix(s, n)[i] == [s[2 * i], s[2 * i + 1]]
  { if i < n - 1 { PairsPrefixAt(s, n - 1, i); } }

  function SumPrefix<F(!new)>(f: Field<F>, a: seq<F>, b: seq<F>, n: nat): (r: seq<F>)
    requires n <= |a| && n <= |b|
    ensures |r| == n
  { if n == 0 then [] else SumPrefix(f, a, b, n - 1) + [f.Add(a[n - 1], b[n - 1])] }

  lemma {:induction false} SumPrefixAt<F(!new)>(f: Field<F>, a: seq<F>, b: seq<F>, n: nat, i: nat)
    requires i < n <= |a| && n <= |b|
    ensures SumPrefix(f, a, b, n)[i] == f.Add(a[i], b[i])
  { if i < n - 1 { SumPrefixAt(f, a, b, n - 1, i); } }

  /** `current[i] += v[i]` when there is an input of this height. */
  function AddInput<F(!new)>(f: Field<F>, current: seq<F>, v: Option<seq<F>>): (r: seq<F>)
    requires v.Some? ==> |v.value| == |current|
    ensures |r| == |current|
  { if v.None? then current else SumPrefix(f, current, v.value, |current|) }

  lemma {:induction false} AddInputAt<F(!new)>(f: Field<F>, current: seq<F>, v: Option<seq<F>>, i: nat)
    requires f.Laws() && i < |current| && (v.Some? ==> |v.value| == |current|)
    ensures AddInput(f, current, v)[i] == f.Add(current[i], if v.None? then f.zero else v.value[i])
  { if v.Some? { SumPrefixAt(f, current, v.value, |current|, i); } else { f.Unit(current[i]); } }

  /** What a commit phase is given, and what the challenger has seen before it. */
  datatype Setup<!F(!new), !C(!new), !P, !W(!new)> = Setup(
    cfg: Config<F, C, P>, T: TwoAdicField<F>, sponge: Sponge<F, C, W>, input: Input<F>, top: nat,
    log: Transcript<F, C, W>)
  {
    ghost predicate Valid() { TopOk(input, top) }
  }

  /** A commit phase in progress: the codeword and the transcript before and after every round, and
      what each round committed to and drew. */
  datatype Trace<F, C, W> = Trace(
    codewords: seq<seq<F>>, data: seq<Matrix<F>>, commits: seq<C>, betas: seq<F>, logs: seq<Transcript<F, C, W>>)
  {
    function Last(): seq<F> requires codewords != [] { codewords[|codewords| - 1] }
    function Log(): Transcript<F, C, W> requires logs != [] { logs[|logs| - 1] }
  }

  /** One round: commit to the pairs, draw beta, fold, add the input of the new height h. */
  function NextRound<F(!new), C(!new), P, W(!new)>(s: Setup<F, C, P, W>, h: nat, t: Trace<F, C, W>): Trace<F, C, W>
    requires s.Valid() && h < 32 && t.codewords != [] && t.logs != [] && |t.Last()| == Pow2(h + 1)
  {
    var leaves := Pairs(t.Last());
    var commit := s.cfg.mmcs.Commit([leaves]);
    var seen := t.Log() + [SawCommit(commit)];
    var beta := s.sponge.Ext(seen);
    var next := AddInput(s.T.f, FoldEvenOdd(s.T, h, t.Last(), beta), s.input[h]);
    Trace(t.codewords + [next], t.data + [leaves], t.commits + [commit], t.betas + [beta], t.logs
        + [seen + [DrewExt]])
  }

  /** The first i rounds. */
  function Rounds<F(!new), C(!new), P, W(!new)>(s: Setup<F, C, P, W>, i: nat): (t: Trace<F, C, W>)
    requires s.Valid() && i <= s.top
    ensures |t.codewords| == |t.logs| == i + 1 && |t.data| == |t.commits| == |t.betas| == i
    ensures |t.Last()| == Pow2(s.top - i)
  {
    if i == 0 then Trace([s.input[s.top].value], [], [], [], [s.log])
    else NextRound(s, s.top - i, Rounds(s, i - 1))
  }

  predicate IsConstant<F(==)>(s: seq<F>) { forall i :: 0 <= i < |s| ==> s[i] == s[0] }

  /** The number of folding rounds; zero when the tallest input is already below the blowup. */
  function NumRounds(top: nat, logBlowup: nat): nat { if logBlowup <= top then top - logBlowup else 0 }

  /** What the commit phase hands to the query phase. */
  datatype CommitPhaseResult<F, C> = CommitPhaseResult(commits: seq<C>, data: seq<Matrix<F>>, finalPoly: F)

  /** One round of the commit phase, down to log height h. */
  method FoldOnce<F(==,!new), C(!new), P, W(!new)>(
    cfg: Config<F, C, P>, T: TwoAdicField<F>, input: Input<F>, h: nat, current: seq<F>,
    challenger: Challenger<F, C, W>)
    returns (next: seq<F>, leaves: Matrix<F>, commit: C)
    requires InputOk(input) && h < 32 && |current| == Pow2(h + 1)
    modifies challenger
    ensures leaves == Pairs(current) && commit == cfg.mmcs.Commit([leaves])
    ensures challenger.log == old(challenger.log) + [SawCommit(commit)] + [DrewExt]
    ensures var beta := challenger.sponge.Ext(old(challenger.log) + [SawCommit(commit)]);
            next == AddInput(T.f, FoldEvenOdd(T, h, current, beta), input[h])
  {
    leaves := Pairs(current);
    commit := cfg.mmcs.Commit([leaves]);
    challenger.Observe(commit);
    var beta := challenger.SampleExt();
    next := FoldEvenOdd(T, h, current, beta);
    next := AddInput(T.f, next, input[h]);
  }

  /** What the loop of the commit phase holds after i rounds. */
  ghost predicate AfterRounds<F(!new), C(!new), P, W(!new)>(
    s: Setup<F, C, P, W>, i: nat, current: seq<F>, log: Transcript<F, C, W>, commits: seq<C>, data: seq<Matrix<F>>)
    requires s.Valid() && i <= s.top
  { var t := Rounds(s, i); current == t.Last() && log == t.Log() && commits == t.commits && data == t.data }

  /** One round of the loop. */
  lemma {:induction false} RoundFollows<F(!new), C(!new), P, W(!new)>(
    s: Setup<F, C, P, W>, i: nat, h: nat, current: seq<F>, log: Transcript<F, C, W>, commits: seq<C>,
    data: seq<Matrix<F>>,
    next: seq<F>, leaves: Matrix<F>, commit: C)
    requires s.Valid() && i < s.top && h == s.top - 1 - i && AfterRounds(s, i, current, log, commits, data)
    requires leaves == Pairs(current) && commit == s.cfg.mmcs.Commit([leaves])
    requires next == AddInput(s.T.f, FoldEvenOdd(s.T, h, current, s.sponge.Ext(log + [SawCommit(commit)])),
        s.input[h])
    ensures AfterRounds(s, i + 1, next, log + [SawCommit(commit)] + [DrewExt], commits + [commit], data + [leaves])
  { assert Rounds(s, i + 1) == NextRound(s, h, Rounds(s, i)); }

  /** The rounds of the commit phase. */
  method FoldRounds<F(==,!new), C(!new), P, W(!new)>(
    cfg: Config<F, C, P>, T: TwoAdicField<F>, input: Input<F>, top: nat, challenger: Challenger<F, C, W>)
    returns (current: seq<F>, commits: seq<C>, data: seq<Matrix<F>>)
    requires TopOk(input, top)
    modifies challenger
    ensures AfterRounds(Setup(cfg, T, challenger.sponge, input, top, old(challenger.log)),
                        NumRounds(top, cfg.logBlowup),
                        current, challenger.log, commits, data)
  {
    ghost var s := Setup(cfg, T, challenger.sponge, input, top, challenger.log);
    current := input[top].value;
    commits, data := [], [];
    var n := NumRounds(top, cfg.logBlowup);
    var i := 0;
    while i < n
      invariant i <= n && |current| == Pow2(top - i)
      invariant AfterRounds(s, i, current, challenger.log, commits, data)
    {
      ghost var log := challenger.log;
      var next, leaves, commit := FoldOnce(cfg, T, input, top - 1 - i, current, challenger);
      RoundFollows(s, i, top - 1 - i, current, log, commits, data, next, leaves, commit);
      current, commits, data := next, commits + [commit], data + [leaves];
      i := i + 1;
    }
  }

  /** `commit_phase`.  `None` is a failed assertion: the folded vector is not `blowup` copies of one
      value. */
  method CommitPhase<F(==,!new), C(!new), P, W(!new)>(
    cfg: Config<F, C, P>, T: TwoAdicField<F>, input: Input<F>, top: nat, challenger: Challenger<F, C, W>)
    returns (r: Option<CommitPhaseResult<F, C>>)
    requires TopOk(input, top)
    modifies challenger
    ensures var t := Rounds(Setup(cfg, T, challenger.sponge, input, top, old(challenger.log)),
        NumRounds(top, cfg.logBlowup));
            && (r.Some? <==> |t.Last()| == Pow2(cfg.logBlowup) && IsConstant(t.Last()))
            && (r.Some? ==> r.value == CommitPhaseResult(t.commits, t.data, t.Last()[0])
                            && challenger.log == t.Log() + [SawExt(t.Last()[0])])
  {
    var current, commits, data := FoldRounds(cfg, T, input, top, challenger);
    if |current| != Pow2(cfg.logBlowup) || !IsConstant(current) { return None; }
    challenger.ObserveExt(current[0]);
    r := Some(CommitPhaseResult(commits, data, current[0]));
  }

  // ---------- the trace, round by round ----------

  /** Round i of a trace is an honest round. */
  ghost predicate RoundOk<F(!new), C(!new), P, W(!new)>(s: Setup<F, C, P, W>, t: Trace<F, C, W>, i: nat)
    requires s.Valid() && i < s.top && i + 1 < |t.codewords| && i + 1 < |t.logs| && i < |t.data| && i < |t.commits|
        && i < |t.betas|
  {
    var h := s.top - i - 1;
    && |t.codewords[i]| == Pow2(h + 1)
    && t.data[i] == Pairs(t.codewords[i])
    && t.commits[i] == s.cfg.mmcs.Commit([t.data[i]])
    && t.betas[i] == s.sponge.Ext(t.logs[i] + [SawCommit(t.commits[i])])
    && t.logs[i + 1] == t.logs[i] + [SawCommit(t.commits[i])] + [DrewExt]
    && t.codewords[i + 1] == AddInput(s.T.f, FoldEvenOdd(s.T, h, t.codewords[i], t.betas[i]), s.input[h])
  }

  /** A trace of n honest rounds. */
  ghost predicate Honest<F(!new), C(!new), P, W(!new)>(s: Setup<F, C, P, W>, t: Trace<F, C, W>, n: nat) {
    && s.Valid() && n <= s.top
    && |t.codewords| == |t.logs| == n + 1 && |t.data| == |t.commits| == |t.betas| == n
    && t.codewords[0] == s.input[s.top].value && t.logs[0] == s.log
    && |t.codewords[n]| == Pow2(s.top - n)
    && forall i {:trigger AtIndex(i)} :: 0 <= i < n ==> RoundOk(s, t, i)
  }

  /** Another round leaves the earlier ones as they were. */
  lemma {:induction false} RoundStays<F(!new), C(!new), P, W(!new)>(
    s: Setup<F, C, P, W>, t: Trace<F, C, W>, h: nat, n: nat, i: nat)
    requires Honest(s, t, n) && n < s.top && h == s.top - n - 1 && i < n
    ensures RoundOk(s, NextRound(s, h, t), i)
  { assert AtIndex(i); }

  lemma {:induction false} RoundIsNew<F(!new), C(!new), P, W(!new)>(
    s: Setup<F, C, P, W>, t: Trace<F, C, W>, h: nat, n: nat)
    requires Honest(s, t, n) && n < s.top && h == s.top - n - 1
    ensures RoundOk(s, NextRound(s, h, t), n)
  { assert t.Last() == t.codewords[n] && t.Log() == t.logs[n]; }

  lemma {:induction false} NextIsHonest<F(!new), C(!new), P, W(!new)>(
    s: Setup<F, C, P, W>, t: Trace<F, C, W>, h: nat, n: nat, m: nat)
    requires Honest(s, t, n) && n < s.top && h == s.top - n - 1 && m == n + 1
    ensures Honest(s, NextRound(s, h, t), m)
  {
    var u := NextRound(s, h, t);
    forall i | 0 <= i < m ensures RoundOk(s, u, i)
        { if i < n { RoundStays(s, t, h, n, i); } else { RoundIsNew(s, t, h, n); } }
  }

  lemma {:induction false} RoundsUnfold<F(!new), C(!new), P, W(!new)>(s: Setup<F, C, P, W>, n: nat)
    requires s.Valid() && 0 < n <= s.top
    ensures Rounds(s, n) == NextRound(s, s.top - n, Rounds(s, n - 1))
  {}

  lemma {:induction false} RoundsHonest<F(!new), C(!new), P, W(!new)>(s: Setup<F, C, P, W>, n: nat)
    requires s.Valid() && n <= s.top
    ensures Honest(s, Rounds(s, n), n)
  {
    if n > 0 {
      RoundsHonest(s, n - 1);
      RoundsUnfold(s, n);
      NextIsHonest(s, Rounds(s, n - 1), s.top - n, n - 1, n);
    }
  }

  lemma {:induction false} RowsOfPairs<F>(s: seq<F>, j: nat)
    requires |s| % 2 == 0 && j < |s|
    ensures j / 2 < |Pairs(s)| && Pairs(s)[j / 2] == [s[j / 2 * 2], s[j / 2 * 2 + 1]]
  { PairsPrefixAt(s, |s| / 2, j / 2); }

  lemma {:induction false} HonestAnswerable<F(!new), C(!new), P, W(!new)>(
    s: Setup<F, C, P, W>, t: Trace<F, C, W>, n: nat, index: nat)
    requires Honest(s, t, n) && index < Pow2(s.top)
    ensures Answerable(t.data, index)
  {
    forall i: nat | i < n ensures RowThere(t.data[i], Shr(index, i)) { RowIsThere(s, t, n, index, i, s.top - i - 1); }
  }

  lemma {:induction false} RowIsThere<F(!new), C(!new), P, W(!new)>(
    s: Setup<F, C, P, W>, t: Trace<F, C, W>, n: nat, index: nat, i: nat, h: nat)
    requires Honest(s, t, n) && index < Pow2(s.top) && i < n && h == s.top - i - 1
    ensures RowThere(t.data[i], Shr(index, i))
  {
    assert AtIndex(i);
    ShrBound(index, h + 1, i);
    RowsOfPairs(t.codewords[i], Shr(index, i));
  }

  lemma {:induction false} RoundsAnswerable<F(!new), C(!new), P, W(!new)>(
    s: Setup<F, C, P, W>, n: nat, indices: seq<nat>)
    requires s.Valid() && n <= s.top && forall i :: 0 <= i < |indices| ==> indices[i] < Pow2(s.top)
    ensures AllAnswerable(Rounds(s, n).data, indices)
  {
    RoundsHonest(s, n);
    forall i | 0 <= i < |indices| ensures Answerable(Rounds(s, n).data, indices[i])
    { HonestAnswerable(s, Rounds(s, n), n, indices[i]); }
  }

  // ---------- queries ----------

  /** The committed rows hold the pair of entry j. */
  predicate RowThere<F>(m: Matrix<F>, j: nat) { j / 2 < |m| && |m[j / 2]| == 2 }

  /** Every round's committed rows hold the pairs of the queried path. */
  ghost predicate Answerable<F>(data: seq<Matrix<F>>, index: nat) {
    forall i: nat {:trigger AtIndex(i)} :: i < |data| ==> RowThere(data[i], Shr(index, i))
  }

  /** The sibling entry and the row opening of one committed round; j is the index in that round. */
  function AnswerRound<F(!new), C, P>(cfg: Config<F, C, P>, m: Matrix<F>, j: nat): ProofStep<F, P>
    requires RowThere(m, j)
  { ProofStep(m[j / 2][Sibling(j) % 2], cfg.mmcs.Prove([m], j / 2)) }

  /** `answer_query`: the answers of the first n rounds. */
  function AnswerTo<F(!new), C, P>(
    cfg: Config<F, C, P>, data: seq<Matrix<F>>, index: nat, n: nat): (r: seq<ProofStep<F, P>>)
    requires Answerable(data, index) && n <= |data|
    ensures |r| == n
  {
    if n == 0 then []
    else assert AtIndex(n - 1); AnswerTo(cfg, data, index, n - 1) + [AnswerRound(cfg, data[n - 1], Shr(index, n - 1))]
  }

  function AnswerQuery<F(!new), C, P>(
    cfg: Config<F, C, P>, data: seq<Matrix<F>>, index: nat): (r: seq<ProofStep<F, P>>)
    requires Answerable(data, index)
    ensures |r| == |data|
  { AnswerTo(cfg, data, index, |data|) }

  lemma {:induction false} AnswerAt<F(!new), C, P>(
    cfg: Config<F, C, P>, data: seq<Matrix<F>>, index: nat, n: nat, i: nat)
    requires Answerable(data, index) && i < n <= |data|
    ensures RowThere(data[i], Shr(index, i))
        && AnswerTo(cfg, data, index, n)[i] == AnswerRound(cfg, data[i], Shr(index, i))
  {
    assert AtIndex(i);
    if i < n - 1 { AnswerAt(cfg, data, index, n - 1, i); }
  }

  /** The verifier's running state in one query. */
  datatype Query<F> = Query(index: nat, x: F, folded: F)

  function StartQuery<F(!new)>(T: TwoAdicField<F>, index: nat, top: nat): Query<F> {
    Query(index, T.f.Pow(T.Gen(top), BitRev(index, top)), T.f.zero)
  }

  /** The pair that the verifier reassembles from its folded value and the sibling. */
  function PairAt<F>(index: nat, folded: F, sibling: F): seq<F> {
    if Sibling(index) % 2 == 1 then [folded, sibling] else [sibling, folded]
  }

  /** One round of `verify_query`; h is the log height after folding, `None` a rejected opening. */
  function QueryRound<F(!new), C, P>(
    cfg: Config<F, C, P>, T: TwoAdicField<F>, q: Query<F>, h: nat, commit: C, step: ProofStep<F, P>, beta: F, ro: F)
    : Option<Query<F>>
  {
    var folded := T.f.Add(q.folded, ro);
    var evals := PairAt(q.index, folded, step.sibling);
    if !cfg.mmcs.Verify(commit, [Pow2(h)], q.index / 2, [evals], step.opening) then None
    else Some(Query(q.index / 2, T.f.Mul(q.x, q.x), FoldAt(T, q.index, q.x, evals[0], evals[1], beta)))
  }

  function QueryRounds<F(!new), C, P>(
    cfg: Config<F, C, P>, T: TwoAdicField<F>, commits: seq<C>, index: nat, steps: seq<ProofStep<F, P>>,
    betas: seq<F>, ro: seq<F>, top: nat, i: nat)
    : Option<Query<F>>
    requires i <= top && i <= |commits| && i <= |steps| && i <= |betas| && top < |ro|
  {
    if i == 0 then Some(StartQuery(T, index, top))
    else
      var q := QueryRounds(cfg, T, commits, index, steps, betas, ro, top, i - 1);
      if q.None? then None
      else QueryRound(cfg, T, q.value, top - i, commits[i - 1], steps[i - 1], betas[i - 1], ro[top - i + 1])
  }

  /** `verify_query`: folds one path from the reduced openings to a constant. */
  method VerifyQuery<F(==,!new), C, P>(
    cfg: Config<F, C, P>, T: TwoAdicField<F>, commits: seq<C>, index: nat, steps: seq<ProofStep<F, P>>,
    betas: seq<F>, ro: seq<F>, top: nat)
    returns (r: Result<F, FriError>)
    requires top < |ro|
    ensures var n := Min(Min(top, |commits|), Min(|steps|, |betas|));
            var q := QueryRounds(cfg, T, commits, index, steps, betas, ro, top, n);
            r == if q.None? then Err(CommitPhaseMmcsError) else Ok(q.value.folded)
  {
    var n := Min(Min(top, |commits|), Min(|steps|, |betas|));
    r := VerifyRounds(cfg, T, commits, index, steps, betas, ro, top, n);
  }

  /** The loop of `verify_query` over n rounds. */
  method VerifyRounds<F(==,!new), C, P>(
    cfg: Config<F, C, P>, T: TwoAdicField<F>, commits: seq<C>, index: nat, steps: seq<ProofStep<F, P>>,
    betas: seq<F>, ro: seq<F>, top: nat, n: nat)
    returns (r: Result<F, FriError>)
    requires n <= top < |ro| && n <= |commits| && n <= |steps| && n <= |betas|
    ensures var q := QueryRounds(cfg, T, commits, index, steps, betas, ro, top, n);
            r == if q.None? then Err(CommitPhaseMmcsError) else Ok(q.value.folded)
  {
    var folded := T.f.zero;
    var idx := index;
    var x := T.f.Pow(T.Gen(top), BitRev(index, top));
    var i := 0;
    while i < n
      invariant i <= n && Reached(cfg, T, commits, index, steps, betas, ro, top, i, Query(idx, x, folded))
    {
      var h := top - 1 - i;
      var q := VerifyRound(cfg, T, Query(idx, x, folded), h, commits[i], steps[i], betas[i], ro[h + 1]);
      ReachedStep(cfg, T, commits, index, steps, betas, ro, top, i + 1, h, n, Query(idx, x, folded), q);
      if q.None? { return Err(CommitPhaseMmcsError); }
      idx, x, folded := q.value.index, q.value.x, q.value.folded;
      i := i + 1;
    }
    return Ok(folded);
  }

  /** The query stands at q after i rounds. */
  ghost predicate Reached<F(!new), C, P>(
    cfg: Config<F, C, P>, T: TwoAdicField<F>, commits: seq<C>, index: nat, steps: seq<ProofStep<F, P>>,
    betas: seq<F>, ro: seq<F>, top: nat, i: nat, q: Query<F>)
    requires i <= top && i <= |commits| && i <= |steps| && i <= |betas| && top < |ro|
  { QueryRounds(cfg, T, commits, index, steps, betas, ro, top, i) == Some(q) }

  lemma {:induction false} ReachedStep<F(!new), C, P>(
    cfg: Config<F, C, P>, T: TwoAdicField<F>, commits: seq<C>, index: nat, steps: seq<ProofStep<F, P>>,
    betas: seq<F>, ro: seq<F>, top: nat, i: nat, h: nat, n: nat, q: Query<F>, next: Option<Query<F>>)
    requires 0 < i <= n <= top && n <= |commits| && n <= |steps| && n <= |betas| && top < |ro| && h == top - i
    requires Reached(cfg, T, commits, index, steps, betas, ro, top, i - 1, q)
    requires next == QueryRound(cfg, T, q, h, commits[i - 1], steps[i - 1], betas[i - 1], ro[h + 1])
    ensures next.Some? ==> Reached(cfg, T, commits, index, steps, betas, ro, top, i, next.value)
    ensures next.None? ==> QueryRounds(cfg, T, commits, index, steps, betas, ro, top, n).None?
  {
    QueryRoundsStep(cfg, T, commits, index, steps, betas, ro, top, i, h);
    if next.None? { QueryRejected(cfg, T, commits, index, steps, betas, ro, top, i, n); }
  }

  /** The body of the loop: `None` is a rejected opening. */
  method VerifyRound<F(==,!new), C, P>(
    cfg: Config<F, C, P>, T: TwoAdicField<F>, q: Query<F>, h: nat, commit: C, step: ProofStep<F, P>, beta: F, ro: F)
    returns (r: Option<Query<F>>)
    ensures r == QueryRound(cfg, T, q, h, commit, step, beta, ro)
  {
    var f, x := T.f, q.x;
    var folded := f.Add(q.folded, ro);
    var sibling := Sibling(q.index);
    var pair := q.index / 2;
    var evals := [folded, folded][sibling % 2 := step.sibling];
    assert evals == PairAt(q.index, folded, step.sibling);
    if !cfg.mmcs.Verify(commit, [Pow2(h)], pair, [evals], step.opening) { return None; }
    var xs := [x, x][sibling % 2 := f.Mul(x, T.Gen(1))];
    r := Some(Query(pair, f.Mul(x, x), Interpolate(f, xs[0], xs[1], evals[0], evals[1], beta)));
  }

  lemma {:induction false} QueryRoundsStep<F(!new), C, P>(
    cfg: Config<F, C, P>, T: TwoAdicField<F>, commits: seq<C>, index: nat, steps: seq<ProofStep<F, P>>,
    betas: seq<F>, ro: seq<F>, top: nat, i: nat, h: nat)
    requires 0 < i <= top && i <= |commits| && i <= |steps| && i <= |betas| && top < |ro| && h == top - i
    ensures var q := QueryRounds(cfg, T, commits, index, steps, betas, ro, top, i - 1);
            q.Some? ==>
              QueryRounds(cfg, T, commits, index, steps, betas, ro, top, i)
              == QueryRound(cfg, T, q.value, h, commits[i - 1], steps[i - 1], betas[i - 1], ro[h + 1])
  {}

  /** A rejected round stays rejected. */
  lemma {:induction false} QueryRejected<F(!new), C, P>(
    cfg: Config<F, C, P>, T: TwoAdicField<F>, commits: seq<C>, index: nat, steps: seq<ProofStep<F, P>>,
    betas: seq<F>, ro: seq<F>, top: nat, i: nat, n: nat)
    requires i <= n <= top && n <= |commits| && n <= |steps| && n <= |betas| && top < |ro|
    requires QueryRounds(cfg, T, commits, index, steps, betas, ro, top, i).None?
    ensures QueryRounds(cfg, T, commits, index, steps, betas, ro, top, n).None?
  { if i < n { QueryRejected(cfg, T, commits, index, steps, betas, ro, top, i, n - 1); } }

  // ---------- the prover ----------

  /** Query indices drawn one after the other. */
  function DrawIndices<F(!new), C(!new), W(!new)>(
    sponge: Sponge<F, C, W>, log: Transcript<F, C, W>, width: nat, count: nat): (r: seq<nat>)
    ensures |r| == count
  {
    if count == 0 then []
    else DrawIndices(sponge, log, width, count - 1) + [sponge.Bits(AfterDraws(log, width, count - 1), width)]
  }

  function AfterDraws<F(!new), C(!new), W(!new)>(
    log: Transcript<F, C, W>, width: nat, count: nat): Transcript<F, C, W> {
    if count == 0 then log else AfterDraws(log, width, count - 1) + [DrewBits(width)]
  }

  lemma {:induction false} DrawnInRange<F(!new), C(!new), W(!new)>(
    sponge: Sponge<F, C, W>, log: Transcript<F, C, W>, width: nat, count: nat)
    requires sponge.Laws()
    ensures forall i :: 0 <= i < count ==> DrawIndices(sponge, log, width, count)[i] < Pow2(width)
  { if count > 0 { DrawnInRange(sponge, log, width, count - 1); } }

  function AnswersTo<F(!new), C, P>(
    cfg: Config<F, C, P>, data: seq<Matrix<F>>, indices: seq<nat>, n: nat): (r: seq<seq<ProofStep<F, P>>>)
    requires AllAnswerable(data, indices) && n <= |indices|
    ensures |r| == n
  { if n == 0 then [] else AnswersTo(cfg, data, indices, n - 1) + [AnswerQuery(cfg, data, indices[n - 1])] }

  function AnswerQueries<F(!new), C, P>(
    cfg: Config<F, C, P>, data: seq<Matrix<F>>, indices: seq<nat>): (r: seq<seq<ProofStep<F, P>>>)
    requires AllAnswerable(data, indices)
    ensures |r| == |indices|
  { AnswersTo(cfg, data, indices, |indices|) }

  lemma {:induction false} AnswersAt<F(!new), C, P>(
    cfg: Config<F, C, P>, data: seq<Matrix<F>>, indices: seq<nat>, n: nat, i: nat)
    requires AllAnswerable(data, indices) && i < n <= |indices|
    ensures AnswersTo(cfg, data, indices, n)[i] == AnswerQuery(cfg, data, indices[i])
  { if i < n - 1 { AnswersAt(cfg, data, indices, n - 1, i); } }

  method SampleIndices<F(!new), C(!new), W(!new)>(challenger: Challenger<F, C, W>, width: nat, count: nat)
    returns (indices: seq<nat>)
    modifies challenger
    ensures indices == DrawIndices(challenger.sponge, old(challenger.log), width, count)
    ensures challenger.log == AfterDraws(old(challenger.log), width, count)
  {
    indices := [];
    var i := 0;
    while i < count
      invariant i <= count
      invariant indices == DrawIndices(challenger.sponge, old(challenger.log), width, i)
      invariant challenger.log == AfterDraws(old(challenger.log), width, i)
    {
      var index := challenger.SampleBits(width);
      indices := indices + [index];
      i := i + 1;
    }
  }

  /** `rposition(Option::is_some)` among the first h inputs. */
  function Tallest<F>(input: Input<F>, h: nat): (r: Option<nat>)
    requires h <= |input|
    ensures r.Some? ==> r.value < h && input[r.value].Some?
    ensures forall k :: 0 <= k < h && (r.None? || r.value < k) ==> input[k].None?
  { if h == 0 then None else if input[h - 1].Some? then Some(h - 1) else Tallest(input, h - 1) }

  /** The data an honest proof is built from. */
  ghost predicate AllAnswerable<F>(data: seq<Matrix<F>>, indices: seq<nat>) {
    forall i :: 0 <= i < |indices| ==> Answerable(data, indices[i])
  }

  /** The transcript at the moment the query indices are drawn. */
  function QueryLog<F(!new), C(!new), W(!new)>(
    sponge: Sponge<F, C, W>, log: Transcript<F, C, W>, finalPoly: F, powBits: nat): Transcript<F, C, W> {
    var seen := log + [SawExt(finalPoly)];
    seen + [SawWitness(sponge.Grind(seen, powBits))]
  }

  /** The indices queried after a finished commit phase. */
  function QueryIndices<F(!new), C(!new), P, W(!new)>(s: Setup<F, C, P, W>, t: Trace<F, C, W>): seq<nat>
    requires t.codewords != [] && t.logs != [] && t.Last() != []
  { DrawIndices(s.sponge, QueryLog(s.sponge, t.Log(), t.Last()[0], s.cfg.powBits), s.top, s.cfg.numQueries) }

  /** The proof sent after a finished commit phase. */
  function ProofOf<F(!new), C(!new), P, W(!new)>(s: Setup<F, C, P, W>, t: Trace<F, C, W>): FriProof<F, C, P, W>
    requires t.codewords != [] && t.logs != [] && t.Last() != [] && AllAnswerable(t.data, QueryIndices(s, t))
  {
    FriProof(t.commits, AnswerQueries(s.cfg, t.data, QueryIndices(s, t)), t.Last()[0],
             s.sponge.Grind(t.Log() + [SawExt(t.Last()[0])], s.cfg.powBits))
  }

  /** The transcript after the query indices are drawn. */
  function EndLog<F(!new), C(!new), P, W(!new)>(s: Setup<F, C, P, W>, t: Trace<F, C, W>): Transcript<F, C, W>
    requires t.codewords != [] && t.logs != [] && t.Last() != []
  { AfterDraws(QueryLog(s.sponge, t.Log(), t.Last()[0], s.cfg.powBits), s.top, s.cfg.numQueries) }

  /** `prove`: `None` when there is no input or an assertion of the commit phase fails. */
  method Prove<F(==,!new), C(!new), P, W(!new)>(
    cfg: Config<F, C, P>, T: TwoAdicField<F>, input: Input<F>, challenger: Challenger<F, C, W>)
    returns (r: Option<(FriProof<F, C, P, W>, seq<nat>)>)
    requires InputOk(input) && challenger.sponge.Laws()
    modifies challenger
    ensures Tallest(input, 32).None? ==> r.None?
    ensures Tallest(input, 32).Some? ==>
              var s := Setup(cfg, T, challenger.sponge, input, Tallest(input, 32).value, old(challenger.log));
              var t := Rounds(s, NumRounds(s.top, cfg.logBlowup));
              && (r.Some? <==> |t.Last()| == Pow2(cfg.logBlowup) && IsConstant(t.Last()))
              && (r.Some? ==>
                  AllAnswerable(t.data, QueryIndices(s, t)) && r.value == (ProofOf(s, t), QueryIndices(s, t))
                              && challenger.log == EndLog(s, t))
  {
    var found := Tallest(input, 32);
    if found.None? { return None; }
    var top := found.value;
    ghost var s := Setup(cfg, T, challenger.sponge, input, top, challenger.log);
    var phase := CommitPhase(cfg, T, input, top, challenger);
    if phase.None? { return None; }
    ghost var t := Rounds(s, NumRounds(top, cfg.logBlowup));
    var pow := challenger.Grind(cfg.powBits);
    DrawnInRange(challenger.sponge, challenger.log, top, cfg.numQueries);
    var indices := SampleIndices(challenger, top, cfg.numQueries);
    RoundsAnswerable(s, NumRounds(top, cfg.logBlowup), indices);
    var queries := AnswerQueries(cfg, phase.value.data, indices);
    r := Some((FriProof(phase.value.commits, queries, phase.value.finalPoly, pow), indices));
  }

  // ---------- the verifier ----------

  /** The betas the verifier draws after each of the first i commitments, and the transcript then. */
  function DrawBetas<F(!new), C(!new), W(!new)>(
    sponge: Sponge<F, C, W>, log: Transcript<F, C, W>, commits: seq<C>, i: nat)
    : (r: (seq<F>, Transcript<F, C, W>))
    requires i <= |commits|
    ensures |r.0| == i
  {
    if i == 0 then ([], log)
    else
      var (betas, seen) := DrawBetas(sponge, log, commits, i - 1);
      (betas + [sponge.Ext(seen + [SawCommit(commits[i - 1])])], seen + [SawCommit(commits[i - 1])] + [DrewExt])
  }

  /** What `verify_shape_and_sample_challenges` answers. */
  function SampledChallenges<F(!new), C(!new), P, W(!new)>(
    cfg: Config<F, C, P>, sponge: Sponge<F, C, W>, proof: FriProof<F, C, P, W>, log: Transcript<F, C, W>)
    : Result<Challenges<F>, FriError>
  {
    var (betas, seen) := DrawBetas(sponge, log, proof.commits, |proof.commits|);
    var final := seen + [SawExt(proof.finalPoly)];
    if |proof.queries| != cfg.numQueries then Err(InvalidProofShape)
    else if !sponge.Check(final, cfg.powBits, proof.pow) then Err(InvalidPowWitness)
    else Ok(Challenges(DrawIndices(sponge, final + [SawWitness(proof.pow)], |proof.commits|
         + cfg.logBlowup, cfg.numQueries), betas))
  }

  method VerifyShapeAndSampleChallenges<F(!new), C(!new), P, W(!new)>(
    cfg: Config<F, C, P>, proof: FriProof<F, C, P, W>, challenger: Challenger<F, C, W>)
    returns (r: Result<Challenges<F>, FriError>)
    modifies challenger
    ensures r == SampledChallenges(cfg, challenger.sponge, proof, old(challenger.log))
    ensures r.Ok? ==>
              var final := DrawBetas(challenger.sponge, old(challenger.log), proof.commits, |proof.commits|).1
                  + [SawExt(proof.finalPoly)];
              challenger.log == AfterDraws(final + [SawWitness(proof.pow)], |proof.commits|
                  + cfg.logBlowup, cfg.numQueries)
  {
    var betas := [];
    var i := 0;
    while i < |proof.commits|
      invariant i <= |proof.commits|
      invariant (betas, challenger.log) == DrawBetas(challenger.sponge, old(challenger.log), proof.commits, i)
    {
      challenger.Observe(proof.commits[i]);
      var beta := challenger.SampleExt();
      betas := betas + [beta];
      i := i + 1;
    }
    challenger.ObserveExt(proof.finalPoly);
    if |proof.queries| != cfg.numQueries { return Err(InvalidProofShape); }
    var ok := challenger.CheckWitness(cfg.powBits, proof.pow);
    if !ok { return Err(InvalidPowWitness); }
    var indices := SampleIndices(challenger, |proof.commits| + cfg.logBlowup, cfg.numQueries);
    return Ok(Challenges(indices, betas));
  }

  /** The verdict on query i alone. */
  function CheckQuery<F(==,!new), C(!new), P, W(!new)>(
    cfg: Config<F, C, P>, T: TwoAdicField<F>, proof: FriProof<F, C, P, W>, ch: Challenges<F>, ros: seq<seq<F>>,
    i: nat)
    : Result<(), FriError>
    requires i < |ch.indices| && i < |proof.queries| && i < |ros| && |proof.commits| + cfg.logBlowup < |ros[i]|
  {
    var top := |proof.commits| + cfg.logBlowup;
    var n := Min(Min(top, |proof.commits|), Min(|proof.queries[i]|, |ch.betas|));
    var q := QueryRounds(cfg, T, proof.commits, ch.indices[i], proof.queries[i], ch.betas, ros[i], top, n);
    if q.None? then Err(CommitPhaseMmcsError)
    else if q.value.folded != proof.finalPoly then Err(FinalPolyMismatch)
    else Ok(())
  }

  ghost predicate RosOk<F>(ros: seq<seq<F>>, top: nat) { forall i :: 0 <= i < |ros| ==> top < |ros[i]| }

  /** The verdicts on the first n queries. */
  function Verdicts<F(==,!new), C(!new), P, W(!new)>(
    cfg: Config<F, C, P>, T: TwoAdicField<F>, proof: FriProof<F, C, P, W>, ch: Challenges<F>, ros: seq<seq<F>>,
    n: nat)
    : (vs: seq<Result<(), FriError>>)
    requires n <= |ch.indices| && n <= |proof.queries| && n <= |ros| && RosOk(ros, |proof.commits| + cfg.logBlowup)
    ensures |vs| == n
  {
    if n == 0 then []
    else Verdicts(cfg, T, proof, ch, ros, n - 1) + [CheckQuery(cfg, T, proof, ch, ros, n - 1)]
  }

  lemma {:induction false} VerdictsAt<F(!new), C(!new), P, W(!new)>(
    cfg: Config<F, C, P>, T: TwoAdicField<F>, proof: FriProof<F, C, P, W>, ch: Challenges<F>, ros: seq<seq<F>>,
    n: nat, i: nat)
    requires i < n <= |ch.indices| && n <= |proof.queries| && n <= |ros|
    requires RosOk(ros, |proof.commits| + cfg.logBlowup)
    ensures Verdicts(cfg, T, proof, ch, ros, n)[i] == CheckQuery(cfg, T, proof, ch, ros, i)
  { if i < n - 1 { VerdictsAt(cfg, T, proof, ch, ros, n - 1, i); } }

  /** The first n queries are all accepted. */
  ghost predicate AllAccepted<F(!new), C(!new), P, W(!new)>(
    cfg: Config<F, C, P>, T: TwoAdicField<F>, proof: FriProof<F, C, P, W>, ch: Challenges<F>, ros: seq<seq<F>>,
    n: nat)
    requires n <= |ch.indices| && n <= |proof.queries| && n <= |ros| && RosOk(ros, |proof.commits| + cfg.logBlowup)
  { forall i :: 0 <= i < n ==> CheckQuery(cfg, T, proof, ch, ros, i).Ok? }

  lemma {:induction false} VerdictsOk<F(!new), C(!new), P, W(!new)>(
    cfg: Config<F, C, P>, T: TwoAdicField<F>, proof: FriProof<F, C, P, W>, ch: Challenges<F>, ros: seq<seq<F>>,
    n: nat)
    requires n <= |ch.indices| && n <= |proof.queries| && n <= |ros| && RosOk(ros, |proof.commits| + cfg.logBlowup)
    ensures FirstError(Verdicts(cfg, T, proof, ch, ros, n)).Ok? <==> AllAccepted(cfg, T, proof, ch, ros, n)
  {
    var vs := Verdicts(cfg, T, proof, ch, ros, n);
    FirstErrorOk(vs);
    forall i | 0 <= i < n ensures vs[i] == CheckQuery(cfg, T, proof, ch, ros, i)
    { VerdictsAt(cfg, T, proof, ch, ros, n, i); }
  }

  /** `verify_challenges`: accepts exactly when every query is accepted, and otherwise returns the
      first failure. */
  method VerifyChallenges<F(==,!new), C(!new), P, W(!new)>(
    cfg: Config<F, C, P>, T: TwoAdicField<F>, proof: FriProof<F, C, P, W>, ch: Challenges<F>, ros: seq<seq<F>>)
    returns (r: Result<(), FriError>)
    requires RosOk(ros, |proof.commits| + cfg.logBlowup)
    ensures var n := Min(|ch.indices|, Min(|proof.queries|, |ros|));
            && r == FirstError(Verdicts(cfg, T, proof, ch, ros, n))
            && (r.Ok? <==> AllAccepted(cfg, T, proof, ch, ros, n))
  {
    var n := Min(|ch.indices|, Min(|proof.queries|, |ros|));
    VerdictsOk(cfg, T, proof, ch, ros, n);
    r := VerifyFirst(cfg, T, proof, ch, ros, n);
  }

  /** The loop over n queries. */
  method VerifyFirst<F(==,!new), C(!new), P, W(!new)>(
    cfg: Config<F, C, P>, T: TwoAdicField<F>, proof: FriProof<F, C, P, W>, ch: Challenges<F>, ros: seq<seq<F>>,
    n: nat)
    returns (r: Result<(), FriError>)
    requires n <= |ch.indices| && n <= |proof.queries| && n <= |ros| && RosOk(ros, |proof.commits| + cfg.logBlowup)
    ensures r == FirstError(Verdicts(cfg, T, proof, ch, ros, n))
  {
    ghost var all := Verdicts(cfg, T, proof, ch, ros, n);
    r := Ok(());
    var i := 0;
    while i < n
      invariant i <= n && r == Ok(()) && forall j :: 0 <= j < i ==> all[j].Ok?
    {
      VerdictsAt(cfg, T, proof, ch, ros, n, i);
      r := VerifyOne(cfg, T, proof, ch, ros, i);
      if r.Err? { FirstErrorAt(all, i); return; }
      i := i + 1;
    }
    FirstErrorOk(all);
  }

  /** One query of the loop. */
  method VerifyOne<F(==,!new), C(!new), P, W(!new)>(
    cfg: Config<F, C, P>, T: TwoAdicField<F>, proof: FriProof<F, C, P, W>, ch: Challenges<F>, ros: seq<seq<F>>,
    i: nat)
    returns (r: Result<(), FriError>)
    requires i < |ch.indices| && i < |proof.queries| && i < |ros| && |proof.commits| + cfg.logBlowup < |ros[i]|
    ensures r == CheckQuery(cfg, T, proof, ch, ros, i)
  {
    var top := |proof.commits| + cfg.logBlowup;
    var folded := VerifyQuery(cfg, T, proof.commits, ch.indices[i], proof.queries[i], ch.betas, ros[i], top);
    if folded.Err? { return Err(folded.error); }
    if folded.value != proof.finalPoly { return Err(FinalPolyMismatch); }
    return Ok(());
  }
}
