/** Why the FRI verifier accepts what the FRI prover sends, and when it does not. */
module FriCompleteness {
  import opened Basics
  import opened Bits
  import opened Fields
  import opened TwoAdic
  import opened FriFold
  import opened Mmcs
  import opened Transcripts
  import opened Fri

  // ---------- one query against an honest commit phase ----------

  /** The verifier's reduced opening of height h when it is computed from the prover's inputs. */
  function OpeningAt<F(!new)>(f: Field<F>, input: Input<F>, top: nat, index: nat, h: nat): F
    requires TopOk(input, top) && h <= top && index < Pow2(top)
  {
    ShrBound(index, h, top - h);
    if input[h].None? then f.zero else input[h].value[Shr(index, top - h)]
  }

  ghost predicate OpeningsMatch<F(!new)>(f: Field<F>, input: Input<F>, top: nat, index: nat, ro: seq<F>) {
    && TopOk(input, top) && index < Pow2(top) && top < |ro|
    && forall h {:trigger AtIndex(h)} :: 0 <= h <= top ==> ro[h] == OpeningAt(f, input, top, index, h)
  }

  /** The loop invariant of an accepted query: after i rounds the verifier stands at index >> i and
      its folded value, once the opening of that height is added, is the prover's codeword entry. */
  ghost predicate Tracks<F(!new)>(T: TwoAdicField<F>, h: nat, codeword: seq<F>, ro: F, j: nat, q: Option<Query<F>>) {
    && q.Some? && q.value.index == j < |codeword| == Pow2(h)
    && q.value.x == T.Point(h, j)
    && T.f.Add(q.value.folded, ro) == codeword[j]
  }

  lemma {:induction false} PairIsRow<F>(current: seq<F>, index: nat)
    requires |current| % 2 == 0 && index < |current|
    ensures Sibling(index) < |current|
    ensures PairAt(index, current[index], current[Sibling(index)]) == Pairs(current)[index / 2]
    ensures Pairs(current)[index / 2] == [current[index / 2 * 2], current[index / 2 * 2 + 1]]
    ensures Pairs(current)[index / 2][Sibling(index) % 2] == current[Sibling(index)]
  {
    var i := index / 2;
    assert index == 2 * i || index == 2 * i + 1;
    RowsOfPairs(current, index);
  }

  lemma {:induction false} PointSquare<F(!new)>(T: TwoAdicField<F>, h: nat, index: nat)
    requires T.Laws() && h < T.bits
    ensures T.f.Mul(T.Point(h + 1, index), T.Point(h + 1, index)) == T.Point(h, index / 2)
  { T.PointPair(h, index / 2); assert index == 2 * (index / 2) || index == 2 * (index / 2) + 1; }

  /** The honest answer for one round opens the committed pair: its check passes. */
  lemma {:induction false} HonestOpening<F(!new), C, P>(cfg: Config<F, C, P>, h: nat, current: seq<F>, j: nat)
    requires cfg.mmcs.Complete() && |current| == Pow2(h + 1) && j < Pow2(h + 1)
    ensures RowThere(Pairs(current), j) && Sibling(j) < |current|
    ensures var step := AnswerRound(cfg, Pairs(current), j);
            && step.sibling == current[Sibling(j)]
            && PairAt(j, current[j], step.sibling) == [current[j / 2 * 2], current[j / 2 * 2 + 1]]
            && cfg.mmcs.Verify(cfg.mmcs.Commit([Pairs(current)]), [Pow2(h)], j / 2,
                [PairAt(j, current[j], step.sibling)], step.opening)
  {
    PairIsRow(current, j);
    OpenSingle(Pairs(current), h, j / 2);
    cfg.mmcs.Accepts([Pairs(current)], j / 2);
  }

  /** One round: from the prover's entry to the prover's folded entry. */
  lemma {:induction false} QueryRoundTracks<F(!new), C, P>(
    cfg: Config<F, C, P>, T: TwoAdicField<F>, h: nat, current: seq<F>, q: Query<F>, beta: F, ro: F,
    v: Option<seq<F>>, ro': F)
    requires T.Laws() && h < T.bits && cfg.mmcs.Complete()
    requires Tracks(T, h + 1, current, ro, q.index, Some(q))
    requires v.Some? ==> |v.value| == Pow2(h)
    requires ro' == if v.None? then T.f.zero else v.value[q.index / 2]
    ensures RowThere(Pairs(current), q.index)
    ensures Tracks(T, h, AddInput(T.f, FoldEvenOdd(T, h, current, beta), v), ro', q.index / 2,
                       QueryRound(cfg, T, q, h, cfg.mmcs.Commit([Pairs(current)]),
                       AnswerRound(cfg, Pairs(current), q.index), beta, ro))
  {
    HonestOpening(cfg, h, current, q.index);
    FoldAgrees(T, h, current, beta, q.index);
    PointSquare(T, h, q.index);
    AddInputAt(T.f, FoldEvenOdd(T, h, current, beta), v, q.index / 2);
  }

  /** An honest commit phase of n rounds, queried at an index with the openings of its inputs. */
  ghost predicate Queried<F(!new), C(!new), P, W(!new)>(
    s: Setup<F, C, P, W>, t: Trace<F, C, W>, n: nat, index: nat, ro: seq<F>) {
    && s.T.Laws() && s.cfg.mmcs.Complete() && s.top <= s.T.bits
    && Honest(s, t, n) && OpeningsMatch(s.T.f, s.input, s.top, index, ro) && Answerable(t.data, index)
  }

  lemma {:induction false} QueryTracksProver<F(!new), C(!new), P, W(!new)>(
    s: Setup<F, C, P, W>, t: Trace<F, C, W>, n: nat, index: nat, ro: seq<F>, i: nat)
    requires Queried(s, t, n, index, ro) && i <= n
    ensures Tracks(s.T, s.top - i, t.codewords[i], ro[s.top - i], Shr(index, i),
                       QueryRounds(s.cfg, s.T, t.commits, index, AnswerQuery(s.cfg, t.data, index), t.betas, ro,
                           s.top,
                       i))
  {
    if i == 0 { TracksStart(s, index, ro); }
    else {
      QueryTracksProver(s, t, n, index, ro, i - 1);
      var steps := AnswerQuery(s.cfg, t.data, index);
      QueryTracksStep(s, t, n, index, ro, i, s.top - i, steps,
          QueryRounds(s.cfg, s.T, t.commits, index, steps, t.betas, ro, s.top, i - 1));
    }
  }

  lemma {:induction false} QueryTracksStep<F(!new), C(!new), P, W(!new)>(
    s: Setup<F, C, P, W>, t: Trace<F, C, W>, n: nat, index: nat, ro: seq<F>, i: nat, h: nat,
    steps: seq<ProofStep<F, P>>, before: Option<Query<F>>)
    requires Queried(s, t, n, index, ro) && 0 < i <= n && h == s.top - i && steps == AnswerQuery(s.cfg, t.data, index)
    requires before == QueryRounds(s.cfg, s.T, t.commits, index, steps, t.betas, ro, s.top, i - 1)
    requires Tracks(s.T, h + 1, t.codewords[i - 1], ro[h + 1], Shr(index, i - 1), before)
    ensures Tracks(s.T, h, t.codewords[i], ro[h], Shr(index, i),
        QueryRounds(s.cfg, s.T, t.commits, index, steps, t.betas, ro, s.top, i))
  {
    var q := before.value;
    NextEntry(s, t, n, index, ro, i, h, q);
    HonestStep(s, t, n, index, i, h, steps, q, ro[h + 1]);
    QueryRoundsStep(s.cfg, s.T, t.commits, index, steps, t.betas, ro, s.top, i, h);
  }

  /** The round as the prover committed to it takes the verifier to the prover's next entry. */
  lemma {:induction false} NextEntry<F(!new), C(!new), P, W(!new)>(
    s: Setup<F, C, P, W>, t: Trace<F, C, W>, n: nat, index: nat, ro: seq<F>, i: nat, h: nat, q: Query<F>)
    requires Queried(s, t, n, index, ro) && 0 < i <= n && h == s.top - i && |t.codewords[i - 1]| % 2 == 0
    requires Tracks(s.T, h + 1, t.codewords[i - 1], ro[h + 1], Shr(index, i - 1), Some(q))
    ensures RowThere(Pairs(t.codewords[i - 1]), q.index)
    ensures var rows := Pairs(t.codewords[i - 1]);
            Tracks(s.T, h, t.codewords[i], ro[h], Shr(index, i),
                       QueryRound(s.cfg, s.T, q, h, s.cfg.mmcs.Commit([rows]), AnswerRound(s.cfg, rows, q.index),
                       t.betas[i - 1], ro[h + 1]))
  {
    ShrStep(index, i - 1);
    RoundAt(s, t, n, i, h);
    OpeningOf(s, index, ro, i, h);
    QueryRoundTracks(s.cfg, s.T, h, t.codewords[i - 1], q, t.betas[i - 1], ro[h + 1], s.input[h], ro[h]);
  }

  /** The commitment and the answer of the round are the honest ones. */
  lemma {:induction false} HonestStep<F(!new), C(!new), P, W(!new)>(
    s: Setup<F, C, P, W>, t: Trace<F, C, W>, n: nat, index: nat, i: nat, h: nat, steps: seq<ProofStep<F, P>>,
    q: Query<F>, ro: F)
    requires Honest(s, t, n) && Answerable(t.data, index) && 0 < i <= n && h == s.top - i
        && steps == AnswerQuery(s.cfg, t.data, index)
    requires q.index == Shr(index, i - 1) && |t.codewords[i - 1]| % 2 == 0
        && RowThere(Pairs(t.codewords[i - 1]), q.index)
    ensures var rows := Pairs(t.codewords[i - 1]);
            QueryRound(s.cfg, s.T, q, h, t.commits[i - 1], steps[i - 1], t.betas[i - 1], ro)
            == QueryRound(s.cfg, s.T, q, h, s.cfg.mmcs.Commit([rows]), AnswerRound(s.cfg, rows, q.index),
                t.betas[i - 1], ro)
  {
    AnswerAt(s.cfg, t.data, index, n, i - 1);
    RoundAt(s, t, n, i, h);
  }

  /** Round i - 1 of an honest trace, whose new log height is h. */
  lemma {:induction false} RoundAt<F(!new), C(!new), P, W(!new)>(
    s: Setup<F, C, P, W>, t: Trace<F, C, W>, n: nat, i: nat, h: nat)
    requires Honest(s, t, n) && 0 < i <= n && h == s.top - i
    ensures |t.codewords[i - 1]| == Pow2(h + 1)
    ensures t.data[i - 1] == Pairs(t.codewords[i - 1])
        && t.commits[i - 1] == s.cfg.mmcs.Commit([Pairs(t.codewords[i - 1])])
    ensures t.codewords[i] == AddInput(s.T.f, FoldEvenOdd(s.T, h, t.codewords[i - 1], t.betas[i - 1]), s.input[h])
  { assert AtIndex(i - 1); }

  lemma {:induction false} OpeningOf<F(!new), C(!new), P, W(!new)>(
    s: Setup<F, C, P, W>, index: nat, ro: seq<F>, i: nat, h: nat)
    requires s.Valid() && OpeningsMatch(s.T.f, s.input, s.top, index, ro) && i <= s.top && h == s.top - i
    ensures s.input[h].Some? ==> Shr(index, i) < |s.input[h].value| == Pow2(h)
    ensures ro[h] == if s.input[h].None? then s.T.f.zero else s.input[h].value[Shr(index, i)]
  { assert AtIndex(h); ShrBound(index, h, i); }

  lemma {:induction false} TracksStart<F(!new), C(!new), P, W(!new)>(s: Setup<F, C, P, W>, index: nat, ro: seq<F>)
    requires s.T.Laws() && s.Valid() && OpeningsMatch(s.T.f, s.input, s.top, index, ro)
    ensures Tracks(s.T, s.top, s.input[s.top].value, ro[s.top], Shr(index, 0), Some(StartQuery(s.T, index, s.top)))
  {
    s.T.f.Unit(ro[s.top]); assert AtIndex(s.top);
    assert Shr(index, 0) == index && Shr(index, s.top - s.top) == index;
  }

  lemma {:induction false} SameSum<F(!new)>(f: Field<F>, a: F, b: F, c: F)
    requires f.Laws() && f.Add(a, b) == c
    ensures a == c <==> b == f.zero
  { f.Unit(a); if a == c { f.AddCancel(a, b, f.zero); } }

  /** The whole query.  Every opening is accepted, and the folded value is the final constant exactly
      when the opening at height log_blowup vanishes at this index: the prover adds that opening in
      its last round and the verifier never does. */
  lemma {:induction false} QueryMeetsFinal<F(!new), C(!new), P, W(!new)>(
    s: Setup<F, C, P, W>, t: Trace<F, C, W>, n: nat, index: nat, ro: seq<F>)
    requires s.T.Laws() && s.cfg.mmcs.Complete() && s.top <= s.T.bits
    requires Honest(s, t, n) && OpeningsMatch(s.T.f, s.input, s.top, index, ro) && Answerable(t.data, index)
    requires IsConstant(t.Last())
    ensures var q := QueryRounds(s.cfg, s.T, t.commits, index, AnswerQuery(s.cfg, t.data, index), t.betas, ro, s.top,
        n);
            q.Some? && (q.value.folded == t.Last()[0] <==> ro[s.top - n] == s.T.f.zero)
  {
    QueryTracksProver(s, t, n, index, ro, n);
    var q := QueryRounds(s.cfg, s.T, t.commits, index, AnswerQuery(s.cfg, t.data, index), t.betas, ro, s.top,
        n).value;
    SameSum(s.T.f, q.folded, ro[s.top - n], t.Last()[0]);
  }

  // ---------- low degree ----------

  /** Every input of height h from log_blowup up to the top is the codeword of a polynomial with at
      most 2^(h - log_blowup) coefficients. */
  ghost predicate LowDegree<F(!new)>(
    T: TwoAdicField<F>, input: Input<F>, top: nat, logBlowup: nat, polys: seq<seq<F>>) {
    && TopOk(input, top) && |polys| == 32
    && forall h {:trigger AtIndex(h)} :: logBlowup <= h <= top && input[h].Some? ==>
         input[h].value == Codeword(T, h, polys[h]) && |polys[h]| <= Pow2(h - logBlowup)
  }

  /** The codeword of a polynomial with at most 2^(h - log_blowup) coefficients. */
  ghost predicate IsLow<F(!new)>(T: TwoAdicField<F>, logBlowup: nat, h: nat, codeword: seq<F>, p: seq<F>) {
    logBlowup <= h && codeword == Codeword(T, h, p) && |p| <= Pow2(h - logBlowup)
  }

  /** Low degree survives every round of folding and adding. */
  lemma {:induction false} FoldingKeepsLowDegree<F(!new), C(!new), P, W(!new)>(
    s: Setup<F, C, P, W>, t: Trace<F, C, W>, n: nat, polys: seq<seq<F>>, i: nat) returns (p: seq<F>)
    requires s.T.Laws() && s.top <= s.T.bits && Honest(s, t, n)
    requires LowDegree(s.T, s.input, s.top, s.cfg.logBlowup, polys) && i <= n && n + s.cfg.logBlowup <= s.top
    ensures IsLow(s.T, s.cfg.logBlowup, s.top - i, t.codewords[i], p)
  {
    if i == 0 {
      LowInput(s.T, s.input, s.top, s.cfg.logBlowup, polys, s.top);
      p := polys[s.top];
    } else {
      var q := FoldingKeepsLowDegree(s, t, n, polys, i - 1);
      p := FoldingStep(s, t, n, polys, i, s.top - i, q);
    }
  }

  lemma {:induction false} FoldingStep<F(!new), C(!new), P, W(!new)>(
    s: Setup<F, C, P, W>, t: Trace<F, C, W>, n: nat, polys: seq<seq<F>>, i: nat, h: nat, q: seq<F>)
    returns (p: seq<F>)
    requires s.T.Laws() && s.top <= s.T.bits && Honest(s, t, n)
        && LowDegree(s.T, s.input, s.top, s.cfg.logBlowup, polys)
    requires 0 < i <= n && h == s.top - i && s.cfg.logBlowup <= h
        && IsLow(s.T, s.cfg.logBlowup, h + 1, t.codewords[i - 1], q)
    ensures IsLow(s.T, s.cfg.logBlowup, h, t.codewords[i], p)
  {
    LowInput(s.T, s.input, s.top, s.cfg.logBlowup, polys, h);
    RoundAt(s, t, n, i, h);
    p := LowDegreeRound(s.T, h, h - s.cfg.logBlowup, q, t.betas[i - 1], s.input[h], polys[h]);
  }

  lemma {:induction false} LowInput<F(!new)>(
    T: TwoAdicField<F>, input: Input<F>, top: nat, logBlowup: nat, polys: seq<seq<F>>, h: nat)
    requires LowDegree(T, input, top, logBlowup, polys) && logBlowup <= h <= top
    ensures input[h].Some? ==> input[h].value == Codeword(T, h, polys[h]) && |polys[h]| <= Pow2(h - logBlowup)
  { assert AtIndex(h); }

  /** One round: the fold of the codeword of p plus an optional codeword of q. */
  lemma {:induction false} LowDegreeRound<F(!new)>(
    T: TwoAdicField<F>, h: nat, d: nat, p: seq<F>, beta: F, v: Option<seq<F>>, q: seq<F>) returns (r: seq<F>)
    requires T.Laws() && h < T.bits && |p| <= Pow2(d + 1)
    requires v.Some? ==> v.value == Codeword(T, h, q) && |q| <= Pow2(d)
    ensures AddInput(T.f, FoldEvenOdd(T, h, Codeword(T, h + 1, p), beta), v) == Codeword(T, h, r)
    ensures |r| <= Pow2(d)
  {
    FoldOfCodeword(T, h, p, beta);
    r := FoldPoly(T.f, p, beta);
    if v.Some? { AddInputOfCodewords(T, h, r, q); r := AddPoly(T.f, r, q); }
  }

  lemma {:induction false} AddInputOfCodewords<F(!new)>(T: TwoAdicField<F>, h: nat, p: seq<F>, q: seq<F>)
    requires T.Laws()
    ensures AddInput(T.f, Codeword(T, h, p), Some(Codeword(T, h, q))) == Codeword(T, h, AddPoly(T.f, p, q))
  {
    forall j | 0 <= j < Pow2(h)
      ensures AddInput(T.f, Codeword(T, h, p), Some(Codeword(T, h, q)))[j] == Codeword(T, h, AddPoly(T.f, p, q))[j]
    {
      AddInputAt(T.f, Codeword(T, h, p), Some(Codeword(T, h, q)), j);
      CodewordAt(T, h, p, j); CodewordAt(T, h, q, j); CodewordAt(T, h, AddPoly(T.f, p, q), j);
      EvalAddPoly(T.f, p, q, T.Point(h, j));
    }
  }

  lemma {:induction false} ConstantCodeword<F(!new)>(T: TwoAdicField<F>, k: nat, p: seq<F>)
    requires T.Laws() && |p| <= 1
    ensures IsConstant(Codeword(T, k, p))
  {
    forall j | 0 <= j < Pow2(k) ensures Codeword(T, k, p)[j] == Codeword(T, k, p)[0] {
      CodewordAt(T, k, p, j); CodewordAt(T, k, p, 0);
      T.f.MulZero(T.Point(k, j)); T.f.MulZero(T.Point(k, 0));
    }
  }

  /** With low-degree inputs the assertions at the end of the commit phase never fire. */
  lemma {:induction false} CommitPhaseEndsConstant<F(!new), C(!new), P, W(!new)>(
    s: Setup<F, C, P, W>, polys: seq<seq<F>>)
    requires s.Valid() && s.T.Laws() && s.cfg.logBlowup <= s.top <= s.T.bits
    requires LowDegree(s.T, s.input, s.top, s.cfg.logBlowup, polys)
    ensures var last := Rounds(s, NumRounds(s.top, s.cfg.logBlowup)).Last();
            |last| == Pow2(s.cfg.logBlowup) && IsConstant(last)
  {
    var n := NumRounds(s.top, s.cfg.logBlowup);
    RoundsHonest(s, n);
    var p := FoldingKeepsLowDegree(s, Rounds(s, n), n, polys, n);
    ConstantCodeword(s.T, s.cfg.logBlowup, p);
  }

  // ---------- the whole protocol ----------

  lemma {:induction false} DrawStep<F(!new), C(!new), W(!new)>(
    sponge: Sponge<F, C, W>, log: Transcript<F, C, W>, commits: seq<C>, i: nat, betas: seq<F>,
    seen: Transcript<F, C, W>)
    requires 0 < i <= |commits| && DrawBetas(sponge, log, commits, i - 1) == (betas, seen)
    ensures var before := seen + [SawCommit(commits[i - 1])];
            DrawBetas(sponge, log, commits, i) == (betas + [sponge.Ext(before)], before + [DrewExt])
  {}

  lemma {:induction false} SameBetas<F(!new), C(!new), P, W(!new)>(
    s: Setup<F, C, P, W>, t: Trace<F, C, W>, n: nat, i: nat)
    requires Honest(s, t, n) && i <= n
    ensures DrawBetas(s.sponge, s.log, t.commits, i) == (t.betas[..i], t.logs[i])
  {
    if i > 0 {
      SameBetas(s, t, n, i - 1);
      DrawStep(s.sponge, s.log, t.commits, i, t.betas[..i - 1], t.logs[i - 1]);
      RoundDraws(s, t, n, i - 1);
      assert t.betas[..i] == t.betas[..i - 1] + [t.betas[i - 1]];
    }
  }

  lemma {:induction false} RoundDraws<F(!new), C(!new), P, W(!new)>(
    s: Setup<F, C, P, W>, t: Trace<F, C, W>, n: nat, i: nat)
    requires Honest(s, t, n) && i < n
    ensures var before := t.logs[i] + [SawCommit(t.commits[i])];
        t.betas[i] == s.sponge.Ext(before) && t.logs[i + 1] == before + [DrewExt]
  { assert AtIndex(i); }

  /** Prover and verifier see the same transcript, so they draw the same betas and indices. */
  lemma {:induction false} SameChallenges<F(!new), C(!new), P, W(!new)>(
    s: Setup<F, C, P, W>, t: Trace<F, C, W>, n: nat)
    requires Honest(s, t, n) && s.sponge.Laws() && n + s.cfg.logBlowup == s.top
        && AllAnswerable(t.data, QueryIndices(s, t))
    ensures SampledChallenges(s.cfg, s.sponge, ProofOf(s, t), s.log) == Ok(Challenges(QueryIndices(s, t), t.betas))
  {
    SameBetas(s, t, n, n);
    assert t.betas[..n] == t.betas;
  }

  /** The verdict of `verify_challenges` on query i of an honest proof. */
  lemma {:induction false} HonestQueryVerdict<F(!new), C(!new), P, W(!new)>(
    s: Setup<F, C, P, W>, t: Trace<F, C, W>, n: nat, ros: seq<seq<F>>, i: nat)
    requires s.T.Laws() && s.cfg.mmcs.Complete() && s.top <= s.T.bits
    requires Honest(s, t, n) && n + s.cfg.logBlowup == s.top && IsConstant(t.Last())
    requires AllAnswerable(t.data, QueryIndices(s, t)) && i < |ros| && i < s.cfg.numQueries
    requires OpeningsMatch(s.T.f, s.input, s.top, QueryIndices(s, t)[i], ros[i])
    ensures CheckQuery(s.cfg, s.T, ProofOf(s, t), Challenges(QueryIndices(s, t), t.betas), ros, i)
         == if ros[i][s.cfg.logBlowup] == s.T.f.zero then Ok(()) else Err(FinalPolyMismatch)
  {
    var index, proof := QueryIndices(s, t)[i], ProofOf(s, t);
    QueryMeetsFinal(s, t, n, index, ros[i]);
    var steps := AnswerQuery(s.cfg, t.data, index);
    var q := QueryRounds(s.cfg, s.T, t.commits, index, steps, t.betas, ros[i], s.top, n).value;
    SentAnswer(s, t, i, proof);
    QueryVerdict(s.cfg, s.T, proof, Challenges(QueryIndices(s, t), t.betas), ros, i, n, s.top, index, steps, q);
  }

  lemma {:induction false} SentAnswer<F(!new), C(!new), P, W(!new)>(
    s: Setup<F, C, P, W>, t: Trace<F, C, W>, i: nat, proof: FriProof<F, C, P, W>)
    requires t.codewords != [] && t.logs != [] && t.Last() != [] && AllAnswerable(t.data, QueryIndices(s, t))
        && i < s.cfg.numQueries
    requires proof == ProofOf(s, t)
    ensures |proof.queries| == |QueryIndices(s, t)| == s.cfg.numQueries
    ensures proof.commits == t.commits && proof.finalPoly == t.Last()[0]
    ensures proof.queries[i] == AnswerQuery(s.cfg, t.data, QueryIndices(s, t)[i])
  { AnswersAt(s.cfg, t.data, QueryIndices(s, t), |QueryIndices(s, t)|, i); }

  /** `verify_query` and the final comparison, for a proof of n rounds. */
  lemma {:induction false} QueryVerdict<F(!new), C(!new), P, W(!new)>(
    cfg: Config<F, C, P>, T: TwoAdicField<F>, proof: FriProof<F, C, P, W>, ch: Challenges<F>, ros: seq<seq<F>>,
    i: nat, n: nat, top: nat, index: nat, steps: seq<ProofStep<F, P>>, q: Query<F>)
    requires i < |ch.indices| && i < |proof.queries| && i < |ros| && top == n + cfg.logBlowup < |ros[i]|
    requires |proof.commits| == |ch.betas| == |steps| == n && index == ch.indices[i] && proof.queries[i] == steps
    requires QueryRounds(cfg, T, proof.commits, index, steps, ch.betas, ros[i], top, n) == Some(q)
    ensures CheckQuery(cfg, T, proof, ch, ros, i)
         == if q.folded == proof.finalPoly then Ok(()) else Err(FinalPolyMismatch)
  {}

  /** FRI completeness.  For low-degree inputs an honest proof exists, the verifier draws the
      prover's challenges, and it accepts exactly when the input at height log_blowup vanishes at
      every queried index. */
  lemma {:induction false} FriComplete<F(!new), C(!new), P, W(!new)>(
    s: Setup<F, C, P, W>, polys: seq<seq<F>>, ros: seq<seq<F>>)
    requires s.Valid() && s.T.Laws() && s.sponge.Laws() && s.cfg.mmcs.Complete()
        && s.cfg.logBlowup <= s.top <= s.T.bits
    requires LowDegree(s.T, s.input, s.top, s.cfg.logBlowup, polys)
    requires var t := Rounds(s, NumRounds(s.top, s.cfg.logBlowup));
             |ros| == s.cfg.numQueries && forall i :: 0 <= i < |ros| ==>
                 OpeningsMatch(s.T.f, s.input, s.top, QueryIndices(s, t)[i], ros[i])
    ensures var t := Rounds(s, NumRounds(s.top, s.cfg.logBlowup));
            && IsConstant(t.Last()) && AllAnswerable(t.data, QueryIndices(s, t))
            && SampledChallenges(s.cfg, s.sponge, ProofOf(s, t), s.log) == Ok(Challenges(QueryIndices(s, t), t.betas))
            && forall i :: 0 <= i < |ros| ==>
                 (CheckQuery(s.cfg, s.T, ProofOf(s, t), Challenges(QueryIndices(s, t), t.betas), ros, i).Ok?
                  <==> ros[i][s.cfg.logBlowup] == s.T.f.zero)
  {
    var n := NumRounds(s.top, s.cfg.logBlowup);
    var t := Rounds(s, n);
    RoundsHonest(s, n);
    CommitPhaseEndsConstant(s, polys);
    DrawnInRange(s.sponge, QueryLog(s.sponge, t.Log(), t.Last()[0], s.cfg.powBits), s.top, s.cfg.numQueries);
    RoundsAnswerable(s, n, QueryIndices(s, t));
    SameChallenges(s, t, n);
    forall i | 0 <= i < |ros|
      ensures CheckQuery(s.cfg, s.T, ProofOf(s, t), Challenges(QueryIndices(s, t), t.betas), ros, i).Ok?
              <==> ros[i][s.cfg.logBlowup] == s.T.f.zero
    { HonestQueryVerdict(s, t, n, ros, i); }
  }
}
