/** The memory-saving opening: leaves taken out of their trees are put back round by round while they
    are needed.  It returns what `open` returns and leaves every tree with its leaves. */
module PcsSequential {
  import opened Basics
  import opened Bits
  import opened Fields
  import opened Mmcs
  import opened Transcripts
  import opened Fri
  import opened InverseDenominators
  import opened PcsReduce
  import opened Pcs
  import opened MerkleTree
  import opened MerkleVerify
  import opened PcsVerify
  import opened PcsCompleteness

  /** Where the leaves of a committed round are: still in the tree, or saved outside it. */
  ghost predicate Held<F, D>(
    h: Hasher<F, D>, tree: FieldMerkleTree<F, D>, saved: Option<seq<Matrix<F>>>, mats: seq<Matrix<F>>)
    reads tree
  {
    && tree.Over(h, mats) && mats != []
    && (if saved.Some? then saved.value == mats && tree.leaves == [] else tree.leaves == mats)
  }

  /** `if let Some(ldes) = saved.take() { restore }`. */
  method Restore<F, D>(
    ghost h: Hasher<F, D>, tree: FieldMerkleTree<F, D>, saved: Option<seq<Matrix<F>>>, ghost mats: seq<Matrix<F>>)
    returns (rest: Option<seq<Matrix<F>>>)
    requires Held(h, tree, saved, mats)
    modifies tree`leaves
    ensures tree.leaves == mats && tree.Over(h, mats) && rest == None
  {
    if saved.Some? { tree.RestoreLeaves(saved.value); }
    rest := None;
  }

  /** `if has_saved { saved = Some(take) }`. */
  method TakeBack<F, D>(
    ghost h: Hasher<F, D>, tree: FieldMerkleTree<F, D>, hadSaved: bool, ghost mats: seq<Matrix<F>>)
    returns (saved: Option<seq<Matrix<F>>>)
    requires tree.leaves == mats != [] && tree.Over(h, mats)
    modifies tree`leaves
    ensures Held(h, tree, saved, mats) && (saved.Some? <==> hadSaved)
  {
    saved := None;
    if hadSaved {
      var taken := tree.TakeLeaves();
      saved := Some(taken);
    }
  }

  ghost predicate AllHeld<F, D>(
    h: Hasher<F, D>, trees: seq<FieldMerkleTree<F, D>>, saved: seq<Option<seq<Matrix<F>>>>, mats: seq<seq<Matrix<F>>>)
    reads trees
  { |trees| == |saved| == |mats| && forall i :: 0 <= i < |trees| ==> Held(h, trees[i], saved[i], mats[i]) }

  ghost predicate Distinct<F, D>(trees: seq<FieldMerkleTree<F, D>>)
  { forall i, j :: 0 <= i < j < |trees| ==> trees[i] != trees[j] }

  /** The rounds as `open` takes them. */
  function RoundsOf<F>(mats: seq<seq<Matrix<F>>>, points: seq<seq<seq<F>>>): (r: seq<Round<F>>)
    requires |mats| == |points|
    ensures |r| == |mats| && forall i :: 0 <= i < |r| ==> r[i] == Round(mats[i], points[i])
  {
    if mats == [] then []
    else RoundsOf(mats[..|mats| - 1], points[..|mats| - 1]) + [Round(mats[|mats| - 1], points[|mats| - 1])]
  }

  /** Round i + 1 of an opening is the i-th tree's. */
  ghost predicate Follows<F>(rounds: seq<Round<F>>, mats: seq<seq<Matrix<F>>>, points: seq<seq<seq<F>>>) {
    |mats| == |points| && |rounds| == 1 + |mats| && forall i :: 0 <= i < |mats| ==>
        rounds[1 + i] == Round(mats[i], points[i])
  }

  /** Phase 0: the dimensions of every round, reading each tree while its leaves are in, and the
      height of the tallest matrix. */
  method ReadDims<F, D>(
    ghost h: Hasher<F, D>, prepMats: seq<Matrix<F>>, trees: seq<FieldMerkleTree<F, D>>, points: seq<seq<seq<F>>>,
    saved: seq<Option<seq<Matrix<F>>>>,
    ghost mats: seq<seq<Matrix<F>>>, ghost rounds: seq<Round<F>>)
    returns (dims: seq<RoundDims<F>>, tallest: nat, saved': seq<Option<seq<Matrix<F>>>>)
    requires AllHeld(h, trees, saved, mats) && Distinct(trees) && Follows(rounds, mats, points)
        && rounds[0].mats == prepMats
    modifies trees
    ensures AllHeld(h, trees, saved', mats) && tallest == MaxHeight(rounds, |rounds|)
    ensures |dims| == |trees| && DimsMatch(dims, mats, points)
  {
    dims, saved', tallest := [], saved, Max(0, MaxOf(Heights(prepMats)));
    TallerStep(rounds, 0);
    for i := 0 to |trees|
      invariant AllHeld(h, trees, saved', mats) && tallest == MaxHeight(rounds, 1 + i)
      invariant |dims| == i && DimsMatch(dims, mats, points)
    {
      var dim, height;
      TallerStep(rounds, 1 + i);
      dim, height, saved' := ReadTree(h, trees, points, saved', mats, i);
      DimsPush(dims, mats, points, dim);
      dims := dims + [dim];
      tallest := Max(tallest, height);
    }
  }

  ghost predicate DimsMatch<F>(dims: seq<RoundDims<F>>, mats: seq<seq<Matrix<F>>>, points: seq<seq<seq<F>>>) {
    |dims| <= |mats| == |points| && forall j :: 0 <= j < |dims| ==> dims[j] == RoundDims(LogsOf(mats[j]), points[j])
  }

  lemma {:induction false} DimsPush<F>(
    dims: seq<RoundDims<F>>, mats: seq<seq<Matrix<F>>>, points: seq<seq<seq<F>>>, dim: RoundDims<F>)
    requires DimsMatch(dims, mats, points) && |dims| < |mats|
        && dim == RoundDims(LogsOf(mats[|dims|]), points[|dims|])
    ensures DimsMatch(dims + [dim], mats, points)
  {}

  lemma {:induction false} DimsTogether<F>(
    dims: seq<RoundDims<F>>, mats: seq<seq<Matrix<F>>>, points: seq<seq<seq<F>>>, rounds: seq<Round<F>>)
    requires DimsMatch(dims, mats, points) && |dims| == |mats| && Follows(rounds, mats, points)
    ensures [RoundDims(LogsOf(rounds[0].mats), rounds[0].points)] + dims == DimsOf(rounds)
  {
    var all := [RoundDims(LogsOf(rounds[0].mats), rounds[0].points)] + dims;
    forall i | 0 <= i < |all| ensures all[i] == DimsOf(rounds)[i] {
      if i > 0 { assert rounds[1 + (i - 1)] == Round(mats[i - 1], points[i - 1]); }
    }
  }

  lemma {:induction false} TallerStep<F>(rounds: seq<Round<F>>, n: nat)
    requires n < |rounds|
    ensures MaxHeight(rounds, n + 1) == Max(MaxHeight(rounds, n), MaxOf(Heights(rounds[n].mats)))
    ensures n == 0 ==> MaxHeight(rounds, n) == 0
  {}

  method ReadTree<F, D>(
    ghost h: Hasher<F, D>, trees: seq<FieldMerkleTree<F, D>>, points: seq<seq<seq<F>>>,
    saved: seq<Option<seq<Matrix<F>>>>, ghost mats: seq<seq<Matrix<F>>>, i: nat)
    returns (dim: RoundDims<F>, height: nat, saved': seq<Option<seq<Matrix<F>>>>)
    requires AllHeld(h, trees, saved, mats) && Distinct(trees) && |points| == |trees| && i < |trees|
    modifies trees[i]
    ensures AllHeld(h, trees, saved', mats) && dim == RoundDims(LogsOf(mats[i]), points[i])
        && height == MaxOf(Heights(mats[i]))
  {
    var hadSaved := saved[i].Some?;
    var empty := Restore(h, trees[i], saved[i], mats[i]);
    dim := RoundDims(LogsOf(trees[i].leaves), points[i]);
    height := MaxOf(Heights(trees[i].leaves));
    var back := TakeBack(h, trees[i], hadSaved, mats[i]);
    saved' := saved[i := back];
  }

  // ---------- the transcript grows round by round ----------

  lemma {:induction false} SeePrefix<F(!new), C(!new), W(!new)>(
    log: Transcript<F, C, W>, vs: seq<seq<seq<PointOpen<F>>>>, v: seq<seq<PointOpen<F>>>, n: nat)
    requires n <= |vs|
    ensures SeeRounds(log, vs + [v], n) == SeeRounds(log, vs, n)
  { if n > 0 { SeePrefix(log, vs, v, n - 1); } }

  /** The transcript after the opened values of these claims. */
  ghost predicate Seen<F(!new), C(!new), W(!new)>(
    start: Transcript<F, C, W>, claims: seq<seq<MatOpen<F>>>, log: Transcript<F, C, W>) {
    log == SeeRounds(start, ValuesIn(claims), |claims|)
  }

  lemma {:induction false} SeenPush<F(!new), C(!new), W(!new)>(
    start: Transcript<F, C, W>, claims: seq<seq<MatOpen<F>>>, mos: seq<MatOpen<F>>, log: Transcript<F, C, W>)
    requires Seen(start, claims, log)
    ensures Seen(start, claims + [mos], SeeMats(log, OpensIn(mos), |OpensIn(mos)|))
  {
    assert (claims + [mos])[..|claims|] == claims;
    SeePrefix(start, ValuesIn(claims), OpensIn(mos), |claims|);
  }

  /** One round of phase 1: interpolate and show the values to the challenger. */
  method OpenRound<F(!new, ==), C(!new), P, W(!new), D(!new)>(
    pcs: Params<F, C, P, D, seq<D>>, denoms: map<F, seq<F>>, round: Round<F>, challenger: Challenger<F, C, W>,
    ghost start: Transcript<F, C, W>, ghost claims: seq<seq<MatOpen<F>>>) returns (mos: seq<MatOpen<F>>)
    requires RoundShape(pcs, round) && RoundReady(denoms, round) && Seen(start, claims, challenger.log)
    modifies challenger
    ensures mos == ClaimsOf(pcs, denoms, round, |round.mats|) && Seen(start, claims + [mos], challenger.log)
  {
    mos := InterpolateRound(pcs, denoms, round);
    SeenPush(start, claims, mos, challenger.log);
    ObserveRound(challenger, OpensIn(mos));
  }

  /** The same for a round whose leaves may be saved. */
  method OpenSaved<F(!new, ==), C(!new), P, W(!new), D(!new)>(
    pcs: Params<F, C, P, D, seq<D>>, ghost h: Hasher<F, D>, denoms: map<F, seq<F>>, tree: FieldMerkleTree<F, D>,
    points: seq<seq<F>>,
    saved: Option<seq<Matrix<F>>>, ghost mats: seq<Matrix<F>>, challenger: Challenger<F, C, W>,
    ghost start: Transcript<F, C, W>, ghost claims: seq<seq<MatOpen<F>>>)
    returns (mos: seq<MatOpen<F>>, saved': Option<seq<Matrix<F>>>)
    requires Held(h, tree, saved, mats) && RoundShape(pcs, Round(mats, points))
        && RoundReady(denoms, Round(mats, points)) && Seen(start, claims, challenger.log)
    modifies tree`leaves, challenger
    ensures Held(h, tree, saved', mats)
    ensures mos == ClaimsOf(pcs, denoms, Round(mats, points), |mats|) && Seen(start, claims + [mos], challenger.log)
  {
    var hadSaved := saved.Some?;
    var empty := Restore(h, tree, saved, mats);
    mos := OpenRound(pcs, denoms, Round(tree.leaves, points), challenger, start, claims);
    saved' := TakeBack(h, tree, hadSaved, mats);
  }

  /** Phase 1 for the rounds whose leaves may be saved; `claims` starts with the preprocessed round. */
  method OpenRounds<F(!new, ==), C(!new), P, W(!new), D(!new)>(
    pcs: Params<F, C, P, D, seq<D>>, ghost h: Hasher<F, D>, denoms: map<F, seq<F>>,
    trees: seq<FieldMerkleTree<F, D>>, points: seq<seq<seq<F>>>,
    saved: seq<Option<seq<Matrix<F>>>>, ghost mats: seq<seq<Matrix<F>>>, first: seq<MatOpen<F>>,
    challenger: Challenger<F, C, W>,
    ghost start: Transcript<F, C, W>, ghost rounds: seq<Round<F>>)
    returns (claims: seq<seq<MatOpen<F>>>, saved': seq<Option<seq<Matrix<F>>>>)
    requires AllHeld(h, trees, saved, mats) && Distinct(trees) && Follows(rounds, mats, points)
    requires Shape(pcs, rounds) && AllReady(denoms, rounds)
    requires [first] == AllClaims(pcs, denoms, rounds, 1) && Seen(start, [first], challenger.log)
    modifies trees, challenger
    ensures AllHeld(h, trees, saved', mats)
    ensures claims == AllClaims(pcs, denoms, rounds, |rounds|) && Seen(start, claims, challenger.log)
  {
    claims, saved' := [first], saved;
    for i := 0 to |trees|
      invariant AllHeld(h, trees, saved', mats)
      invariant claims == AllClaims(pcs, denoms, rounds, 1 + i) && Seen(start, claims, challenger.log)
    {
      claims, saved' := OpenNext(pcs, h, denoms, trees, points, saved', mats, claims, challenger, start, rounds, i);
    }
  }

  /** One of them. */
  method OpenNext<F(!new, ==), C(!new), P, W(!new), D(!new)>(
    pcs: Params<F, C, P, D, seq<D>>, ghost h: Hasher<F, D>, denoms: map<F, seq<F>>,
    trees: seq<FieldMerkleTree<F, D>>, points: seq<seq<seq<F>>>,
    saved: seq<Option<seq<Matrix<F>>>>, ghost mats: seq<seq<Matrix<F>>>, before: seq<seq<MatOpen<F>>>,
    challenger: Challenger<F, C, W>,
    ghost start: Transcript<F, C, W>, ghost rounds: seq<Round<F>>, i: nat)
    returns (claims: seq<seq<MatOpen<F>>>, saved': seq<Option<seq<Matrix<F>>>>)
    requires AllHeld(h, trees, saved, mats) && Distinct(trees) && Follows(rounds, mats, points) && i < |trees|
    requires Shape(pcs, rounds) && AllReady(denoms, rounds)
    requires before == AllClaims(pcs, denoms, rounds, 1 + i) && Seen(start, before, challenger.log)
    modifies trees[i], challenger
    ensures AllHeld(h, trees, saved', mats)
    ensures claims == AllClaims(pcs, denoms, rounds, 2 + i) && Seen(start, claims, challenger.log)
  {
    assert rounds[1 + i] == Round(mats[i], points[i]);
    var mos, back := OpenSaved(pcs, h, denoms, trees[i], points[i], saved[i], mats[i], challenger, start, before);
    saved' := saved[i := back];
    NextClaims(pcs, denoms, rounds, 1 + i, before, mos);
    claims := before + [mos];
  }

  lemma {:induction false} NextClaims<F(!new), C(!new), P, D(!new), Q(!new)>(
    pcs: Params<F, C, P, D, Q>, denoms: map<F, seq<F>>, rounds: seq<Round<F>>, n: nat, claims: seq<seq<MatOpen<F>>>,
    mos: seq<MatOpen<F>>)
    requires Shape(pcs, rounds) && AllReady(denoms, rounds) && n < |rounds|
        && claims == AllClaims(pcs, denoms, rounds, n)
    requires mos == ClaimsOf(pcs, denoms, rounds[n], |rounds[n].mats|)
    ensures claims + [mos] == AllClaims(pcs, denoms, rounds, n + 1)
  {}

  /** Phase 2 for one round: the claims are read against the leaves now in the tree. */
  method ReduceRound<F(!new)>(
    f: Field<F>, alpha: F, powers: seq<F>, denoms: map<F, seq<F>>, st: Reduced<F>, leaves: seq<Matrix<F>>,
    mos: seq<MatOpen<F>>) returns (r: Reduced<F>)
    requires ReducedOk(st) && |leaves| == |mos| && forall m :: 0 <= m < |mos| ==>
        MatOk(mos[m]) && Denominators(denoms, mos[m]) && mos[m].width <= |powers| && leaves[m] == mos[m].mat
    requires forall i :: 0 <= i < |powers| ==> powers[i] == f.Pow(alpha, i)
    ensures r == ReduceMats(f, alpha, denoms, st, mos, |mos|)
  {
    r := st;
    for m := 0 to |mos|
      invariant ReducedOk(r) && r == ReduceMats(f, alpha, denoms, st, mos, m)
    { r := ReduceMatrix(f, alpha, powers, denoms, r, mos[m].(mat := leaves[m])); }
  }

  /** The first n trees have their leaves. */
  ghost predicate Loaded<F, D>(h: Hasher<F, D>, trees: seq<FieldMerkleTree<F, D>>, mats: seq<seq<Matrix<F>>>, n: nat)
    reads trees
  { n <= |trees| == |mats| && forall i :: 0 <= i < n ==> Complete(h, trees[i], mats[i]) }

  /** The tree over these matrices, with its leaves. */
  ghost predicate Complete<F, D>(h: Hasher<F, D>, tree: FieldMerkleTree<F, D>, mats: seq<Matrix<F>>)
    reads tree
  { tree.Over(h, mats) && tree.leaves == mats }

  ghost predicate HeldFrom<F, D>(
    h: Hasher<F, D>, trees: seq<FieldMerkleTree<F, D>>, saved: seq<Option<seq<Matrix<F>>>>,
    mats: seq<seq<Matrix<F>>>, n: nat)
    reads trees
  { |trees| == |saved| == |mats| && forall i :: n <= i < |trees| ==> Held(h, trees[i], saved[i], mats[i]) }

  /** The claims of a round are about these matrices. */
  ghost predicate ClaimsOn<F>(denoms: map<F, seq<F>>, width: nat, mats: seq<Matrix<F>>, mos: seq<MatOpen<F>>) {
    |mats| == |mos| && forall m :: 0 <= m < |mos| ==>
        MatOk(mos[m]) && Denominators(denoms, mos[m]) && mos[m].width <= width && mats[m] == mos[m].mat
  }

  ghost predicate AllOn<F>(denoms: map<F, seq<F>>, width: nat, rounds: seq<Round<F>>, claims: seq<seq<MatOpen<F>>>) {
    |rounds| == |claims| && forall r :: 0 <= r < |rounds| ==> ClaimsOn(denoms, width, rounds[r].mats, claims[r])
  }

  lemma {:induction false} ClaimsAreOn<F(!new), C(!new), P, D(!new), Q(!new)>(
    pcs: Params<F, C, P, D, Q>, denoms: map<F, seq<F>>, width: nat, rounds: seq<Round<F>>,
    claims: seq<seq<MatOpen<F>>>)
    requires Shape(pcs, rounds) && AllReady(denoms, rounds) && claims == AllClaims(pcs, denoms, rounds, |rounds|)
        && RoundsReady(denoms, claims) && Narrow(claims, width)
    ensures AllOn(denoms, width, rounds, claims)
  {
    forall r | 0 <= r < |rounds| ensures ClaimsOn(denoms, width, rounds[r].mats, claims[r]) {
      AllClaimsAt(pcs, denoms, rounds, |rounds|, r);
      forall m | 0 <= m < |claims[r]| ensures claims[r][m].mat == rounds[r].mats[m]
          { ClaimsAt(pcs, denoms, rounds[r], |rounds[r].mats|, m); }
    }
  }

  method ReduceSaved<F(!new), D>(
    f: Field<F>, alpha: F, powers: seq<F>, denoms: map<F, seq<F>>, st: Reduced<F>, ghost h: Hasher<F, D>,
    tree: FieldMerkleTree<F, D>,
    saved: Option<seq<Matrix<F>>>, ghost mats: seq<Matrix<F>>, mos: seq<MatOpen<F>>) returns (r: Reduced<F>)
    requires ReducedOk(st) && Held(h, tree, saved, mats) && ClaimsOn(denoms, |powers|, mats, mos)
    requires forall i :: 0 <= i < |powers| ==> powers[i] == f.Pow(alpha, i)
    modifies tree`leaves
    ensures r == ReduceMats(f, alpha, denoms, st, mos, |mos|) && Complete(h, tree, mats)
  {
    var empty := Restore(h, tree, saved, mats);
    r := ReduceRound(f, alpha, powers, denoms, st, tree.leaves, mos);
  }

  ghost predicate IsPowerTable<F(!new)>(f: Field<F>, alpha: F, powers: seq<F>)
  { forall i :: 0 <= i < |powers| ==> powers[i] == f.Pow(alpha, i) }

  /** Phase 2 in progress: the first i trees are reduced and loaded. */
  ghost predicate ReducedTo<F(!new), D>(
    f: Field<F>, alpha: F, powers: seq<F>, denoms: map<F, seq<F>>, st: Reduced<F>, h: Hasher<F, D>,
    trees: seq<FieldMerkleTree<F, D>>,
    saved: seq<Option<seq<Matrix<F>>>>, mats: seq<seq<Matrix<F>>>, claims: seq<seq<MatOpen<F>>>, i: nat)
    reads trees
  {
    && RoundsReady(denoms, claims) && IsPowerTable(f, alpha, powers) && i <= |trees| && |claims| == 1 + |trees|
    && st == ReduceRounds(f, alpha, denoms, claims, 1 + i)
    && Loaded(h, trees, mats, i) && HeldFrom(h, trees, saved, mats, i) && Distinct(trees)
    && forall j :: 0 <= j < |trees| ==> ClaimsOn(denoms, |powers|, mats[j], claims[1 + j])
  }

  /** Phase 2 for the trees, keeping their leaves loaded for the queries. */
  method ReduceTrees<F(!new), D>(
    f: Field<F>, alpha: F, powers: seq<F>, denoms: map<F, seq<F>>, start: Reduced<F>, ghost h: Hasher<F, D>,
    trees: seq<FieldMerkleTree<F, D>>,
    saved: seq<Option<seq<Matrix<F>>>>, ghost mats: seq<seq<Matrix<F>>>, claims: seq<seq<MatOpen<F>>>)
    returns (st: Reduced<F>)
    requires ReducedTo(f, alpha, powers, denoms, start, h, trees, saved, mats, claims, 0)
    modifies trees
    ensures ReducedTo(f, alpha, powers, denoms, st, h, trees, saved, mats, claims, |trees|)
  {
    st := start;
    for i := 0 to |trees|
      invariant ReducedTo(f, alpha, powers, denoms, st, h, trees, saved, mats, claims, i)
    { st := ReduceNext(f, alpha, powers, denoms, st, h, trees, saved, mats, claims, i); }
  }

  /** One of them. */
  method ReduceNext<F(!new), D>(
    f: Field<F>, alpha: F, powers: seq<F>, denoms: map<F, seq<F>>, before: Reduced<F>, ghost h: Hasher<F, D>,
    trees: seq<FieldMerkleTree<F, D>>,
    saved: seq<Option<seq<Matrix<F>>>>, ghost mats: seq<seq<Matrix<F>>>, claims: seq<seq<MatOpen<F>>>, i: nat)
    returns (st: Reduced<F>)
    requires ReducedTo(f, alpha, powers, denoms, before, h, trees, saved, mats, claims, i) && i < |trees|
    modifies trees[i]
    ensures ReducedTo(f, alpha, powers, denoms, st, h, trees, saved, mats, claims, i + 1)
  {
    st := ReduceSaved(f, alpha, powers, denoms, before, h, trees[i], saved[i], mats[i], claims[1 + i]);
    assert forall j :: 0 <= j < |trees| && j != i ==> trees[j] != trees[i];
    forall j | 0 <= j < i ensures Complete(h, trees[j], mats[j]) { assert old(Complete(h, trees[j], mats[j])); }
    forall j | i < j < |trees| ensures Held(h, trees[j], saved[j], mats[j])
        { assert old(Held(h, trees[j], saved[j], mats[j])); }
  }

  /** Phase 2: reduce round by round. */
  method ReduceAll<F(!new), D>(
    f: Field<F>, alpha: F, width: nat, denoms: map<F, seq<F>>, ghost h: Hasher<F, D>, prepMats: seq<Matrix<F>>,
    trees: seq<FieldMerkleTree<F, D>>,
    saved: seq<Option<seq<Matrix<F>>>>, ghost mats: seq<seq<Matrix<F>>>, claims: seq<seq<MatOpen<F>>>,
    ghost rounds: seq<Round<F>>, ghost points: seq<seq<seq<F>>>)
    returns (st: Reduced<F>)
    requires f.Laws() && AllHeld(h, trees, saved, mats) && Distinct(trees) && Follows(rounds, mats, points)
        && rounds[0].mats == prepMats
    requires RoundsReady(denoms, claims) && AllOn(denoms, width, rounds, claims)
    modifies trees
    ensures st == ReduceRounds(f, alpha, denoms, claims, |claims|) && Loaded(h, trees, mats, |trees|)
  {
    var powers := f.ShiftedPowers(f.one, alpha, width);
    forall i | 0 <= i < width ensures powers[i] == f.Pow(alpha, i)
        { f.ShiftedPowersAt(f.one, alpha, width, i); f.Unit(f.Pow(alpha, i)); }
    assert ClaimsOn(denoms, width, rounds[0].mats, claims[0]);
    st := ReduceRound(f, alpha, powers, denoms, Fresh(), prepMats, claims[0]);
    FirstRound(f, alpha, denoms, claims);
    forall i | 0 <= i < |trees| ensures ClaimsOn(denoms, |powers|, mats[i], claims[1 + i])
        { assert ClaimsOn(denoms, width, rounds[1 + i].mats, claims[1 + i]); }
    st := ReduceTrees(f, alpha, powers, denoms, st, h, trees, saved, mats, claims);
  }

  lemma {:induction false} FirstRound<F(!new)>(
    f: Field<F>, alpha: F, denoms: map<F, seq<F>>, claims: seq<seq<MatOpen<F>>>)
    requires RoundsReady(denoms, claims) && claims != []
    ensures ReduceRounds(f, alpha, denoms, claims, 1) == ReduceMats(f, alpha, denoms, Fresh(), claims[0], |claims[0]|)
  { assert ReduceRounds(f, alpha, denoms, claims, 0) == Fresh(); }

  // ---------- queries ----------

  lemma {:induction false} TreeProves<F(!new), C(!new), P, D(!new)>(
    pcs: Params<F, C, P, D, seq<D>>, h: Hasher<F, D>, round: Round<F>, i: nat)
    requires pcs.mmcs == TreeScheme(h) && RoundShape(pcs, round) && i < Pow2(RoundLog(round.mats))
    ensures WellShaped(Heights(round.mats)) && InRange(Heights(round.mats), i)
    ensures BatchAt(pcs, round, i)
        == BatchOpening(OpenRows(round.mats, i), Path(h, round.mats, i, Levels(round.mats)))
  { RoundWellShaped(pcs, round, i); }

  /** After r rounds every query has its first r openings. */
  ghost predicate OpenedTo<F(!new), C(!new), P, D(!new)>(
    pcs: Params<F, C, P, D, seq<D>>, rounds: seq<Round<F>>, indices: seq<nat>,
    openings: seq<seq<BatchOpening<F, seq<D>>>>, r: nat)
    requires Shape(pcs, rounds) && IndicesBelow(indices, Pow2(TopLog(rounds))) && r <= |rounds|
  { |openings| == |indices| && FirstOpened(pcs, rounds, indices, openings, r) }

  /** The same for the first queries. */
  ghost predicate FirstOpened<F(!new), C(!new), P, D(!new)>(
    pcs: Params<F, C, P, D, seq<D>>, rounds: seq<Round<F>>, indices: seq<nat>,
    openings: seq<seq<BatchOpening<F, seq<D>>>>, r: nat)
    requires Shape(pcs, rounds) && IndicesBelow(indices, Pow2(TopLog(rounds))) && r <= |rounds|
  {
    |openings| <= |indices|
    && forall q: nat {:trigger AtIndex(q)} :: q < |openings| ==> IsOpened(pcs, rounds, indices[q], openings[q], r)
  }

  lemma {:induction false} OpenedPush<F(!new), C(!new), P, D(!new)>(
    pcs: Params<F, C, P, D, seq<D>>, rounds: seq<Round<F>>, indices: seq<nat>,
    openings: seq<seq<BatchOpening<F, seq<D>>>>, r: nat, batches: seq<BatchOpening<F, seq<D>>>)
    requires Shape(pcs, rounds) && IndicesBelow(indices, Pow2(TopLog(rounds))) && r <= |rounds|
    requires FirstOpened(pcs, rounds, indices, openings, r) && |openings| < |indices|
    requires IsOpened(pcs, rounds, indices[|openings|], batches, r)
    ensures FirstOpened(pcs, rounds, indices, openings + [batches], r)
  {
    var all := openings + [batches];
    forall q: nat | q < |all| ensures IsOpened(pcs, rounds, indices[q], all[q], r) { assert AtIndex(q); }
  }

  /** The openings of the first r rounds at one query. */
  ghost predicate IsOpened<F(!new), C(!new), P, D(!new)>(
    pcs: Params<F, C, P, D, seq<D>>, rounds: seq<Round<F>>, index: nat, batches: seq<BatchOpening<F, seq<D>>>, r: nat)
    requires Shape(pcs, rounds) && index < Pow2(TopLog(rounds)) && r <= |rounds|
  { batches == BatchesAt(pcs, rounds, index, r) }

  lemma {:induction false} ShiftedIndex<F>(rounds: seq<Round<F>>, index: nat, r: nat, top: nat, height: nat, i: nat)
    requires r < |rounds| && top == TopLog(rounds) && index < Pow2(top) && height == MaxOf(Heights(rounds[r].mats))
        && i == RoundIndex(rounds, index, r)
    ensures LogOf(height) <= top && Shr(index, top - LogOf(height)) == i
  { RoundBelowTop(rounds, r); }

  method OpenTreeAt<F, D>(
    ghost h: Hasher<F, D>, tree: FieldMerkleTree<F, D>, ghost mats: seq<Matrix<F>>, i: nat)
    returns (batch: BatchOpening<F, seq<D>>)
    requires Complete(h, tree, mats) && WellShaped(Heights(mats)) && InRange(Heights(mats), i)
    ensures batch == BatchOpening(OpenRows(mats, i), Path(h, mats, i, Levels(mats)))
  {
    var rows, proof := tree.OpenBatch(h, i);
    batch := BatchOpening(rows, proof);
  }

  /** One opening of one round. */
  method OpenOne<F(!new), C(!new), P, D(!new)>(
    pcs: Params<F, C, P, D, seq<D>>, ghost h: Hasher<F, D>, tree: FieldMerkleTree<F, D>, ghost rounds: seq<Round<F>>,
    top: nat, index: nat, ghost r: nat)
    returns (batch: BatchOpening<F, seq<D>>)
    requires Shape(pcs, rounds) && top == TopLog(rounds) && index < Pow2(top) && r < |rounds|
        && pcs.mmcs == TreeScheme(h)
    requires Complete(h, tree, rounds[r].mats)
    ensures batch == BatchAt(pcs, rounds[r], RoundIndex(rounds, index, r))
  {
    tree.MaxHeightKept(h, rounds[r].mats);
    ghost var i := RoundIndex(rounds, index, r);
    var height := tree.MaxHeight();
    ShiftedIndex(rounds, index, r, top, height, i);
    TreeProves(pcs, h, rounds[r], i);
    batch := OpenTreeAt(h, tree, rounds[r].mats, Shr(index, top - LogOf(height)));
  }

  lemma {:induction false} BatchesStep<F(!new), C(!new), P, D(!new), Q(!new)>(
    pcs: Params<F, C, P, D, Q>, rounds: seq<Round<F>>, index: nat, r: nat)
    requires Shape(pcs, rounds) && index < Pow2(TopLog(rounds)) && r < |rounds|
    ensures BatchesAt(pcs, rounds, index, r + 1) == BatchesAt(pcs, rounds, index, r)
        + [BatchAt(pcs, rounds[r], RoundIndex(rounds, index, r))]
  {}

  /** Phase 3 for one round: its opening at every query. */
  method OpenTree<F(!new), C(!new), P, D(!new)>(
    pcs: Params<F, C, P, D, seq<D>>, ghost h: Hasher<F, D>, tree: FieldMerkleTree<F, D>, ghost rounds: seq<Round<F>>,
    top: nat, indices: seq<nat>,
    openings: seq<seq<BatchOpening<F, seq<D>>>>, ghost r: nat) returns (openings': seq<seq<BatchOpening<F, seq<D>>>>)
    requires Shape(pcs, rounds) && top == TopLog(rounds) && IndicesBelow(indices, Pow2(top)) && r < |rounds|
        && pcs.mmcs == TreeScheme(h)
    requires Complete(h, tree, rounds[r].mats) && OpenedTo(pcs, rounds, indices, openings, r)
    ensures OpenedTo(pcs, rounds, indices, openings', r + 1)
  {
    openings' := [];
    for q := 0 to |indices|
      invariant |openings'| == q && FirstOpened(pcs, rounds, indices, openings', r + 1)
    {
      openings' := OpenQuery(pcs, h, tree, rounds, top, indices, openings, openings', r);
    }
  }

  /** Phase 3 for one round at the next query. */
  method OpenQuery<F(!new), C(!new), P, D(!new)>(
    pcs: Params<F, C, P, D, seq<D>>, ghost h: Hasher<F, D>, tree: FieldMerkleTree<F, D>, ghost rounds: seq<Round<F>>,
    top: nat, indices: seq<nat>, openings: seq<seq<BatchOpening<F, seq<D>>>>,
    done: seq<seq<BatchOpening<F, seq<D>>>>, ghost r: nat) returns (done': seq<seq<BatchOpening<F, seq<D>>>>)
    requires Shape(pcs, rounds) && top == TopLog(rounds) && IndicesBelow(indices, Pow2(top)) && r < |rounds|
        && pcs.mmcs == TreeScheme(h)
    requires Complete(h, tree, rounds[r].mats) && OpenedTo(pcs, rounds, indices, openings, r)
    requires |done| < |indices| && FirstOpened(pcs, rounds, indices, done, r + 1)
    ensures |done'| == |done| + 1 && FirstOpened(pcs, rounds, indices, done', r + 1)
  {
    var batches := OpenAlso(pcs, h, tree, rounds, top, indices, openings, |done|, r);
    OpenedPush(pcs, rounds, indices, done, r + 1, batches);
    done' := done + [batches];
  }

  /** The opening of one round added to those of the rounds before it. */
  method OpenAlso<F(!new), C(!new), P, D(!new)>(
    pcs: Params<F, C, P, D, seq<D>>, ghost h: Hasher<F, D>, tree: FieldMerkleTree<F, D>, ghost rounds: seq<Round<F>>,
    top: nat, indices: seq<nat>, openings: seq<seq<BatchOpening<F, seq<D>>>>, q: nat, ghost r: nat)
    returns (batches: seq<BatchOpening<F, seq<D>>>)
    requires Shape(pcs, rounds) && top == TopLog(rounds) && IndicesBelow(indices, Pow2(top)) && r < |rounds|
        && pcs.mmcs == TreeScheme(h) && q < |indices|
    requires Complete(h, tree, rounds[r].mats) && OpenedTo(pcs, rounds, indices, openings, r)
    ensures IsOpened(pcs, rounds, indices[q], batches, r + 1)
  {
    assert AtIndex(q);
    BatchesStep(pcs, rounds, indices[q], r);
    var batch := OpenOne(pcs, h, tree, rounds, top, indices[q], r);
    batches := openings[q] + [batch];
  }

  /** Phase 3: round by round, all queries of a round together. */
  method OpenTrees<F(!new), C(!new), P, D(!new)>(
    pcs: Params<F, C, P, D, seq<D>>, ghost h: Hasher<F, D>, prep: FieldMerkleTree<F, D>,
    trees: seq<FieldMerkleTree<F, D>>,
    ghost rounds: seq<Round<F>>, ghost mats: seq<seq<Matrix<F>>>, ghost points: seq<seq<seq<F>>>, top: nat,
    indices: seq<nat>)
    returns (openings: seq<seq<BatchOpening<F, seq<D>>>>)
    requires Shape(pcs, rounds) && top == TopLog(rounds) && IndicesBelow(indices, Pow2(top))
        && Follows(rounds, mats, points) && pcs.mmcs == TreeScheme(h)
    requires Complete(h, prep, rounds[0].mats) && Loaded(h, trees, mats, |trees|)
    ensures openings == AllBatches(pcs, rounds, indices, |indices|)
  {
    openings := StartOpenings(pcs, rounds, indices);
    openings := OpenTree(pcs, h, prep, rounds, top, indices, openings, 0);
    for i := 0 to |trees|
      invariant OpenedTo(pcs, rounds, indices, openings, 1 + i)
    {
      RoundLoaded(h, trees, mats, points, rounds, i);
      openings := OpenTree(pcs, h, trees[i], rounds, top, indices, openings, 1 + i);
    }
    OpenedAll(pcs, rounds, indices, openings);
  }

  lemma {:induction false} RoundLoaded<F, D>(
    h: Hasher<F, D>, trees: seq<FieldMerkleTree<F, D>>, mats: seq<seq<Matrix<F>>>, points: seq<seq<seq<F>>>,
    rounds: seq<Round<F>>, i: nat)
    requires Follows(rounds, mats, points) && Loaded(h, trees, mats, |trees|) && i < |trees|
    ensures Complete(h, trees[i], rounds[1 + i].mats)
  { assert Complete(h, trees[i], mats[i]); }

  /** No round has been opened yet. */
  method StartOpenings<F(!new), C(!new), P, D(!new)>(
    pcs: Params<F, C, P, D, seq<D>>, ghost rounds: seq<Round<F>>, indices: seq<nat>)
    returns (openings: seq<seq<BatchOpening<F, seq<D>>>>)
    requires Shape(pcs, rounds) && IndicesBelow(indices, Pow2(TopLog(rounds)))
    ensures OpenedTo(pcs, rounds, indices, openings, 0)
  {
    openings := [];
    for q := 0 to |indices|
      invariant |openings| == q && FirstOpened(pcs, rounds, indices, openings, 0)
    {
      OpenedPush(pcs, rounds, indices, openings, 0, []);
      openings := openings + [[]];
    }
  }

  lemma {:induction false} OpenedAll<F(!new), C(!new), P, D(!new)>(
    pcs: Params<F, C, P, D, seq<D>>, rounds: seq<Round<F>>, indices: seq<nat>,
    openings: seq<seq<BatchOpening<F, seq<D>>>>)
    requires Shape(pcs, rounds) && IndicesBelow(indices, Pow2(TopLog(rounds)))
        && OpenedTo(pcs, rounds, indices, openings, |rounds|)
    ensures openings == AllBatches(pcs, rounds, indices, |indices|)
  {
    forall q | 0 <= q < |indices| ensures openings[q] == AllBatches(pcs, rounds, indices, |indices|)[q]
    { assert AtIndex(q); AllBatchesAt(pcs, rounds, indices, |indices|, q); }
  }

  // ---------- the whole opening ----------

  /** The rounds of the equivalent `open`: the preprocessed one first. */
  function AllRounds<F>(
    prepMats: seq<Matrix<F>>, prepPoints: seq<seq<F>>, mats: seq<seq<Matrix<F>>>,
    points: seq<seq<seq<F>>>): (r: seq<Round<F>>)
    requires |mats| == |points|
    ensures Follows(r, mats, points) && r[0] == Round(prepMats, prepPoints)
  { [Round(prepMats, prepPoints)] + RoundsOf(mats, points) }

  /** These are the claims, the FRI input and the transcript that `open` has before FRI. */
  ghost predicate PreparedAs<F(!new), C(!new), P, W(!new), D(!new)>(
    pcs: Params<F, C, P, D, seq<D>>, sponge: Sponge<F, C, W>, start: Transcript<F, C, W>, rounds: seq<Round<F>>,
    claims: seq<seq<MatOpen<F>>>, input: Input<F>, log: Transcript<F, C, W>)
    requires Openable(pcs, rounds)
  { var p := Prepare(pcs, sponge, start, rounds); claims == p.claims && input == p.setup.input && log == p.setup.log }

  lemma {:induction false} PreparedIs<F(!new), C(!new), P, W(!new), D(!new)>(
    pcs: Params<F, C, P, D, seq<D>>, sponge: Sponge<F, C, W>, start: Transcript<F, C, W>, rounds: seq<Round<F>>,
    denoms: map<F, seq<F>>,
    claims: seq<seq<MatOpen<F>>>, input: Input<F>, seen: Transcript<F, C, W>)
    requires Openable(pcs, rounds) && AllReady(denoms, rounds) && denoms == Denoms(pcs, rounds)
        && claims == AllClaims(pcs, denoms, rounds, |rounds|)
    requires Seen(start, claims, seen) && RoundsReady(denoms, claims)
    requires input == ReduceRounds(pcs.T.f, sponge.Ext(seen), denoms, claims, |claims|).openings
    ensures PreparedAs(pcs, sponge, start, rounds, claims, input, seen + [DrewExt])
  {}

  /** Phases 0 and 1: the denominators and the opened values. */
  method OpenSplit<F(!new, ==), C(!new), P, W(!new), D(!new)>(
    pcs: Params<F, C, P, D, seq<D>>, ghost h: Hasher<F, D>, prep: FieldMerkleTree<F, D>, prepPoints: seq<seq<F>>,
    trees: seq<FieldMerkleTree<F, D>>,
    points: seq<seq<seq<F>>>, saved: seq<Option<seq<Matrix<F>>>>, challenger: Challenger<F, C, W>,
    ghost prepMats: seq<Matrix<F>>, ghost mats: seq<seq<Matrix<F>>>, ghost rounds: seq<Round<F>>)
    returns (denoms: map<F, seq<F>>, top: nat, claims: seq<seq<MatOpen<F>>>, saved': seq<Option<seq<Matrix<F>>>>)
    requires |mats| == |points| && rounds == AllRounds(prepMats, prepPoints, mats, points) && Openable(pcs, rounds)
    requires Complete(h, prep, prepMats) && AllHeld(h, trees, saved, mats) && Distinct(trees) && prep !in trees
    modifies trees, challenger
    ensures AllHeld(h, trees, saved', mats) && AllReady(denoms, rounds) && denoms == Denoms(pcs, rounds)
        && top == TopLog(rounds)
    ensures claims == AllClaims(pcs, denoms, rounds, |rounds|) && Seen(old(challenger.log), claims, challenger.log)
  {
    DenomsReady(pcs, rounds);
    denoms, top, saved' := SplitDenominators(pcs, h, prep.leaves, prepPoints, trees, points, saved, mats, rounds);
    claims, saved' := OpenAll(pcs, h, denoms, prep, prepPoints, trees, points, saved', challenger, prepMats, mats,
        rounds);
  }

  /** Everything up to the FRI prover. */
  method PrepareSplit<F(!new, ==), C(!new), P, W(!new), D(!new)>(
    pcs: Params<F, C, P, D, seq<D>>, ghost h: Hasher<F, D>, prep: FieldMerkleTree<F, D>, prepPoints: seq<seq<F>>,
    trees: seq<FieldMerkleTree<F, D>>,
    points: seq<seq<seq<F>>>, saved: seq<Option<seq<Matrix<F>>>>, challenger: Challenger<F, C, W>,
    ghost prepMats: seq<Matrix<F>>, ghost mats: seq<seq<Matrix<F>>>, ghost rounds: seq<Round<F>>)
    returns (claims: seq<seq<MatOpen<F>>>, input: Input<F>, top: nat)
    requires |mats| == |points| && rounds == AllRounds(prepMats, prepPoints, mats, points) && Openable(pcs, rounds)
    requires Complete(h, prep, prepMats) && AllHeld(h, trees, saved, mats) && Distinct(trees) && prep !in trees
    modifies trees, challenger
    ensures PreparedAs(pcs, challenger.sponge, old(challenger.log), rounds, claims, input, challenger.log)
    ensures Loaded(h, trees, mats, |trees|) && top == TopLog(rounds)
  {
    var denoms, saved';
    denoms, top, claims,
        saved' := OpenSplit(pcs, h, prep, prepPoints, trees, points, saved, challenger, prepMats, mats, rounds);
    ghost var seen := challenger.log;
    input := ReduceSplit(pcs, h, denoms, prep, trees, saved', claims, challenger, mats, points, rounds);
    PreparedIs(pcs, challenger.sponge, old(challenger.log), rounds, denoms, claims, input, seen);
  }

  /** Draw alpha and reduce. */
  method ReduceSplit<F(!new, ==), C(!new), P, W(!new), D(!new)>(
    pcs: Params<F, C, P, D, seq<D>>, ghost h: Hasher<F, D>, denoms: map<F, seq<F>>, prep: FieldMerkleTree<F, D>,
    trees: seq<FieldMerkleTree<F, D>>,
    saved: seq<Option<seq<Matrix<F>>>>, claims: seq<seq<MatOpen<F>>>, challenger: Challenger<F, C, W>,
    ghost mats: seq<seq<Matrix<F>>>, ghost points: seq<seq<seq<F>>>, ghost rounds: seq<Round<F>>)
    returns (input: Input<F>)
    requires pcs.T.f.Laws() && Follows(rounds, mats, points) && Shape(pcs, rounds) && AllReady(denoms, rounds)
        && claims == AllClaims(pcs, denoms, rounds, |rounds|)
    requires Complete(h, prep, rounds[0].mats) && AllHeld(h, trees, saved, mats) && Distinct(trees)
    modifies trees, challenger
    ensures RoundsReady(denoms, claims) && challenger.log == old(challenger.log) + [DrewExt]
    ensures input == ReduceRounds(pcs.T.f, challenger.sponge.Ext(old(challenger.log)), denoms, claims,
        |claims|).openings
    ensures Loaded(h, trees, mats, |trees|)
  {
    ClaimsReady(pcs, denoms, rounds);
    var alpha := challenger.SampleExt();
    var width := WidestMatrix(claims);
    ClaimsAreOn(pcs, denoms, width, rounds, claims);
    var st := ReduceAll(pcs.T.f, alpha, width, denoms, h, prep.leaves, trees, saved, mats, claims, rounds, points);
    input := st.openings;
  }

  /** The inverse denominators, from the dimensions alone. */
  method SplitDenominators<F(!new, ==), C(!new), P, D(!new)>(
    pcs: Params<F, C, P, D, seq<D>>, ghost h: Hasher<F, D>, prepMats: seq<Matrix<F>>, prepPoints: seq<seq<F>>,
    trees: seq<FieldMerkleTree<F, D>>,
    points: seq<seq<seq<F>>>, saved: seq<Option<seq<Matrix<F>>>>, ghost mats: seq<seq<Matrix<F>>>,
    ghost rounds: seq<Round<F>>)
    returns (denoms: map<F, seq<F>>, top: nat, saved': seq<Option<seq<Matrix<F>>>>)
    requires |mats| == |points| && rounds == AllRounds(prepMats, prepPoints, mats, points) && Openable(pcs, rounds)
    requires AllHeld(h, trees, saved, mats) && Distinct(trees)
    modifies trees
    ensures AllHeld(h, trees, saved', mats) && denoms == Denoms(pcs, rounds) && top == TopLog(rounds)
  {
    DimsShape(pcs, rounds);
    var dims, tallest;
    dims, tallest, saved' := ReadDims(h, prepMats, trees, points, saved, mats, rounds);
    top := LogOf(tallest);
    DimsTogether(dims, mats, points, rounds);
    dims := [RoundDims(LogsOf(prepMats), prepPoints)] + dims;
    denoms := ComputeFromDims(pcs.T, pcs.shift, dims);
  }

  /** Phase 1. */
  method OpenAll<F(!new, ==), C(!new), P, W(!new), D(!new)>(
    pcs: Params<F, C, P, D, seq<D>>, ghost h: Hasher<F, D>, denoms: map<F, seq<F>>, prep: FieldMerkleTree<F, D>,
    prepPoints: seq<seq<F>>,
    trees: seq<FieldMerkleTree<F, D>>, points: seq<seq<seq<F>>>, saved: seq<Option<seq<Matrix<F>>>>,
    challenger: Challenger<F, C, W>,
    ghost prepMats: seq<Matrix<F>>, ghost mats: seq<seq<Matrix<F>>>, ghost rounds: seq<Round<F>>)
    returns (claims: seq<seq<MatOpen<F>>>, saved': seq<Option<seq<Matrix<F>>>>)
    requires |mats| == |points| && rounds == AllRounds(prepMats, prepPoints, mats, points) && Shape(pcs, rounds)
        && AllReady(denoms, rounds)
    requires Complete(h, prep, prepMats) && AllHeld(h, trees, saved, mats) && Distinct(trees)
    modifies trees, challenger
    ensures AllHeld(h, trees, saved', mats)
    ensures claims == AllClaims(pcs, denoms, rounds, |rounds|) && Seen(old(challenger.log), claims, challenger.log)
  {
    ghost var start := challenger.log;
    ghost var none: seq<seq<MatOpen<F>>> := [];
    assert Seen(start, none, start);
    var first := OpenRound(pcs, denoms, Round(prep.leaves, prepPoints), challenger, start, none);
    assert AllClaims(pcs, denoms, rounds, 0) == [];
    claims, saved' := OpenRounds(pcs, h, denoms, trees, points, saved, mats, first, challenger, start, rounds);
  }

  /** `open_sequential_cached_split` refines `open`: from trees whose leaves may have been taken, with
      the taken leaves given, it returns what `open` returns on the preprocessed round followed by the
      others, leaves the challenger in the same state, and every tree with its own leaves. */
  method OpenSequentialCachedSplit<F(!new, ==), C(!new), P, W(!new), D(!new)>(
    pcs: Params<F, C, P, D, seq<D>>, ghost h: Hasher<F, D>, prep: FieldMerkleTree<F, D>, prepPoints: seq<seq<F>>,
    trees: seq<FieldMerkleTree<F, D>>,
    points: seq<seq<seq<F>>>, saved: seq<Option<seq<Matrix<F>>>>, challenger: Challenger<F, C, W>,
    ghost prepMats: seq<Matrix<F>>, ghost mats: seq<seq<Matrix<F>>>)
    returns (r: Option<(seq<seq<MatOpen<F>>>, PcsProof<F, C, P, W, seq<D>>)>)
    requires |mats| == |points| && Openable(pcs, AllRounds(prepMats, prepPoints, mats, points))
        && challenger.sponge.Laws() && pcs.mmcs == TreeScheme(h)
    requires Complete(h, prep, prepMats) && AllHeld(h, trees, saved, mats) && Distinct(trees) && prep !in trees
    modifies trees, challenger
    ensures r == Opening(pcs, challenger.sponge, old(challenger.log), AllRounds(prepMats, prepPoints, mats, points))
    ensures r.Some? ==>
        challenger.log == ClosingLog(pcs, challenger.sponge, old(challenger.log),
        AllRounds(prepMats, prepPoints, mats, points))
    ensures Loaded(h, trees, mats, |trees|)
  {
    r := OpenRoundsSplit(pcs, h, prep, prepPoints, trees, points, saved, challenger, prepMats, mats,
        AllRounds(prepMats, prepPoints, mats, points));
  }

  method OpenRoundsSplit<F(!new, ==), C(!new), P, W(!new), D(!new)>(
    pcs: Params<F, C, P, D, seq<D>>, ghost h: Hasher<F, D>, prep: FieldMerkleTree<F, D>, prepPoints: seq<seq<F>>,
    trees: seq<FieldMerkleTree<F, D>>,
    points: seq<seq<seq<F>>>, saved: seq<Option<seq<Matrix<F>>>>, challenger: Challenger<F, C, W>,
    ghost prepMats: seq<Matrix<F>>, ghost mats: seq<seq<Matrix<F>>>, ghost rounds: seq<Round<F>>)
    returns (r: Option<(seq<seq<MatOpen<F>>>, PcsProof<F, C, P, W, seq<D>>)>)
    requires |mats| == |points| && rounds == AllRounds(prepMats, prepPoints, mats, points) && Openable(pcs, rounds)
    requires challenger.sponge.Laws() && pcs.mmcs == TreeScheme(h)
    requires Complete(h, prep, prepMats) && AllHeld(h, trees, saved, mats) && Distinct(trees) && prep !in trees
    modifies trees, challenger
    ensures r == Opening(pcs, challenger.sponge, old(challenger.log), rounds)
    ensures r.Some? ==> challenger.log == ClosingLog(pcs, challenger.sponge, old(challenger.log), rounds)
    ensures Loaded(h, trees, mats, |trees|)
  {
    ghost var p := Prepare(pcs, challenger.sponge, challenger.log, rounds);
    ghost var s := p.setup;
    var claims, input, top := PrepareSplit(pcs, h, prep, prepPoints, trees, points, saved, challenger, prepMats,
        mats, rounds);
    ReadyForFri(pcs, challenger.sponge, old(challenger.log), rounds, claims, input, challenger.log, p);
    r := FinishSplit(pcs, h, prep, trees, rounds, mats, points, top, claims, input, challenger, s);
    FinishedIs(pcs, challenger.sponge, old(challenger.log), rounds, s, claims, r, challenger.log);
  }

  /** The FRI prover starts from this setup. */
  ghost predicate FriReady<F(!new), C(!new), P, W(!new), D(!new)>(
    pcs: Params<F, C, P, D, seq<D>>, s: Setup<F, C, P, W>, sponge: Sponge<F, C, W>, input: Input<F>, top: nat,
    log: Transcript<F, C, W>)
  {
    && s.Valid() && s.sponge.Laws() && s == Setup(pcs.fri, pcs.T, sponge, input, top, log) && InputOk(input)
    && Tallest(input, 32) == Some(top)
  }

  lemma {:induction false} ReadyForFri<F(!new), C(!new), P, W(!new), D(!new)>(
    pcs: Params<F, C, P, D, seq<D>>, sponge: Sponge<F, C, W>, start: Transcript<F, C, W>, rounds: seq<Round<F>>,
    claims: seq<seq<MatOpen<F>>>, input: Input<F>, log: Transcript<F, C, W>, p: Prepared<F, C, P, W>)
    requires Openable(pcs, rounds) && sponge.Laws() && p == Prepare(pcs, sponge, start, rounds)
    requires PreparedAs(pcs, sponge, start, rounds, claims, input, log)
    ensures FriReady(pcs, p.setup, sponge, input, TopLog(rounds), log) && claims == p.claims
  { PreparedTallest(pcs, sponge, start, rounds); }

  /** What `open` returns after this setup and these claims, and the transcript it leaves. */
  ghost predicate FinishedAs<F(!new), C(!new), P, W(!new), D(!new)>(
    pcs: Params<F, C, P, D, seq<D>>, rounds: seq<Round<F>>, s: Setup<F, C, P, W>, claims: seq<seq<MatOpen<F>>>,
    r: Option<(seq<seq<MatOpen<F>>>, PcsProof<F, C, P, W, seq<D>>)>, log: Transcript<F, C, W>)
    requires Shape(pcs, rounds) && s.Valid() && s.sponge.Laws()
  {
    if FriOutcome(s).None? then r == None
    else
      var (fri, indices) := FriOutcome(s).value;
      && IndicesBelow(indices, Pow2(TopLog(rounds)))
          && r == Some((claims, PcsProof(fri, AllBatches(pcs, rounds, indices, |indices|))))
      && log == EndLog(s, Rounds(s, NumRounds(s.top, s.cfg.logBlowup)))
  }

  lemma {:induction false} FinishedIs<F(!new), C(!new), P, W(!new), D(!new)>(
    pcs: Params<F, C, P, D, seq<D>>, sponge: Sponge<F, C, W>, start: Transcript<F, C, W>, rounds: seq<Round<F>>,
    s: Setup<F, C, P, W>,
    claims: seq<seq<MatOpen<F>>>, r: Option<(seq<seq<MatOpen<F>>>, PcsProof<F, C, P, W, seq<D>>)>,
    log: Transcript<F, C, W>)
    requires Openable(pcs, rounds) && sponge.Laws()
    requires var p := Prepare(pcs, sponge, start, rounds); s == p.setup && claims == p.claims
    requires FinishedAs(pcs, rounds, s, claims, r, log)
    ensures r == Opening(pcs, sponge, start, rounds)
    ensures r.Some? ==> log == ClosingLog(pcs, sponge, start, rounds)
  {}

  /** FRI on the prepared input. */
  method ProveReady<F(!new, ==), C(!new), P, W(!new), D(!new)>(
    pcs: Params<F, C, P, D, seq<D>>, input: Input<F>, challenger: Challenger<F, C, W>, ghost s: Setup<F, C, P, W>,
    ghost top: nat)
    returns (fri: Option<(FriProof<F, C, P, W>, seq<nat>)>)
    requires FriReady(pcs, s, challenger.sponge, input, top, challenger.log)
    modifies challenger
    ensures fri == FriOutcome(s)
    ensures fri.Some? ==> challenger.log == EndLog(s, Rounds(s, NumRounds(s.top, s.cfg.logBlowup)))
  { fri := Prove(pcs.fri, pcs.T, input, challenger); }

  /** FRI and the queries. */
  method FinishSplit<F(!new, ==), C(!new), P, W(!new), D(!new)>(
    pcs: Params<F, C, P, D, seq<D>>, ghost h: Hasher<F, D>, prep: FieldMerkleTree<F, D>,
    trees: seq<FieldMerkleTree<F, D>>, ghost rounds: seq<Round<F>>,
    ghost mats: seq<seq<Matrix<F>>>, ghost points: seq<seq<seq<F>>>, top: nat, claims: seq<seq<MatOpen<F>>>,
    input: Input<F>, challenger: Challenger<F, C, W>,
    ghost s: Setup<F, C, P, W>)
    returns (r: Option<(seq<seq<MatOpen<F>>>, PcsProof<F, C, P, W, seq<D>>)>)
    requires Shape(pcs, rounds) && Follows(rounds, mats, points) && pcs.mmcs == TreeScheme(h) && top == TopLog(rounds)
    requires Complete(h, prep, rounds[0].mats) && Loaded(h, trees, mats, |trees|)
    requires FriReady(pcs, s, challenger.sponge, input, top, challenger.log)
    modifies challenger
    ensures Loaded(h, trees, mats, |trees|)
    ensures FinishedAs(pcs, rounds, s, claims, r, challenger.log)
  {
    var fri := ProveReady(pcs, input, challenger, s, top);
    if fri.None? { return None; }
    OutcomeIndices(s);
    var openings := OpenTrees(pcs, h, prep, trees, rounds, mats, points, top, fri.value.1);
    r := Some((claims, PcsProof(fri.value.0, openings)));
  }

  /** With Merkle trees for both commitments nothing is left to assume about them: the opening above,
      from saved or loaded leaves, is accepted. */
  lemma {:induction false} SplitOpeningAccepted<F(!new), D(!new), W(!new)>(
    pcs: Params<F, D, seq<D>, D, seq<D>>, h: Hasher<F, D>, g: Hasher<F, D>, sponge: Sponge<F, D, W>,
    log: Transcript<F, D, W>,
    rounds: seq<Round<F>>, polys: seq<seq<seq<seq<F>>>>)
    requires Openable(pcs, rounds) && AllExtend(pcs, rounds, polys) && pcs.shift != pcs.T.f.zero && sponge.Laws()
    requires pcs.mmcs == TreeScheme(h) && pcs.fri.mmcs == TreeScheme(g)
    ensures Opening(pcs, sponge, log, rounds).Some?
    ensures var (claims, proof) := Opening(pcs, sponge, log, rounds).value;
      |claims| == |rounds| && LogsAbove(claims, pcs.fri.logBlowup)
          && Accepted(pcs, sponge, log, VerifierView(pcs, rounds, claims, |rounds|), proof)
  {
    TreeSchemeComplete(h); TreeSchemeComplete(g);
    PcsComplete(pcs, sponge, log, rounds, polys);
  }
}
