/** Verifying openings of the mixed-height Merkle tree: honest openings are accepted, and two
    accepted openings that differ exhibit a collision. */
module MerkleVerify {
  import opened Bits
  import opened Mmcs
  import opened MerkleSchedule
  import opened MerkleTree

  function OpenedRow<F>(rows: seq<seq<F>>, m: nat): seq<F> { if m < |rows| then rows[m] else [] }

  /** The concatenation of the opened rows of a group. */
  function Flat<F>(rows: seq<seq<F>>, group: seq<nat>): seq<F> {
    if group == [] then [] else OpenedRow(rows, group[0]) + Flat(rows, group[1..])
  }

  /** A digest and its sibling, in the order the index bit gives. */
  function CompressPair<F, D>(h: Hasher<F, D>, bit: nat, root: D, sibling: D): D {
    if bit == 0 then h.Compress(root, sibling) else h.Compress(sibling, root)
  }

  function Inject<F, D>(h: Hasher<F, D>, d: D, group: seq<nat>, rows: seq<seq<F>>): D {
    if group == [] then d else h.Compress(d, h.Hash(Flat(rows, group)))
  }

  /** The groups that the verifier's iterator yields for the first row hash and for n - 1 siblings. */
  function Groups(hs: seq<nat>, n: nat): (r: seq<seq<nat>>)
    requires hs != []
    ensures |r| == n
  { if n == 0 then [] else Groups(hs, n - 1) + [At(hs, n - 1).group] }

  lemma {:induction false} GroupsAre(hs: seq<nat>, n: nat, k: nat)
    requires hs != [] && k < n
    ensures Groups(hs, n)[k] == At(hs, k).group
  { if k < n - 1 { GroupsAre(hs, n - 1, k); } }

  /** The digest recomputed from an opening after k siblings. */
  function RootAfter<F, D>(
    h: Hasher<F, D>, groups: seq<seq<nat>>, index: nat, rows: seq<seq<F>>, proof: seq<D>, k: nat): D
    requires k <= |proof| && k < |groups|
  {
    if k == 0 then h.Hash(Flat(rows, groups[0]))
    else
      var below := RootAfter(h, groups, index, rows, proof, k - 1);
      Inject(h, CompressPair(h, Shr(index, k - 1) % 2, below, proof[k - 1]), groups[k], rows)
  }

  /** The verifier's verdict. */
  predicate Accepts<F, D(==)>(h: Hasher<F, D>, commit: D, hs: seq<nat>, index: nat, rows: seq<seq<F>>, proof: seq<D>)
    requires hs != []
  { commit == RootAfter(h, Groups(hs, |proof| + 1), index, rows, proof, |proof|) }

  /** `verify_batch`. */
  method VerifyBatch<F, D(==)>(h: Hasher<F, D>, commit: D, hs: seq<nat>, index: nat, rows: seq<seq<F>>, proof: seq<D>)
    returns (ok: bool)
    requires hs != [] && |hs| <= |rows|
    ensures ok == Accepts(h, commit, hs, index, rows, proof)
  {
    var it, i := Start(hs), index;
    var root := h.Hash(Flat(rows, it.group));
    ghost var groups := Groups(hs, |proof| + 1);
    GroupsAre(hs, |proof| + 1, 0);
    for k := 0 to |proof|
      invariant it == At(hs, k) && i == Shr(index, k)
      invariant root == RootAfter(h, groups, index, rows, proof, k)
    {
      ClimbKeeps(h, hs, groups, index, rows, proof, k, it, root);
      root := if i % 2 == 0 then h.Compress(root, proof[k]) else h.Compress(proof[k], root);
      i := i / 2;
      it := Next(hs, it);
      root := Inject(h, root, it.group, rows);
    }
    ok := commit == root;
  }

  /** One sibling of the verifier's loop. */
  lemma {:induction false} ClimbKeeps<F, D>(
    h: Hasher<F, D>, hs: seq<nat>, groups: seq<seq<nat>>, index: nat, rows: seq<seq<F>>, proof: seq<D>, k: nat,
    it: Schedule, root: D)
    requires hs != [] && groups == Groups(hs, |proof| + 1) && k < |proof| && it == At(hs, k)
        && root == RootAfter(h, groups, index, rows, proof, k)
    ensures At(hs, k + 1) == Next(hs, it) && Shr(index, k + 1) == Shr(index, k) / 2
    ensures RootAfter(h, groups, index, rows, proof, k + 1)
         == Inject(h, CompressPair(h, Shr(index, k) % 2, root, proof[k]), Next(hs, it).group, rows)
  {
    ShrStep(index, k);
    AtStep(hs, k);
    NextGroup(hs, |proof| + 1, k);
    ClimbRoot(h, groups, index, rows, proof, k, Next(hs, it).group, root);
  }

  lemma {:induction false} NextGroup(hs: seq<nat>, n: nat, k: nat)
    requires hs != [] && k + 1 < n
    ensures Groups(hs, n)[k + 1] == Next(hs, At(hs, k)).group
  { GroupsAre(hs, n, k + 1); AtStep(hs, k); }

  lemma {:induction false} ClimbRoot<F, D>(
    h: Hasher<F, D>, groups: seq<seq<nat>>, index: nat, rows: seq<seq<F>>, proof: seq<D>, k: nat, group: seq<nat>,
    root: D)
    requires k < |proof| && k + 1 < |groups| && groups[k + 1] == group
    requires root == RootAfter(h, groups, index, rows, proof, k)
    ensures RootAfter(h, groups, index, rows, proof, k + 1)
         == Inject(h, CompressPair(h, Shr(index, k) % 2, root, proof[k]), group, rows)
  { RootStep(h, groups, index, rows, proof, k); }

  lemma {:induction false} AtStep(hs: seq<nat>, k: nat)
    requires hs != []
    ensures At(hs, k + 1) == Next(hs, At(hs, k))
  {}

  lemma {:induction false} RootStep<F, D>(
    h: Hasher<F, D>, groups: seq<seq<nat>>, index: nat, rows: seq<seq<F>>, proof: seq<D>, k: nat)
    requires k < |proof| && k + 1 < |groups|
    ensures RootAfter(h, groups, index, rows, proof, k + 1)
         == Inject(h, CompressPair(h, Shr(index, k) % 2, RootAfter(h, groups, index, rows, proof, k), proof[k]),
             groups[k + 1], rows)
  {}

  // ---------- completeness ----------

  lemma {:induction false} FlatIsRows<F>(mats: seq<Matrix<F>>, rows: seq<seq<F>>, group: seq<nat>, i: nat)
    requires forall t :: 0 <= t < |group| ==> OpenedRow(rows, group[t]) == RowOf(mats, group[t], i)
    ensures Flat(rows, group) == RowsFlat(mats, group, i)
    decreases |group|
  {
    if group != [] {
      forall t | 0 <= t < |group[1..]| ensures OpenedRow(rows, group[1..][t]) == RowOf(mats, group[1..][t], i) {
        assert group[1..][t] == group[t + 1];
      }
      FlatIsRows(mats, rows, group[1..], i);
    }
  }

  /** The honest rows of layer s hash to the leaf digest of the tree at that layer. */
  lemma {:induction false} RowsHash<F, D>(h: Hasher<F, D>, mats: seq<Matrix<F>>, index: nat, s: nat)
    requires WellShaped(Heights(mats)) && InRange(Heights(mats), index) && s <= Levels(mats) && GroupAt(mats, s) != []
    ensures h.Hash(Flat(OpenRows(mats, index), GroupAt(mats, s)))
        == LeafDigest(h, mats, GroupAt(mats, s), Shr(index, s))
  {
    var group, rows, i := GroupAt(mats, s), OpenRows(mats, index), Shr(index, s);
    forall t | 0 <= t < |group| ensures OpenedRow(rows, group[t]) == RowOf(mats, group[t], i)
        { MemberRow(mats, index, s, t); }
    FlatIsRows(mats, rows, group, i);
    MemberRow(mats, index, s, 0);
  }

  lemma {:induction false} MemberRow<F>(mats: seq<Matrix<F>>, index: nat, s: nat, t: nat)
    requires WellShaped(Heights(mats)) && InRange(Heights(mats), index) && s <= Levels(mats) && t < |GroupAt(mats, s)|
    ensures RowOpened(mats, index, GroupAt(mats, s)[t], Shr(index, s))
  {
    MemberHeight(mats, s, t);
    MatrixRow(mats, index, GroupAt(mats, s)[t], s);
  }

  ghost predicate RowOpened<F>(mats: seq<Matrix<F>>, index: nat, m: nat, i: nat)
    requires WellShaped(Heights(mats)) && InRange(Heights(mats), index)
  { m < |mats| && i < |mats[m]| && OpenedRow(OpenRows(mats, index), m) == RowOf(mats, m, i) }

  lemma {:induction false} MatrixRow<F>(mats: seq<Matrix<F>>, index: nat, m: nat, s: nat)
    requires WellShaped(Heights(mats)) && InRange(Heights(mats), index) && s <= Levels(mats) && m < |mats|
    requires NextPow2(|mats[m]|) == Pow2(Levels(mats) - s)
    ensures RowOpened(mats, index, m, Shr(index, s))
  {
    OpenRowsAt(mats, index, m);
    ReducedAt(index, MaxOf(Heights(mats)), |mats[m]|, s);
  }

  lemma {:induction false} MemberHeight<F>(mats: seq<Matrix<F>>, s: nat, t: nat)
    requires WellShaped(Heights(mats)) && s <= Levels(mats) && t < |GroupAt(mats, s)|
    ensures var m := GroupAt(mats, s)[t]; m < |mats| && NextPow2(|mats[m]|) == Pow2(Levels(mats) - s)
  { MembersAre(Heights(mats), Pow2(Levels(mats) - s), |mats|, t); }

  lemma {:induction false} ReducedAt(index: nat, top: nat, height: nat, s: nat)
    requires 0 < height <= top && s <= Log2Ceil(top) && NextPow2(height) == Pow2(Log2Ceil(top) - s)
    ensures ReducedIndex(index, top, height) == Shr(index, s)
  { PaddedLog(height, Log2Ceil(top) - s); }

  lemma {:induction false} PaddedLog(height: nat, c: nat)
    requires height > 0 && NextPow2(height) == Pow2(c)
    ensures Log2Ceil(height) == c
  { Log2CeilPow2(c); Log2CeilPow2(Log2Ceil(height)); }

  /** An index and its sibling are the two children of the index above, in order. */
  lemma {:induction false} Children(index: nat, k: nat)
    ensures var i, j := Shr(index, k), Shr(index, k + 1);
      if i % 2 == 0 then i == 2 * j && Sibling(i) == 2 * j + 1 else i == 2 * j + 1 && Sibling(i) == 2 * j
  { ShrStep(index, k); }

  /** Mixing in the honest rows of layer s is what the tree does there. */
  lemma {:induction false} InjectHonest<F, D>(h: Hasher<F, D>, mats: seq<Matrix<F>>, index: nat, s: nat, l: D, r: D)
    requires WellShaped(Heights(mats)) && InRange(Heights(mats), index) && s <= Levels(mats)
    ensures Inject(h, h.Compress(l, r), GroupAt(mats, s), OpenRows(mats, index))
        == Parent(h, mats, GroupAt(mats, s), Shr(index, s), l, r)
  { if GroupAt(mats, s) != [] { RowsHash(h, mats, index, s); } }

  /** One step up the path. */
  lemma {:induction false} ClimbStep<F, D>(
    h: Hasher<F, D>, mats: seq<Matrix<F>>, index: nat, k: nat, below: D, sibling: D)
    requires WellShaped(Heights(mats)) && InRange(Heights(mats), index) && 0 < k <= Levels(mats)
    requires below == Node(h, mats, k - 1, Shr(index, k - 1))
        && sibling == Node(h, mats, k - 1, Sibling(Shr(index, k - 1)))
    ensures OnTree(h, mats, index, k,
        Inject(h, CompressPair(h, Shr(index, k - 1) % 2, below, sibling), GroupAt(mats, k), OpenRows(mats, index)))
  {
    Children(index, k - 1);
    var l, r := if Shr(index, k - 1) % 2 == 0 then below else sibling, if Shr(index, k - 1) % 2 == 0 then sibling
    else below;
    InjectHonest(h, mats, index, k, l, r);
    NodeIs(h, mats, k, Shr(index, k), l, r);
  }

  lemma {:induction false} NodeIs<F, D>(h: Hasher<F, D>, mats: seq<Matrix<F>>, k: nat, j: nat, l: D, r: D)
    requires WellShaped(Heights(mats)) && 0 < k <= Levels(mats)
    requires l == Node(h, mats, k - 1, 2 * j) && r == Node(h, mats, k - 1, 2 * j + 1)
    ensures Node(h, mats, k, j) == Parent(h, mats, GroupAt(mats, k), j, l, r)
  {}

  /** The digest recomputed after k siblings is the tree's. */
  ghost predicate OnTree<F, D>(h: Hasher<F, D>, mats: seq<Matrix<F>>, index: nat, k: nat, d: D)
    requires WellShaped(Heights(mats)) && k <= Levels(mats)
  { d == Node(h, mats, k, Shr(index, k)) }

  /** The siblings on the path from `index` to the root. */
  ghost predicate IsPath<F, D>(h: Hasher<F, D>, mats: seq<Matrix<F>>, index: nat, proof: seq<D>)
    requires WellShaped(Heights(mats))
  {
    && |proof| == Levels(mats)
    && forall s: nat {:trigger AtIndex(s)} :: s < Levels(mats) ==>
        proof[s] == Node(h, mats, s, Sibling(Shr(index, s)))
  }

  lemma {:induction false} PathIsPath<F, D>(h: Hasher<F, D>, mats: seq<Matrix<F>>, index: nat)
    requires WellShaped(Heights(mats))
    ensures IsPath(h, mats, index, Path(h, mats, index, Levels(mats)))
  {
    var proof := Path(h, mats, index, Levels(mats));
    forall s: nat | s < Levels(mats) ensures proof[s] == Node(h, mats, s, Sibling(Shr(index, s)))
        { PathAt(h, mats, index, Levels(mats), s); }
  }

  /** The groups are the tree's. */
  ghost predicate TreeGroups<F>(mats: seq<Matrix<F>>, groups: seq<seq<nat>>)
    requires WellShaped(Heights(mats))
  {
    |groups| == Levels(mats) + 1 && forall k: nat {:trigger AtIndex(k)} :: k <= Levels(mats) ==>
        groups[k] == GroupAt(mats, k)
  }

  /** Prover and verifier take the same matrices at every layer. */
  lemma {:induction false} GroupsAgree<F>(mats: seq<Matrix<F>>)
    requires WellShaped(Heights(mats))
    ensures TreeGroups(mats, Groups(Heights(mats), Levels(mats) + 1))
  {
    var hs, n := Heights(mats), Levels(mats) + 1;
    forall k: nat | k <= Levels(mats) ensures Groups(hs, n)[k] == GroupAt(mats, k) {
      ScheduleOk(hs, k);
      GroupsAre(hs, n, k);
    }
  }

  /** An honest opening: the tree's groups, rows and path. */
  ghost predicate HonestOpening<F, D>(
    h: Hasher<F, D>, mats: seq<Matrix<F>>, groups: seq<seq<nat>>, index: nat, rows: seq<seq<F>>, proof: seq<D>) {
    && WellShaped(Heights(mats)) && InRange(Heights(mats), index) && TreeGroups(mats, groups)
    && rows == OpenRows(mats, index) && IsPath(h, mats, index, proof)
  }

  /** After k siblings the recomputed digest is the tree's. */
  ghost predicate Climbed<F, D>(
    h: Hasher<F, D>, mats: seq<Matrix<F>>, groups: seq<seq<nat>>, index: nat, rows: seq<seq<F>>, proof: seq<D>,
    k: nat)
    requires HonestOpening(h, mats, groups, index, rows, proof) && k <= Levels(mats)
  { OnTree(h, mats, index, k, RootAfter(h, groups, index, rows, proof, k)) }

  /** Going up the path recomputes the tree's digests. */
  lemma {:induction false} ClimbsTree<F, D>(
    h: Hasher<F, D>, mats: seq<Matrix<F>>, groups: seq<seq<nat>>, index: nat, rows: seq<seq<F>>, proof: seq<D>,
    k: nat)
    requires HonestOpening(h, mats, groups, index, rows, proof) && k <= Levels(mats)
    ensures Climbed(h, mats, groups, index, rows, proof, k)
    decreases k
  {
    if k > 0 { ClimbsTree(h, mats, groups, index, rows, proof, k - 1); }
    ClimbsNext(h, mats, groups, index, rows, proof, k);
  }

  lemma {:induction false} ClimbsNext<F, D>(
    h: Hasher<F, D>, mats: seq<Matrix<F>>, groups: seq<seq<nat>>, index: nat, rows: seq<seq<F>>, proof: seq<D>,
    k: nat)
    requires HonestOpening(h, mats, groups, index, rows, proof) && k <= Levels(mats)
    requires k > 0 ==> Climbed(h, mats, groups, index, rows, proof, k - 1)
    ensures Climbed(h, mats, groups, index, rows, proof, k)
  {
    if k == 0 { ClimbsBase(h, mats, groups, index, rows, proof, k); }
    else { ClimbsStep(h, mats, groups, index, rows, proof, k); }
  }

  lemma {:induction false} ClimbsBase<F, D>(
    h: Hasher<F, D>, mats: seq<Matrix<F>>, groups: seq<seq<nat>>, index: nat, rows: seq<seq<F>>, proof: seq<D>,
    k: nat)
    requires HonestOpening(h, mats, groups, index, rows, proof) && k == 0
    ensures Climbed(h, mats, groups, index, rows, proof, k)
  {
    assert AtIndex(0);
    TopGroup(mats);
    RowsHash(h, mats, index, 0);
  }

  lemma {:induction false} ClimbsStep<F, D>(
    h: Hasher<F, D>, mats: seq<Matrix<F>>, groups: seq<seq<nat>>, index: nat, rows: seq<seq<F>>, proof: seq<D>,
    k: nat)
    requires HonestOpening(h, mats, groups, index, rows, proof) && 0 < k <= Levels(mats)
    requires Climbed(h, mats, groups, index, rows, proof, k - 1)
    ensures Climbed(h, mats, groups, index, rows, proof, k)
  {
    assert AtIndex(k); assert AtIndex(k - 1);
    ClimbStep(h, mats, index, k, RootAfter(h, groups, index, rows, proof, k - 1), proof[k - 1]);
    RootStep(h, groups, index, rows, proof, k - 1);
  }

  lemma {:induction false} TopGroup<F>(mats: seq<Matrix<F>>)
    requires WellShaped(Heights(mats))
    ensures GroupAt(mats, 0) != []
  {
    var hs := Heights(mats);
    var i := MaxOfAttained(hs);
    MembersOf(hs, Pow2(Levels(mats)), |mats|, i);
  }

  /** Merkle completeness: an honest opening at an index in range for every matrix is accepted,
      across padding and injection. */
  lemma {:induction false} MerkleComplete<F, D>(h: Hasher<F, D>, mats: seq<Matrix<F>>, index: nat)
    requires WellShaped(Heights(mats)) && InRange(Heights(mats), index)
    ensures Accepts(h, Commitment(h, mats), Heights(mats), index, OpenRows(mats, index),
        Path(h, mats, index, Levels(mats)))
  {
    PathIsPath(h, mats, index);
    GroupsAgree(mats);
    ClimbsTree(h, mats, Groups(Heights(mats), Levels(mats) + 1), index, OpenRows(mats, index),
        Path(h, mats, index, Levels(mats)), Levels(mats));
    TopIndex(mats, index);
  }

  /** Every index ends at the root. */
  lemma {:induction false} TopIndex<F>(mats: seq<Matrix<F>>, index: nat)
    requires WellShaped(Heights(mats)) && InRange(Heights(mats), index)
    ensures Shr(index, Levels(mats)) == 0
  { ShrBound(index, 0, Levels(mats)); }

  // ---------- the scheme the prover uses ----------

  /** The tree as a commitment scheme; inputs that its asserts and index checks refuse get a default. */
  function TreeScheme<F(!new), D(==)>(h: Hasher<F, D>): Scheme<F, D, seq<D>> {
    Scheme(
      (hs: seq<nat>, mats: seq<Matrix<F>>) => if WellShaped(Heights(mats)) then Commitment(h, mats) else h.empty,
      (mats: seq<Matrix<F>>, index: nat) => if WellShaped(Heights(mats)) then Path(h, mats, index, Levels(mats))
      else [],
      (commit: D, hs: seq<nat>, index: nat, rows: seq<seq<F>>, proof: seq<D>) => hs != []
          && Accepts(h, commit, hs, index, rows, proof))
  }

  /** It is complete, which is all that the provers above it rely on. */
  lemma {:induction false} TreeSchemeComplete<F(!new), D>(h: Hasher<F, D>)
    ensures TreeScheme(h).Complete()
  {
    var scheme := TreeScheme(h);
    forall mats: seq<Matrix<F>>, index: nat | WellShaped(Heights(mats)) && InRange(Heights(mats), index)
      ensures scheme.Verify(scheme.Commit(mats), Heights(mats), index, OpenRows(mats, index),
          scheme.Prove(mats, index))
    { MerkleComplete(h, mats, index); }
  }

  // ---------- binding ----------

  /** Two different inputs with the same digest. */
  datatype Collision<F, D> = NoCollision | OfHash(x: seq<F>, y: seq<F>) | OfCompress(a: D, b: D, c: D, d: D)

  predicate Real<F(==), D(==)>(h: Hasher<F, D>, c: Collision<F, D>) {
    match c
    case NoCollision => false
    case OfHash(x, y) => x != y && h.Hash(x) == h.Hash(y)
    case OfCompress(a, b, c, d) => (a, b) != (c, d) && h.Compress(a, b) == h.Compress(c, d)
  }

  /** An opening: the rows and the sibling path. */
  datatype TreeOpening<F, D> = TreeOpening(rows: seq<seq<F>>, proof: seq<D>)

  function Rooted<F, D>(h: Hasher<F, D>, groups: seq<seq<nat>>, index: nat, o: TreeOpening<F, D>, k: nat): D
    requires k < |groups| && k <= |o.proof|
  { RootAfter(h, groups, index, o.rows, o.proof, k) }

  /** The pair compressed at step k, in order. */
  function PairAt<F, D>(h: Hasher<F, D>, groups: seq<seq<nat>>, index: nat, o: TreeOpening<F, D>, k: nat): (D, D)
    requires k < |o.proof| && k < |groups|
  {
    if Shr(index, k) % 2 == 0 then (Rooted(h, groups, index, o, k), o.proof[k])
    else (o.proof[k], Rooted(h, groups, index, o, k))
  }

  /** The collision that a difference between two hashed groups, or between the digests they are
      compressed with, exhibits. */
  function InjectCollision<F(==), D(==)>(h: Hasher<F, D>, d: D, e: D, x: seq<F>, y: seq<F>): Collision<F, D> {
    if (d, h.Hash(x)) != (e, h.Hash(y)) then OfCompress(d, h.Hash(x), e, h.Hash(y))
    else if x != y then OfHash(x, y)
    else NoCollision
  }

  /** The collision of one step: above the pairs, in the pairs, or further down. */
  function StepCollision<F(==), D(==)>(
    h: Hasher<F, D>, injects: bool, a: (D, D), b: (D, D), x: seq<F>, y: seq<F>, below: Collision<F, D>): Collision<F,
    D> {
    var above := if injects then InjectCollision(h, h.Compress(a.0, a.1), h.Compress(b.0, b.1), x, y)
    else NoCollision;
    if above != NoCollision then above else if a != b then OfCompress(a.0, a.1, b.0, b.1) else below
  }

  /** Walk two openings down from step k until they differ. */
  function FindCollision<F(==), D(==)>(
    h: Hasher<F, D>, groups: seq<seq<nat>>, index: nat, o: TreeOpening<F, D>, q: TreeOpening<F, D>,
    k: nat): Collision<F, D>
    requires k < |groups| && k <= |o.proof| && k <= |q.proof|
  {
    var group := groups[k];
    var x, y := Flat(o.rows, group), Flat(q.rows, group);
    if k == 0 then (if x != y then OfHash(x, y) else NoCollision)
    else StepCollision(h, group != [], PairAt(h, groups, index, o, k - 1), PairAt(h, groups, index, q, k - 1), x, y,
         FindCollision(h, groups, index, o, q, k - 1))
  }

  lemma {:induction false} StepBinds<F, D>(
    h: Hasher<F, D>, injects: bool, a: (D, D), b: (D, D), x: seq<F>, y: seq<F>, below: Collision<F, D>)
    requires !injects ==> x == y && h.Compress(a.0, a.1) == h.Compress(b.0, b.1)
    requires injects ==> h.Compress(h.Compress(a.0, a.1), h.Hash(x)) == h.Compress(h.Compress(b.0, b.1), h.Hash(y))
    ensures var c := StepCollision(h, injects, a, b, x, y, below); Real(h, c) || (a == b && x == y && c == below)
  {}

  /** The two openings agree on everything hashed up to step k. */
  ghost predicate Agree<F, D>(groups: seq<seq<nat>>, o: TreeOpening<F, D>, q: TreeOpening<F, D>, k: nat)
    requires k < |groups| && k <= |o.proof| && k <= |q.proof|
    decreases k
  {
    && Flat(o.rows, groups[k]) == Flat(q.rows, groups[k])
    && (k > 0 ==> o.proof[k - 1] == q.proof[k - 1] && Agree(groups, o, q, k - 1))
  }

  lemma {:induction false} RootedStep<F, D>(
    h: Hasher<F, D>, groups: seq<seq<nat>>, index: nat, o: TreeOpening<F, D>, k: nat)
    requires 0 < k < |groups| && k <= |o.proof|
    ensures var a, group := PairAt(h, groups, index, o, k - 1), groups[k];
      Rooted(h, groups, index, o, k) == Inject(h, h.Compress(a.0, a.1), group, o.rows)
  {}

  lemma {:induction false} PairBinds<F, D>(
    h: Hasher<F, D>, groups: seq<seq<nat>>, index: nat, o: TreeOpening<F, D>, q: TreeOpening<F, D>, k: nat)
    requires k < |groups| && k < |o.proof| && k < |q.proof|
        && PairAt(h, groups, index, o, k) == PairAt(h, groups, index, q, k)
    ensures o.proof[k] == q.proof[k] && Rooted(h, groups, index, o, k) == Rooted(h, groups, index, q, k)
  {}

  /** Two openings with the same digest after k siblings agree up to there, or the walk finds a real
      collision. */
  lemma {:induction false} SameRoot<F, D>(
    h: Hasher<F, D>, groups: seq<seq<nat>>, index: nat, o: TreeOpening<F, D>, q: TreeOpening<F, D>, k: nat)
    requires k < |groups| && k <= |o.proof| && k <= |q.proof|
    requires Rooted(h, groups, index, o, k) == Rooted(h, groups, index, q, k)
    ensures Real(h, FindCollision(h, groups, index, o, q, k)) || Agree(groups, o, q, k)
  {
    if k > 0 {
      var group := groups[k];
      var a, b := PairAt(h, groups, index, o, k - 1), PairAt(h, groups, index, q, k - 1);
      var x, y := Flat(o.rows, group), Flat(q.rows, group);
      RootedStep(h, groups, index, o, k); RootedStep(h, groups, index, q, k);
      StepBinds(h, group != [], a, b, x, y, FindCollision(h, groups, index, o, q, k - 1));
      if a == b && x == y {
        PairBinds(h, groups, index, o, q, k - 1);
        SameRoot(h, groups, index, o, q, k - 1);
      }
    }
  }

  /** Some hash up to step n takes in row m. */
  ghost predicate Covered(hs: seq<nat>, n: nat, m: nat)
    requires hs != []
  { exists s: nat, t: nat :: HashedAt(hs, n, m, s, t) }

  ghost predicate HashedAt(hs: seq<nat>, n: nat, m: nat, s: nat, t: nat)
    requires hs != []
  { s <= n && t < |At(hs, s).group| && At(hs, s).group[t] == m }

  /** For well-shaped heights the rows that are hashed are those whose level the path reaches. */
  lemma {:induction false} CoveredExactly(hs: seq<nat>, n: nat, m: nat)
    requires WellShaped(hs) && m < |hs|
    ensures Covered(hs, n, m) <==> Log2Ceil(MaxOf(hs)) - Log2Ceil(hs[m]) <= n
  {
    var levels := Log2Ceil(MaxOf(hs));
    Log2CeilMonotone(hs[m], MaxOf(hs));
    if levels - Log2Ceil(hs[m]) <= n {
      var s := levels - Log2Ceil(hs[m]);
      ScheduleOk(hs, s);
      MembersOf(hs, Pow2(levels - s), |hs|, m);
      var t: nat :| t < |At(hs, s).group| && At(hs, s).group[t] == m;
      assert HashedAt(hs, n, m, s, t);
    }
    if Covered(hs, n, m) {
      var s: nat, t: nat :| HashedAt(hs, n, m, s, t);
      if s <= levels { HashedLevel(hs, m, s, t); }
    }
  }

  lemma {:induction false} HashedLevel(hs: seq<nat>, m: nat, s: nat, t: nat)
    requires WellShaped(hs) && m < |hs| && s <= Log2Ceil(MaxOf(hs)) && HashedAt(hs, s, m, s, t)
    ensures Log2Ceil(MaxOf(hs)) - Log2Ceil(hs[m]) == s
  {
    ScheduleOk(hs, s);
    MembersAre(hs, Pow2(Log2Ceil(MaxOf(hs)) - s), |hs|, t);
    PaddedLog(hs[m], Log2Ceil(MaxOf(hs)) - s);
  }

  ghost predicate SameWidths<F>(rows: seq<seq<F>>, others: seq<seq<F>>) {
    |rows| == |others| && forall m :: 0 <= m < |rows| ==> |rows[m]| == |others[m]|
  }

  /** With equal widths, equal concatenations have equal rows. */
  lemma {:induction false} FlatBinds<F>(rows: seq<seq<F>>, others: seq<seq<F>>, group: seq<nat>, t: nat)
    requires SameWidths(rows, others) && Flat(rows, group) == Flat(others, group) && t < |group|
    ensures OpenedRow(rows, group[t]) == OpenedRow(others, group[t])
    decreases |group|
  {
    var x, y := OpenedRow(rows, group[0]), OpenedRow(others, group[0]);
    var xs, ys := Flat(rows, group[1..]), Flat(others, group[1..]);
    assert |x| == |y|;
    assert x == (x + xs)[..|x|] && y == (y + ys)[..|x|];
    assert xs == (x + xs)[|x|..] && ys == (y + ys)[|x|..];
    if t > 0 { FlatBinds(rows, others, group[1..], t - 1); }
  }

  lemma {:induction false} AgreeAt<F, D>(
    groups: seq<seq<nat>>, o: TreeOpening<F, D>, q: TreeOpening<F, D>, k: nat, s: nat)
    requires k < |groups| && k <= |o.proof| && k <= |q.proof| && Agree(groups, o, q, k) && s <= k
    ensures Flat(o.rows, groups[s]) == Flat(q.rows, groups[s]) && (s < k ==> o.proof[s] == q.proof[s])
  { if s < k { AgreeAt(groups, o, q, k - 1, s); } }

  /** Merkle binding: two accepted openings of one commitment at one index, with the same heights,
      row widths and path length, have the same path and the same rows wherever a row is hashed at
      all, or the walk down them finds two inputs of the hash or of the compression that collide. */
  lemma {:induction false} MerkleBinding<F, D>(
    h: Hasher<F, D>, commit: D, hs: seq<nat>, index: nat, o: TreeOpening<F, D>, q: TreeOpening<F, D>)
    requires hs != [] && |o.proof| == |q.proof| && SameWidths(o.rows, q.rows)
    requires Accepts(h, commit, hs, index, o.rows, o.proof) && Accepts(h, commit, hs, index, q.rows, q.proof)
    ensures
      || Real(h, FindCollision(h, Groups(hs, |o.proof| + 1), index, o, q, |o.proof|))
      || (o.proof == q.proof && forall m: nat {:trigger OpenedRow(o.rows, m)} :: Covered(hs, |o.proof|, m) ==>
          OpenedRow(o.rows, m) == OpenedRow(q.rows, m))
  {
    var n := |o.proof|;
    var groups := Groups(hs, n + 1);
    SameRoot(h, groups, index, o, q, n);
    if Agree(groups, o, q, n) {
      forall s | 0 <= s < n ensures o.proof[s] == q.proof[s] { AgreeAt(groups, o, q, n, s); }
      forall m: nat | Covered(hs, n, m) ensures OpenedRow(o.rows, m) == OpenedRow(q.rows, m) {
        var s: nat, t: nat :| HashedAt(hs, n, m, s, t);
        AgreeAt(groups, o, q, n, s);
        GroupsAre(hs, n + 1, s);
        FlatBinds(o.rows, q.rows, groups[s], t);
      }
    }
  }

  lemma {:induction false} SameFlat<F>(rows: seq<seq<F>>, others: seq<seq<F>>, group: seq<nat>)
    requires forall t :: 0 <= t < |group| ==> OpenedRow(rows, group[t]) == OpenedRow(others, group[t])
    ensures Flat(rows, group) == Flat(others, group)
    decreases |group|
  {
    if group != [] {
      forall t | 0 <= t < |group[1..]| ensures OpenedRow(rows, group[1..][t]) == OpenedRow(others, group[1..][t]) {
        assert group[1..][t] == group[t + 1];
      }
      SameFlat(rows, others, group[1..]);
    }
  }

  lemma {:induction false} RootIgnores<F, D>(
    h: Hasher<F, D>, groups: seq<seq<nat>>, index: nat, rows: seq<seq<F>>, others: seq<seq<F>>, proof: seq<D>, k: nat)
    requires k <= |proof| && k < |groups| && forall s :: 0 <= s <= k ==>
        Flat(rows, groups[s]) == Flat(others, groups[s])
    ensures RootAfter(h, groups, index, rows, proof, k) == RootAfter(h, groups, index, others, proof, k)
  {
    assert Flat(rows, groups[k]) == Flat(others, groups[k]);
    if k > 0 { RootIgnores(h, groups, index, rows, others, proof, k - 1); }
  }

  /** And no further: a row that no hash takes in does not affect the verdict, so a path that stops
      below a matrix's level binds nothing about its row. */
  lemma {:induction false} NotCovered<F, D>(
    h: Hasher<F, D>, commit: D, hs: seq<nat>, index: nat, rows: seq<seq<F>>, proof: seq<D>, m: nat, row: seq<F>)
    requires hs != [] && m < |rows| && !Covered(hs, |proof|, m)
    ensures Accepts(h, commit, hs, index, rows[m := row], proof) <==> Accepts(h, commit, hs, index, rows, proof)
  {
    var n, others := |proof|, rows[m := row];
    var groups := Groups(hs, n + 1);
    forall s | 0 <= s <= n ensures Flat(rows, groups[s]) == Flat(others, groups[s]) {
      GroupsAre(hs, n + 1, s);
      forall t | 0 <= t < |groups[s]| ensures OpenedRow(rows, groups[s][t]) == OpenedRow(others, groups[s][t]) {
        assert HashedAt(hs, n, groups[s][t], s, t);
      }
      SameFlat(rows, others, groups[s]);
    }
    RootIgnores(h, groups, index, rows, others, proof, n);
  }

  lemma {:induction false} TwoAndOne()
    ensures WellShaped([2, 1]) && MaxOf([2, 1]) == 2 && Log2Ceil(2) == 1 && Log2Ceil(1) == 0
  {
    Log2CeilPow2(0); Log2CeilPow2(1);
    assert [2, 1][1..] == [1] && [1][1..] == [];
    assert MaxOf([1]) == 1;
  }

  /** A path that is too short binds too little, whatever the hash: for matrices of heights 2 and 1
      and an empty path, the hash of the first row is a commitment under which every second row is
      accepted, and two such openings exhibit no collision. */
  lemma {:induction false} UnboundRow<F, D>(h: Hasher<F, D>, index: nat, x: seq<F>, y: seq<F>, z: seq<F>)
    ensures Accepts(h, h.Hash(x), [2, 1], index, [x, y], []) && Accepts(h, h.Hash(x), [2, 1], index, [x, z], [])
    ensures FindCollision(h, Groups([2, 1], 1), index, TreeOpening([x, y], []), TreeOpening([x, z], []), 0)
        == NoCollision
  {
    var hs := [2, 1];
    TwoAndOne();
    ScheduleOk(hs, 0);
    GroupsAre(hs, 1, 0);
    FirstOfTwo();
    assert Groups(hs, 1)[0] == [0];
    assert Flat([x, y], [0]) == x && Flat([x, z], [0]) == x by { assert [0][1..] == []; }
  }

  lemma {:induction false} FirstOfTwo()
    ensures Members([2, 1], Pow2(1), 2) == [0]
  {
    TwoAndOne();
    assert NextPow2(2) == 2 && NextPow2(1) == 1;
    assert Members([2, 1], 2, 0) == [];
  }
}
