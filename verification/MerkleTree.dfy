/** The mixed-height Merkle tree: its digests, the methods that build its layers, and the tree
    object whose leaves can be taken out and put back. */
module MerkleTree {
  import opened Bits
  import opened Mmcs
  import opened MerkleSchedule

  /** The leaf hasher, started from a default digest, and the two-to-one compression.  On packed
      values both work lane by lane, so a lane of a packed digest is the digest of that lane. */
  datatype Hasher<!F, !D> = Hasher(hash: (D, seq<F>) -> D, compress: (D, D) -> D, empty: D) {
    function Hash(xs: seq<F>): D { hash(empty, xs) }
    function Compress(l: D, r: D): D { compress(l, r) }
  }

  function RowOf<F>(mats: seq<Matrix<F>>, m: nat, i: nat): seq<F> {
    if m < |mats| && i < |mats[m]| then mats[m][i] else []
  }

  /** The concatenation of row i of the matrices in a group. */
  function RowsFlat<F>(mats: seq<Matrix<F>>, group: seq<nat>, i: nat): seq<F> {
    if group == [] then [] else RowOf(mats, group[0], i) + RowsFlat(mats, group[1..], i)
  }

  function GroupHeight<F>(mats: seq<Matrix<F>>, group: seq<nat>): nat {
    if group != [] && group[0] < |mats| then |mats[group[0]]| else 0
  }

  /** The digest of row i of a group, the default digest beyond the last row. */
  function LeafDigest<F, D>(h: Hasher<F, D>, mats: seq<Matrix<F>>, group: seq<nat>, i: nat): D {
    if i < GroupHeight(mats, group) then h.Hash(RowsFlat(mats, group, i)) else h.empty
  }

  /** The digest above l and r, with row i of a group mixed in when the group is not empty. */
  function Parent<F, D>(h: Hasher<F, D>, mats: seq<Matrix<F>>, group: seq<nat>, i: nat, l: D, r: D): D {
    var d := h.Compress(l, r);
    if group == [] then d else h.Compress(d, LeafDigest(h, mats, group, i))
  }

  /** The number of layers above the first. */
  function Levels<F>(mats: seq<Matrix<F>>): nat
    requires WellShaped(Heights(mats))
  { Log2Ceil(MaxOf(Heights(mats))) }

  /** The matrices mixed in at layer s. */
  function GroupAt<F>(mats: seq<Matrix<F>>, s: nat): seq<nat>
    requires WellShaped(Heights(mats)) && s <= Levels(mats)
  { Members(Heights(mats), Pow2(Levels(mats) - s), |mats|) }

  /** Digest i of layer s of the tree. */
  function Node<F, D>(h: Hasher<F, D>, mats: seq<Matrix<F>>, s: nat, i: nat): D
    requires WellShaped(Heights(mats)) && s <= Levels(mats)
  {
    if s == 0 then LeafDigest(h, mats, GroupAt(mats, 0), i)
    else Parent(h, mats, GroupAt(mats, s), i, Node(h, mats, s - 1, 2 * i), Node(h, mats, s - 1, 2 * i + 1))
  }

  // ---------- building the layers ----------

  /** The first n digests are those of rows of the group, the others are still the default. */
  ghost predicate Hashed<F, D>(h: Hasher<F, D>, mats: seq<Matrix<F>>, group: seq<nat>, ds: seq<D>, n: nat) {
    && n <= |ds| && (forall i :: 0 <= i < n ==> ds[i] == LeafDigest(h, mats, group, i))
    && forall i :: n <= i < |ds| ==> ds[i] == h.empty
  }

  /** Hash rows lo to hi: the lanes of one chunk, or the rows left after the last chunk. */
  method HashRows<F, D>(h: Hasher<F, D>, mats: seq<Matrix<F>>, group: seq<nat>, digests: array<D>, lo: nat, hi: nat)
    requires lo <= hi <= GroupHeight(mats, group) && hi <= digests.Length && Hashed(h, mats, group, digests[..], lo)
    modifies digests
    ensures Hashed(h, mats, group, digests[..], hi)
  {
    for i := lo to hi
      invariant Hashed(h, mats, group, digests[..], i)
    {
      ghost var before := digests[..];
      digests[i] := h.Hash(RowsFlat(mats, group, i));
      assert digests[..] == before[i := LeafDigest(h, mats, group, i)];
    }
  }

  /** `first_digest_layer`: whole chunks of `width` rows, then the remaining rows one by one, then
      default digests up to the padded height. */
  method FirstDigestLayer<F, D>(
    h: Hasher<F, D>, mats: seq<Matrix<F>>, group: seq<nat>, padded: nat, width: nat) returns (r: seq<D>)
    requires width >= 1 && GroupHeight(mats, group) <= padded
    ensures |r| == padded && forall i :: 0 <= i < padded ==> r[i] == LeafDigest(h, mats, group, i)
  {
    var height := GroupHeight(mats, group);
    var digests := new D[padded](_ => h.empty);
    var first := 0;
    while first + width <= height
      invariant 0 <= first <= height && Hashed(h, mats, group, digests[..], first)
    {
      HashRows(h, mats, group, digests, first, first + width);
      first := first + width;
    }
    HashRows(h, mats, group, digests, first, height);
    r := digests[..];
  }

  /** The first n digests compress pairs of the layer below. */
  ghost predicate Compressed<F, D>(h: Hasher<F, D>, prev: seq<D>, ds: seq<D>, n: nat)
    requires 2 * |ds| <= |prev|
  { n <= |ds| && forall i :: 0 <= i < n ==> ds[i] == h.Compress(prev[2 * i], prev[2 * i + 1]) }

  method CompressPairs<F, D>(h: Hasher<F, D>, prev: seq<D>, next: array<D>, lo: nat, hi: nat)
    requires lo <= hi <= next.Length && 2 * next.Length <= |prev| && Compressed(h, prev, next[..], lo)
    modifies next
    ensures Compressed(h, prev, next[..], hi)
  {
    for i := lo to hi
      invariant Compressed(h, prev, next[..], i)
    {
      ghost var before := next[..];
      next[i] := h.Compress(prev[2 * i], prev[2 * i + 1]);
      assert next[..] == before[i := h.Compress(prev[2 * i], prev[2 * i + 1])];
    }
  }

  /** `compress`: pairs of digests, whole chunks first. */
  method Compress<F, D>(h: Hasher<F, D>, prev: seq<D>, width: nat) returns (r: seq<D>)
    requires width >= 1 && |prev| % 2 == 0
    ensures |r| == |prev| / 2 && forall i :: 0 <= i < |r| ==> r[i] == h.Compress(prev[2 * i], prev[2 * i + 1])
  {
    var len := |prev| / 2;
    var next := new D[len](_ => h.empty);
    var first := 0;
    while first + width <= len
      invariant 0 <= first <= len && Compressed(h, prev, next[..], first)
    {
      CompressPairs(h, prev, next, first, first + width);
      first := first + width;
    }
    CompressPairs(h, prev, next, first, len);
    r := next[..];
  }

  /** The first n digests compress pairs and mix in rows of the group. */
  ghost predicate Mixed<F, D>(
    h: Hasher<F, D>, prev: seq<D>, mats: seq<Matrix<F>>, group: seq<nat>, ds: seq<D>, n: nat)
    requires 2 * |ds| <= |prev|
  { n <= |ds| && forall i :: 0 <= i < n ==> ds[i] == Parent(h, mats, group, i, prev[2 * i], prev[2 * i + 1]) }

  lemma {:induction false} MixedStep<F, D>(
    h: Hasher<F, D>, prev: seq<D>, mats: seq<Matrix<F>>, group: seq<nat>, ds: seq<D>, n: nat, d: D)
    requires 2 * |ds| <= |prev| && n < |ds| && Mixed(h, prev, mats, group, ds, n)
    requires d == Parent(h, mats, group, n, prev[2 * n], prev[2 * n + 1])
    ensures Mixed(h, prev, mats, group, ds[n := d], n + 1)
  {}

  /** Pairs lo to hi with the rows of the group. */
  method MixRows<F, D>(
    h: Hasher<F, D>, prev: seq<D>, mats: seq<Matrix<F>>, group: seq<nat>, next: array<D>, lo: nat, hi: nat)
    requires group != [] && lo <= hi <= next.Length && 2 * next.Length <= |prev|
        && Mixed(h, prev, mats, group, next[..], lo)
    requires hi <= GroupHeight(mats, group)
    modifies next
    ensures Mixed(h, prev, mats, group, next[..], hi)
  {
    for i := lo to hi
      invariant Mixed(h, prev, mats, group, next[..], i)
    {
      ghost var before := next[..];
      var d := h.Compress(h.Compress(prev[2 * i], prev[2 * i + 1]), h.Hash(RowsFlat(mats, group, i)));
      MixedStep(h, prev, mats, group, before, i, d);
      next[i] := d;
      assert next[..] == before[i := d];
    }
  }

  /** Pairs beyond the last row of the group. */
  method MixDefaults<F, D>(
    h: Hasher<F, D>, prev: seq<D>, mats: seq<Matrix<F>>, group: seq<nat>, next: array<D>, lo: nat)
    requires group != [] && lo == GroupHeight(mats, group) <= next.Length && 2 * next.Length <= |prev|
    requires Mixed(h, prev, mats, group, next[..], lo)
    modifies next
    ensures Mixed(h, prev, mats, group, next[..], next.Length)
  {
    for i := lo to next.Length
      invariant Mixed(h, prev, mats, group, next[..], i)
    {
      ghost var before := next[..];
      var d := h.Compress(h.Compress(prev[2 * i], prev[2 * i + 1]), h.empty);
      MixedStep(h, prev, mats, group, before, i, d);
      next[i] := d;
      assert next[..] == before[i := d];
    }
  }

  /** `compress_and_inject`: as `compress`, mixing in the rows of a group where it has any and the
      default digest beyond. */
  method CompressAndInject<F, D>(
    h: Hasher<F, D>, prev: seq<D>, mats: seq<Matrix<F>>, group: seq<nat>, width: nat) returns (r: seq<D>)
    requires width >= 1 && |prev| % 2 == 0 && GroupHeight(mats, group) <= |prev| / 2
    ensures |r| == |prev| / 2
    ensures forall i :: 0 <= i < |r| ==> r[i] == Parent(h, mats, group, i, prev[2 * i], prev[2 * i + 1])
  {
    if group == [] {
      r := Compress(h, prev, width);
      return;
    }
    var height, len := GroupHeight(mats, group), |prev| / 2;
    var next := new D[len](_ => h.empty);
    var first := 0;
    while first + width <= height
      invariant 0 <= first <= height && Mixed(h, prev, mats, group, next[..], first)
    {
      MixRows(h, prev, mats, group, next, first, first + width);
      first := first + width;
    }
    MixRows(h, prev, mats, group, next, first, height);
    MixDefaults(h, prev, mats, group, next, height);
    r := next[..];
  }

  /** The layers hold the digests of the tree over `mats`. */
  ghost predicate LayerOk<F, D>(h: Hasher<F, D>, mats: seq<Matrix<F>>, s: nat, layer: seq<D>)
    requires WellShaped(Heights(mats)) && s <= Levels(mats)
  { |layer| == Pow2(Levels(mats) - s) && forall i :: 0 <= i < |layer| ==> layer[i] == Node(h, mats, s, i) }

  ghost predicate LayersOk<F, D>(h: Hasher<F, D>, mats: seq<Matrix<F>>, layers: seq<seq<D>>)
    requires WellShaped(Heights(mats))
  { |layers| <= Levels(mats) + 1 && forall s :: 0 <= s < |layers| ==> LayerOk(h, mats, s, layers[s]) }

  /** A member of a group is a matrix of that padded height. */
  lemma {:induction false} MembersAre(hs: seq<nat>, c: nat, n: nat, t: nat)
    requires t < |Members(hs, c, n)|
    ensures Members(hs, c, n)[t] < n && Padded(hs, Members(hs, c, n)[t]) == c
  { if t < |Members(hs, c, n - 1)| { MembersAre(hs, c, n - 1, t); } }

  /** The matrices of a group fit under its padded height. */
  lemma {:induction false} GroupFits<F>(mats: seq<Matrix<F>>, s: nat)
    requires WellShaped(Heights(mats)) && s <= Levels(mats)
    ensures GroupHeight(mats, GroupAt(mats, s)) <= Pow2(Levels(mats) - s)
  {
    var group := GroupAt(mats, s);
    if group != [] {
      MembersAre(Heights(mats), Pow2(Levels(mats) - s), |mats|, 0);
      Log2CeilIs(|mats[group[0]]|);
    }
  }

  lemma {:induction false} NextLayerOk<F, D>(
    h: Hasher<F, D>, mats: seq<Matrix<F>>, s: nat, prev: seq<D>, next: seq<D>)
    requires WellShaped(Heights(mats)) && 0 < s <= Levels(mats) && LayerOk(h, mats, s - 1, prev)
    requires |next| == |prev| / 2
    requires forall i :: 0 <= i < |next| ==>
        next[i] == Parent(h, mats, GroupAt(mats, s), i, prev[2 * i], prev[2 * i + 1])
    ensures LayerOk(h, mats, s, next)
  {
    assert |prev| == 2 * Pow2(Levels(mats) - s);
    forall i | 0 <= i < |next| ensures next[i] == Node(h, mats, s, i) {
      assert prev[2 * i] == Node(h, mats, s - 1, 2 * i);
      assert prev[2 * i + 1] == Node(h, mats, s - 1, 2 * i + 1);
    }
  }

  lemma {:induction false} PushLayer<F, D>(h: Hasher<F, D>, mats: seq<Matrix<F>>, layers: seq<seq<D>>, next: seq<D>)
    requires WellShaped(Heights(mats)) && LayersOk(h, mats, layers) && |layers| <= Levels(mats)
        && LayerOk(h, mats, |layers|, next)
    ensures LayersOk(h, mats, layers + [next])
  {}

  /** `FieldMerkleTree::new`: the digest layers. */
  method BuildLayers<F, D>(h: Hasher<F, D>, mats: seq<Matrix<F>>, width: nat) returns (layers: seq<seq<D>>)
    requires WellShaped(Heights(mats)) && width >= 1
    ensures |layers| == Levels(mats) + 1 && LayersOk(h, mats, layers)
  {
    var hs, levels := Heights(mats), Levels(mats);
    var order := TallestFirst(hs, |hs|);
    WellShapedSeparated(hs);
    TakeTallest(hs);
    var top := HeightOf(hs, order[0]);
    var t := TakeEqual(hs, order, top);
    var it := Schedule(order[t..], NextPow2(top), order[..t]);
    GroupFits(mats, 0);
    var first := FirstDigestLayer(h, mats, it.group, NextPow2(top), width);
    layers := [first];
    assert LayerOk(h, mats, 0, first);
    while |layers[|layers| - 1]| != 1
      invariant 0 < |layers| <= levels + 1 && LayersOk(h, mats, layers)
      invariant Yields(hs, it, Pow2(levels + 1 - |layers|))
      decreases levels + 1 - |layers|
    {
      var next;
      it, next := NextDigestLayer(h, mats, it, layers[|layers| - 1], |layers|, width);
      PushLayer(h, mats, layers, next);
      layers := layers + [next];
    }
    LastLayer(h, mats, layers);
  }

  /** One iteration of the layer loop. */
  method NextDigestLayer<F, D>(
    h: Hasher<F, D>, mats: seq<Matrix<F>>, it: Schedule, prev: seq<D>, ghost s: nat, width: nat)
    returns (it': Schedule, next: seq<D>)
    requires WellShaped(Heights(mats)) && width >= 1 && 0 < s <= Levels(mats) + 1 && LayerOk(h, mats, s - 1, prev)
        && |prev| != 1
    requires Yields(Heights(mats), it, Pow2(Levels(mats) + 1 - s))
    ensures s <= Levels(mats) && LayerOk(h, mats, s, next) && Yields(Heights(mats), it', Pow2(Levels(mats) - s))
  {
    var hs := Heights(mats);
    LayerSize(h, mats, s, prev);
    TakeGroup(hs, it, Levels(mats) - s);
    GroupFits(mats, s);
    var t := TakePadded(hs, it.rest, |prev| / 2);
    it' := Schedule(it.rest[t..], |prev| / 2, it.rest[..t]);
    next := CompressAndInject(h, prev, mats, it'.group, width);
    NextLayerOk(h, mats, s, prev, next);
  }

  lemma {:induction false} LayerSize<F, D>(h: Hasher<F, D>, mats: seq<Matrix<F>>, s: nat, prev: seq<D>)
    requires WellShaped(Heights(mats)) && 0 < s <= Levels(mats) + 1 && LayerOk(h, mats, s - 1, prev) && |prev| != 1
    ensures s <= Levels(mats) && |prev| == 2 * Pow2(Levels(mats) - s)
  {}

  lemma {:induction false} LastLayer<F, D>(h: Hasher<F, D>, mats: seq<Matrix<F>>, layers: seq<seq<D>>)
    requires WellShaped(Heights(mats)) && layers != [] && LayersOk(h, mats, layers) && |layers[|layers| - 1]| == 1
    ensures |layers| == Levels(mats) + 1
  {
    var s := |layers| - 1;
    assert LayerOk(h, mats, s, layers[s]);
    Pow2One(Levels(mats) - s);
  }

  // ---------- the tree object ----------

  class FieldMerkleTree<F, D> {
    var leaves: seq<Matrix<F>>
    var leafHeights: seq<nat>
    var digestLayers: seq<seq<D>>

    /** The tree was built over `mats`; its leaves may have been taken. */
    ghost predicate Over(h: Hasher<F, D>, mats: seq<Matrix<F>>)
      reads this
    {
      && WellShaped(Heights(mats)) && leafHeights == Heights(mats)
      && |digestLayers| == Levels(mats) + 1 && LayersOk(h, mats, digestLayers)
    }

    constructor (h: Hasher<F, D>, mats: seq<Matrix<F>>, width: nat)
      requires WellShaped(Heights(mats)) && width >= 1
      ensures Over(h, mats) && leaves == mats
    {
      var layers := BuildLayers(h, mats, width);
      leaves, leafHeights, digestLayers := mats, Heights(mats), layers;
    }

    method TakeLeaves() returns (taken: seq<Matrix<F>>)
      modifies this`leaves
      ensures taken == old(leaves) && leaves == []
    { taken := leaves; leaves := []; }

    method RestoreLeaves(mats: seq<Matrix<F>>)
      modifies this`leaves
      ensures leaves == mats
    { leaves := mats; }

    /** `get_max_height`: from the leaves, or from the recorded heights once they were taken. */
    function MaxHeight(): (m: nat)
      reads this
    { if leaves != [] then MaxOf(Heights(leaves)) else MaxOf(leafHeights) }

    lemma {:induction false} MaxHeightKept(h: Hasher<F, D>, mats: seq<Matrix<F>>)
      requires Over(h, mats) && (leaves == mats || leaves == [])
      ensures MaxHeight() == MaxOf(Heights(mats))
    {}

    /** The commitment. */
    function Root(): D
      reads this
      requires digestLayers != [] && digestLayers[|digestLayers| - 1] != []
    { digestLayers[|digestLayers| - 1][0] }

    lemma {:induction false} RootIs(h: Hasher<F, D>, mats: seq<Matrix<F>>)
      requires Over(h, mats)
      ensures digestLayers[|digestLayers| - 1] != [] && Root() == Commitment(h, mats)
    {
      var s := Levels(mats);
      assert LayerOk(h, mats, s, digestLayers[s]);
    }

    lemma {:induction false} SiblingInLayer(h: Hasher<F, D>, mats: seq<Matrix<F>>, index: nat, s: nat)
      requires Over(h, mats) && index < Pow2(Levels(mats)) && s < Levels(mats)
      ensures Sibling(Shr(index, s)) < |digestLayers[s]|
      ensures digestLayers[s][Sibling(Shr(index, s))] == Node(h, mats, s, Sibling(Shr(index, s)))
    {
      assert LayerOk(h, mats, s, digestLayers[s]);
      ShrBound(index, Levels(mats) - s, s);
    }

    method SiblingPath(
      ghost h: Hasher<F, D>, ghost mats: seq<Matrix<F>>, logMax: nat, index: nat) returns (proof: seq<D>)
      requires Over(h, mats) && index < Pow2(logMax) && logMax == Levels(mats)
      ensures proof == Path(h, mats, index, logMax)
    {
      proof := [];
      for s := 0 to logMax
        invariant proof == Path(h, mats, index, s)
      {
        SiblingInLayer(h, mats, index, s);
        proof := proof + [digestLayers[s][Sibling(Shr(index, s))]];
      }
    }

    /** `open_batch`: the rows of the tree's own leaves at the reduced indices, and the sibling path. */
    method OpenBatch(ghost h: Hasher<F, D>, index: nat) returns (rows: seq<seq<F>>, proof: seq<D>)
      requires Over(h, leaves) && InRange(Heights(leaves), index)
      ensures rows == OpenRows(leaves, index) && proof == Path(h, leaves, index, Levels(leaves))
    {
      MaxHeightKept(h, leaves);
      rows := ReducedRows(leaves, MaxHeight(), index);
      proof := SiblingPath(h, leaves, Log2Ceil(MaxHeight()), index);
    }

    /** `open_batch_with_external_leaves`: the same opening from a tree whose leaves were taken, given
        those leaves. */
    method OpenBatchWithExternalLeaves(ghost h: Hasher<F, D>, external: seq<Matrix<F>>, index: nat)
      returns (rows: seq<seq<F>>, proof: seq<D>)
      requires Over(h, external) && InRange(Heights(external), index)
      ensures rows == OpenRows(external, index) && proof == Path(h, external, index, Levels(external))
    {
      var top := MaxOf(leafHeights);
      rows := ReducedRows(external, top, index);
      proof := SiblingPath(h, external, Log2Ceil(top), index);
    }
  }

  method ReducedRows<F>(mats: seq<Matrix<F>>, top: nat, index: nat) returns (rows: seq<seq<F>>)
    requires WellShaped(Heights(mats)) && InRange(Heights(mats), index) && top == MaxOf(Heights(mats))
    ensures rows == OpenRows(mats, index)
  {
    rows := [];
    for m := 0 to |mats|
      invariant |rows| == m && forall j :: 0 <= j < m ==> rows[j] == OpenRows(mats, index)[j]
    {
      OpenRowsAt(mats, index, m);
      Log2CeilMonotone(|mats[m]|, top);
      rows := rows + [mats[m][Shr(index, Log2Ceil(top) - Log2Ceil(|mats[m]|))]];
    }
  }

  function Commitment<F, D>(h: Hasher<F, D>, mats: seq<Matrix<F>>): D
    requires WellShaped(Heights(mats))
  { Node(h, mats, Levels(mats), 0) }

  /** The first n siblings on the path from `index` to the root. */
  function Path<F, D>(h: Hasher<F, D>, mats: seq<Matrix<F>>, index: nat, n: nat): (p: seq<D>)
    requires WellShaped(Heights(mats)) && n <= Levels(mats)
    ensures |p| == n
  { if n == 0 then [] else Path(h, mats, index, n - 1) + [Node(h, mats, n - 1, Sibling(Shr(index, n - 1)))] }

  /** Entry s is the sibling digest of layer s. */
  ghost predicate OnPath<F, D>(h: Hasher<F, D>, mats: seq<Matrix<F>>, index: nat, path: seq<D>, s: nat)
    requires WellShaped(Heights(mats)) && s <= Levels(mats)
  { s < |path| && path[s] == Node(h, mats, s, Sibling(Shr(index, s))) }

  lemma {:induction false} PathAt<F, D>(h: Hasher<F, D>, mats: seq<Matrix<F>>, index: nat, n: nat, s: nat)
    requires WellShaped(Heights(mats)) && s < n <= Levels(mats)
    ensures OnPath(h, mats, index, Path(h, mats, index, n), s)
  {
    if n == s + 1 { PathLast(h, mats, index, s); }
    else {
      PathAt(h, mats, index, n - 1, s);
      PathBefore(h, mats, index, n, s);
    }
  }

  lemma {:induction false} PathLast<F, D>(h: Hasher<F, D>, mats: seq<Matrix<F>>, index: nat, s: nat)
    requires WellShaped(Heights(mats)) && s < Levels(mats)
    ensures OnPath(h, mats, index, Path(h, mats, index, s + 1), s)
  {}

  lemma {:induction false} PathBefore<F, D>(h: Hasher<F, D>, mats: seq<Matrix<F>>, index: nat, n: nat, s: nat)
    requires WellShaped(Heights(mats)) && s < n - 1 && n <= Levels(mats)
    requires OnPath(h, mats, index, Path(h, mats, index, n - 1), s)
    ensures OnPath(h, mats, index, Path(h, mats, index, n), s)
  {}
}
