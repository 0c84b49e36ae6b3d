/** The compress tree: layers of proofs, each merging three of the layer below. */
module CompressTree {
  import opened Basics
  import opened Chunking

  /** `REDUCE_BATCH_SIZE`. */
  const BATCH: nat := 3

  /** A compressed proof, by what it was made from. */
  datatype Proof = FirstLayer(input: nat) | Merged(children: seq<Proof>, isComplete: bool)

  /** The number of batches that m proofs fill. */
  function Batches(m: nat): nat { CeilDiv(m, BATCH) }

  /** Layers above n proofs until one is left. */
  function Height(n: nat): nat { if n <= 1 then 0 else 1 + Height(Batches(n)) }

  /** The size of layer h. */
  function Count(n: nat, h: nat): nat { if h == 0 then n else Batches(Count(n, h - 1)) }

  lemma {:induction false} CountShift(n: nat, h: nat)
    ensures Count(n, h + 1) == Count(Batches(n), h)
  { if h > 0 { CountShift(n, h - 1); } }

  /** Layers below the top have at least two proofs, the top has one, and the layer just below the
      top has two or three: the last batch is never a passthrough. */
  lemma {:induction false} CountBounds(n: nat, h: nat)
    requires n >= 1 && h <= Height(n)
    ensures h < Height(n) ==> Count(n, h) >= 2
    ensures h == Height(n) ==> Count(n, h) == 1
    ensures h + 1 == Height(n) ==> 2 <= Count(n, h) <= 3
    decreases n
  {
    if h > 0 {
      CountShift(n, h - 1);
      CountBounds(Batches(n), h - 1);
    } else if n > 1 && Height(n) == 1 {
      assert Height(Batches(n)) == 0;
    }
  }

  /** The index of the first proof of layer h. */
  function Offset(n: nat, h: nat): nat { if h == 0 then 0 else Offset(n, h - 1) + Count(n, h - 1) }

  lemma {:induction false} OffsetShift(n: nat, h: nat)
    ensures Offset(n, h + 1) == n + Offset(Batches(n), h)
  { if h > 0 { OffsetShift(n, h - 1); CountShift(n, h - 1); } }

  lemma {:induction false} OffsetMonotone(n: nat, g: nat, h: nat)
    requires g <= h
    ensures Offset(n, g) <= Offset(n, h)
    ensures g < h ==> Offset(n, g) + Count(n, g) <= Offset(n, h)
  { if g < h { OffsetMonotone(n, g, h - 1); } }

  /** How many proofs the whole tree makes. */
  function Total(n: nat): nat { Offset(n, Height(n)) + 1 }

  /** The whole tree makes at most 2n - 1 proofs. */
  lemma {:induction false} TotalBound(n: nat)
    requires n >= 1
    ensures n <= Total(n) <= 2 * n - 1
  {
    if n > 1 {
      TotalBound(Batches(n));
      OffsetShift(n, Height(n) - 1);
    }
  }

  /** An index belongs to one layer. */
  lemma {:induction false} LayerUnique(n: nat, g: nat, i: nat, h: nat, j: nat)
    requires i < Count(n, g) && j < Count(n, h) && Offset(n, g) + i == Offset(n, h) + j
    ensures g == h && i == j
  {
    if g < h { OffsetMonotone(n, g, h); }
    if h < g { OffsetMonotone(n, h, g); }
  }

  // ---------- layers ----------

  /** Batch j of a layer. */
  function Group(layer: seq<Proof>, j: nat): (g: seq<Proof>)
    requires j < Batches(|layer|)
    ensures 1 <= |g| <= BATCH
  { if 3 * j + 3 <= |layer| then layer[3 * j..3 * j + 3] else layer[3 * j..] }

  /** A batch of one is passed through; a larger batch is merged. */
  function Merge(g: seq<Proof>, isComplete: bool): Proof
    requires |g| >= 1
  { if |g| == 1 then g[0] else Merged(g, isComplete) }

  function NextPrefix(layer: seq<Proof>, isComplete: bool, k: nat): (r: seq<Proof>)
    requires k <= Batches(|layer|)
    ensures |r| == k
  { if k == 0 then [] else NextPrefix(layer, isComplete, k - 1) + [Merge(Group(layer, k - 1), isComplete)] }

  lemma {:induction false} NextPrefixAt(layer: seq<Proof>, isComplete: bool, k: nat, j: nat)
    requires j < k <= Batches(|layer|)
    ensures NextPrefix(layer, isComplete, k)[j] == Merge(Group(layer, j), isComplete)
  { if j < k - 1 { NextPrefixAt(layer, isComplete, k - 1, j); } }

  function FirstLayerProofs(n: nat): (r: seq<Proof>)
    ensures |r| == n && forall i :: 0 <= i < n ==> r[i] == FirstLayer(i)
  { if n == 0 then [] else FirstLayerProofs(n - 1) + [FirstLayer(n - 1)] }

  /** Layer h of the tree over n inputs. */
  function Layer(n: nat, h: nat): (r: seq<Proof>)
    ensures |r| == Count(n, h)
  {
    if h == 0 then FirstLayerProofs(n)
    else var below := Layer(n, h - 1); NextPrefix(below, h == Height(n), Batches(|below|))
  }

  /** Proof j of layer h merges batch j of the layer below. */
  lemma {:induction false} LayerAt(n: nat, h: nat, j: nat)
    requires h > 0 && j < Count(n, h)
    ensures Layer(n, h)[j] == Merge(Group(Layer(n, h - 1), j), h == Height(n))
  { NextPrefixAt(Layer(n, h - 1), h == Height(n), Count(n, h), j); }

  // ---------- conservation ----------

  /** The inputs a proof covers, in order. */
  function Leaves(p: Proof): seq<nat>
    decreases p, 1
  { match p case FirstLayer(i) => [i] case Merged(ps, _) => AllLeaves(ps) }

  function AllLeaves(ps: seq<Proof>): seq<nat>
    decreases ps, 0
  { if ps == [] then [] else AllLeaves(ps[..|ps| - 1]) + Leaves(ps[|ps| - 1]) }

  lemma {:induction false} AllLeavesConcat(ps: seq<Proof>, qs: seq<Proof>)
    ensures AllLeaves(ps + qs) == AllLeaves(ps) + AllLeaves(qs)
    decreases |qs|
  {
    if qs == [] { assert ps + qs == ps; }
    else {
      var n := |qs| - 1;
      assert (ps + qs)[..|ps| + n] == ps + qs[..n];
      AllLeavesConcat(ps, qs[..n]);
    }
  }

  lemma {:induction false} MergeLeaves(g: seq<Proof>, isComplete: bool)
    requires |g| >= 1
    ensures Leaves(Merge(g, isComplete)) == AllLeaves(g)
  { if |g| == 1 { assert g[..0] == []; } }

  /** Merging a prefix of the batches covers exactly the proofs in those batches, in order. */
  lemma {:induction false} NextLeaves(layer: seq<Proof>, isComplete: bool, k: nat)
    requires k <= Batches(|layer|)
    ensures AllLeaves(NextPrefix(layer, isComplete, k)) == AllLeaves(layer[..Min(3 * k, |layer|)])
  {
    if k == 0 { assert layer[..Min(0, |layer|)] == []; }
    else {
      var g := Group(layer, k - 1);
      NextLeaves(layer, isComplete, k - 1);
      MergeLeaves(g, isComplete);
      SplitGroup(layer, k - 1);
      JoinLeaves(NextPrefix(layer, isComplete, k - 1), Merge(g, isComplete), NextPrefix(layer, isComplete, k),
                 layer[..3 * (k - 1)], g, layer[..Min(3 * k, |layer|)]);
    }
  }

  lemma {:induction false} JoinLeaves(
    ps: seq<Proof>, p: Proof, all: seq<Proof>, before: seq<Proof>, g: seq<Proof>, whole: seq<Proof>)
    requires all == ps + [p] && whole == before + g && AllLeaves(ps) == AllLeaves(before) && Leaves(p) == AllLeaves(g)
    ensures AllLeaves(all) == AllLeaves(whole)
  { AllLeavesPush(ps, p); AllLeavesConcat(before, g); }

  lemma {:induction false} SplitGroup(layer: seq<Proof>, j: nat)
    requires j < Batches(|layer|)
    ensures 3 * j <= |layer| && layer[..Min(3 * (j + 1), |layer|)] == layer[..3 * j] + Group(layer, j)
    ensures Min(3 * j, |layer|) == 3 * j
  {}

  lemma {:induction false} AllLeavesPush(ps: seq<Proof>, p: Proof)
    ensures AllLeaves(ps + [p]) == AllLeaves(ps) + Leaves(p)
  { assert (ps + [p])[..|ps|] == ps; }

  function UpTo(n: nat): seq<nat> { if n == 0 then [] else UpTo(n - 1) + [n - 1] }

  lemma {:induction false} FirstLayerLeaves(n: nat)
    ensures AllLeaves(FirstLayerProofs(n)) == UpTo(n)
  {
    if n == 0 { assert FirstLayerProofs(0) == [] && UpTo(0) == []; }
    else {
      FirstLayerLeaves(n - 1);
      PushFirstLayer(FirstLayerProofs(n - 1), FirstLayerProofs(n), n - 1);
    }
  }

  lemma {:induction false} PushFirstLayer(ps: seq<Proof>, all: seq<Proof>, i: nat)
    requires all == ps + [FirstLayer(i)] && AllLeaves(ps) == UpTo(i)
    ensures AllLeaves(all) == UpTo(i + 1)
  {
    AllLeavesPush(ps, FirstLayer(i));
    assert Leaves(FirstLayer(i)) == [i];
  }

  /** These proofs cover every input exactly once, in order. */
  ghost predicate CoverAll(n: nat, ps: seq<Proof>) { AllLeaves(ps) == UpTo(n) }

  /** So does every layer. */
  lemma {:induction false} LayerCovers(n: nat, h: nat)
    ensures CoverAll(n, Layer(n, h))
  {
    if h == 0 { FirstLayerLeaves(n); }
    else {
      LayerCovers(n, h - 1);
      NextCovers(n, Layer(n, h - 1), h == Height(n));
    }
  }

  lemma {:induction false} NextCovers(n: nat, below: seq<Proof>, isComplete: bool)
    requires CoverAll(n, below)
    ensures CoverAll(n, NextPrefix(below, isComplete, Batches(|below|)))
  {
    NextLeaves(below, isComplete, Batches(|below|));
    assert below[..|below|] == below;
  }

  /** The root of the tree. */
  function Root(n: nat): Proof
    requires n >= 1
  { CountBounds(n, Height(n)); Layer(n, Height(n))[0] }

  /** The root covers every input once, in order; with two or more inputs it is a complete merge of
      two or three proofs, never a passthrough. */
  lemma {:induction false} RootCovers(n: nat)
    requires n >= 1
    ensures Leaves(Root(n)) == UpTo(n)
    ensures n >= 2 ==> Root(n).Merged? && Root(n).isComplete && 2 <= |Root(n).children| <= 3
  {
    CountBounds(n, Height(n));
    LayerCovers(n, Height(n));
    SingleLeaves(Layer(n, Height(n)), Root(n));
    if n >= 2 { RootMerged(n, Height(n)); }
  }

  lemma {:induction false} SingleLeaves(layer: seq<Proof>, p: Proof)
    requires |layer| == 1 && layer[0] == p
    ensures AllLeaves(layer) == Leaves(p)
  {
    assert layer == [] + [p];
    AllLeavesPush([], p);
  }

  lemma {:induction false} RootMerged(n: nat, h: nat)
    requires n >= 2 && h == Height(n)
    ensures Root(n).Merged? && Root(n).isComplete && 2 <= |Root(n).children| <= 3
  {
    CountBounds(n, h); CountBounds(n, h - 1);
    NextPrefixAt(Layer(n, h - 1), true, 1, 0);
  }

  // ---------- the expected sizes ----------

  /** The tree height and the proof counts per height, as `compress` computes them up front. */
  method ExpectedSizes(n: nat) returns (expectedHeight: nat, expectedAtHeight: seq<nat>)
    requires n >= 1
    ensures expectedHeight == Height(n)
    ensures |expectedAtHeight| == Height(n) + 1 && forall h :: 0 <= h <= Height(n) ==>
        expectedAtHeight[h] == Count(n, h)
  {
    expectedHeight := ExpectedHeight(n);
    expectedAtHeight := [n];
    var m := n;
    while m > 1
      invariant m >= 1 && CountsFrom(n, expectedAtHeight, m)
    {
      CountsStep(n, expectedAtHeight, m);
      m := Batches(m);
      expectedAtHeight := expectedAtHeight + [m];
    }
  }

  /** The counts of the lowest layers, of which the last has m proofs. */
  ghost predicate CountsFrom(n: nat, counts: seq<nat>, m: nat) {
    && counts != [] && |counts| + Height(m) == Height(n) + 1 && m == Count(n, |counts| - 1)
    && forall h :: 0 <= h < |counts| ==> counts[h] == Count(n, h)
  }

  lemma {:induction false} CountsStep(n: nat, counts: seq<nat>, m: nat)
    requires m > 1 && CountsFrom(n, counts, m)
    ensures CountsFrom(n, counts + [Batches(m)], Batches(m))
  { assert Count(n, |counts|) == Batches(m); }

  /** The first loop: rounds of merging while more than one batch is left. */
  method ExpectedHeight(n: nat) returns (expectedHeight: nat)
    requires n >= 1
    ensures expectedHeight == Height(n)
  {
    expectedHeight := if n == 1 then 0 else 1;
    var m := n;
    while m > BATCH
      invariant m >= 1 && (n == 1 ==> m == 1) && (n > 1 ==> m > 1)
      invariant expectedHeight + (if m > BATCH then Height(m) - 1 else 0) == Height(n)
    {
      SmallHeight(m); SmallHeight(Batches(m));
      m := Batches(m);
      expectedHeight := expectedHeight + 1;
    }
  }

  lemma {:induction false} SmallHeight(m: nat)
    requires m >= 2
    ensures Height(m) >= 1 && (m <= BATCH ==> Height(m) == 1) && (m > BATCH ==> Height(m) >= 2 && Batches(m) >= 2)
  { assert Height(Batches(m)) == if Batches(m) <= 1 then 0 else 1 + Height(Batches(Batches(m))); }
}
