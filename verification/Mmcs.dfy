/** What the prover asks of a mixed matrix commitment scheme: commit to matrices of different
    heights, open one row of each at an index, and verify such an opening.  Field elements that are
    not hashed (the widths in `Dimensions`) are never read by `verify_batch` and do not appear. */
module Mmcs {
  import opened Basics
  import opened Bits

  /** A matrix is its rows. */
  type Matrix<F> = seq<seq<F>>

  /** `log2_ceil_usize`: the least k with h <= 2^k. */
  function Log2Ceil(h: nat): nat
    requires h > 0
  { Log2From(h, 0) }

  /** The least such k from j on. */
  function Log2From(h: nat, j: nat): nat
    decreases if Pow2(j) < h then h - Pow2(j) else 0
  { if h <= Pow2(j) then j else Log2From(h, j + 1) }

  lemma {:induction false} Log2FromIs(h: nat, j: nat)
    requires h > 0 && (j > 0 ==> Pow2(j - 1) < h)
    ensures var k := Log2From(h, j); h <= Pow2(k) && (k > 0 ==> Pow2(k - 1) < h)
    decreases if Pow2(j) < h then h - Pow2(j) else 0
  { if h > Pow2(j) { Log2FromIs(h, j + 1); } }

  lemma {:induction false} Log2CeilIs(h: nat)
    requires h > 0
    ensures h <= Pow2(Log2Ceil(h)) && (Log2Ceil(h) > 0 ==> Pow2(Log2Ceil(h) - 1) < h)
  { Log2FromIs(h, 0); }

  lemma {:induction false} Log2CeilUnique(h: nat, k: nat)
    requires h > 0 && h <= Pow2(k) && (k > 0 ==> Pow2(k - 1) < h)
    ensures Log2Ceil(h) == k
  {
    var l := Log2Ceil(h);
    Log2CeilIs(h);
    if l < k { Pow2Monotone(l, k - 1); }
    if k < l { Pow2Monotone(k, l - 1); }
  }

  lemma {:induction false} Log2CeilMonotone(g: nat, h: nat)
    requires 0 < g <= h
    ensures Log2Ceil(g) <= Log2Ceil(h)
  {
    Log2CeilIs(g); Log2CeilIs(h);
    if Log2Ceil(h) < Log2Ceil(g) { Pow2Monotone(Log2Ceil(h), Log2Ceil(g) - 1); }
  }

  lemma {:induction false} Log2CeilPow2(k: nat)
    ensures Log2Ceil(Pow2(k)) == k
  { Log2CeilUnique(Pow2(k), k); }

  function MaxOf(s: seq<nat>): (m: nat)
    ensures forall i :: 0 <= i < |s| ==> s[i] <= m
  { if s == [] then 0 else Max(s[0], MaxOf(s[1..])) }

  lemma {:induction false} MaxOfAttained(s: seq<nat>) returns (i: nat)
    requires s != []
    ensures i < |s| && s[i] == MaxOf(s)
  {
    if |s| == 1 || MaxOf(s[1..]) <= s[0] { i := 0; }
    else { i := MaxOfAttained(s[1..]); i := i + 1; }
  }

  function Heights<F>(mats: seq<Matrix<F>>): (r: seq<nat>)
    ensures |r| == |mats| && forall i :: 0 <= i < |r| ==> r[i] == |mats[i]|
  { seq(|mats|, i requires 0 <= i < |mats| => |mats[i]|) }

  /** What `FieldMerkleTree::new` asserts, plus that no matrix is empty. */
  predicate WellShaped(heights: seq<nat>) {
    && heights != []
    && (forall i :: 0 <= i < |heights| ==> heights[i] > 0)
    && (forall i: nat, j: nat {:trigger AtPair(i, j)} :: i < |heights| && j < |heights| ==>
          Log2Ceil(heights[i]) == Log2Ceil(heights[j]) ==> heights[i] == heights[j])
  }

  /** Marks the pairs at which the heights are compared. */
  ghost predicate AtPair(i: nat, j: nat) { true }

  /** The row of a matrix of height h opened at `index` of a tree over heights up to `top`. */
  function ReducedIndex(index: nat, top: nat, h: nat): nat
    requires 0 < h <= top
  { Log2CeilMonotone(h, top); Shr(index, Log2Ceil(top) - Log2Ceil(h)) }

  predicate InRange(heights: seq<nat>, index: nat)
    requires WellShaped(heights)
  {
    && index < Pow2(Log2Ceil(MaxOf(heights)))
    && forall i :: 0 <= i < |heights| ==> ReducedIndex(index, MaxOf(heights), heights[i]) < heights[i]
  }

  /** The rows that `open_batch` returns. */
  function OpenRows<F>(mats: seq<Matrix<F>>, index: nat): (r: seq<seq<F>>)
    requires WellShaped(Heights(mats)) && InRange(Heights(mats), index)
    ensures |r| == |mats|
  {
    var hs := Heights(mats);
    seq(|mats|, i requires 0 <= i < |mats| => mats[i][ReducedIndex(index, MaxOf(hs), hs[i])])
  }

  lemma {:induction false} OpenRowsAt<F>(mats: seq<Matrix<F>>, index: nat, m: nat)
    requires WellShaped(Heights(mats)) && InRange(Heights(mats), index) && m < |mats|
    ensures 0 < |mats[m]| <= MaxOf(Heights(mats)) && ReducedIndex(index, MaxOf(Heights(mats)), |mats[m]|) < |mats[m]|
    ensures OpenRows(mats, index)[m] == mats[m][ReducedIndex(index, MaxOf(Heights(mats)), |mats[m]|)]
  { assert Heights(mats)[m] == |mats[m]|; }

  /** Indices are always in range for power-of-two heights. */
  lemma {:induction false} InRangePow2(heights: seq<nat>, index: nat)
    requires WellShaped(heights)
    requires forall i :: 0 <= i < |heights| ==> heights[i] == Pow2(Log2Ceil(heights[i]))
    ensures InRange(heights, index) <==> index < MaxOf(heights)
  {
    var top := MaxOf(heights);
    var t := MaxOfAttained(heights);
    assert top == Pow2(Log2Ceil(heights[t]));
    if index < top {
      forall i | 0 <= i < |heights| ensures ReducedIndex(index, top, heights[i]) < heights[i] {
        ReducedIndexPow2(index, top, heights[i]);
      }
    }
  }

  lemma {:induction false} ReducedIndexPow2(index: nat, top: nat, h: nat)
    requires 0 < h <= top && top == Pow2(Log2Ceil(top)) && h == Pow2(Log2Ceil(h)) && index < top
    ensures ReducedIndex(index, top, h) < h
  {
    var a, b := Log2Ceil(top), Log2Ceil(h);
    Log2CeilMonotone(h, top);
    assert index < Pow2(b + (a - b));
    ShrBound(index, b, a - b);
  }

  /** Marks the openings at which completeness is used. */
  ghost predicate Asked<F>(mats: seq<Matrix<F>>, index: nat) { true }

  /** A commitment scheme: commitments `C`, opening proofs `P`. */
  datatype Scheme<!F(!new), !C, !P> = Scheme(
    commit: (seq<nat>, seq<Matrix<F>>) -> C,
    prove: (seq<Matrix<F>>, nat) -> P,
    verify: (C, seq<nat>, nat, seq<seq<F>>, P) -> bool)
  {
    function Commit(mats: seq<Matrix<F>>): C { commit(Heights(mats), mats) }
    function Prove(mats: seq<Matrix<F>>, index: nat): P { prove(mats, index) }
    function Verify(c: C, heights: seq<nat>, index: nat, rows: seq<seq<F>>, p: P): bool
    { verify(c, heights, index, rows, p) }

    /** Honest openings verify. */
    ghost predicate Complete() {
      forall mats: seq<Matrix<F>>, index: nat {:trigger Asked(mats, index)} ::
        WellShaped(Heights(mats)) && InRange(Heights(mats), index) ==>
          Verify(Commit(mats), Heights(mats), index, OpenRows(mats, index), Prove(mats, index))
    }

    lemma {:induction false} Accepts(mats: seq<Matrix<F>>, index: nat)
      requires Complete() && WellShaped(Heights(mats)) && InRange(Heights(mats), index)
      ensures Verify(Commit(mats), Heights(mats), index, OpenRows(mats, index), Prove(mats, index))
    { assert Asked(mats, index); }
  }

  /** A single matrix with 2^k rows is opened at its own row index. */
  lemma {:induction false} OpenSingle<F>(m: Matrix<F>, k: nat, index: nat)
    requires |m| == Pow2(k) && index < Pow2(k)
    ensures Heights([m]) == [Pow2(k)] && WellShaped(Heights([m])) && InRange(Heights([m]), index)
    ensures OpenRows([m], index) == [m[index]]
  {
    Log2CeilPow2(k);
    assert Heights([m]) == [Pow2(k)];
    assert MaxOf([Pow2(k)]) == Pow2(k);
    assert Shr(index, 0) == index;
  }
}
