/** Powers of two, shifts and bit reversal on indices. */
module Bits {

  function Pow2(k: nat): (r: nat)
    ensures r > 0
    ensures k > 0 ==> r % 2 == 0
  { if k == 0 then 1 else 2 * Pow2(k - 1) }

  lemma {:induction false} Pow2Add(j: nat, k: nat)
    ensures Pow2(j + k) == Pow2(j) * Pow2(k)
  { if j > 0 { Pow2Add(j - 1, k); } }

  lemma {:induction false} Pow2Monotone(j: nat, k: nat)
    requires j <= k
    ensures Pow2(j) <= Pow2(k)
    ensures j < k ==> 2 * Pow2(j) <= Pow2(k)
  { if j < k { Pow2Monotone(j, k - 1); } }

  lemma {:induction false} Pow2One(k: nat)
    ensures Pow2(k) == 1 <==> k == 0
  { if k > 0 { assert Pow2(k) % 2 == 0; } }

  /** `i >> k`. */
  function Shr(i: nat, k: nat): nat { if k == 0 then i else Shr(i / 2, k - 1) }

  lemma {:induction false} ShrStep(i: nat, k: nat)
    ensures Shr(i, k + 1) == Shr(i, k) / 2
  { if k > 0 { ShrStep(i / 2, k - 1); } }

  lemma {:induction false} ShrBound(i: nat, j: nat, k: nat)
    requires i < Pow2(j + k)
    ensures Shr(i, k) < Pow2(j)
    decreases k
  { if k > 0 { ShrBound(i / 2, j, k - 1); } }

  lemma {:induction false} ShrShr(i: nat, j: nat, k: nat)
    ensures Shr(Shr(i, j), k) == Shr(i, j + k)
  { if j > 0 { ShrShr(i / 2, j - 1, k); } }

  /** `reverse_bits_len(i, k)`: the low `k` bits of `i` in the opposite order. */
  function BitRev(i: nat, k: nat): (r: nat)
    ensures r < Pow2(k)
  { if k == 0 then 0 else (if i % 2 == 1 then Pow2(k - 1) else 0) + BitRev(i / 2, k - 1) }

  /** The same recursion, seen from the high bit. */
  lemma {:induction false} BitRevHigh(i: nat, k: nat)
    requires i < Pow2(k)
    ensures BitRev(i, k + 1) == 2 * BitRev(i, k)
    ensures BitRev(i + Pow2(k), k + 1) == 2 * BitRev(i, k) + 1
  {
    if k == 0 {
      assert BitRev(1, 1) == 1 + BitRev(0, 0);
    } else {
      BitRevHigh(i / 2, k - 1);
      assert (i + Pow2(k)) / 2 == i / 2 + Pow2(k - 1);
      assert (i + Pow2(k)) % 2 == i % 2;
    }
  }

  lemma {:induction false} BitRevInvolution(i: nat, k: nat)
    requires i < Pow2(k)
    ensures BitRev(BitRev(i, k), k) == i
  {
    if k > 0 {
      var r := BitRev(i / 2, k - 1);
      BitRevInvolution(i / 2, k - 1);
      BitRevStep(i, k, r);
      BitRevHigh(r, k - 1);
    }
  }

  lemma {:induction false} BitRevStep(i: nat, k: nat, r: nat)
    requires k > 0 && r == BitRev(i / 2, k - 1)
    ensures BitRev(i, k) == if i % 2 == 1 then r + Pow2(k - 1) else r
  {}

  /** Extending an index by zero bits scales its reversal: the reason bit-reversed vectors may be
      truncated to serve a smaller power-of-two domain. */
  lemma {:induction false} BitRevPad(i: nat, k: nat, m: nat)
    requires i < Pow2(k) && k <= m
    ensures BitRev(i, m) == Pow2(m - k) * BitRev(i, k)
    decreases m
  {
    if k < m {
      Pow2Monotone(k, m - 1);
      BitRevHigh(i, m - 1);
      BitRevPad(i, k, m - 1);
      Double(Pow2(m - 1 - k), BitRev(i, k));
    }
  }

  lemma {:induction false} Double(a: nat, b: nat)
    ensures 2 * (a * b) == (2 * a) * b
  {}

  /** `reverse_slice_index_bits`: the first n entries of the reordered slice. */
  function BitReversedPrefix<T>(s: seq<T>, k: nat, n: nat): (r: seq<T>)
    requires |s| == Pow2(k) && n <= Pow2(k)
    ensures |r| == n
  { if n == 0 then [] else BitReversedPrefix(s, k, n - 1) + [s[BitRev(n - 1, k)]] }

  function BitReversed<T>(s: seq<T>, k: nat): (r: seq<T>)
    requires |s| == Pow2(k)
    ensures |r| == Pow2(k)
  { BitReversedPrefix(s, k, Pow2(k)) }

  lemma {:induction false} BitReversedPrefixAt<T>(s: seq<T>, k: nat, n: nat, i: nat)
    requires |s| == Pow2(k) && i < n <= Pow2(k)
    ensures BitReversedPrefix(s, k, n)[i] == s[BitRev(i, k)]
  { if i < n - 1 { BitReversedPrefixAt(s, k, n - 1, i); } }

  lemma {:induction false} BitReversedAt<T>(s: seq<T>, k: nat, i: nat)
    requires |s| == Pow2(k) && i < Pow2(k)
    ensures BitReversed(s, k)[i] == s[BitRev(i, k)]
  { BitReversedPrefixAt(s, k, Pow2(k), i); }

  /** Marks the indices at which a quantified fact is used. */
  ghost predicate AtIndex(i: int) { true }

  /** The sibling of an index in its pair: `i ^ 1`. */
  function Sibling(i: nat): nat { if i % 2 == 0 then i + 1 else i - 1 }
}
