/** Cutting a list into consecutive chunks. */
module Chunking {

  /** `chunks(b)`. */
  function Chunks<T>(xs: seq<T>, b: nat): seq<seq<T>>
    requires b >= 1
  { if xs == [] then [] else if |xs| <= b then [xs] else [xs[..b]] + Chunks(xs[b..], b) }

  /** `n.div_ceil(b)`. */
  function CeilDiv(n: nat, b: nat): nat
    requires b >= 1
  { (n + b - 1) / b }

  /** Every chunk is nonempty and at most b long. */
  lemma {:induction false} ChunkSizes<T>(xs: seq<T>, b: nat, c: nat)
    requires b >= 1 && c < |Chunks(xs, b)|
    ensures 1 <= |Chunks(xs, b)[c]| <= b
    decreases |xs|
  { if |xs| > b && c > 0 { ChunkSizes(xs[b..], b, c - 1); } }

  lemma {:induction false} DivStep(n: nat, b: nat)
    requires b >= 1
    ensures (n + b) / b == n / b + 1
  {
    var q, r := n / b, n % b;
    assert n == b * q + r;
    assert b * (q + 1) == b * q + b;
    QuotientUnique(n + b, b, q + 1, r);
  }

  lemma {:induction false} QuotientUnique(x: nat, b: nat, q: nat, r: nat)
    requires r < b && x == b * q + r
    ensures x / b == q
  {
    var p, s := x / b, x % b;
    assert x == b * p + s;
    if p < q { LessBy(b, p, q); }
    if q < p { LessBy(b, q, p); }
  }

  lemma {:induction false} LessBy(b: nat, p: nat, q: nat)
    requires p < q
    ensures b * p + b <= b * q
  {
    var d := q - p - 1;
    assert q == p + 1 + d;
    assert b * (p + 1 + d) == b * (p + 1) + b * d && b * (p + 1) == b * p + b;
    assert b * d >= 0;
  }

  lemma {:induction false} SmallDiv(n: nat, b: nat)
    requires n < b
    ensures n / b == 0
  {}

  /** There are as many chunks as the rounded-up quotient says. */
  lemma {:induction false} ChunkCount<T>(xs: seq<T>, b: nat)
    requires b >= 1
    ensures |Chunks(xs, b)| == CeilDiv(|xs|, b)
    ensures xs == [] <==> Chunks(xs, b) == []
    decreases |xs|
  {
    if |xs| > b { ChunkCount(xs[b..], b); DivStep(|xs| - 1, b); }
    else if xs != [] { DivStep(|xs| - 1, b); SmallDiv(|xs| - 1, b); }
    else { SmallDiv(b - 1, b); }
  }

  /** The concatenation of a list of chunks. */
  function Joined<T>(cs: seq<seq<T>>): seq<T> { if cs == [] then [] else cs[0] + Joined(cs[1..]) }

  /** Chunking loses nothing and keeps the order. */
  lemma {:induction false} ChunksJoin<T>(xs: seq<T>, b: nat)
    requires b >= 1
    ensures Joined(Chunks(xs, b)) == xs
    decreases |xs|
  {
    if |xs| > b {
      ChunksJoin(xs[b..], b);
      JoinedCons(xs[..b], Chunks(xs[b..], b));
      assert xs == xs[..b] + xs[b..];
    } else if xs != [] {
      JoinedCons(xs, []);
      assert [xs] + [] == [xs] && xs + [] == xs;
    }
  }

  lemma {:induction false} JoinedCons<T>(c: seq<T>, cs: seq<seq<T>>)
    ensures Joined([c] + cs) == c + Joined(cs)
  { assert ([c] + cs)[1..] == cs; }

  lemma {:induction false} JoinedPush<T>(cs: seq<seq<T>>, c: seq<T>)
    ensures Joined(cs + [c]) == Joined(cs) + c
  {
    if cs == [] { assert [c][1..] == [] && cs + [c] == [c]; }
    else {
      JoinedPush(cs[1..], c);
      assert (cs + [c])[1..] == cs[1..] + [c];
    }
  }
}
