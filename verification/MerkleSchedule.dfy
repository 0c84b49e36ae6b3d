/** Which matrices are hashed at which level of a mixed-height Merkle tree: both sides walk the
    matrices tallest first and take them off a peekable iterator, level by level. */
module MerkleSchedule {
  import opened Bits
  import opened Mmcs

  /** `usize::next_power_of_two`. */
  function NextPow2(h: nat): (r: nat)
    ensures r > 0
  { if h == 0 then 1 else Pow2(Log2Ceil(h)) }

  function HeightOf(hs: seq<nat>, i: nat): nat { if i < |hs| then hs[i] else 0 }

  function Padded(hs: seq<nat>, i: nat): nat { NextPow2(HeightOf(hs, i)) }

  lemma {:induction false} NextPow2Monotone(g: nat, h: nat)
    requires g <= h
    ensures NextPow2(g) <= NextPow2(h)
  {
    if 0 < g { Log2CeilMonotone(g, h); Pow2Monotone(Log2Ceil(g), Log2Ceil(h)); }
  }

  /** Heights that round up to the same power of two are equal. */
  ghost predicate Separated(hs: seq<nat>) {
    forall i: nat, j: nat {:trigger AtPair(i, j)} :: i < |hs| && j < |hs| && Padded(hs, i) == Padded(hs, j) ==>
        hs[i] == hs[j]
  }

  lemma {:induction false} SameHeight(hs: seq<nat>, i: nat, j: nat)
    requires Separated(hs) && i < |hs| && j < |hs| && Padded(hs, i) == Padded(hs, j)
    ensures hs[i] == hs[j]
  { assert AtPair(i, j); }

  lemma {:induction false} WellShapedSeparated(hs: seq<nat>)
    requires WellShaped(hs)
    ensures Separated(hs)
  {
    forall i: nat, j: nat | i < |hs| && j < |hs| && Padded(hs, i) == Padded(hs, j) ensures hs[i] == hs[j] {
      assert AtPair(i, j);
      Log2CeilPow2(Log2Ceil(hs[i])); Log2CeilPow2(Log2Ceil(hs[j]));
    }
  }

  // ---------- the order: a stable sort, tallest first ----------

  function InsertTall(hs: seq<nat>, order: seq<nat>, i: nat): seq<nat> {
    if order == [] || HeightOf(hs, order[0]) < HeightOf(hs, i) then [i] + order
    else [order[0]] + InsertTall(hs, order[1..], i)
  }

  /** `sorted_by_key(Reverse(height))` of the first n indices. */
  function TallestFirst(hs: seq<nat>, n: nat): seq<nat> {
    if n == 0 then [] else InsertTall(hs, TallestFirst(hs, n - 1), n - 1)
  }

  /** No index in `order` is out of range, or taller than `bound`. */
  ghost predicate AtMost(hs: seq<nat>, order: seq<nat>, bound: nat) {
    forall t :: 0 <= t < |order| ==> order[t] < |hs| && HeightOf(hs, order[t]) <= bound
  }

  ghost predicate Descending(hs: seq<nat>, order: seq<nat>)
    decreases |order|
  { order == [] || (order[0] < |hs| && AtMost(hs, order[1..], HeightOf(hs, order[0])) && Descending(hs, order[1..])) }

  lemma {:induction false} DescendingHead(hs: seq<nat>, order: seq<nat>)
    requires Descending(hs, order) && order != []
    ensures AtMost(hs, order, HeightOf(hs, order[0]))
  {
    forall t | 0 <= t < |order| ensures order[t] < |hs| && HeightOf(hs, order[t]) <= HeightOf(hs, order[0]) {
      if t > 0 { assert order[t] == order[1..][t - 1]; }
    }
  }

  /** The indices of one padded height, in the order given. */
  function OfPadded(hs: seq<nat>, order: seq<nat>, c: nat): seq<nat> {
    if order == [] then []
    else (if Padded(hs, order[0]) == c then [order[0]] else []) + OfPadded(hs, order[1..], c)
  }

  /** The indices below n of one padded height, ascending. */
  function Members(hs: seq<nat>, c: nat, n: nat): seq<nat> {
    if n == 0 then [] else Members(hs, c, n - 1) + if Padded(hs, n - 1) == c then [n - 1] else []
  }

  lemma {:induction false} InsertAtMost(hs: seq<nat>, order: seq<nat>, i: nat, bound: nat)
    requires AtMost(hs, order, bound) && i < |hs| && HeightOf(hs, i) <= bound
    ensures AtMost(hs, InsertTall(hs, order, i), bound)
    decreases |order|
  {
    if !(order == [] || HeightOf(hs, order[0]) < HeightOf(hs, i)) {
      InsertAtMost(hs, order[1..], i, bound);
    }
  }

  lemma {:induction false} InsertDescending(hs: seq<nat>, order: seq<nat>, i: nat)
    requires Descending(hs, order) && i < |hs|
    ensures Descending(hs, InsertTall(hs, order, i))
    decreases |order|
  {
    if order == [] { assert [i][1..] == []; }
    else if HeightOf(hs, order[0]) < HeightOf(hs, i) {
      DescendingHead(hs, order);
      assert ([i] + order)[1..] == order;
    } else {
      var rest := InsertTall(hs, order[1..], i);
      InsertDescending(hs, order[1..], i);
      InsertAtMost(hs, order[1..], i, HeightOf(hs, order[0]));
      assert ([order[0]] + rest)[1..] == rest;
    }
  }

  /** None of a padded height when all are shorter and the heights are separated. */
  lemma {:induction false} NoneOfPadded(hs: seq<nat>, order: seq<nat>, c: nat)
    requires forall t :: 0 <= t < |order| ==> Padded(hs, order[t]) != c
    ensures OfPadded(hs, order, c) == []
    decreases |order|
  {
    if order != [] {
      forall t | 0 <= t < |order[1..]| ensures Padded(hs, order[1..][t]) != c
          { assert order[1..][t] == order[t + 1]; }
      NoneOfPadded(hs, order[1..], c);
    }
  }

  /** A taller index in front of a descending order is the only one of its padded height. */
  lemma {:induction false} FrontAlone(hs: seq<nat>, order: seq<nat>, i: nat, c: nat)
    requires Separated(hs) && Descending(hs, order) && i < |hs|
    requires order != [] && HeightOf(hs, order[0]) < HeightOf(hs, i) && Padded(hs, i) == c
    ensures OfPadded(hs, order, c) == []
  {
    DescendingHead(hs, order);
    forall t | 0 <= t < |order| ensures Padded(hs, order[t]) != c {
      if Padded(hs, order[t]) == c { SameHeight(hs, order[t], i); }
    }
    NoneOfPadded(hs, order, c);
  }

  /** The members of padded height c in an order with `i` in front. */
  lemma {:induction false} OfPaddedFront(hs: seq<nat>, i: nat, rest: seq<nat>, order: seq<nat>, c: nat)
    requires order == [i] + rest
    ensures OfPadded(hs, order, c) == (if Padded(hs, i) == c then [i] else []) + OfPadded(hs, rest, c)
  { assert order[1..] == rest; }

  /** Inserting puts an index behind all others of its padded height: the sort is stable. */
  lemma {:induction false} InsertStable(hs: seq<nat>, order: seq<nat>, i: nat, c: nat)
    requires Separated(hs) && Descending(hs, order) && i < |hs|
    ensures OfPadded(hs, InsertTall(hs, order, i), c) == OfPadded(hs, order, c) + if Padded(hs, i) == c then [i]
    else []
    decreases |order|
  {
    if order == [] || HeightOf(hs, order[0]) < HeightOf(hs, i) {
      OfPaddedFront(hs, i, order, InsertTall(hs, order, i), c);
      if order != [] && Padded(hs, i) == c { FrontAlone(hs, order, i, c); }
    } else {
      InsertStable(hs, order[1..], i, c);
      OfPaddedFront(hs, order[0], InsertTall(hs, order[1..], i), InsertTall(hs, order, i), c);
    }
  }

  lemma {:induction false} OrderDescending(hs: seq<nat>, n: nat)
    requires n <= |hs|
    ensures Descending(hs, TallestFirst(hs, n)) && |TallestFirst(hs, n)| == n
  {
    if n > 0 {
      OrderDescending(hs, n - 1);
      InsertDescending(hs, TallestFirst(hs, n - 1), n - 1);
      InsertLength(hs, TallestFirst(hs, n - 1), n - 1);
    }
  }

  lemma {:induction false} OrderMembers(hs: seq<nat>, n: nat, c: nat)
    requires Separated(hs) && n <= |hs|
    ensures OfPadded(hs, TallestFirst(hs, n), c) == Members(hs, c, n)
  {
    if n > 0 {
      OrderMembers(hs, n - 1, c);
      OrderDescending(hs, n - 1);
      InsertMembers(hs, TallestFirst(hs, n - 1), n, c);
    }
  }

  lemma {:induction false} InsertMembers(hs: seq<nat>, order: seq<nat>, n: nat, c: nat)
    requires Separated(hs) && Descending(hs, order) && 0 < n <= |hs|
        && OfPadded(hs, order, c) == Members(hs, c, n - 1)
    ensures OfPadded(hs, InsertTall(hs, order, n - 1), c) == Members(hs, c, n)
  { InsertStable(hs, order, n - 1, c); }

  lemma {:induction false} InsertLength(hs: seq<nat>, order: seq<nat>, i: nat)
    ensures |InsertTall(hs, order, i)| == |order| + 1
    decreases |order|
  { if !(order == [] || HeightOf(hs, order[0]) < HeightOf(hs, i)) { InsertLength(hs, order[1..], i); } }

  // ---------- taking from the front ----------

  /** `peeking_take_while(next_power_of_two(height) == c)`: how many are taken. */
  function TakePadded(hs: seq<nat>, rest: seq<nat>, c: nat): (t: nat)
    ensures t <= |rest|
  { if rest == [] || Padded(hs, rest[0]) != c then 0 else 1 + TakePadded(hs, rest[1..], c) }

  /** `peeking_take_while(height == h)`: how many are taken. */
  function TakeEqual(hs: seq<nat>, rest: seq<nat>, h: nat): (t: nat)
    ensures t <= |rest|
  { if rest == [] || HeightOf(hs, rest[0]) != h then 0 else 1 + TakeEqual(hs, rest[1..], h) }

  /** All padded heights in `order` are at most c. */
  ghost predicate PaddedAtMost(hs: seq<nat>, order: seq<nat>, c: nat) {
    forall t :: 0 <= t < |order| ==> Padded(hs, order[t]) <= c
  }

  lemma {:induction false} AtMostPadded(hs: seq<nat>, order: seq<nat>, bound: nat)
    requires AtMost(hs, order, bound)
    ensures PaddedAtMost(hs, order, NextPow2(bound))
  {
    forall t | 0 <= t < |order| ensures Padded(hs, order[t]) <= NextPow2(bound)
        { NextPow2Monotone(HeightOf(hs, order[t]), bound); }
  }

  /** Taking by padded height from a sorted list takes exactly the members of that height, and leaves
      those of every smaller height. */
  lemma {:induction false} TakeIsFilter(hs: seq<nat>, rest: seq<nat>, c: nat, d: nat)
    requires Descending(hs, rest) && PaddedAtMost(hs, rest, c) && d < c
    ensures var t := TakePadded(hs, rest, c);
      rest[..t] == OfPadded(hs, rest, c) && Descending(hs, rest[t..]) && PaddedAtMost(hs, rest[t..], c - 1)
      && OfPadded(hs, rest[t..], d) == OfPadded(hs, rest, d)
    decreases |rest|
  {
    if rest == [] {}
    else if Padded(hs, rest[0]) != c {
      DescendingHead(hs, rest);
      AtMostPadded(hs, rest, HeightOf(hs, rest[0]));
      NoneOfPadded(hs, rest, c);
      assert rest[0..] == rest;
    } else {
      var t := TakePadded(hs, rest[1..], c);
      TailPadded(hs, rest, c);
      TakeIsFilter(hs, rest[1..], c, d);
      assert rest[1..][t..] == rest[t + 1..];
      assert [rest[0]] + rest[1..][..t] == rest[..t + 1];
    }
  }

  lemma {:induction false} TailPadded(hs: seq<nat>, rest: seq<nat>, c: nat)
    requires PaddedAtMost(hs, rest, c) && rest != []
    ensures PaddedAtMost(hs, rest[1..], c)
  {}

  /** With separated heights, taking by height and by padded height agree. */
  lemma {:induction false} TakesAgree(hs: seq<nat>, rest: seq<nat>, h: nat)
    requires Separated(hs) && Descending(hs, rest) && exists i :: 0 <= i < |hs| && hs[i] == h
    ensures TakeEqual(hs, rest, h) == TakePadded(hs, rest, NextPow2(h))
    decreases |rest|
  {
    if rest != [] {
      var i :| 0 <= i < |hs| && hs[i] == h;
      assert Padded(hs, i) == NextPow2(h);
      if Padded(hs, rest[0]) == NextPow2(h) { SameHeight(hs, rest[0], i); }
      TakesAgree(hs, rest[1..], h);
    }
  }

  // ---------- the schedule ----------

  /** What is left of the order, the current padded height, and what was taken last. */
  datatype Schedule = Schedule(rest: seq<nat>, cur: nat, group: seq<nat>)

  function Start(hs: seq<nat>): Schedule
    requires hs != []
  {
    var order := TallestFirst(hs, |hs|);
    var cur := if order == [] then 1 else Padded(hs, order[0]);
    var t := TakePadded(hs, order, cur);
    Schedule(order[t..], cur, order[..t])
  }

  function Next(hs: seq<nat>, s: Schedule): Schedule {
    var cur := s.cur / 2;
    if s.rest != [] && Padded(hs, s.rest[0]) == cur then
      var t := TakeEqual(hs, s.rest, HeightOf(hs, s.rest[0]));
      Schedule(s.rest[t..], cur, s.rest[..t])
    else Schedule(s.rest, cur, [])
  }

  /** Where the verifier's iterator is after k siblings. */
  function At(hs: seq<nat>, k: nat): Schedule
    requires hs != []
  { if k == 0 then Start(hs) else Next(hs, At(hs, k - 1)) }

  /** `rest` holds what is still to come below padded height c. */
  ghost predicate Left(hs: seq<nat>, rest: seq<nat>, c: nat) {
    && Descending(hs, rest) && PaddedAtMost(hs, rest, c)
    && forall d: nat {:trigger AtIndex(d)} :: 0 < d <= c ==> OfPadded(hs, rest, d) == Members(hs, d, |hs|)
  }

  lemma {:induction false} LeftAfter(hs: seq<nat>, rest: seq<nat>, c: nat)
    requires c > 0 && Left(hs, rest, c)
    ensures var t := TakePadded(hs, rest, c); rest[..t] == Members(hs, c, |hs|) && Left(hs, rest[t..], c - 1)
  {
    var t := TakePadded(hs, rest, c);
    TakeIsFilter(hs, rest, c, 0);
    assert AtIndex(c);
    forall d: nat | 0 < d <= c - 1 ensures OfPadded(hs, rest[t..], d) == Members(hs, d, |hs|) {
      assert AtIndex(d);
      TakeIsFilter(hs, rest, c, d);
    }
  }

  lemma {:induction false} MembersOf(hs: seq<nat>, c: nat, n: nat, i: nat)
    requires i < n && Padded(hs, i) == c
    ensures Members(hs, c, n) != [] && exists t :: 0 <= t < |Members(hs, c, n)| && Members(hs, c, n)[t] == i
  {
    var m := Members(hs, c, n);
    if i == n - 1 { assert m[|m| - 1] == i; }
    else {
      MembersOf(hs, c, n - 1, i);
      var t :| 0 <= t < |Members(hs, c, n - 1)| && Members(hs, c, n - 1)[t] == i;
      assert m[t] == i;
    }
  }

  lemma {:induction false} OfPaddedSome(hs: seq<nat>, order: seq<nat>, c: nat)
    requires OfPadded(hs, order, c) != []
    ensures exists t :: 0 <= t < |order| && Padded(hs, order[t]) == c
    decreases |order|
  {
    if Padded(hs, order[0]) == c {} else {
      OfPaddedSome(hs, order[1..], c);
      var t :| 0 <= t < |order[1..]| && Padded(hs, order[1..][t]) == c;
      assert order[t + 1] == order[1..][t];
    }
  }

  /** The first in order is the tallest. */
  lemma {:induction false} FirstIsTallest(hs: seq<nat>)
    requires hs != [] && Separated(hs)
    ensures var order := TallestFirst(hs, |hs|);
      order != [] && order[0] < |hs| && hs[order[0]] == MaxOf(hs) && Left(hs, order, NextPow2(MaxOf(hs)))
  {
    var order, top := TallestFirst(hs, |hs|), MaxOf(hs);
    OrderDescending(hs, |hs|);
    DescendingHead(hs, order);
    AtMostPadded(hs, order, HeightOf(hs, order[0]));
    var i := MaxOfAttained(hs);
    var c := NextPow2(top);
    assert Padded(hs, i) == c;
    OrderMembers(hs, |hs|, c);
    MembersOf(hs, c, |hs|, i);
    OfPaddedSome(hs, order, c);
    var t :| 0 <= t < |order| && Padded(hs, order[t]) == c;
    SameHeight(hs, order[t], i);
    forall d: nat | 0 < d <= c ensures OfPadded(hs, order, d) == Members(hs, d, |hs|) { OrderMembers(hs, |hs|, d); }
  }

  /** The iterator has just yielded the matrices of padded height c, in their original order, and
      has all the shorter ones left. */
  ghost predicate Yields(hs: seq<nat>, s: Schedule, c: nat) {
    s.cur == c > 0 && s.group == Members(hs, c, |hs|) && Left(hs, s.rest, c - 1)
  }

  lemma {:induction false} StartYields(hs: seq<nat>)
    requires hs != [] && Separated(hs)
    ensures Yields(hs, Start(hs), NextPow2(MaxOf(hs)))
  {
    FirstIsTallest(hs);
    LeftAfter(hs, TallestFirst(hs, |hs|), NextPow2(MaxOf(hs)));
  }

  /** At every level down to the root, the verifier's iterator yields exactly the matrices of that
      padded height. */
  lemma {:induction false} ScheduleOk(hs: seq<nat>, k: nat)
    requires WellShaped(hs) && k <= Log2Ceil(MaxOf(hs))
    ensures Yields(hs, At(hs, k), Pow2(Log2Ceil(MaxOf(hs)) - k))
  {
    WellShapedSeparated(hs);
    LevelsOk(hs, Log2Ceil(MaxOf(hs)), k);
  }

  lemma {:induction false} LevelsOk(hs: seq<nat>, levels: nat, k: nat)
    requires hs != [] && Separated(hs) && NextPow2(MaxOf(hs)) == Pow2(levels) && k <= levels
    ensures Yields(hs, At(hs, k), Pow2(levels - k))
  {
    if k == 0 { StartYields(hs); }
    else {
      LevelsOk(hs, levels, k - 1);
      NextYields(hs, At(hs, k - 1), levels - k);
    }
  }

  lemma {:induction false} NextYields(hs: seq<nat>, s: Schedule, j: nat)
    requires Separated(hs) && Yields(hs, s, Pow2(j + 1))
    ensures Yields(hs, Next(hs, s), Pow2(j))
  {
    HalveBound(hs, s.rest, j);
    NextOk(hs, s, Pow2(j));
  }

  /** A power of two below 2^(j+1) is at most 2^j. */
  lemma {:induction false} HalveBound(hs: seq<nat>, rest: seq<nat>, j: nat)
    requires PaddedAtMost(hs, rest, Pow2(j + 1) - 1)
    ensures PaddedAtMost(hs, rest, Pow2(j))
  {
    forall t | 0 <= t < |rest| ensures Padded(hs, rest[t]) <= Pow2(j) {
      var h := HeightOf(hs, rest[t]);
      if h > 0 {
        if Log2Ceil(h) > j { Pow2Monotone(j + 1, Log2Ceil(h)); }
        Pow2Monotone(Log2Ceil(h), j);
      }
    }
  }

  lemma {:induction false} LeftWeaken(hs: seq<nat>, rest: seq<nat>, c: nat, d: nat)
    requires Left(hs, rest, c) && d <= c && PaddedAtMost(hs, rest, d)
    ensures Left(hs, rest, d)
  { forall e: nat | 0 < e <= d ensures OfPadded(hs, rest, e) == Members(hs, e, |hs|) { assert AtIndex(e); } }

  lemma {:induction false} NextOk(hs: seq<nat>, s: Schedule, c: nat)
    requires Separated(hs) && c > 0 && s.cur == 2 * c && Left(hs, s.rest, 2 * c - 1)
    requires PaddedAtMost(hs, s.rest, c)
    ensures Yields(hs, Next(hs, s), c)
  {
    LeftWeaken(hs, s.rest, 2 * c - 1, c);
    LeftAfter(hs, s.rest, c);
    if s.rest != [] && Padded(hs, s.rest[0]) == c {
      assert s.rest[0] < |hs|;
      TakesAgree(hs, s.rest, HeightOf(hs, s.rest[0]));
    } else {
      assert s.rest[0..] == s.rest;
    }
  }

  // ---------- the tree builder's iterator ----------

  /** The tallest matrices, taken by their exact height. */
  lemma {:induction false} TakeTallest(hs: seq<nat>)
    requires hs != [] && Separated(hs)
    ensures var order := TallestFirst(hs, |hs|); order != [] && HeightOf(hs, order[0]) == MaxOf(hs)
    ensures var order := TallestFirst(hs, |hs|); var t := TakeEqual(hs, order, MaxOf(hs));
      Yields(hs, Schedule(order[t..], NextPow2(MaxOf(hs)), order[..t]), NextPow2(MaxOf(hs)))
  {
    var order := TallestFirst(hs, |hs|);
    FirstIsTallest(hs);
    TakesAgree(hs, order, MaxOf(hs));
    LeftAfter(hs, order, NextPow2(MaxOf(hs)));
  }

  /** The matrices for the next layer, taken by their padded height. */
  lemma {:induction false} TakeGroup(hs: seq<nat>, s: Schedule, j: nat)
    requires Yields(hs, s, Pow2(j + 1))
    ensures var t := TakePadded(hs, s.rest, Pow2(j)); Yields(hs, Schedule(s.rest[t..], Pow2(j), s.rest[..t]), Pow2(j))
  {
    var c := Pow2(j);
    HalveBound(hs, s.rest, j);
    LeftWeaken(hs, s.rest, 2 * c - 1, c);
    LeftAfter(hs, s.rest, c);
  }
}
