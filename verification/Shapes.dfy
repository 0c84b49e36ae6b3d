/** Collecting maximal shapes: the comparison of shapes and the set of maximal ones. */
module Shapes {
  import opened Basics

  /** The log height of every chip that occurs. */
  type Shape<!K(==)> = map<K, nat>

  datatype Ordering = Less | Equal | Greater

  /** Some chip of a is lower than in b, and conversely; both over the chips of a. */
  predicate SomeBelow<K(!new)>(a: Shape<K>, b: Shape<K>) { exists k :: k in a && k in b && a[k] < b[k] }
  predicate SomeAbove<K(!new)>(a: Shape<K>, b: Shape<K>) { exists k :: k in a && k in b && a[k] > b[k] }

  /** `partial_cmp`. */
  function Compare<K(!new)>(a: Shape<K>, b: Shape<K>): Option<Ordering> {
    if a == b then Some(Equal)
    else if a.Keys <= b.Keys && SomeBelow(a, b) && SomeAbove(a, b) then None
    else if a.Keys <= b.Keys && SomeBelow(a, b) then Some(Less)
    else if b.Keys <= a.Keys && SomeBelow(a, b) && SomeAbove(a, b) then None
    else if b.Keys <= a.Keys && SomeAbove(a, b) then Some(Greater)
    else None
  }

  /** b has every chip of a, at least as high. */
  ghost predicate Covers<K(!new)>(b: Shape<K>, a: Shape<K>) { forall k :: k in a ==> k in b && a[k] <= b[k] }

  /** What the comparison decides: strictly below means covered with some chip strictly lower. */
  lemma {:induction false} CompareLess<K(!new)>(a: Shape<K>, b: Shape<K>)
    ensures Compare(a, b) == Some(Less) <==> Covers(b, a) && SomeBelow(a, b)
    ensures Compare(a, b) == Some(Greater) <==> Compare(b, a) == Some(Less)
    ensures Compare(a, b) == Some(Equal) <==> a == b
  {
    if Covers(b, a) { assert a.Keys <= b.Keys; assert !SomeAbove(a, b); }
    if Covers(a, b) { assert b.Keys <= a.Keys; assert !SomeAbove(b, a); }
    assert SomeAbove(a, b) <==> SomeBelow(b, a);
    assert SomeAbove(b, a) <==> SomeBelow(a, b);
    if a.Keys <= b.Keys && !SomeAbove(a, b)
        { forall k | k in a ensures k in b && a[k] <= b[k] { assert k in a.Keys; } }
    if b.Keys <= a.Keys && !SomeAbove(b, a)
        { forall k | k in b ensures k in a && b[k] <= a[k] { assert k in b.Keys; } }
  }

  predicate Below<K(!new)>(a: Shape<K>, b: Shape<K>) { Compare(a, b) == Some(Less) }
  predicate BelowOrEqual<K(!new)>(a: Shape<K>, b: Shape<K>)
  { Compare(a, b) == Some(Less) || Compare(a, b) == Some(Equal) }

  /** The order is a strict partial order. */
  lemma {:induction false} BelowTransitive<K(!new)>(a: Shape<K>, b: Shape<K>, c: Shape<K>)
    requires Below(a, b) && Below(b, c)
    ensures Below(a, c)
  {
    CompareLess(a, b); CompareLess(b, c); CompareLess(a, c);
    var k :| k in a && k in b && a[k] < b[k];
    assert k in c && a[k] < c[k];
  }

  // ---------- insertion ----------

  /** Whether the new shape exceeds each member. */
  function Drops<K(!new)>(inner: seq<Shape<K>>, e: Shape<K>): (r: seq<bool>)
    ensures |r| == |inner|
  { if inner == [] then [] else Drops(inner[..|inner| - 1], e) + [Below(inner[|inner| - 1], e)] }

  lemma {:induction false} DropsAt<K(!new)>(inner: seq<Shape<K>>, e: Shape<K>, i: nat)
    requires i < |inner|
    ensures Drops(inner, e)[i] == Below(inner[i], e)
  { if i < |inner| - 1 { DropsAt(inner[..|inner| - 1], e, i); } }

  /** The members from position i on that are not dropped. */
  function KeptFrom<T>(inner: seq<T>, drop: seq<bool>, i: nat): seq<T>
    requires i <= |inner| == |drop|
    decreases |inner| - i
  { if i == |inner| then [] else (if drop[i] then [] else [inner[i]]) + KeptFrom(inner, drop, i + 1) }

  predicate Dominated<K(!new)>(inner: seq<Shape<K>>, e: Shape<K>)
  { exists i :: 0 <= i < |inner| && BelowOrEqual(e, inner[i]) }

  /** The list after `insert`. */
  function Inserted<K(!new)>(inner: seq<Shape<K>>, e: Shape<K>): seq<Shape<K>> {
    if Dominated(inner, e) then inner else KeptFrom(inner, Drops(inner, e), 0) + [e]
  }

  lemma {:induction false} KeptRun<T>(inner: seq<T>, drop: seq<bool>, i: nat, b: nat)
    requires i <= b <= |inner| == |drop| && forall j :: i <= j < b ==> !drop[j]
    ensures KeptFrom(inner, drop, i) == inner[i..b] + KeptFrom(inner, drop, b)
    decreases b - i
  {
    var rest := KeptFrom(inner, drop, b);
    if i == b { assert inner[b..b] == []; NothingBefore(rest); }
    else {
      KeptRun(inner, drop, i + 1, b);
      KeptHead(inner, drop, i);
      SliceHead(inner, i, b, rest);
    }
  }

  lemma {:induction false} NothingBefore<T>(rest: seq<T>)
    ensures [] + rest == rest
  {}

  lemma {:induction false} KeptHead<T>(inner: seq<T>, drop: seq<bool>, i: nat)
    requires i < |inner| == |drop|
    ensures KeptFrom(inner, drop, i) == if drop[i] then KeptFrom(inner, drop, i + 1)
    else [inner[i]] + KeptFrom(inner, drop, i + 1)
    ensures KeptAt(drop, i) == if drop[i] then KeptAt(drop, i + 1) else [i] + KeptAt(drop, i + 1)
  { NothingBefore(KeptFrom(inner, drop, i + 1)); NothingBefore(KeptAt(drop, i + 1)); }

  lemma {:induction false} SliceHead<T>(inner: seq<T>, i: nat, b: nat, rest: seq<T>)
    requires i < b <= |inner|
    ensures [inner[i]] + (inner[i + 1..b] + rest) == inner[i..b] + rest
  { assert inner[i..b] == [inner[i]] + inner[i + 1..b]; }

  /** The dropped positions below n, ascending. */
  ghost predicate Listed(drop: seq<bool>, toRemove: seq<nat>, n: nat)
    requires n <= |drop|
  {
    && (forall t :: 0 <= t < |toRemove| ==> toRemove[t] < n && drop[toRemove[t]])
    && (forall s, t :: 0 <= s < t < |toRemove| ==> toRemove[s] < toRemove[t])
    && forall i :: 0 <= i < n && drop[i] ==> i in toRemove
  }

  class MaximalShapes<K(==, !new)> {
    var inner: seq<Shape<K>>

    constructor ()
      ensures inner == []
    { inner := []; }

    /** `insert`: give up if some member is at least as large; otherwise remove the smaller members,
        from the back, and append. */
    method Insert(e: Shape<K>)
      modifies this
      ensures inner == Inserted(old(inner), e)
    {
      var list := inner;
      ghost var drop := Drops(list, e);
      var toRemove: seq<nat> := [];
      for i := 0 to |list|
        invariant inner == list && Listed(drop, toRemove, i)
        invariant forall j :: 0 <= j < i ==> !BelowOrEqual(e, list[j])
      {
        CompareLess(e, list[i]);
        DropsAt(list, e, i);
        var order := Compare(e, list[i]);
        if order == Some(Greater) { toRemove := toRemove + [i]; }
        else if order == Some(Less) || order == Some(Equal) { return; }
      }
      RemoveAll(drop, toRemove);
      inner := inner + [e];
    }

    method RemoveAll(ghost drop: seq<bool>, toRemove: seq<nat>)
      requires |drop| == |inner| && Listed(drop, toRemove, |inner|)
      modifies this
      ensures inner == KeptFrom(old(inner), drop, 0)
    {
      ghost var list := inner;
      ghost var b := |inner|;
      var t: nat := |toRemove|;
      assert inner == list[..b] + KeptFrom(list, drop, b);
      while t > 0
        invariant Listed(drop, toRemove, |list|) && Pending(drop, toRemove, t, b) && b <= |list| == |drop|
        invariant inner == list[..b] + KeptFrom(list, drop, b)
      {
        t := t - 1;
        var i := toRemove[t];
        NoneBetween(drop, toRemove, |list|, t, b);
        KeptRun(list, drop, i + 1, b);
        RemoveOne(list, drop, i, b, inner);
        inner := inner[..i] + inner[i + 1..];
        b := i;
      }
      KeptRun(list, drop, 0, b);
    }
  }

  /** Below b, the dropped indices are the first t listed ones. */
  ghost predicate Pending(drop: seq<bool>, toRemove: seq<nat>, t: nat, b: nat) {
    && t <= |toRemove| && b <= |drop| && (forall s :: 0 <= s < t ==> toRemove[s] < b)
    && forall j :: 0 <= j < b && drop[j] ==> exists s :: 0 <= s < t && toRemove[s] == j
  }

  /** The last of them is the highest: nothing above it is dropped, and the others are below it. */
  lemma {:induction false} NoneBetween(drop: seq<bool>, toRemove: seq<nat>, n: nat, t: nat, b: nat)
    requires |drop| == n && Listed(drop, toRemove, n) && Pending(drop, toRemove, t + 1, b)
    ensures toRemove[t] < b && drop[toRemove[t]] && Pending(drop, toRemove, t, toRemove[t])
    ensures forall j :: toRemove[t] < j < b ==> !drop[j]
  {}

  lemma {:induction false} RemoveOne<T>(list: seq<T>, drop: seq<bool>, i: nat, b: nat, now: seq<T>)
    requires i < b <= |list| == |drop| && drop[i] && now == list[..b] + KeptFrom(list, drop, b)
    requires KeptFrom(list, drop, i + 1) == list[i + 1..b] + KeptFrom(list, drop, b)
    ensures now[..i] + now[i + 1..] == list[..i] + KeptFrom(list, drop, i)
  {}

  // ---------- any sequence of insertions ----------

  function InsertAll<K(!new)>(shapes: seq<Shape<K>>): seq<Shape<K>> {
    if shapes == [] then [] else Inserted(InsertAll(shapes[..|shapes| - 1]), shapes[|shapes| - 1])
  }

  /** No member is below or equal to another. */
  ghost predicate Antichain<K(!new)>(inner: seq<Shape<K>>) {
    forall i, j :: 0 <= i < |inner| && 0 <= j < |inner| && i != j ==> !BelowOrEqual(inner[i], inner[j])
  }

  /** The positions that `KeptFrom` keeps. */
  function KeptAt(drop: seq<bool>, i: nat): seq<nat>
    requires i <= |drop|
    decreases |drop| - i
  { if i == |drop| then [] else (if drop[i] then [] else [i]) + KeptAt(drop, i + 1) }

  /** Increasing positions, from i on, of all members that are not dropped. */
  ghost predicate Picks<T>(inner: seq<T>, drop: seq<bool>, i: nat, at: seq<nat>, kept: seq<T>) {
    && |at| == |kept| && |inner| == |drop|
    && (forall p :: 0 <= p < |at| ==> i <= at[p] < |inner| && kept[p] == inner[at[p]] && !drop[at[p]])
    && (forall p, q :: 0 <= p < q < |at| ==> at[p] < at[q])
    && forall j :: i <= j < |inner| && !drop[j] ==> j in at
  }

  lemma {:induction false} KeptPicks<T>(inner: seq<T>, drop: seq<bool>, i: nat)
    requires i <= |inner| == |drop|
    ensures Picks(inner, drop, i, KeptAt(drop, i), KeptFrom(inner, drop, i))
    decreases |inner| - i
  {
    if i < |inner| {
      KeptPicks(inner, drop, i + 1);
      KeptHead(inner, drop, i);
      PickNext(inner, drop, i, KeptAt(drop, i + 1), KeptFrom(inner, drop, i + 1), KeptAt(drop, i),
               KeptFrom(inner, drop, i));
    } else { assert KeptAt(drop, i) == [] && KeptFrom(inner, drop, i) == []; }
  }

  lemma {:induction false} PickNext<T>(
    inner: seq<T>, drop: seq<bool>, i: nat, at: seq<nat>, kept: seq<T>, at': seq<nat>, kept': seq<T>)
    requires i < |inner| == |drop| && Picks(inner, drop, i + 1, at, kept)
    requires at' == if drop[i] then at else [i] + at
    requires kept' == if drop[i] then kept else [inner[i]] + kept
    ensures Picks(inner, drop, i, at', kept')
  { if drop[i] { PickNone(inner, drop, i, at, kept); } else { PickFirst(inner, drop, i, at, kept); } }

  lemma {:induction false} PickNone<T>(inner: seq<T>, drop: seq<bool>, i: nat, at: seq<nat>, kept: seq<T>)
    requires i < |inner| == |drop| && drop[i] && Picks(inner, drop, i + 1, at, kept)
    ensures Picks(inner, drop, i, at, kept)
  {}

  lemma {:induction false} PickFirst<T>(inner: seq<T>, drop: seq<bool>, i: nat, at: seq<nat>, kept: seq<T>)
    requires i < |inner| == |drop| && !drop[i] && Picks(inner, drop, i + 1, at, kept)
    ensures Picks(inner, drop, i, [i] + at, [inner[i]] + kept)
  {
    var all := [i] + at;
    forall j | i <= j < |inner| && !drop[j] ensures j in all
        { if j > i { assert j in at; } else { assert all[0] == j; } }
  }

  /** What is kept at p is a member that is not dropped, and different places hold different members. */
  lemma {:induction false} KeptMember<T>(inner: seq<T>, drop: seq<bool>, p: nat) returns (i: nat)
    requires |inner| == |drop| && p < |KeptFrom(inner, drop, 0)|
    ensures i < |inner| && !drop[i] && KeptFrom(inner, drop, 0)[p] == inner[i] && p < |KeptAt(drop, 0)|
        && i == KeptAt(drop, 0)[p]
  {
    KeptPicks(inner, drop, 0);
    i := KeptAt(drop, 0)[p];
  }

  lemma {:induction false} KeptApart<T>(inner: seq<T>, drop: seq<bool>, p: nat, q: nat)
    requires |inner| == |drop| && p < |KeptAt(drop, 0)| && q < |KeptAt(drop, 0)| && p != q
    ensures KeptAt(drop, 0)[p] != KeptAt(drop, 0)[q]
  { KeptPicks(inner, drop, 0); }

  /** Every member that is not dropped is kept. */
  lemma {:induction false} KeptPlace<T>(inner: seq<T>, drop: seq<bool>, i: nat) returns (p: nat)
    requires i < |inner| == |drop| && !drop[i]
    ensures p < |KeptFrom(inner, drop, 0)| && KeptFrom(inner, drop, 0)[p] == inner[i]
  {
    KeptPicks(inner, drop, 0);
    p :| 0 <= p < |KeptAt(drop, 0)| && KeptAt(drop, 0)[p] == i;
  }

  /** Inserting keeps an antichain an antichain. */
  lemma {:induction false} InsertedAntichain<K(!new)>(inner: seq<Shape<K>>, e: Shape<K>)
    requires Antichain(inner)
    ensures Antichain(Inserted(inner, e))
  {
    if !Dominated(inner, e) {
      var all := Inserted(inner, e);
      forall i, j | 0 <= i < |all| && 0 <= j < |all| && i != j ensures !BelowOrEqual(all[i], all[j])
          { InsertedApart(inner, e, all, i, j); }
    }
  }

  lemma {:induction false} InsertedApart<K(!new)>(
    inner: seq<Shape<K>>, e: Shape<K>, all: seq<Shape<K>>, i: nat, j: nat)
    requires Antichain(inner) && !Dominated(inner, e) && all == KeptFrom(inner, Drops(inner, e), 0) + [e] && i < |all|
        && j < |all| && i != j
    ensures !BelowOrEqual(all[i], all[j])
  {
    var drop, n := Drops(inner, e), |all| - 1;
    if i < n && j < n {
      var k := KeptMember(inner, drop, i);
      var l := KeptMember(inner, drop, j);
      KeptApart(inner, drop, i, j);
    } else if i == n {
      var l := KeptMember(inner, drop, j);
    } else {
      var k := KeptMember(inner, drop, i);
      DropsAt(inner, e, k);
      CompareLess(inner[k], e); CompareLess(e, inner[k]);
      assert !BelowOrEqual(e, inner[k]);
    }
  }

  ghost predicate BelowSome<K(!new)>(s: Shape<K>, inner: seq<Shape<K>>)
  { exists i :: 0 <= i < |inner| && BelowOrEqual(s, inner[i]) }

  /** What was below some member still is. */
  lemma {:induction false} InsertedCovers<K(!new)>(inner: seq<Shape<K>>, e: Shape<K>, s: Shape<K>)
    requires BelowSome(s, inner) || s == e
    ensures BelowSome(s, Inserted(inner, e))
  {
    if !Dominated(inner, e) {
      var drop, all := Drops(inner, e), Inserted(inner, e);
      var kept := KeptFrom(inner, drop, 0);
      assert all == kept + [e];
      assert all[|kept|] == e;
      CompareLess(s, e);
      if s == e { assert BelowOrEqual(s, all[|kept|]); }
      else {
        var i :| 0 <= i < |inner| && BelowOrEqual(s, inner[i]);
        CompareLess(s, inner[i]);
        DropsAt(inner, e, i);
        if Below(inner[i], e) {
          if s != inner[i] { BelowTransitive(s, inner[i], e); }
          assert BelowOrEqual(s, all[|kept|]);
        } else {
          var p := KeptPlace(inner, drop, i);
          assert all[p] == inner[i];
        }
      }
    }
  }

  lemma {:induction false} InsertedMembers<K(!new)>(inner: seq<Shape<K>>, e: Shape<K>, x: Shape<K>)
    requires x in Inserted(inner, e)
    ensures x in inner || x == e
  {
    if !Dominated(inner, e) && x != e {
      var all := Inserted(inner, e);
      var p :| 0 <= p < |all| && all[p] == x;
      var i := KeptMember(inner, Drops(inner, e), p);
      assert x == inner[i];
    }
  }

  /** After any sequence of insertions the list is an antichain, holds only inserted shapes, and has
      every shape ever inserted below or equal to some member. */
  lemma {:induction false} MaximalSet<K(!new)>(shapes: seq<Shape<K>>)
    ensures Antichain(InsertAll(shapes))
    ensures forall x :: x in InsertAll(shapes) ==> x in shapes
    ensures forall s :: s in shapes ==> BelowSome(s, InsertAll(shapes))
  {
    if shapes != [] {
      var before, e := shapes[..|shapes| - 1], shapes[|shapes| - 1];
      var inner := InsertAll(before);
      MaximalSet(before);
      InsertedAntichain(inner, e);
      forall x | x in Inserted(inner, e) ensures x in shapes { InsertedMembers(inner, e, x); }
      forall s | s in shapes ensures BelowSome(s, Inserted(inner, e)) {
        assert s in before || s == e;
        InsertedCovers(inner, e, s);
      }
    }
  }

  // ---------- what the order leaves out ----------

  /** a is b with some chips left out, the others at the same height. */
  ghost predicate Restriction<K(!new)>(a: Shape<K>, b: Shape<K>)
  { a.Keys < b.Keys && forall k :: k in a ==> a[k] == b[k] }

  /** Covering is not quite the order of the comparison: of two different shapes, the covered one is
      below the other exactly when it is not a restriction of it. */
  lemma {:induction false} CoveredButIncomparable<K(!new)>(a: Shape<K>, b: Shape<K>)
    requires a != b
    ensures Covers(b, a) && !Below(a, b) <==> Restriction(a, b)
  {
    CompareLess(a, b);
    if Covers(b, a) && !SomeBelow(a, b) {
      assert a.Keys <= b.Keys;
      assert forall k :: k in a ==> a[k] == b[k];
      assert a.Keys == b.Keys ==> a == b;
    }
    if Restriction(a, b) { forall k | k in a ensures k in b { assert k in a.Keys; } }
  }

  lemma {:induction false} InsertOne<K(!new)>(a: Shape<K>)
    ensures InsertAll([a]) == [a]
  {
    var none: seq<Shape<K>> := [];
    assert [a][..0] == none && InsertAll(none) == none;
    assert !Dominated(none, a) && Drops(none, a) == [] && KeptFrom(none, [], 0) == none;
  }

  /** Two shapes that the comparison does not order are both kept. */
  lemma {:induction false} InsertTwo<K(!new)>(a: Shape<K>, b: Shape<K>)
    requires a != b && !Below(a, b) && !Below(b, a)
    ensures InsertAll([a, b]) == [a, b]
  {
    InsertOne(a);
    assert [a, b][..1] == [a];
    CompareLess(b, a);
    assert !Dominated([a], b);
    DropsAt([a], b, 0);
    assert Drops([a], b) == [false];
    assert KeptFrom([a], [false], 1) == [];
    assert KeptFrom([a], [false], 0) == [a] + KeptFrom([a], [false], 1);
  }

  /** So the list can keep a shape that another member covers. */
  lemma {:induction false} RedundantMember()
    ensures var a, b := map['x' := 1], map['x' := 1, 'y' := 2];
      Covers(b, a) && InsertAll([a, b]) == [a, b]
  {
    var a, b: Shape<char> := map['x' := 1], map['x' := 1, 'y' := 2];
    assert 'y' in b.Keys && 'y' !in a.Keys;
    CompareLess(a, b); CompareLess(b, a);
    InsertTwo(a, b);
  }
}
