/** Grouping interactions by scope, and the local lookups that the permutation argument is about. */
module LogUpScopes {
  import opened LogUp

  datatype Scope = Global | Local {
    function Rank(): nat { if Global? then 0 else 1 }
  }

  datatype Scoped<T> = Scoped(scope: Scope, item: T)

  /** The interactions of one scope, in order. */
  function Only<T>(xs: seq<Scoped<T>>, k: Scope): seq<Scoped<T>> {
    if xs == [] then []
    else Only(xs[..|xs| - 1], k) + if xs[|xs| - 1].scope == k then [xs[|xs| - 1]] else []
  }

  lemma {:induction false} OnlyPush<T>(xs: seq<Scoped<T>>, x: Scoped<T>, k: Scope)
    ensures Only(xs + [x], k) == Only(xs, k) + if x.scope == k then [x] else []
  { assert (xs + [x])[..|xs|] == xs; }

  // ---------- sorting ----------

  /** Stable insertion: after everything of the same or a lower rank. */
  function Insert<T>(xs: seq<Scoped<T>>, x: Scoped<T>): seq<Scoped<T>> {
    if xs == [] || xs[|xs| - 1].scope.Rank() <= x.scope.Rank() then xs + [x]
    else Insert(xs[..|xs| - 1], x) + [xs[|xs| - 1]]
  }

  /** `sort_by_key`, which is stable. */
  function Sort<T>(xs: seq<Scoped<T>>): seq<Scoped<T>> {
    if xs == [] then [] else Insert(Sort(xs[..|xs| - 1]), xs[|xs| - 1])
  }

  ghost predicate Sorted<T>(xs: seq<Scoped<T>>) {
    forall i, j :: 0 <= i < j < |xs| ==> xs[i].scope.Rank() <= xs[j].scope.Rank()
  }

  ghost predicate AtMost<T>(xs: seq<Scoped<T>>, rank: nat)
  { forall i :: 0 <= i < |xs| ==> xs[i].scope.Rank() <= rank }

  lemma {:induction false} InsertAtMost<T>(xs: seq<Scoped<T>>, x: Scoped<T>, rank: nat)
    requires AtMost(xs, rank) && x.scope.Rank() <= rank
    ensures AtMost(Insert(xs, x), rank)
  { if xs != [] && xs[|xs| - 1].scope.Rank() > x.scope.Rank() { InsertAtMost(xs[..|xs| - 1], x, rank); } }

  lemma {:induction false} InsertSorted<T>(xs: seq<Scoped<T>>, x: Scoped<T>)
    requires Sorted(xs)
    ensures Sorted(Insert(xs, x))
  {
    if xs != [] && xs[|xs| - 1].scope.Rank() > x.scope.Rank() {
      InsertSorted(xs[..|xs| - 1], x);
      InsertAtMost(xs[..|xs| - 1], x, xs[|xs| - 1].scope.Rank());
    }
  }

  lemma {:induction false} InsertOnly<T>(xs: seq<Scoped<T>>, x: Scoped<T>, k: Scope)
    ensures Only(Insert(xs, x), k) == Only(xs, k) + if x.scope == k then [x] else []
  {
    if xs == [] || xs[|xs| - 1].scope.Rank() <= x.scope.Rank() { OnlyPush(xs, x, k); }
    else {
      InsertOnly(xs[..|xs| - 1], x, k);
      OnlyPush(Insert(xs[..|xs| - 1], x), xs[|xs| - 1], k);
    }
  }

  /** Sorting puts scopes in order and keeps the order within each. */
  lemma {:induction false} SortIs<T>(xs: seq<Scoped<T>>, k: Scope)
    ensures Sorted(Sort(xs)) && Only(Sort(xs), k) == Only(xs, k)
  {
    if xs != [] {
      SortIs(xs[..|xs| - 1], k);
      InsertSorted(Sort(xs[..|xs| - 1]), xs[|xs| - 1]);
      InsertOnly(Sort(xs[..|xs| - 1]), xs[|xs| - 1], k);
    }
  }

  // ---------- grouping ----------

  /** A scope is mapped to its interactions, in order, exactly when it has any. */
  ghost predicate GroupOk<T>(xs: seq<Scoped<T>>, groups: map<Scope, seq<Scoped<T>>>, k: Scope) {
    (k in groups <==> Only(xs, k) != []) && (k in groups ==> groups[k] == Only(xs, k))
  }

  ghost predicate Groups<T>(xs: seq<Scoped<T>>, groups: map<Scope, seq<Scoped<T>>>) {
    GroupOk(xs, groups, Global) && GroupOk(xs, groups, Local)
  }

  /** A scope above everything so far has no interactions yet. */
  lemma {:induction false} NoneYet<T>(xs: seq<Scoped<T>>, k: Scope)
    requires forall i :: 0 <= i < |xs| ==> xs[i].scope != k
    ensures Only(xs, k) == []
  { if xs != [] { NoneYet(xs[..|xs| - 1], k); } }

  /** Interactions i to j have one scope. */
  ghost predicate Run<T>(xs: seq<Scoped<T>>, i: nat, j: nat, k: Scope) {
    i <= j <= |xs| && forall t :: i <= t < j ==> xs[t].scope == k
  }

  lemma {:induction false} RunOnly<T>(xs: seq<Scoped<T>>, i: nat, j: nat, k: Scope, other: Scope)
    requires Run(xs, i, j, k)
    ensures Only(xs[..j], other) == Only(xs[..i], other) + if other == k then xs[i..j] else []
    decreases j - i
  {
    if i < j {
      RunOnly(xs, i, j - 1, k, other);
      OnlyPush(xs[..j - 1], xs[j - 1], other);
      Slices(xs, i, j);
      Associates(Only(xs[..i], other), xs[i..j - 1], xs[j - 1]);
    }
  }

  lemma {:induction false} Slices<T>(xs: seq<T>, i: nat, j: nat)
    requires i < j <= |xs|
    ensures xs[..j] == xs[..j - 1] + [xs[j - 1]] && xs[i..j] == xs[i..j - 1] + [xs[j - 1]]
  {}

  lemma {:induction false} Associates<T>(a: seq<T>, b: seq<T>, x: T)
    ensures a + b + [x] == a + (b + [x])
  {}

  /** A run of a new scope is its group. */
  lemma {:induction false} RunGroups<T>(
    xs: seq<Scoped<T>>, i: nat, j: nat, k: Scope, groups: map<Scope, seq<Scoped<T>>>)
    requires Run(xs, i, j, k) && i < j && Groups(xs[..i], groups) && Only(xs[..i], k) == []
    ensures Groups(xs[..j], groups[k := xs[i..j]])
  {
    RunGroup(xs, i, j, k, groups, Global);
    RunGroup(xs, i, j, k, groups, Local);
  }

  lemma {:induction false} RunGroup<T>(
    xs: seq<Scoped<T>>, i: nat, j: nat, k: Scope, groups: map<Scope, seq<Scoped<T>>>, other: Scope)
    requires Run(xs, i, j, k) && i < j && GroupOk(xs[..i], groups, other) && Only(xs[..i], k) == []
    ensures GroupOk(xs[..j], groups[k := xs[i..j]], other)
  { RunOnly(xs, i, j, k, other); }

  /** Where a sorted list changes scope, the new one has not occurred. */
  lemma {:induction false} NewScope<T>(xs: seq<Scoped<T>>, i: nat)
    requires Sorted(xs) && i < |xs| && (i > 0 ==> xs[i - 1].scope != xs[i].scope)
    ensures Only(xs[..i], xs[i].scope) == []
  {
    forall t | 0 <= t < i ensures xs[..i][t].scope != xs[i].scope
    { assert t < i - 1 ==> xs[t].scope.Rank() <= xs[i - 1].scope.Rank(); }
    NoneYet(xs[..i], xs[i].scope);
  }

  /** `chunk_by` on the scope of a sorted list, collected into a map. */
  method GroupRuns<T>(xs: seq<Scoped<T>>) returns (groups: map<Scope, seq<Scoped<T>>>)
    requires Sorted(xs)
    ensures Groups(xs, groups)
  {
    groups := map[];
    var i := 0;
    while i < |xs|
      invariant i <= |xs| && Groups(xs[..i], groups)
      invariant 0 < i < |xs| ==> xs[i - 1].scope != xs[i].scope
    {
      var k, j := xs[i].scope, i + 1;
      while j < |xs| && xs[j].scope == k
        invariant i < j && Run(xs, i, j, k)
      { j := j + 1; }
      NewScope(xs, i);
      RunGroups(xs, i, j, k, groups);
      groups := groups[k := xs[i..j]];
      i := j;
    }
    assert xs[..i] == xs;
  }

  /** `scoped_interactions`: sends and receives, each grouped by scope. */
  method ScopedInteractions<T>(sends: seq<Scoped<T>>, receives: seq<Scoped<T>>)
    returns (groupedSends: map<Scope, seq<Scoped<T>>>, groupedReceives: map<Scope, seq<Scoped<T>>>)
    ensures Groups(sends, groupedSends) && Groups(receives, groupedReceives)
  {
    SortIs(sends, Global); SortIs(sends, Local);
    SortIs(receives, Global); SortIs(receives, Local);
    groupedSends := GroupRuns(Sort(sends));
    groupedReceives := GroupRuns(Sort(receives));
  }

  /** The groups together have as many interactions as the chip: each is in exactly one. */
  lemma {:induction false} GroupsPartition<T>(xs: seq<Scoped<T>>)
    ensures |Only(xs, Global)| + |Only(xs, Local)| == |xs|
  { if xs != [] { GroupsPartition(xs[..|xs| - 1]); } }

  /** Interactions with their direction. */
  function Directed<F>(xs: seq<Scoped<Interaction<F>>>, isSend: bool): (r: seq<Signed<F>>)
    ensures |r| == |xs| && forall i :: 0 <= i < |xs| ==> r[i] == Signed(xs[i].item, isSend)
  { if xs == [] then [] else Directed(xs[..|xs| - 1], isSend) + [Signed(xs[|xs| - 1].item, isSend)] }

  /** What `generate_permutation_trace` and `eval_permutation_constraints` hand to their prescoped
      forms: the local sends, then the local receives, each in the chip's order. */
  method LocalLookups<F>(
    sends: seq<Scoped<Interaction<F>>>, receives: seq<Scoped<Interaction<F>>>) returns (lookups: seq<Signed<F>>)
    ensures lookups == Directed(Only(sends, Local), true) + Directed(Only(receives, Local), false)
  {
    var groupedSends, groupedReceives := ScopedInteractions(sends, receives);
    var localSends := if Local in groupedSends then groupedSends[Local] else [];
    var localReceives := if Local in groupedReceives then groupedReceives[Local] else [];
    lookups := Directed(localSends, true) + Directed(localReceives, false);
  }
}
