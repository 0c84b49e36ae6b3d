/** The permutation constraints, and the traces that meet them. */
module LogUpConstraints {
  import opened Basics
  import opened Fields
  import opened LogUp
  import opened LogUpTrace
  import opened Chunking
  import opened Bits

  /** Which selectors are on at a row. */
  datatype Position = Position(isFirst: bool, isTransition: bool, isLast: bool)

  function PositionOf(r: nat, height: nat): Position { Position(r == 0, r + 1 < height, r + 1 == height) }

  /** The width of the trace. */
  function Width<F(!new)>(a: Argument<F>): nat
    requires a.batch >= 1
  { if a.lookups == [] then 0 else |a.Batches()| + 1 }

  /** It is the number of interactions over the batch size, rounded up, and one more. */
  lemma {:induction false} WidthIs<F(!new)>(a: Argument<F>)
    requires a.batch >= 1
    ensures Width(a) == TraceWidth(|a.lookups|, a.batch)
  { ChunkCount(a.lookups, a.batch); }

  /** `product * entry = numerator` for one batch. */
  ghost predicate EntryHolds<F(!new)>(a: Argument<F>, row: Row<F>, xs: seq<Signed<F>>, entry: F) {
    var es := a.Entries(xs, row); a.f.Mul(ProdTo(a.f, es, |es|), entry) == NumerTo(a.f, es, |es|)
  }

  /** The same for the first m batches. */
  ghost predicate EntriesHold<F(!new)>(a: Argument<F>, row: Row<F>, local: seq<F>, m: nat)
    requires a.batch >= 1 && m <= |a.Batches()| && m <= |local|
  { forall c :: 0 <= c < m ==> EntryHolds(a, row, a.Batches()[c], local[c]) }

  /** The constraints on one row and the next.  Without interactions there are none. */
  ghost predicate RowHolds<F(!new)>(
    a: Argument<F>, row: Row<F>, local: seq<F>, next: seq<F>, at: Position, cumulative: F)
    requires a.batch >= 1 && |local| == |next| == Width(a)
  {
    a.lookups != [] ==>
      var m := |a.Batches()|;
      && |local| == m + 1
      && EntriesHold(a, row, local, m)
      && (at.isFirst ==> local[m] == a.f.Sum(local[..m]))
      && (at.isTransition ==> a.f.Sub(next[m], local[m]) == a.f.Sum(next[..m]))
      && (at.isLast ==> local[m] == cumulative)
  }

  /** The multiplicity with its sign, as the constraints write it. */
  lemma {:induction false} SignFactor<F(!new)>(f: Field<F>, m: F)
    requires f.Laws()
    ensures f.Mul(m, f.one) == m && f.Mul(m, f.Neg(f.one)) == f.Neg(m)
  { f.Unit(m); f.MulNeg(m, f.one); }

  /** One batch of `eval_permutation_constraints_prescoped`: fingerprints and multiplicities. */
  method ConstraintEntries<F(!new)>(a: Argument<F>, xs: seq<Signed<F>>, row: Row<F>) returns (es: seq<Entry<F>>)
    requires a.f.Laws()
    ensures es == a.Entries(xs, row)
  {
    var computed := ComputeEntries(a, xs, row);
    es := [];
    for i := 0 to |xs|
      invariant |es| == i && forall j :: 0 <= j < i ==> es[j] == a.Entries(xs, row)[j]
    {
      var m := xs[i].lookup.multiplicity(row.prep, row.main);
      var factor := if xs[i].isSend then a.f.one else a.f.Neg(a.f.one);
      SignFactor(a.f, m);
      EntriesAt(a, xs, row, i);
      es := es + [Entry(computed[i].den, a.f.Mul(m, factor))];
    }
  }

  /** A global cumulative sum: the coordinates of a point of the septic curve. */
  datatype Digest<F> = Digest(x: seq<F>, y: seq<F>)

  /** A chip of global scope keeps its global sum in the last fourteen columns of its last row. */
  ghost predicate GlobalHolds<F>(main: seq<F>, at: Position, global: Option<Digest<F>>)
    requires global.Some? ==> |main| >= 14
  { global.Some? && at.isLast ==> main[|main| - 14..] == global.value.x + global.value.y }

  /** The two loops over the coordinates of the global sum, `None` for a chip of local scope. */
  method EvalGlobal<F(==)>(main: seq<F>, at: Position, global: Option<Digest<F>>) returns (ok: bool)
    requires global.Some? ==> |main| >= 14 && |global.value.x| == |global.value.y| == 7
    ensures ok <==> GlobalHolds(main, at, global)
  {
    ok := true;
    if global.Some? {
      var x, y, xs, ys := global.value.x, global.value.y, |main| - 14, |main| - 7;
      for i := 0 to 7
        invariant ok <==> (at.isLast ==> forall j :: 0 <= j < i ==> main[xs + j] == x[j] && main[ys + j] == y[j])
      {
        ok := ok && (at.isLast ==> main[xs + i] == x[i]);
        ok := ok && (at.isLast ==> main[ys + i] == y[i]);
      }
      SevenAndSeven(main, x, y);
    }
  }

  lemma {:induction false} SevenAndSeven<F>(main: seq<F>, x: seq<F>, y: seq<F>)
    requires |main| >= 14 && |x| == |y| == 7
    ensures main[|main| - 14..] == x + y <==>
      forall j :: 0 <= j < 7 ==> main[|main| - 14 + j] == x[j] && main[|main| - 7 + j] == y[j]
  {
    var tail := main[|main| - 14..];
    if tail == x + y {
      forall j | 0 <= j < 7 ensures main[|main| - 14 + j] == x[j] && main[|main| - 7 + j] == y[j]
      { assert tail[j] == (x + y)[j] && tail[7 + j] == (x + y)[7 + j]; }
    }
    if forall j :: 0 <= j < 7 ==> main[|main| - 14 + j] == x[j] && main[|main| - 7 + j] == y[j] {
      forall k | 0 <= k < 14 ensures tail[k] == (x + y)[k]
          { assert k >= 7 ==> main[|main| - 7 + (k - 7)] == y[k - 7]; }
    }
  }

  /** `eval_permutation_constraints_prescoped` on the values of two neighbouring rows: whether every
      asserted equality holds. */
  method EvalRow<F(!new, ==)>(
    a: Argument<F>, row: Row<F>, local: seq<F>, next: seq<F>, at: Position, cumulative: F, global: Option<Digest<F>>)
    returns (ok: bool)
    requires a.Valid() && |local| == |next| == Width(a)
    requires global.Some? ==> |row.main| >= 14 && |global.value.x| == |global.value.y| == 7
    ensures ok <==> RowHolds(a, row, local, next, at, cumulative) && GlobalHolds(row.main, at, global)
  {
    ok := EvalLocal(a, row, local, next, at, cumulative);
    var globalOk := EvalGlobal(row.main, at, global);
    ok := ok && globalOk;
  }

  /** The constraints on the local sum. */
  method EvalLocal<F(!new, ==)>(
    a: Argument<F>, row: Row<F>, local: seq<F>, next: seq<F>, at: Position, cumulative: F) returns (ok: bool)
    requires a.Valid() && |local| == |next| == Width(a)
    ensures ok <==> RowHolds(a, row, local, next, at, cumulative)
  {
    if a.lookups == [] { return true; }
    var bs := a.Batches();
    var m := |local| - 1;
    ok := true;
    for c := 0 to m
      invariant ok <==> EntriesHold(a, row, local, c)
    {
      var es := ConstraintEntries(a, bs[c], row);
      ChunkSizes(a.lookups, a.batch, c);
      var product, numerator := PrefixSuffixTerms(a.f, es);
      ok := ok && a.f.Mul(product, local[c]) == numerator;
    }
    ok := ok && (at.isFirst ==> local[m] == a.f.Sum(local[..m]));
    ok := ok && (at.isTransition ==> a.f.Sub(next[m], local[m]) == a.f.Sum(next[..m]));
    ok := ok && (at.isLast ==> local[m] == cumulative);
  }

  /** The row after r, wrapping round; the transition selector is off where it wraps. */
  function NextRow<F>(trace: seq<seq<F>>, r: nat): seq<F>
    requires r < |trace|
  { if r + 1 < |trace| then trace[r + 1] else trace[0] }

  ghost predicate RightWidth<F(!new)>(a: Argument<F>, trace: seq<seq<F>>)
    requires a.batch >= 1
  { forall r :: 0 <= r < |trace| ==> |trace[r]| == Width(a) }

  /** The whole trace meets the constraints. */
  ghost predicate Satisfied<F(!new)>(a: Argument<F>, rows: seq<Row<F>>, trace: seq<seq<F>>, cumulative: F)
    requires a.batch >= 1
  {
    && |trace| == |rows| && RightWidth(a, trace)
    && forall r: nat {:trigger AtIndex(r)} :: r < |trace| ==>
        RowHolds(a, rows[r], trace[r], NextRow(trace, r), PositionOf(r, |trace|), cumulative)
  }

  /** The trace and the sum are those of the generator. */
  ghost predicate Generated<F(!new)>(a: Argument<F>, rows: seq<Row<F>>, trace: seq<seq<F>>, cumulative: F)
    requires a.batch >= 1
  {
    && |trace| == |rows| && cumulative == a.TotalTo(rows, |rows|)
    && forall r :: 0 <= r < |rows| ==> trace[r] == PermRow(a, rows, r)
  }

  // ---------- entries ----------

  /** Met entry constraints force the entries. */
  lemma {:induction false} EntriesForced<F(!new)>(a: Argument<F>, row: Row<F>, local: seq<F>, m: nat)
    requires a.Valid() && a.Clean(a.lookups, row) && m <= |a.Batches()| && m <= |local|
    ensures EntriesHold(a, row, local, m) <==> local[..m] == a.RowTo(a.Batches(), row, m)
  {
    if m > 0 {
      var xs := a.Batches()[m - 1];
      EntriesForced(a, row, local, m - 1);
      CleanChunks(a, a.lookups, a.batch, row, m - 1);
      EntryForced(a, row, xs, local[m - 1]);
      EntriesSplit(a, row, local, m);
      assert local[..m] == local[..m - 1] + [local[m - 1]];
      LastOf(local[..m - 1], local[m - 1], a.RowTo(a.Batches(), row, m - 1), a.SumOf(xs, row));
    }
  }

  lemma {:induction false} EntryForced<F(!new)>(a: Argument<F>, row: Row<F>, xs: seq<Signed<F>>, entry: F)
    requires a.Valid() && a.Clean(xs, row)
    ensures EntryHolds(a, row, xs, entry) <==> entry == a.SumOf(xs, row)
  {
    CleanNonZero(a, xs, row);
    EntryIsSum(a.f, a.Entries(xs, row), entry);
  }

  lemma {:induction false} EntriesSplit<F(!new)>(a: Argument<F>, row: Row<F>, local: seq<F>, m: nat)
    requires a.batch >= 1 && 0 < m <= |a.Batches()| && m <= |local|
    ensures EntriesHold(a, row, local, m) <==>
        EntriesHold(a, row, local, m - 1) && EntryHolds(a, row, a.Batches()[m - 1], local[m - 1])
  {}

  lemma {:induction false} LastOf<T>(s: seq<T>, x: T, t: seq<T>, y: T)
    requires |s| == |t|
    ensures s + [x] == t + [y] <==> s == t && x == y
  {
    if s + [x] == t + [y] {
      assert s == (s + [x])[..|s|] && t == (t + [y])[..|s|];
      assert x == (s + [x])[|s|] && y == (t + [y])[|s|];
    }
  }

  /** What the row constraints say of a row whose fingerprints do not vanish. */
  lemma {:induction false} RowForced<F(!new)>(
    a: Argument<F>, row: Row<F>, nextRow: Row<F>, local: seq<F>, next: seq<F>, at: Position, cumulative: F)
    requires a.Valid() && a.lookups != [] && a.Clean(a.lookups, row) && |local| == |next| == |a.Batches()| + 1
    requires at.isTransition ==> next[..|a.Batches()|] == a.RowTo(a.Batches(), nextRow, |a.Batches()|)
    ensures RowHolds(a, row, local, next, at, cumulative) <==>
      var m := |a.Batches()|;
      && local[..m] == a.RowTo(a.Batches(), row, m)
      && (at.isFirst ==> local[m] == a.SumOf(a.lookups, row))
      && (at.isTransition ==> next[m] == a.f.Add(local[m], a.SumOf(a.lookups, nextRow)))
      && (at.isLast ==> local[m] == cumulative)
  {
    var f, m := a.f, |a.Batches()|;
    EntriesForced(a, row, local, m);
    RowSum(a, a.lookups, a.batch, row);
    RowSum(a, a.lookups, a.batch, nextRow);
    var d := a.SumOf(a.lookups, nextRow);
    f.SubAdd(next[m], local[m]); f.SubAdd(d, local[m]); f.AddComm(d, local[m]);
  }

  // ---------- whole traces ----------

  lemma {:induction false} EntriesPart<F(!new)>(
    a: Argument<F>, rows: seq<Row<F>>, trace: seq<seq<F>>, cumulative: F, r: nat)
    requires a.Valid() && a.lookups != [] && AllClean(a, rows) && Satisfied(a, rows, trace, cumulative) && r < |rows|
    ensures |trace[r]| == |a.Batches()| + 1
        && trace[r][..|a.Batches()|] == a.RowTo(a.Batches(), rows[r], |a.Batches()|)
    ensures r == 0 ==> trace[r][|a.Batches()|] == a.TotalTo(rows, 1)
  {
    assert AtIndex(r);
    EntriesForced(a, rows[r], trace[r], |a.Batches()|);
    if r == 0 {
      RowSum(a, a.lookups, a.batch, rows[0]);
      a.f.Unit(a.SumOf(a.lookups, rows[0]));
      assert a.TotalTo(rows, 0) == a.f.zero;
    }
  }

  /** The last cell of row r is the total of the rows up to it. */
  ghost predicate RunsTo<F(!new)>(a: Argument<F>, rows: seq<Row<F>>, trace: seq<seq<F>>, r: nat)
    requires a.batch >= 1 && r < |rows| == |trace|
  { |trace[r]| == |a.Batches()| + 1 && trace[r][|a.Batches()|] == a.TotalTo(rows, r + 1) }

  lemma {:induction false} SumStep<F(!new)>(
    a: Argument<F>, rows: seq<Row<F>>, trace: seq<seq<F>>, cumulative: F, r: nat, s: nat)
    requires a.Valid() && a.lookups != [] && AllClean(a, rows) && Satisfied(a, rows, trace, cumulative)
        && s == r + 1 < |rows|
    requires RunsTo(a, rows, trace, r)
    ensures RunsTo(a, rows, trace, s)
  {
    EntriesPart(a, rows, trace, cumulative, s);
    assert AtIndex(r);
    RowForced(a, rows[r], rows[s], trace[r], trace[s], PositionOf(r, |trace|), cumulative);
  }

  lemma {:induction false} RunningSum<F(!new)>(
    a: Argument<F>, rows: seq<Row<F>>, trace: seq<seq<F>>, cumulative: F, r: nat)
    requires a.Valid() && a.lookups != [] && AllClean(a, rows) && Satisfied(a, rows, trace, cumulative) && r < |rows|
    ensures RunsTo(a, rows, trace, r)
  {
    if r == 0 { SumStart(a, rows, trace, cumulative); }
    else {
      RunningSum(a, rows, trace, cumulative, r - 1);
      SumStep(a, rows, trace, cumulative, r - 1, r);
    }
  }

  lemma {:induction false} SumStart<F(!new)>(a: Argument<F>, rows: seq<Row<F>>, trace: seq<seq<F>>, cumulative: F)
    requires a.Valid() && a.lookups != [] && AllClean(a, rows) && Satisfied(a, rows, trace, cumulative) && rows != []
    ensures RunsTo(a, rows, trace, 0)
  { EntriesPart(a, rows, trace, cumulative, 0); }

  lemma {:induction false} RowIsGenerated<F(!new)>(
    a: Argument<F>, rows: seq<Row<F>>, trace: seq<seq<F>>, cumulative: F, r: nat)
    requires a.Valid() && a.lookups != [] && AllClean(a, rows) && Satisfied(a, rows, trace, cumulative) && r < |rows|
    ensures RunsTo(a, rows, trace, r) && trace[r] == PermRow(a, rows, r)
  {
    EntriesPart(a, rows, trace, cumulative, r);
    RunningSum(a, rows, trace, cumulative, r);
    SplitLast(trace[r], |a.Batches()|);
  }

  lemma {:induction false} SplitLast<T>(s: seq<T>, m: nat)
    requires |s| == m + 1
    ensures s == s[..m] + [s[m]]
  {}

  lemma {:induction false} GeneratedRow<F(!new)>(
    a: Argument<F>, rows: seq<Row<F>>, trace: seq<seq<F>>, cumulative: F, r: nat)
    requires a.Valid() && a.lookups != [] && AllClean(a, rows) && Generated(a, rows, trace, cumulative) && r < |rows|
    requires RightWidth(a, trace)
    ensures RowHolds(a, rows[r], trace[r], NextRow(trace, r), PositionOf(r, |trace|), cumulative)
  {
    var m := |a.Batches()|;
    var q := if r + 1 < |rows| then r + 1 else 0;
    assert NextRow(trace, r) == trace[q];
    assert trace[r][..m] == a.RowTo(a.Batches(), rows[r], m) && trace[q][..m] == a.RowTo(a.Batches(), rows[q], m);
    a.f.Unit(a.SumOf(a.lookups, rows[0]));
    assert a.TotalTo(rows, 0) == a.f.zero;
    RowForced(a, rows[r], rows[q], trace[r], trace[q], PositionOf(r, |trace|), cumulative);
  }

  /** LogUp, complete and sound: on rows whose fingerprints do not vanish, the traces that meet every
      entry, first-row, transition and last-row constraint are exactly the generated trace with the
      total of multiplicity / fingerprint over all rows and interactions as cumulative sum. */
  lemma {:induction false} LogUpExact<F(!new)>(a: Argument<F>, rows: seq<Row<F>>, trace: seq<seq<F>>, cumulative: F)
    requires a.Valid() && a.lookups != [] && rows != [] && AllClean(a, rows)
    ensures Satisfied(a, rows, trace, cumulative) <==> Generated(a, rows, trace, cumulative)
  {
    if Satisfied(a, rows, trace, cumulative) { OnlyGenerated(a, rows, trace, cumulative); }
    if Generated(a, rows, trace, cumulative) { GeneratedSatisfies(a, rows, trace, cumulative); }
  }

  lemma {:induction false} OnlyGenerated<F(!new)>(
    a: Argument<F>, rows: seq<Row<F>>, trace: seq<seq<F>>, cumulative: F)
    requires a.Valid() && a.lookups != [] && rows != [] && AllClean(a, rows) && Satisfied(a, rows, trace, cumulative)
    ensures Generated(a, rows, trace, cumulative)
  {
    forall r | 0 <= r < |rows| ensures trace[r] == PermRow(a, rows, r)
    { RowIsGenerated(a, rows, trace, cumulative, r); }
    var l := |rows| - 1;
    RowIsGenerated(a, rows, trace, cumulative, l);
    assert PositionOf(l, |trace|).isLast;
    assert AtIndex(l);
  }

  lemma {:induction false} GeneratedSatisfies<F(!new)>(
    a: Argument<F>, rows: seq<Row<F>>, trace: seq<seq<F>>, cumulative: F)
    requires a.Valid() && a.lookups != [] && rows != [] && AllClean(a, rows) && Generated(a, rows, trace, cumulative)
    ensures Satisfied(a, rows, trace, cumulative)
  {
    assert RightWidth(a, trace);
    forall r: nat | r < |rows|
      ensures RowHolds(a, rows[r], trace[r], NextRow(trace, r), PositionOf(r, |trace|), cumulative)
    { GeneratedRow(a, rows, trace, cumulative, r); }
  }

  /** Without interactions the constraints accept every sum; that sum is pinned to zero by the
      verifier's own check instead. */
  lemma {:induction false} NoInteractions<F(!new)>(
    a: Argument<F>, rows: seq<Row<F>>, trace: seq<seq<F>>, cumulative: F)
    requires a.Valid() && a.lookups == []
    ensures Satisfied(a, rows, trace, cumulative) <==>
        |trace| == |rows| && forall r :: 0 <= r < |trace| ==> trace[r] == []
  {
    if RightWidth(a, trace) { forall r | 0 <= r < |trace| ensures trace[r] == [] { assert |trace[r]| == 0; } }
    if |trace| == |rows| && forall r :: 0 <= r < |trace| ==> trace[r] == [] {
      assert RightWidth(a, trace);
      forall r: nat | r < |trace|
          ensures RowHolds(a, rows[r], trace[r], NextRow(trace, r), PositionOf(r, |trace|), cumulative) {}
    }
  }

  /** What the shard verifier accepts of a chip's local sum: the constraints, and zero for a chip
      without local interactions. */
  ghost predicate SumAccepted<F(!new)>(a: Argument<F>, rows: seq<Row<F>>, trace: seq<seq<F>>, cumulative: F)
    requires a.batch >= 1
  { Satisfied(a, rows, trace, cumulative) && (a.lookups == [] ==> cumulative == a.f.zero) }

  /** Soundness: the accepted sum is the signed sum over all rows and interactions, whatever the
      batch size. */
  lemma {:induction false} SumIsTotal<F(!new)>(a: Argument<F>, rows: seq<Row<F>>, trace: seq<seq<F>>, cumulative: F)
    requires a.Valid() && rows != [] && AllClean(a, rows) && SumAccepted(a, rows, trace, cumulative)
    ensures cumulative == a.TotalTo(rows, |rows|)
  { if a.lookups == [] { NothingToSum(a, rows, |rows|); } else { LogUpExact(a, rows, trace, cumulative); } }

  lemma {:induction false} TotalIgnoresBatch<F(!new)>(a: Argument<F>, b: nat, rows: seq<Row<F>>, k: nat)
    requires k <= |rows|
    ensures a.(batch := b).TotalTo(rows, k) == a.TotalTo(rows, k)
  { if k > 0 { TotalIgnoresBatch(a, b, rows, k - 1); } }

  lemma {:induction false} SumIgnoresBatch<F(!new)>(
    a: Argument<F>, b: nat, rows: seq<Row<F>>, trace: seq<seq<F>>, s: F, other: seq<seq<F>>, t: F)
    requires a.Valid() && 1 <= b <= 8 && rows != [] && AllClean(a, rows)
    requires SumAccepted(a, rows, trace, s) && SumAccepted(a.(batch := b), rows, other, t)
    ensures s == t
  {
    SumIsTotal(a, rows, trace, s);
    var c := a.(batch := b);
    assert AllClean(c, rows) by
        { forall r | 0 <= r < |rows| ensures c.Clean(c.lookups, rows[r]) { assert a.Clean(a.lookups, rows[r]); } }
    SumIsTotal(c, rows, other, t);
    TotalIgnoresBatch(a, b, rows, |rows|);
  }
}
