/** The permutation trace: the row-by-row form, the block-inverted form that generates it, and the
    sum of each row. */
module LogUpTrace {
  import opened Fields
  import opened LogUp
  import opened Chunking

  /** The challenges, the local sends and receives in order, and the batch size. */
  datatype Argument<!F(!new)> = Argument(f: Field<F>, alpha: F, beta: F, lookups: seq<Signed<F>>, batch: nat) {
    ghost predicate Valid() { f.Laws() && 1 <= batch <= 8 }

    function Batches(): (r: seq<seq<Signed<F>>>)
      requires batch >= 1
    { Chunks(lookups, batch) }

    function Entries(xs: seq<Signed<F>>, row: Row<F>): (es: seq<Entry<F>>)
      ensures |es| == |xs|
    { EntriesOf(f, alpha, beta, xs, row) }

    /** The sum of multiplicity / fingerprint over some interactions at a row. */
    function SumOf(xs: seq<Signed<F>>, row: Row<F>): F { FracTo(f, Entries(xs, row), |xs|) }

    /** No fingerprint of these interactions vanishes at the row. */
    ghost predicate Clean(xs: seq<Signed<F>>, row: Row<F>) {
      forall i :: 0 <= i < |xs| ==> EntryOf(f, alpha, beta, xs[i], row).den != f.zero
    }

    /** The first m entries of a permutation row. */
    function RowTo(bs: seq<seq<Signed<F>>>, row: Row<F>, m: nat): (r: seq<F>)
      requires m <= |bs|
      ensures |r| == m
    { if m == 0 then [] else RowTo(bs, row, m - 1) + [SumOf(bs[m - 1], row)] }

    /** The sum over the first k rows of everything each row contributes. */
    function TotalTo(rows: seq<Row<F>>, k: nat): F
      requires k <= |rows|
    { if k == 0 then f.zero else f.Add(TotalTo(rows, k - 1), SumOf(lookups, rows[k - 1])) }
  }

  /** `local_permutation_trace_width`. */
  function TraceWidth(n: nat, b: nat): nat
    requires b >= 1
  { if n == 0 then 0 else CeilDiv(n, b) + 1 }

  lemma {:induction false} EntriesAt<F(!new)>(a: Argument<F>, xs: seq<Signed<F>>, row: Row<F>, i: nat)
    requires i < |xs|
    ensures a.Entries(xs, row)[i] == EntryOf(a.f, a.alpha, a.beta, xs[i], row)
  { if i < |xs| - 1 { EntriesAt(a, xs[..|xs| - 1], row, i); } }

  lemma {:induction false} CleanNonZero<F(!new)>(a: Argument<F>, xs: seq<Signed<F>>, row: Row<F>)
    requires a.Clean(xs, row)
    ensures NonZero(a.f, a.Entries(xs, row))
  { forall i | 0 <= i < |xs| ensures a.Entries(xs, row)[i].den != a.f.zero { EntriesAt(a, xs, row, i); } }

  lemma {:induction false} CleanChunks<F(!new)>(a: Argument<F>, xs: seq<Signed<F>>, b: nat, row: Row<F>, c: nat)
    requires b >= 1 && a.Clean(xs, row) && c < |Chunks(xs, b)|
    ensures a.Clean(Chunks(xs, b)[c], row)
    decreases |xs|
  { if |xs| > b && c > 0 { CleanChunks(a, xs[b..], b, row, c - 1); } }

  // ---------- a row's entries sum to the sum over its interactions ----------

  lemma {:induction false} FracPrefix<F(!new)>(f: Field<F>, es: seq<Entry<F>>, fs: seq<Entry<F>>, k: nat)
    requires k <= |es| && k <= |fs| && es[..k] == fs[..k]
    ensures FracTo(f, es, k) == FracTo(f, fs, k)
  {
    if k > 0 { assert es[k - 1] == es[..k][k - 1] == fs[k - 1];
        assert es[..k - 1] == es[..k][..k - 1] == fs[..k - 1]; FracPrefix(f, es, fs, k - 1); }
  }

  lemma {:induction false} SumOfPush<F(!new)>(a: Argument<F>, xs: seq<Signed<F>>, x: Signed<F>, row: Row<F>)
    ensures var e := EntryOf(a.f, a.alpha, a.beta, x, row);
      a.SumOf(xs + [x], row) == a.f.Add(a.SumOf(xs, row), a.f.Div(e.num, e.den))
  {
    var es, fs := a.Entries(xs, row), a.Entries(xs + [x], row);
    assert (xs + [x])[..|xs|] == xs;
    assert fs == es + [EntryOf(a.f, a.alpha, a.beta, x, row)];
    FracPrefix(a.f, es, fs, |xs|);
  }

  lemma {:induction false} SumOfConcat<F(!new)>(a: Argument<F>, xs: seq<Signed<F>>, ys: seq<Signed<F>>, row: Row<F>)
    requires a.f.Laws()
    ensures a.SumOf(xs + ys, row) == a.f.Add(a.SumOf(xs, row), a.SumOf(ys, row))
    decreases |ys|
  {
    if ys == [] { assert xs + ys == xs; a.f.Unit(a.SumOf(xs, row)); }
    else {
      var n := |ys| - 1;
      var e := EntryOf(a.f, a.alpha, a.beta, ys[n], row);
      assert xs + ys == (xs + ys[..n]) + [ys[n]] && ys == ys[..n] + [ys[n]];
      SumOfPush(a, xs + ys[..n], ys[n], row);
      SumOfPush(a, ys[..n], ys[n], row);
      SumOfConcat(a, xs, ys[..n], row);
      a.f.AddAssoc(a.SumOf(xs, row), a.SumOf(ys[..n], row), a.f.Div(e.num, e.den));
    }
  }

  lemma {:induction false} RowCons<F(!new)>(
    a: Argument<F>, b: seq<Signed<F>>, bs: seq<seq<Signed<F>>>, row: Row<F>, m: nat)
    requires m <= |bs|
    ensures a.RowTo([b] + bs, row, m + 1) == [a.SumOf(b, row)] + a.RowTo(bs, row, m)
  {
    if m > 0 { RowCons(a, b, bs, row, m - 1); }
    else { assert a.RowTo([b] + bs, row, 0) == []; }
  }

  /** Batching does not change a row's sum. */
  lemma {:induction false} RowSum<F(!new)>(a: Argument<F>, xs: seq<Signed<F>>, b: nat, row: Row<F>)
    requires a.f.Laws() && b >= 1
    ensures var bs := Chunks(xs, b); a.f.Sum(a.RowTo(bs, row, |bs|)) == a.SumOf(xs, row)
    decreases |xs|
  {
    if xs == [] { assert Chunks(xs, b) == []; }
    else if |xs| <= b {
      assert a.RowTo([], row, 0) == [];
      RowSumStep(a, xs, [], [], Chunks(xs, b), xs, row);
    } else {
      RowSum(a, xs[b..], b, row);
      assert xs == xs[..b] + xs[b..];
      RowSumStep(a, xs[..b], xs[b..], Chunks(xs[b..], b), Chunks(xs, b), xs, row);
    }
  }

  lemma {:induction false} RowSumStep<F(!new)>(
    a: Argument<F>, head: seq<Signed<F>>, tail: seq<Signed<F>>, rest: seq<seq<Signed<F>>>, bs: seq<seq<Signed<F>>>,
    xs: seq<Signed<F>>, row: Row<F>)
    requires a.f.Laws() && bs == [head] + rest && xs == head + tail
    requires a.f.Sum(a.RowTo(rest, row, |rest|)) == a.SumOf(tail, row)
    ensures a.f.Sum(a.RowTo(bs, row, |bs|)) == a.SumOf(xs, row)
  { HeadSum(a, head, tail, rest, row); }

  /** One more batch in front. */
  lemma {:induction false} HeadSum<F(!new)>(
    a: Argument<F>, head: seq<Signed<F>>, tail: seq<Signed<F>>, rest: seq<seq<Signed<F>>>, row: Row<F>)
    requires a.f.Laws() && a.f.Sum(a.RowTo(rest, row, |rest|)) == a.SumOf(tail, row)
    ensures a.f.Sum(a.RowTo([head] + rest, row, |rest| + 1)) == a.SumOf(head + tail, row)
  {
    RowCons(a, head, rest, row, |rest|);
    a.f.SumConcat([a.SumOf(head, row)], a.RowTo(rest, row, |rest|));
    OneSum(a.f, a.SumOf(head, row));
    SumOfConcat(a, head, tail, row);
  }

  lemma {:induction false} OneSum<F(!new)>(f: Field<F>, x: F)
    requires f.Laws()
    ensures f.Sum([x]) == x
  { f.SumPush([], x); f.Unit(x); assert [] + [x] == [x]; }

  // ---------- generating the trace ----------

  /** `populate_local_permutation_row`: the entries of one row, batch by batch. */
  method PopulateRow<F(!new)>(a: Argument<F>, row: Row<F>) returns (r: seq<F>)
    requires a.Valid() && a.Clean(a.lookups, row)
    ensures r == a.RowTo(a.Batches(), row, |a.Batches()|)
  {
    var bs := a.Batches();
    r := [];
    for c := 0 to |bs|
      invariant r == a.RowTo(bs, row, c)
    {
      var es := ComputeEntries(a, bs[c], row);
      ChunkSizes(a.lookups, a.batch, c);
      CleanChunks(a, a.lookups, a.batch, row, c);
      CleanNonZero(a, bs[c], row);
      var value := SumByOneInversion(a.f, es);
      r := r + [value];
    }
  }

  method ComputeEntries<F(!new)>(a: Argument<F>, xs: seq<Signed<F>>, row: Row<F>) returns (es: seq<Entry<F>>)
    requires a.f.Laws()
    ensures es == a.Entries(xs, row)
  {
    var longest: nat := 0;
    for i := 0 to |xs|
      invariant forall j :: 0 <= j < i ==> |xs[j].lookup.values| <= longest
    { if longest < |xs[i].lookup.values| { longest := |xs[i].lookup.values|; } }
    var powers := BetaPowers(a.f, a.beta, longest + 1);
    es := [];
    for i := 0 to |xs|
      invariant es == a.Entries(xs[..i], row)
    {
      var e := ComputeEntry(a.f, a.alpha, a.beta, powers, xs[i], row);
      assert xs[..i + 1][..i] == xs[..i];
      es := es + [e];
    }
    assert xs[..|xs|] == xs;
  }

  /** Products and numerators of one row. */
  method RowTerms<F(!new)>(a: Argument<F>, row: Row<F>) returns (products: seq<F>, numerators: seq<F>)
    requires a.Valid()
    ensures |products| == |numerators| == |a.Batches()|
    ensures forall c :: 0 <= c < |products| ==> IsTerms(a, a.Batches()[c], row, products[c], numerators[c])
  {
    var bs := a.Batches();
    products, numerators := [], [];
    for c := 0 to |bs|
      invariant |products| == |numerators| == c
      invariant forall d :: 0 <= d < c ==> IsTerms(a, bs[d], row, products[d], numerators[d])
    {
      var es := ComputeEntries(a, bs[c], row);
      ChunkSizes(a.lookups, a.batch, c);
      var p, n := BlockTerms(a.f, es);
      products, numerators := products + [p], numerators + [n];
    }
  }

  ghost predicate IsTerms<F(!new)>(a: Argument<F>, xs: seq<Signed<F>>, row: Row<F>, product: F, numerator: F) {
    product == ProdTo(a.f, a.Entries(xs, row), |xs|) && numerator == NumerTo(a.f, a.Entries(xs, row), |xs|)
  }

  /** Numerator over product is the sum of the fractions. */
  lemma {:induction false} TermsQuotient<F(!new)>(
    a: Argument<F>, xs: seq<Signed<F>>, row: Row<F>, product: F, numerator: F)
    requires a.f.Laws() && a.Clean(xs, row) && IsTerms(a, xs, row, product, numerator)
    ensures a.f.Mul(numerator, a.f.Inv(product)) == a.SumOf(xs, row)
  {
    CleanNonZero(a, xs, row);
    EntryIsSum(a.f, a.Entries(xs, row), a.SumOf(xs, row));
    ProdNonZero(a.f, a.Entries(xs, row), |xs|);
    a.f.DivUnique(a.SumOf(xs, row), numerator, product);
  }

  /** Row r of the permutation trace: its entries, then the running sum. */
  function PermRow<F(!new)>(a: Argument<F>, rows: seq<Row<F>>, r: nat): seq<F>
    requires a.batch >= 1 && r < |rows|
  { a.RowTo(a.Batches(), rows[r], |a.Batches()|) + [a.TotalTo(rows, r + 1)] }

  ghost predicate AllClean<F(!new)>(a: Argument<F>, rows: seq<Row<F>>)
  { forall r :: 0 <= r < |rows| ==> a.Clean(a.lookups, rows[r]) }

  /** A row from its numerators and inverted products. */
  method QuotientRow<F(!new)>(
    a: Argument<F>, ghost row: Row<F>, products: seq<F>, numerators: seq<F>) returns (r: seq<F>)
    requires a.Valid() && a.Clean(a.lookups, row) && |products| == |numerators| == |a.Batches()|
    requires forall c :: 0 <= c < |products| ==> IsTerms(a, a.Batches()[c], row, products[c], numerators[c])
    ensures r == a.RowTo(a.Batches(), row, |a.Batches()|)
  {
    r := [];
    for c := 0 to |products|
      invariant r == a.RowTo(a.Batches(), row, c)
    {
      CleanChunks(a, a.lookups, a.batch, row, c);
      TermsQuotient(a, a.Batches()[c], row, products[c], numerators[c]);
      r := r + [a.f.Mul(numerators[c], a.f.Inv(products[c]))];
    }
  }

  /** One block of rows: all products and numerators first, then one batch inversion, then the entries. */
  method FillBlock<F(!new)>(a: Argument<F>, rows: seq<Row<F>>) returns (block: seq<seq<F>>)
    requires a.Valid() && AllClean(a, rows)
    ensures |block| == |rows| && forall r :: 0 <= r < |rows| ==>
        block[r] == a.RowTo(a.Batches(), rows[r], |a.Batches()|)
  {
    var products, numerators := [], [];
    for r := 0 to |rows|
      invariant |products| == |numerators| == r
      invariant forall q :: 0 <= q < r ==> |products[q]| == |numerators[q]| == |a.Batches()|
      invariant forall q, c :: 0 <= q < r && 0 <= c < |a.Batches()| ==>
          IsTerms(a, a.Batches()[c], rows[q], products[q][c], numerators[q][c])
    {
      var ps, ns := RowTerms(a, rows[r]);
      products, numerators := products + [ps], numerators + [ns];
    }
    block := [];
    for r := 0 to |rows|
      invariant |block| == r && forall q :: 0 <= q < r ==> block[q] == a.RowTo(a.Batches(), rows[q], |a.Batches()|)
    {
      var row := QuotientRow(a, rows[r], products[r], numerators[r]);
      block := block + [row];
    }
  }

  const BLOCK_SIZE: nat := 4096

  /** The entries of every row, block by block. */
  method FillBlocks<F(!new)>(a: Argument<F>, rows: seq<Row<F>>) returns (entries: seq<seq<F>>)
    requires a.Valid() && AllClean(a, rows)
    ensures |entries| == |rows| && forall r :: 0 <= r < |rows| ==>
        entries[r] == a.RowTo(a.Batches(), rows[r], |a.Batches()|)
  {
    entries := [];
    while |entries| < |rows|
      invariant |entries| <= |rows|
      invariant forall r :: 0 <= r < |entries| ==> entries[r] == a.RowTo(a.Batches(), rows[r], |a.Batches()|)
      decreases |rows| - |entries|
    {
      var lo := |entries|;
      var hi := if lo + BLOCK_SIZE <= |rows| then lo + BLOCK_SIZE else |rows|;
      assert forall r :: 0 <= r < hi - lo ==> rows[lo..hi][r] == rows[lo + r];
      var block := FillBlock(a, rows[lo..hi]);
      forall r | lo <= r < hi ensures block[r - lo] == a.RowTo(a.Batches(), rows[r], |a.Batches()|)
          { assert rows[lo..hi][r - lo] == rows[r]; }
      entries := entries + block;
    }
  }

  lemma {:induction false} NothingToSum<F(!new)>(a: Argument<F>, rows: seq<Row<F>>, k: nat)
    requires a.f.Laws() && a.lookups == [] && k <= |rows|
    ensures a.TotalTo(rows, k) == a.f.zero
  { if k > 0 { NothingToSum(a, rows, k - 1); a.f.Unit(a.f.zero); } }

  /** `generate_permutation_trace_prescoped`: every row as the per-row form gives it, closed by the
      running sum; the last running sum is returned. */
  method GenerateTrace<F(!new)>(a: Argument<F>, rows: seq<Row<F>>) returns (trace: seq<seq<F>>, cumulative: F)
    requires a.Valid() && AllClean(a, rows) && (a.lookups != [] ==> rows != [])
    ensures |trace| == |rows| && cumulative == a.TotalTo(rows, |rows|)
    ensures forall r :: 0 <= r < |rows| ==> trace[r] == if a.lookups == [] then [] else PermRow(a, rows, r)
  {
    if a.lookups == [] {
      trace := EmptyRows(|rows|);
      cumulative := a.f.zero;
      NothingToSum(a, rows, |rows|);
    } else {
      var entries := FillBlocks(a, rows);
      trace, cumulative := CloseRows(a, rows, entries);
    }
  }

  method EmptyRows<F>(n: nat) returns (trace: seq<seq<F>>)
    ensures |trace| == n && forall r :: 0 <= r < n ==> trace[r] == []
  {
    trace := [];
    for r := 0 to n
      invariant |trace| == r && forall q :: 0 <= q < r ==> trace[q] == []
    { trace := trace + [[]]; }
  }

  /** The first rows of the trace. */
  ghost predicate Closed<F(!new)>(a: Argument<F>, rows: seq<Row<F>>, trace: seq<seq<F>>)
    requires a.batch >= 1
  { |trace| <= |rows| && forall q :: 0 <= q < |trace| ==> trace[q] == PermRow(a, rows, q) }

  lemma {:induction false} CloseRow<F(!new)>(a: Argument<F>, rows: seq<Row<F>>, r: nat, entries: seq<F>, total: F)
    requires a.Valid() && r < |rows| && entries == a.RowTo(a.Batches(), rows[r], |a.Batches()|)
    requires total == a.f.Add(a.TotalTo(rows, r), a.f.Sum(entries))
    ensures total == a.TotalTo(rows, r + 1) && entries + [total] == PermRow(a, rows, r)
  { RowSum(a, a.lookups, a.batch, rows[r]); }

  lemma {:induction false} ClosedPush<F(!new)>(a: Argument<F>, rows: seq<Row<F>>, trace: seq<seq<F>>, row: seq<F>)
    requires a.batch >= 1 && |trace| < |rows| && Closed(a, rows, trace) && row == PermRow(a, rows, |trace|)
    ensures Closed(a, rows, trace + [row])
  {}

  /** Close every row by the running sum. */
  method CloseRows<F(!new)>(
    a: Argument<F>, rows: seq<Row<F>>, entries: seq<seq<F>>) returns (trace: seq<seq<F>>, cumulative: F)
    requires a.Valid() && |entries| == |rows|
    requires forall r :: 0 <= r < |rows| ==> entries[r] == a.RowTo(a.Batches(), rows[r], |a.Batches()|)
    ensures |trace| == |rows| && cumulative == a.TotalTo(rows, |rows|) && Closed(a, rows, trace)
  {
    trace, cumulative := [], a.f.zero;
    for r := 0 to |rows|
      invariant |trace| == r && cumulative == a.TotalTo(rows, r) && Closed(a, rows, trace)
    {
      cumulative := a.f.Add(cumulative, a.f.Sum(entries[r]));
      CloseRow(a, rows, r, entries[r], cumulative);
      ClosedPush(a, rows, trace, entries[r] + [cumulative]);
      trace := trace + [entries[r] + [cumulative]];
    }
  }
}
