/** The LogUp permutation argument: fingerprints, the two ways the prover computes an entry of a
    permutation row, and the product and numerator that the constraints compare it with.  Base-field
    values are taken as elements of the extension field. */
module LogUp {
  import opened Fields

  /** A column expression, applied to a preprocessed and a main row. */
  type Column<!F> = (seq<F>, seq<F>) -> F

  datatype Interaction<!F> = Interaction(argument: F, values: seq<Column<F>>, multiplicity: Column<F>)
  datatype Signed<!F> = Signed(lookup: Interaction<F>, isSend: bool)
  datatype Row<F> = Row(prep: seq<F>, main: seq<F>)

  /** A fingerprint and its signed multiplicity. */
  datatype Entry<F> = Entry(den: F, num: F)

  // ---------- fingerprints ----------

  /** alpha + argument + sum of beta^j * value_j, over the first k values. */
  function Fingerprint<F(!new)>(f: Field<F>, alpha: F, beta: F, x: Interaction<F>, row: Row<F>, k: nat): F
    requires k <= |x.values|
  {
    if k == 0 then f.Add(alpha, f.Mul(f.Pow(beta, 0), x.argument))
    else f.Add(Fingerprint(f, alpha, beta, x, row, k - 1), f.Mul(f.Pow(beta, k), x.values[k - 1](row.prep, row.main)))
  }

  /** An interaction at a row: sends count positive, receives negative. */
  function EntryOf<F(!new)>(f: Field<F>, alpha: F, beta: F, x: Signed<F>, row: Row<F>): Entry<F> {
    var m := x.lookup.multiplicity(row.prep, row.main);
    Entry(Fingerprint(f, alpha, beta, x.lookup, row, |x.lookup.values|), if x.isSend then m else f.Neg(m))
  }

  function EntriesOf<F(!new)>(f: Field<F>, alpha: F, beta: F, xs: seq<Signed<F>>, row: Row<F>): (es: seq<Entry<F>>)
    ensures |es| == |xs|
  {
    if xs == [] then []
    else EntriesOf(f, alpha, beta, xs[..|xs| - 1], row) + [EntryOf(f, alpha, beta, xs[|xs| - 1], row)]
  }

  ghost predicate IsPowers<F(!new)>(f: Field<F>, beta: F, powers: seq<F>) {
    forall j :: 0 <= j < |powers| ==> powers[j] == f.Pow(beta, j)
  }

  /** The table of powers of beta. */
  method BetaPowers<F(!new)>(f: Field<F>, beta: F, n: nat) returns (powers: seq<F>)
    requires f.Laws()
    ensures |powers| == n && IsPowers(f, beta, powers)
  {
    powers := [];
    var current := f.one;
    for j := 0 to n
      invariant |powers| == j && IsPowers(f, beta, powers) && current == f.Pow(beta, j)
    {
      powers := powers + [current];
      f.MulComm(current, beta);
      current := f.Mul(current, beta);
    }
  }

  method ComputeEntry<F(!new)>(
    f: Field<F>, alpha: F, ghost beta: F, powers: seq<F>, x: Signed<F>, row: Row<F>) returns (e: Entry<F>)
    requires IsPowers(f, beta, powers) && |x.lookup.values| < |powers|
    ensures e == EntryOf(f, alpha, beta, x, row)
  {
    var den := f.Add(alpha, f.Mul(powers[0], x.lookup.argument));
    for j := 0 to |x.lookup.values|
      invariant den == Fingerprint(f, alpha, beta, x.lookup, row, j)
    {
      den := f.Add(den, f.Mul(powers[j + 1], x.lookup.values[j](row.prep, row.main)));
    }
    var num := x.lookup.multiplicity(row.prep, row.main);
    if !x.isSend { num := f.Neg(num); }
    e := Entry(den, num);
  }

  // ---------- products, numerators, fractions ----------

  ghost predicate NonZero<F(!new)>(f: Field<F>, es: seq<Entry<F>>)
  { forall i :: 0 <= i < |es| ==> es[i].den != f.zero }

  /** The product of the first k denominators, and of those from k on. */
  function ProdTo<F(!new)>(f: Field<F>, es: seq<Entry<F>>, k: nat): F
    requires k <= |es|
  { if k == 0 then f.one else f.Mul(ProdTo(f, es, k - 1), es[k - 1].den) }

  function ProdFrom<F(!new)>(f: Field<F>, es: seq<Entry<F>>, k: nat): F
    requires k <= |es|
    decreases |es| - k
  { if k == |es| then f.one else f.Mul(ProdFrom(f, es, k + 1), es[k].den) }

  /** The product of all denominators but one. */
  function AllBut<F(!new)>(f: Field<F>, es: seq<Entry<F>>, i: nat): F
    requires i < |es|
  { f.Mul(ProdTo(f, es, i), ProdFrom(f, es, i + 1)) }

  /** The first k terms of the common numerator. */
  function NumerTo<F(!new)>(f: Field<F>, es: seq<Entry<F>>, k: nat): F
    requires k <= |es|
  { if k == 0 then f.zero else f.Add(NumerTo(f, es, k - 1), f.Mul(es[k - 1].num, AllBut(f, es, k - 1))) }

  /** The sum of the first k fractions: what an entry means. */
  function FracTo<F(!new)>(f: Field<F>, es: seq<Entry<F>>, k: nat): F
    requires k <= |es|
  { if k == 0 then f.zero else f.Add(FracTo(f, es, k - 1), f.Div(es[k - 1].num, es[k - 1].den)) }

  lemma {:induction false} ProdSplit<F(!new)>(f: Field<F>, es: seq<Entry<F>>, k: nat)
    requires f.Laws() && k <= |es|
    ensures f.Mul(ProdTo(f, es, k), ProdFrom(f, es, k)) == ProdTo(f, es, |es|)
    decreases |es| - k
  {
    if k == |es| { f.Unit(ProdTo(f, es, k)); }
    else {
      ProdSplit(f, es, k + 1);
      var p, q, d := ProdTo(f, es, k), ProdFrom(f, es, k + 1), es[k].den;
      f.MulAssoc(p, d, q); f.MulComm(d, q);
    }
  }

  lemma {:induction false} AllButTimes<F(!new)>(f: Field<F>, es: seq<Entry<F>>, i: nat)
    requires f.Laws() && i < |es|
    ensures f.Mul(AllBut(f, es, i), es[i].den) == ProdTo(f, es, |es|)
  { ProdSplit(f, es, i); f.MulAssoc(ProdTo(f, es, i), ProdFrom(f, es, i + 1), es[i].den); }

  lemma {:induction false} ProdNonZero<F(!new)>(f: Field<F>, es: seq<Entry<F>>, k: nat)
    requires f.Laws() && NonZero(f, es) && k <= |es|
    ensures ProdTo(f, es, k) != f.zero
  {
    if k > 0 { ProdNonZero(f, es, k - 1); f.NoZeroDivisors(ProdTo(f, es, k - 1), es[k - 1].den); }
    else { assert f.one != f.zero; }
  }

  /** num * (product of the others) = product * (num / den). */
  lemma {:induction false} TermOverProduct<F(!new)>(f: Field<F>, es: seq<Entry<F>>, i: nat)
    requires f.Laws() && i < |es| && es[i].den != f.zero
    ensures f.Mul(es[i].num, AllBut(f, es, i)) == f.Mul(ProdTo(f, es, |es|), f.Div(es[i].num, es[i].den))
  {
    var a, d, m := AllBut(f, es, i), es[i].den, es[i].num;
    AllButTimes(f, es, i);
    f.MulSwap(a, d, m, f.Inv(d)); f.Inverse(d); f.Unit(f.Mul(a, m)); f.MulComm(a, m);
  }

  /** The common numerator is the product times the sum of the fractions. */
  lemma {:induction false} CrossMultiplied<F(!new)>(f: Field<F>, es: seq<Entry<F>>, k: nat)
    requires f.Laws() && NonZero(f, es) && k <= |es|
    ensures NumerTo(f, es, k) == f.Mul(ProdTo(f, es, |es|), FracTo(f, es, k))
  {
    var p := ProdTo(f, es, |es|);
    if k == 0 { f.MulZero(p); }
    else {
      CrossMultiplied(f, es, k - 1);
      TermOverProduct(f, es, k - 1);
      f.Distrib(p, FracTo(f, es, k - 1), f.Div(es[k - 1].num, es[k - 1].den));
    }
  }

  /** The constraint `product * entry = numerator` says exactly that the entry is the sum of the
      fractions. */
  lemma {:induction false} EntryIsSum<F(!new)>(f: Field<F>, es: seq<Entry<F>>, entry: F)
    requires f.Laws() && NonZero(f, es)
    ensures f.Mul(ProdTo(f, es, |es|), entry) == NumerTo(f, es, |es|) <==> entry == FracTo(f, es, |es|)
  {
    CrossMultiplied(f, es, |es|);
    ProdNonZero(f, es, |es|);
    if f.Mul(ProdTo(f, es, |es|), entry) == NumerTo(f, es, |es|) {
      f.MulCancel(ProdTo(f, es, |es|), entry, FracTo(f, es, |es|));
    }
  }

  // ---------- one entry, three ways ----------

  lemma {:induction false} ProdOne<F(!new)>(f: Field<F>, es: seq<Entry<F>>)
    requires f.Laws() && es != []
    ensures ProdTo(f, es, 1) == es[0].den && ProdFrom(f, es, |es| - 1) == es[|es| - 1].den
  {
    f.Unit(es[0].den); f.Unit(es[|es| - 1].den);
    assert ProdTo(f, es, 0) == f.one && ProdFrom(f, es, |es|) == f.one;
  }

  lemma {:induction false} FracOne<F(!new)>(f: Field<F>, es: seq<Entry<F>>)
    requires f.Laws() && es != []
    ensures FracTo(f, es, 1) == f.Div(es[0].num, es[0].den)
  { f.Unit(f.Div(es[0].num, es[0].den)); assert FracTo(f, es, 0) == f.zero; }

  /** One step of the backward pass: the inverse of a product of k gives the inverse of its last
      factor and of the product of the others. */
  lemma {:induction false} InverseStep<F(!new)>(f: Field<F>, es: seq<Entry<F>>, k: nat)
    requires f.Laws() && NonZero(f, es) && k < |es|
    ensures var inv := f.Inv(ProdTo(f, es, k + 1));
      f.Mul(inv, ProdTo(f, es, k)) == f.Inv(es[k].den) && f.Mul(inv, es[k].den) == f.Inv(ProdTo(f, es, k))
  {
    var p, d := ProdTo(f, es, k), es[k].den;
    ProdNonZero(f, es, k);
    f.InverseMul(p, d);
    f.Inverse(p); f.Inverse(d);
    f.MulComm(f.Inv(p), f.Inv(d)); f.MulAssoc(f.Inv(d), f.Inv(p), p); f.Unit(f.Inv(d));
    f.MulAssoc(f.Inv(p), f.Inv(d), d); f.Unit(f.Inv(p));
  }

  /** The products of the first denominators, in a fixed buffer of eight. */
  method BufferedProducts<F(!new)>(f: Field<F>, es: seq<Entry<F>>) returns (products: seq<F>)
    requires f.Laws() && 1 <= |es| <= 8
    ensures |products| == |es| && forall j :: 0 <= j < |es| ==> products[j] == ProdTo(f, es, j + 1)
  {
    var prefix := new F[8](_ => f.zero);
    prefix[0] := es[0].den;
    ProdOne(f, es);
    for i := 1 to |es|
      invariant forall j :: 0 <= j < i ==> prefix[j] == ProdTo(f, es, j + 1)
    { prefix[i] := f.Mul(prefix[i - 1], es[i].den); }
    products := prefix[..|es|];
  }

  /** `populate_local_permutation_row`, one batch: one inversion for up to eight fractions. */
  method SumByOneInversion<F(!new)>(f: Field<F>, es: seq<Entry<F>>) returns (value: F)
    requires f.Laws() && 1 <= |es| <= 8 && NonZero(f, es)
    ensures value == FracTo(f, es, |es|)
  {
    FracOne(f, es);
    if |es| == 1 { value := f.Div(es[0].num, es[0].den); return; }
    ProdOne(f, es);
    var products := BufferedProducts(f, es);
    var inv := f.Inv(products[|es| - 1]);
    var sum := f.zero;
    f.Unit(FracTo(f, es, |es|));
    for i := |es| downto 1
      invariant inv == f.Inv(ProdTo(f, es, i))
      invariant f.Add(sum, FracTo(f, es, i)) == FracTo(f, es, |es|)
    {
      InverseStep(f, es, i);
      var term := f.Mul(es[i].num, f.Mul(inv, products[i - 1]));
      assert FracTo(f, es, i + 1) == f.Add(FracTo(f, es, i), term);
      f.AddComm(FracTo(f, es, i), term); f.AddAssoc(sum, term, FracTo(f, es, i));
      sum := f.Add(sum, term);
      inv := f.Mul(inv, es[i].den);
    }
    value := f.Add(sum, f.Mul(es[0].num, inv));
  }

  lemma {:induction false} PairTerms<F(!new)>(f: Field<F>, a: Entry<F>, b: Entry<F>)
    requires f.Laws()
    ensures ProdTo(f, [a, b], 2) == f.Mul(a.den, b.den)
    ensures NumerTo(f, [a, b], 2) == f.Add(f.Mul(a.num, b.den), f.Mul(b.num, a.den))
  {
    var es := [a, b];
    ProdOne(f, es);
    assert ProdTo(f, es, 2) == f.Mul(ProdTo(f, es, 1), b.den);
    assert AllBut(f, es, 0) == f.Mul(f.one, b.den) && AllBut(f, es, 1) == f.Mul(a.den, f.one);
    f.Unit(b.den); f.Unit(a.den); f.Unit(f.Mul(a.num, b.den));
    assert NumerTo(f, es, 1) == f.Add(f.zero, f.Mul(a.num, AllBut(f, es, 0)));
  }

  lemma {:induction false} SingleTerms<F(!new)>(f: Field<F>, a: Entry<F>)
    requires f.Laws()
    ensures ProdTo(f, [a], 1) == a.den && NumerTo(f, [a], 1) == a.num
  {
    ProdOne(f, [a]);
    assert AllBut(f, [a], 0) == f.Mul(f.one, f.one);
    f.Unit(f.one); f.Unit(a.num);
    assert NumerTo(f, [a], 0) == f.zero;
  }

  /** The product of the denominators other than i, by a loop that skips i. */
  method SkipOne<F(!new)>(f: Field<F>, es: seq<Entry<F>>, i: nat) returns (r: F)
    requires f.Laws() && i < |es|
    ensures r == AllBut(f, es, i)
  {
    r := f.one;
    for j := 0 to |es|
      invariant j <= i ==> r == ProdTo(f, es, j)
      invariant j > i ==> f.Mul(r, ProdFrom(f, es, j)) == AllBut(f, es, i)
    {
      if j != i {
        if j > i {
          var q, d := ProdFrom(f, es, j + 1), es[j].den;
          f.MulComm(q, d); f.MulAssoc(r, d, q);
        }
        r := f.Mul(r, es[j].den);
      }
    }
    f.Unit(r);
  }

  /** One chunk of the block-wise trace generator. */
  method BlockTerms<F(!new)>(f: Field<F>, es: seq<Entry<F>>) returns (product: F, numerator: F)
    requires f.Laws() && es != []
    ensures product == ProdTo(f, es, |es|) && numerator == NumerTo(f, es, |es|)
  {
    if |es| == 1 {
      SingleTerms(f, es[0]); assert es == [es[0]];
      product, numerator := es[0].den, es[0].num;
    } else if |es| == 2 {
      PairTerms(f, es[0], es[1]); assert es == [es[0], es[1]];
      product := f.Mul(es[0].den, es[1].den);
      numerator := f.Add(f.Mul(es[0].num, es[1].den), f.Mul(es[1].num, es[0].den));
    } else {
      product := f.one;
      for i := 0 to |es|
        invariant product == ProdTo(f, es, i)
      { product := f.Mul(product, es[i].den); }
      numerator := f.zero;
      for i := 0 to |es|
        invariant numerator == NumerTo(f, es, i)
      {
        var others := SkipOne(f, es, i);
        numerator := f.Add(numerator, f.Mul(es[i].num, others));
      }
    }
  }

  lemma {:induction false} AllButEnds<F(!new)>(f: Field<F>, es: seq<Entry<F>>)
    requires f.Laws() && |es| >= 2
    ensures AllBut(f, es, 0) == ProdFrom(f, es, 1) && AllBut(f, es, |es| - 1) == ProdTo(f, es, |es| - 1)
  {
    f.Unit(ProdFrom(f, es, 1)); f.Unit(ProdTo(f, es, |es| - 1));
    assert ProdTo(f, es, 0) == f.one && ProdFrom(f, es, |es|) == f.one;
  }

  /** The constraint side: prefix and suffix products. */
  method PrefixSuffixTerms<F(!new)>(f: Field<F>, es: seq<Entry<F>>) returns (product: F, numerator: F)
    requires f.Laws() && es != []
    ensures product == ProdTo(f, es, |es|) && numerator == NumerTo(f, es, |es|)
  {
    var n := |es|;
    if n == 1 {
      SingleTerms(f, es[0]); assert es == [es[0]];
      return es[0].den, es[0].num;
    }
    if n == 2 {
      PairTerms(f, es[0], es[1]); assert es == [es[0], es[1]];
      return f.Mul(es[0].den, es[1].den), f.Add(f.Mul(es[0].num, es[1].den), f.Mul(es[1].num, es[0].den));
    }
    var prefix := PrefixProducts(f, es);
    var suffix := SuffixProducts(f, es);
    product := prefix[n - 1];
    AllButEnds(f, es);
    numerator := f.zero;
    for i := 0 to n
      invariant numerator == NumerTo(f, es, i)
    {
      var others := if i == 0 then suffix[1] else if i + 1 == n then prefix[i - 1]
      else f.Mul(prefix[i - 1], suffix[i + 1]);
      numerator := f.Add(numerator, f.Mul(es[i].num, others));
    }
  }

  method PrefixProducts<F(!new)>(f: Field<F>, es: seq<Entry<F>>) returns (prefix: seq<F>)
    ensures |prefix| == |es| && forall j :: 0 <= j < |es| ==> prefix[j] == ProdTo(f, es, j + 1)
  {
    prefix := [];
    var acc := f.one;
    for i := 0 to |es|
      invariant |prefix| == i && acc == ProdTo(f, es, i)
      invariant forall j :: 0 <= j < i ==> prefix[j] == ProdTo(f, es, j + 1)
    {
      acc := f.Mul(acc, es[i].den);
      prefix := prefix + [acc];
    }
  }

  method SuffixProducts<F(!new)>(f: Field<F>, es: seq<Entry<F>>) returns (suffix: seq<F>)
    ensures |suffix| == |es| && forall j :: 0 <= j < |es| ==> suffix[j] == ProdFrom(f, es, j)
  {
    var buffer := new F[|es|](_ => f.one);
    var acc := f.one;
    for i := |es| downto 0
      invariant acc == ProdFrom(f, es, i)
      invariant forall j :: i <= j < |es| ==> buffer[j] == ProdFrom(f, es, j)
    {
      acc := f.Mul(acc, es[i].den);
      buffer[i] := acc;
    }
    suffix := buffer[..];
  }
}
