/** `PowersReducer`: a row of base-field values times powers of an extension element, computed in
    packed lanes and coefficient by coefficient. */
module PackedReduce {
  import opened Fields
  import opened Chunking
  import opened PcsReduce

  ghost predicate AtCoeff<F>(a: F, b: F, d: nat) { true }
  ghost predicate AtScale<F, B>(x: B, a: F, d: nat) { true }

  /** An extension of degree `degree`: a base value times an extension value, and the coefficients of
      an extension value (`as_base_slice`, `from_base_fn`). */
  datatype Extension<!F(!new), !B(!new)> = Extension(
    f: Field<F>, base: Field<B>, degree: nat, scale: (B, F) -> F, coeff: (F, nat) -> B, build: (seq<B>, nat) -> F)
  {
    function Scale(x: B, a: F): F { scale(x, a) }
    function Coeff(a: F, d: nat): B { coeff(a, d) }
    function Build(cs: seq<B>): F { build(cs, degree) }

    /** Sums and base multiples are taken coefficient by coefficient, and coefficients determine. */
    ghost predicate Laws() {
      && f.Laws() && base.Laws()
      && (forall d: nat :: Coeff(f.zero, d) == base.zero)
      && (forall a: F, b: F, d: nat {:trigger AtCoeff(a, b, d)} ::
          Coeff(f.Add(a, b), d) == base.Add(Coeff(a, d), Coeff(b, d)))
      && (forall x: B, a: F, d: nat {:trigger AtScale(x, a, d)} :: Coeff(Scale(x, a), d) == base.Mul(x, Coeff(a, d)))
      && (forall x: B, a: F {:trigger Scale(x, a)} :: Scale(x, a) == f.Mul(a, Scale(x, f.one)))
      && (forall cs: seq<B>, d: nat :: |cs| == degree && d < degree ==> Coeff(Build(cs), d) == cs[d])
      && (forall a: F, b: F {:trigger At2(a, b)} :: (forall d: nat :: d < degree ==> Coeff(a, d) == Coeff(b, d)) ==>
          a == b)
    }

    lemma {:induction false} CoeffAdd(a: F, b: F, d: nat)
      requires Laws()
      ensures Coeff(f.Add(a, b), d) == base.Add(Coeff(a, d), Coeff(b, d))
    { assert AtCoeff(a, b, d); }

    lemma {:induction false} CoeffScale(x: B, a: F, d: nat)
      requires Laws()
      ensures Coeff(Scale(x, a), d) == base.Mul(x, Coeff(a, d))
    { assert AtScale(x, a, d); }

    lemma {:induction false} SameCoeffs(a: F, b: F)
      requires Laws() && forall d: nat :: d < degree ==> Coeff(a, d) == Coeff(b, d)
      ensures a == b
    { assert At2(a, b); }
  }

  // ---------- sums, plain and in lanes ----------

  /** The sum of the first n values. */
  function SumTo<B(!new)>(f: Field<B>, ts: seq<B>, n: nat): B
    requires n <= |ts|
  { if n == 0 then f.zero else f.Add(SumTo(f, ts, n - 1), ts[n - 1]) }

  /** What lane l of `width` has summed after the first `end` values, whole chunks only. */
  function LaneSum<B(!new)>(f: Field<B>, ts: seq<B>, width: nat, l: nat, end: nat): B
    requires l < width && end <= |ts|
    decreases end
  { if end < width then f.zero else f.Add(LaneSum(f, ts, width, l, end - width), ts[end - width + l]) }

  /** The sum of the first n lanes. */
  function LanesTotal<B(!new)>(f: Field<B>, ts: seq<B>, width: nat, end: nat, n: nat): B
    requires n <= width && end <= |ts|
  { if n == 0 then f.zero else f.Add(LanesTotal(f, ts, width, end, n - 1), LaneSum(f, ts, width, n - 1, end)) }

  /** `end` is reached by whole chunks. */
  ghost predicate Whole(width: nat, end: nat)
    decreases end
  { end == 0 || (0 < width <= end && Whole(width, end - width)) }

  /** One more chunk, for the first n lanes. */
  lemma {:induction false} ChunkAdds<B(!new)>(f: Field<B>, ts: seq<B>, width: nat, end: nat, n: nat)
    requires f.Laws() && 0 < width <= end <= |ts| && n <= width
    ensures f.Add(LanesTotal(f, ts, width, end, n), SumTo(f, ts, end - width))
         == f.Add(LanesTotal(f, ts, width, end - width, n), SumTo(f, ts, end - width + n))
  {
    var start := end - width;
    if n > 0 {
      ChunkAdds(f, ts, width, end, n - 1);
      var t, lane := ts[start + n - 1], LaneSum(f, ts, width, n - 1, start);
      Regroup(f, LanesTotal(f, ts, width, end, n - 1), lane, t, SumTo(f, ts, start),
              LanesTotal(f, ts, width, start, n - 1), SumTo(f, ts, start + n - 1));
    }
  }

  lemma {:induction false} Regroup<B(!new)>(f: Field<B>, a: B, lane: B, t: B, s: B, b: B, r: B)
    requires f.Laws() && f.Add(a, s) == f.Add(b, r)
    ensures f.Add(f.Add(a, f.Add(lane, t)), s) == f.Add(f.Add(b, lane), f.Add(r, t))
  {
    f.AddAssoc(a, f.Add(lane, t), s); f.AddComm(f.Add(lane, t), s); f.AddAssoc(a, s, f.Add(lane, t));
    f.AddSwap(b, r, lane, t);
  }

  /** The lanes together hold the sum of the whole chunks. */
  lemma {:induction false} LanesHoldSum<B(!new)>(f: Field<B>, ts: seq<B>, width: nat, end: nat)
    requires f.Laws() && Whole(width, end) && end <= |ts|
    ensures LanesTotal(f, ts, width, end, width) == SumTo(f, ts, end)
    decreases end
  {
    if end == 0 { EmptyLanes(f, ts, width, width); }
    else {
      LanesHoldSum(f, ts, width, end - width);
      ChunkAdds(f, ts, width, end, width);
      var s := SumTo(f, ts, end - width);
      f.AddComm(LanesTotal(f, ts, width, end, width), s);
      f.AddCancel(s, LanesTotal(f, ts, width, end, width), SumTo(f, ts, end));
    }
  }

  lemma {:induction false} EmptyLanes<B(!new)>(f: Field<B>, ts: seq<B>, width: nat, n: nat)
    requires f.Laws() && n <= width
    ensures LanesTotal(f, ts, width, 0, n) == f.zero
  { if n > 0 { EmptyLanes(f, ts, width, n - 1); f.Unit(f.zero); } }

  // ---------- the plain form ----------

  /** The first n powers times the first n base values: sum of pow * x. */
  function ScaledDot<F(!new), B(!new)>(E: Extension<F, B>, powers: seq<F>, xs: seq<B>, n: nat): F
    requires n <= |powers| && n <= |xs|
  { if n == 0 then E.f.zero else E.f.Add(ScaledDot(E, powers, xs, n - 1), E.Scale(xs[n - 1], powers[n - 1])) }

  /** Base values as extension values. */
  function Embedded<F(!new), B(!new)>(E: Extension<F, B>, xs: seq<B>): (r: seq<F>)
    ensures |r| == |xs| && forall i :: 0 <= i < |xs| ==> r[i] == E.Scale(xs[i], E.f.one)
  { if xs == [] then [] else Embedded(E, xs[..|xs| - 1]) + [E.Scale(xs[|xs| - 1], E.f.one)] }

  /** It is `reduce_ext` of the embedded values. */
  lemma {:induction false} ScaledIsDot<F(!new), B(!new)>(E: Extension<F, B>, powers: seq<F>, xs: seq<B>, n: nat)
    requires E.Laws() && n <= |powers| && n <= |xs|
    ensures ScaledDot(E, powers, xs, n) == PowersDot(E.f, powers, Embedded(E, xs), n)
  {
    if n > 0 { ScaledIsDot(E, powers, xs, n - 1);
        assert E.Scale(xs[n - 1], powers[n - 1]) == E.f.Mul(powers[n - 1], E.Scale(xs[n - 1], E.f.one)); }
  }

  /** Coefficient d of every product. */
  function Terms<F(!new), B(!new)>(E: Extension<F, B>, powers: seq<F>, xs: seq<B>, d: nat, n: nat): (r: seq<B>)
    requires n <= |powers| && n <= |xs|
    ensures |r| == n && forall i :: 0 <= i < n ==> r[i] == E.base.Mul(xs[i], E.Coeff(powers[i], d))
  { if n == 0 then [] else Terms(E, powers, xs, d, n - 1) + [E.base.Mul(xs[n - 1], E.Coeff(powers[n - 1], d))] }

  lemma {:induction false} CoeffOfDot<F(!new), B(!new)>(
    E: Extension<F, B>, powers: seq<F>, xs: seq<B>, d: nat, n: nat)
    requires E.Laws() && n <= |xs| <= |powers|
    ensures E.Coeff(ScaledDot(E, powers, xs, n), d) == SumTo(E.base, Terms(E, powers, xs, d, |xs|), n)
  {
    if n > 0 {
      CoeffOfDot(E, powers, xs, d, n - 1);
      E.CoeffAdd(ScaledDot(E, powers, xs, n - 1), E.Scale(xs[n - 1], powers[n - 1]), d);
      E.CoeffScale(xs[n - 1], powers[n - 1], d);
    }
  }

  // ---------- the packed form ----------

  /** `packed[c][d]` holds, lane by lane, coefficient d of the powers of chunk c. */
  datatype PowersReducer<F, B> = PowersReducer(powers: seq<F>, packed: seq<seq<seq<B>>>)

  ghost predicate ChunkPacked<F(!new), B(!new)>(
    E: Extension<F, B>, powers: seq<F>, chunk: seq<seq<B>>, width: nat, first: nat) {
    && first + width <= |powers| && |chunk| == E.degree && (forall d :: 0 <= d < E.degree ==> |chunk[d]| == width)
    && forall d: nat, l: nat :: d < E.degree && l < width ==> chunk[d][l] == E.Coeff(powers[first + l], d)
  }

  ghost predicate Packed<F(!new), B(!new)>(E: Extension<F, B>, r: PowersReducer<F, B>, width: nat) {
    && |r.powers| == |r.packed| * width
    && forall c: nat :: c < |r.packed| ==> ChunkPacked(E, r.powers, r.packed[c], width, c * width)
  }

  /** Coefficient d of one chunk of powers. */
  function LaneCoeffs<F(!new), B(!new)>(E: Extension<F, B>, powers: seq<F>, first: nat, d: nat, n: nat): (r: seq<B>)
    requires first + n <= |powers|
    ensures |r| == n && forall l :: 0 <= l < n ==> r[l] == E.Coeff(powers[first + l], d)
  { if n == 0 then [] else LaneCoeffs(E, powers, first, d, n - 1) + [E.Coeff(powers[first + n - 1], d)] }

  function ChunkCoeffs<F(!new), B(!new)>(
    E: Extension<F, B>, powers: seq<F>, first: nat, width: nat, n: nat): (r: seq<seq<B>>)
    requires first + width <= |powers|
    ensures |r| == n && forall d :: 0 <= d < n ==> r[d] == LaneCoeffs(E, powers, first, d, width)
  {
    if n == 0 then [] else ChunkCoeffs(E, powers, first, width, n - 1) + [LaneCoeffs(E, powers, first, n - 1, width)]
  }

  lemma {:induction false} NextChunk(c: nat, width: nat, count: nat)
    requires c < count
    ensures (c + 1) * width == c * width + width <= count * width
  { LessBy(width, c, count); }

  /** `PowersReducer::new`: enough powers for `maxWidth` values, rounded up to whole chunks. */
  method NewReducer<F(!new), B(!new)>(
    E: Extension<F, B>, base: F, maxWidth: nat, width: nat) returns (r: PowersReducer<F, B>)
    requires E.f.Laws() && width >= 1
    ensures Packed(E, r, width) && maxWidth <= |r.powers|
    ensures forall i :: 0 <= i < |r.powers| ==> r.powers[i] == E.f.Pow(base, i)
  {
    var count := CeilDiv(maxWidth, width);
    RoundsUp(maxWidth, width);
    var powers := E.f.ShiftedPowers(E.f.one, base, count * width);
    forall i | 0 <= i < |powers| ensures powers[i] == E.f.Pow(base, i)
    { E.f.ShiftedPowersAt(E.f.one, base, count * width, i); E.f.Unit(E.f.Pow(base, i)); }
    var packed := [];
    for c := 0 to count
      invariant |packed| == c && forall k: nat :: k < c ==> ChunkPacked(E, powers, packed[k], width, k * width)
    {
      NextChunk(c, width, count);
      packed := packed + [ChunkCoeffs(E, powers, c * width, width, E.degree)];
    }
    r := PowersReducer(powers, packed);
  }

  lemma {:induction false} RoundsUp(n: nat, width: nat)
    requires width >= 1
    ensures n <= CeilDiv(n, width) * width
  {
    var q, r := (n + width - 1) / width, (n + width - 1) % width;
    assert n + width - 1 == width * q + r;
  }

  /** Lane by lane: sums + xs * coeffs. */
  function AddLanes<B(!new)>(f: Field<B>, sums: seq<B>, xs: seq<B>, coeffs: seq<B>, n: nat): (r: seq<B>)
    requires n <= |sums| && n <= |xs| && n <= |coeffs|
    ensures |r| == n && forall l :: 0 <= l < n ==> r[l] == f.Add(sums[l], f.Mul(xs[l], coeffs[l]))
  {
    if n == 0 then []
    else AddLanes(f, sums, xs, coeffs, n - 1) + [f.Add(sums[n - 1], f.Mul(xs[n - 1], coeffs[n - 1]))]
  }

  /** Lane l of coefficient d holds its share of the first `end` values. */
  ghost predicate LanesAre<F(!new), B(!new)>(
    E: Extension<F, B>, powers: seq<F>, xs: seq<B>, width: nat, end: nat, lanes: seq<B>, d: nat)
    requires |xs| <= |powers| && end <= |xs|
  {
    |lanes| == width && forall l: nat :: l < width ==>
        lanes[l] == LaneSum(E.base, Terms(E, powers, xs, d, |xs|), width, l, end)
  }

  ghost predicate SumsAre<F(!new), B(!new)>(
    E: Extension<F, B>, powers: seq<F>, xs: seq<B>, width: nat, end: nat, sums: seq<seq<B>>)
    requires |xs| <= |powers| && end <= |xs|
  { |sums| == E.degree && forall d: nat :: d < E.degree ==> LanesAre(E, powers, xs, width, end, sums[d], d) }

  /** One coefficient of one chunk. */
  lemma {:induction false} LanesAdvance<F(!new), B(!new)>(
    E: Extension<F, B>, powers: seq<F>, xs: seq<B>, width: nat, first: nat, lanes: seq<B>, chunk: seq<seq<B>>, d: nat)
    requires width >= 1 && first + width <= |xs| <= |powers| && d < E.degree
    requires LanesAre(E, powers, xs, width, first, lanes, d) && ChunkPacked(E, powers, chunk, width, first)
    ensures LanesAre(E, powers, xs, width, first
        + width, AddLanes(E.base, lanes, xs[first..first + width], chunk[d], width), d)
  {
    var ts, next := Terms(E, powers, xs, d, |xs|), first + width;
    var r := AddLanes(E.base, lanes, xs[first..next], chunk[d], width);
    forall l: nat | l < width ensures r[l] == LaneSum(E.base, ts, width, l, next)
    { assert ts[first + l] == E.base.Mul(xs[first + l], chunk[d][l]); }
  }

  /** All coefficients of one chunk. */
  method AddChunk<F(!new), B(!new)>(
    E: Extension<F, B>, ghost powers: seq<F>, xs: seq<B>, width: nat, first: nat, sums: seq<seq<B>>,
    chunk: seq<seq<B>>) returns (r: seq<seq<B>>)
    requires width >= 1 && first + width <= |xs| <= |powers|
    requires SumsAre(E, powers, xs, width, first, sums) && ChunkPacked(E, powers, chunk, width, first)
    ensures SumsAre(E, powers, xs, width, first + width, r)
  {
    r := [];
    for d := 0 to E.degree
      invariant |r| == d && forall k: nat :: k < d ==> LanesAre(E, powers, xs, width, first + width, r[k], k)
    {
      LanesAdvance(E, powers, xs, width, first, sums[d], chunk, d);
      r := r + [AddLanes(E.base, sums[d], xs[first..first + width], chunk[d], width)];
    }
  }

  lemma {:induction false} LanesSum<F(!new), B(!new)>(
    E: Extension<F, B>, powers: seq<F>, xs: seq<B>, width: nat, end: nat, lanes: seq<B>, d: nat, n: nat)
    requires end <= |xs| <= |powers| && LanesAre(E, powers, xs, width, end, lanes, d) && n <= width
    ensures SumTo(E.base, lanes, n) == LanesTotal(E.base, Terms(E, powers, xs, d, |xs|), width, end, n)
  { if n > 0 { LanesSum(E, powers, xs, width, end, lanes, d, n - 1); } }

  /** Adding up the lanes of every coefficient gives the plain sum over the whole chunks. */
  method AddUpLanes<F(!new), B(!new)>(
    E: Extension<F, B>, ghost powers: seq<F>, ghost xs: seq<B>, width: nat, ghost end: nat, sums: seq<seq<B>>)
    returns (r: F)
    requires E.Laws() && end <= |xs| <= |powers| && Whole(width, end) && SumsAre(E, powers, xs, width, end, sums)
    ensures r == ScaledDot(E, powers, xs, end)
  {
    var cs := [];
    ghost var plain := ScaledDot(E, powers, xs, end);
    for d := 0 to E.degree
      invariant |cs| == d && forall k: nat :: k < d ==> cs[k] == E.Coeff(plain, k)
    {
      LanesSum(E, powers, xs, width, end, sums[d], d, width);
      LanesHoldSum(E.base, Terms(E, powers, xs, d, |xs|), width, end);
      CoeffOfDot(E, powers, xs, d, end);
      cs := cs + [SumTo(E.base, sums[d], width)];
    }
    r := E.Build(cs);
    E.SameCoeffs(r, plain);
  }

  method ZeroSums<F(!new), B(!new)>(
    E: Extension<F, B>, ghost powers: seq<F>, ghost xs: seq<B>, width: nat) returns (sums: seq<seq<B>>)
    requires width >= 1 && |xs| <= |powers|
    ensures SumsAre(E, powers, xs, width, 0, sums)
  {
    sums := [];
    for d := 0 to E.degree
      invariant |sums| == d && forall k: nat :: k < d ==> LanesAre(E, powers, xs, width, 0, sums[k], k)
    { sums := sums + [ZeroVector(E.base, width)]; }
  }

  /** `reduce_base`: for every packing width it is the sum of powers times values. */
  method ReduceBase<F(!new), B(!new)>(
    E: Extension<F, B>, r: PowersReducer<F, B>, xs: seq<B>, width: nat) returns (sum: F)
    requires E.Laws() && width >= 1 && Packed(E, r, width) && |xs| <= |r.powers|
    ensures sum == PowersDot(E.f, r.powers, Embedded(E, xs), |xs|)
  {
    var sums := ZeroSums(E, r.powers, xs, width);
    var c, first := 0, 0;
    while first + width <= |xs|
      invariant first <= |xs| && first == c * width && Whole(width, first)
      invariant SumsAre(E, r.powers, xs, width, first, sums)
    {
      ChunkThere(c, width, |r.packed|);
      sums := AddChunk(E, r.powers, xs, width, first, sums, r.packed[c]);
      c, first := c + 1, first + width;
    }
    var packed := AddUpLanes(E, r.powers, xs, width, first, sums);
    var suffix := E.f.zero;
    E.f.Unit(packed);
    for i := first to |xs|
      invariant E.f.Add(packed, suffix) == ScaledDot(E, r.powers, xs, i)
    {
      E.f.AddAssoc(packed, suffix, E.Scale(xs[i], r.powers[i]));
      suffix := E.f.Add(suffix, E.Scale(xs[i], r.powers[i]));
    }
    sum := E.f.Add(packed, suffix);
    ScaledIsDot(E, r.powers, xs, |xs|);
  }

  lemma {:induction false} ChunkThere(c: nat, width: nat, count: nat)
    requires width >= 1 && c * width + width <= count * width
    ensures c < count && (c + 1) * width == c * width + width
  { if c > count { LessBy(width, count, c); } }
}
