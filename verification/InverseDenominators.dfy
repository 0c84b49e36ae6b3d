/** The inverse denominators 1 / (x - z) that all openings at a point share. */
module InverseDenominators {
  import opened Bits
  import opened Fields
  import opened TwoAdic

  /** One round: the log heights of its matrices, and for each matrix the points it is opened at. */
  datatype RoundDims<F> = RoundDims(logs: seq<nat>, points: seq<seq<F>>)

  // ---------- the tallest matrix opened at each point ----------

  function Raise<F>(tops: map<F, nat>, z: F, log: nat): map<F, nat> {
    tops[z := if z in tops && log < tops[z] then tops[z] else log]
  }

  function RaisePoints<F>(tops: map<F, nat>, log: nat, points: seq<F>, n: nat): map<F, nat>
    requires n <= |points|
  { if n == 0 then tops else Raise(RaisePoints(tops, log, points, n - 1), points[n - 1], log) }

  function RaiseMats<F>(tops: map<F, nat>, round: RoundDims<F>, n: nat): map<F, nat>
    requires n <= |round.logs| && n <= |round.points|
  {
    if n == 0 then tops
    else RaisePoints(RaiseMats(tops, round, n - 1), round.logs[n - 1], round.points[n - 1], |round.points[n - 1]|)
  }

  ghost predicate RoundsOk<F>(rounds: seq<RoundDims<F>>)
  { forall r :: 0 <= r < |rounds| ==> |rounds[r].logs| == |rounds[r].points| }

  function RaiseRounds<F>(rounds: seq<RoundDims<F>>, n: nat): map<F, nat>
    requires RoundsOk(rounds) && n <= |rounds|
  { if n == 0 then map[] else RaiseMats(RaiseRounds(rounds, n - 1), rounds[n - 1], |rounds[n - 1].logs|) }

  /** Growing: every point keeps its place and its log height only rises. */
  ghost predicate Grows<F>(a: map<F, nat>, b: map<F, nat>) { forall z :: z in a ==> z in b && a[z] <= b[z] }

  lemma {:induction false} PointsGrow<F>(tops: map<F, nat>, log: nat, points: seq<F>, n: nat)
    requires n <= |points|
    ensures var t := RaisePoints(tops, log, points, n);
      Grows(tops, t) && forall p :: 0 <= p < n ==> points[p] in t && log <= t[points[p]]
  { if n > 0 { PointsGrow(tops, log, points, n - 1); } }

  lemma {:induction false} MatsGrow<F>(tops: map<F, nat>, round: RoundDims<F>, n: nat)
    requires n <= |round.logs| && n <= |round.points|
    ensures Grows(tops, RaiseMats(tops, round, n))
    ensures forall m :: 0 <= m < n ==> Served(RaiseMats(tops, round, n), round.logs[m], round.points[m])
  {
    if n > 0 {
      MatsGrow(tops, round, n - 1);
      PointsGrow(RaiseMats(tops, round, n - 1), round.logs[n - 1], round.points[n - 1], |round.points[n - 1]|);
    }
  }

  /** Every point of a matrix is recorded with at least the matrix's log height. */
  ghost predicate Served<F>(tops: map<F, nat>, log: nat, points: seq<F>) {
    forall p :: 0 <= p < |points| ==> points[p] in tops && log <= tops[points[p]]
  }

  lemma {:induction false} RoundsGrow<F>(rounds: seq<RoundDims<F>>, n: nat, r: nat, m: nat)
    requires RoundsOk(rounds) && r < n <= |rounds| && m < |rounds[r].logs|
    ensures Served(RaiseRounds(rounds, n), rounds[r].logs[m], rounds[r].points[m])
  {
    MatsGrow(RaiseRounds(rounds, n - 1), rounds[n - 1], |rounds[n - 1].logs|);
    if r < n - 1 { RoundsGrow(rounds, n - 1, r, m); }
  }

  /** The recorded log heights are heights of matrices: none exceeds a bound on them. */
  ghost predicate Below<F>(tops: map<F, nat>, bound: nat) { forall z :: z in tops ==> tops[z] <= bound }

  lemma {:induction false} PointsBelow<F>(tops: map<F, nat>, log: nat, points: seq<F>, n: nat, bound: nat)
    requires n <= |points| && Below(tops, bound) && log <= bound
    ensures Below(RaisePoints(tops, log, points, n), bound)
  { if n > 0 { PointsBelow(tops, log, points, n - 1, bound); } }

  lemma {:induction false} MatsBelow<F>(tops: map<F, nat>, round: RoundDims<F>, n: nat, bound: nat)
    requires n <= |round.logs| && n <= |round.points| && Below(tops, bound) && forall m :: 0 <= m < |round.logs| ==>
        round.logs[m] <= bound
    ensures Below(RaiseMats(tops, round, n), bound)
  {
    if n > 0 {
      MatsBelow(tops, round, n - 1, bound);
      PointsBelow(RaiseMats(tops, round, n - 1), round.logs[n - 1], round.points[n - 1], |round.points[n - 1]|,
          bound);
    }
  }

  ghost predicate AllLogs<F>(rounds: seq<RoundDims<F>>, bound: nat) {
    forall r, m :: 0 <= r < |rounds| && 0 <= m < |rounds[r].logs| ==> rounds[r].logs[m] <= bound
  }

  lemma {:induction false} RoundsBelow<F>(rounds: seq<RoundDims<F>>, n: nat, bound: nat)
    requires RoundsOk(rounds) && n <= |rounds| && AllLogs(rounds, bound)
    ensures Below(RaiseRounds(rounds, n), bound)
  {
    if n > 0 { RoundsBelow(rounds, n - 1, bound);
        MatsBelow(RaiseRounds(rounds, n - 1), rounds[n - 1], |rounds[n - 1].logs|, bound); }
  }

  // ---------- truncating a bit-reversed coset ----------

  /** The bit-reversed domain of order 2^k is the beginning of the one of order 2^m. */
  lemma {:induction false} PointTruncates<F(!new)>(T: TwoAdicField<F>, k: nat, m: nat, j: nat)
    requires T.Laws() && k <= m <= T.bits && j < Pow2(k)
    ensures T.Point(m, j) == T.Point(k, j)
  {
    BitRevPad(j, k, m);
    T.GenPow(m, m - k);
    T.f.PowMul(T.Gen(m), Pow2(m - k), BitRev(j, k));
  }

  /** The coset, in bit-reversed order. */
  function Coset<F(!new)>(T: TwoAdicField<F>, shift: F, k: nat): (r: seq<F>)
    ensures |r| == Pow2(k)
  { BitReversed(T.f.ShiftedPowers(shift, T.Gen(k), Pow2(k)), k) }

  lemma {:induction false} CosetIs<F(!new)>(T: TwoAdicField<F>, shift: F, k: nat, j: nat)
    requires j < Pow2(k)
    ensures Coset(T, shift, k)[j] == T.f.Mul(shift, T.Point(k, j))
  {
    BitReversedAt(T.f.ShiftedPowers(shift, T.Gen(k), Pow2(k)), k, j);
    T.f.ShiftedPowersAt(shift, T.Gen(k), Pow2(k), BitRev(j, k));
  }

  /** 1 / (x - z) for the first n points of a domain. */
  function Inverses<F(!new)>(f: Field<F>, domain: seq<F>, z: F, n: nat): (r: seq<F>)
    requires n <= |domain|
    ensures |r| == n
  { if n == 0 then [] else Inverses(f, domain, z, n - 1) + [f.Inv(f.Sub(domain[n - 1], z))] }

  lemma {:induction false} InversesAt<F(!new)>(f: Field<F>, domain: seq<F>, z: F, n: nat, j: nat)
    requires j < n <= |domain|
    ensures Inverses(f, domain, z, n)[j] == f.Inv(f.Sub(domain[j], z))
  { if j < n - 1 { InversesAt(f, domain, z, n - 1, j); } }

  /** The vector serves openings at z of matrices of height 2^k. */
  ghost predicate Serves<F(!new)>(T: TwoAdicField<F>, shift: F, v: seq<F>, z: F, k: nat) {
    && Pow2(k) <= |v|
    && forall j: nat {:trigger AtIndex(j)} :: j < Pow2(k) ==>
        v[j] == T.f.Inv(T.f.Sub(T.f.Mul(shift, T.Point(k, j)), z))
  }

  /** Truncation is sound: a vector computed for 2^m points on the domain of order 2^top serves every
      smaller height. */
  lemma {:induction false} TruncationServes<F(!new)>(T: TwoAdicField<F>, shift: F, top: nat, m: nat, k: nat, z: F)
    requires T.Laws() && k <= m <= top <= T.bits
    ensures Pow2(m) <= Pow2(top) && Serves(T, shift, Inverses(T.f, Coset(T, shift, top), z, Pow2(m)), z, k)
  {
    Pow2Monotone(m, top); Pow2Monotone(k, m);
    forall j: nat | j < Pow2(k)
      ensures Inverses(T.f, Coset(T, shift, top), z, Pow2(m))[j] == T.f.Inv(T.f.Sub(T.f.Mul(shift, T.Point(k, j)), z))
    {
      InversesAt(T.f, Coset(T, shift, top), z, Pow2(m), j);
      CosetIs(T, shift, top, j);
      PointTruncates(T, k, top, j);
    }
  }

  /** z is not on the coset of order 2^k. */
  ghost predicate OffDomain<F(!new)>(T: TwoAdicField<F>, shift: F, k: nat, z: F) {
    forall j: nat {:trigger AtIndex(j)} :: j < Pow2(k) ==> T.f.Sub(T.f.Mul(shift, T.Point(k, j)), z) != T.f.zero
  }

  // ---------- computing them ----------

  /** For each recorded point, the inverses over the coset of its own size. */
  function InvDenoms<F(!new)>(T: TwoAdicField<F>, shift: F, tops: map<F, nat>): map<F, seq<F>> {
    map z | z in tops :: Inverses(T.f, Coset(T, shift, tops[z]), z, Pow2(tops[z]))
  }

  lemma {:induction false} SameInverses<F(!new)>(T: TwoAdicField<F>, shift: F, top: nat, m: nat, z: F, n: nat)
    requires T.Laws() && m <= top <= T.bits && n <= Pow2(m)
    ensures n <= Pow2(top) && Inverses(T.f, Coset(T, shift, top), z, n) == Inverses(T.f, Coset(T, shift, m), z, n)
  {
    Pow2Monotone(m, top);
    if n > 0 {
      SameInverses(T, shift, top, m, z, n - 1);
      CosetIs(T, shift, top, n - 1); CosetIs(T, shift, m, n - 1);
      PointTruncates(T, m, top, n - 1);
    }
  }

  /** The largest recorded log height. */
  method LargestLog<F(==)>(tops: map<F, nat>) returns (top: nat)
    requires tops != map[]
    ensures Below(tops, top) && exists z :: z in tops && tops[z] == top
  {
    var rest := tops.Keys;
    var z :| z in rest;
    top := tops[z];
    rest := rest - {z};
    while rest != {}
      invariant rest <= tops.Keys && (exists y :: y in tops && tops[y] == top)
      invariant forall y :: y in tops && y !in rest ==> tops[y] <= top
      decreases |rest|
    {
      var y :| y in rest;
      if top < tops[y] { top := tops[y]; }
      rest := rest - {y};
    }
  }

  /** Record one matrix's points. */
  method RecordPoints<F(==)>(before: map<F, nat>, log: nat, points: seq<F>) returns (tops: map<F, nat>)
    ensures tops == RaisePoints(before, log, points, |points|)
  {
    tops := before;
    for p := 0 to |points|
      invariant tops == RaisePoints(before, log, points, p)
    {
      var z := points[p];
      if z in tops { if tops[z] <= log { tops := tops[z := log]; } } else { tops := tops[z := log]; }
      assert tops == Raise(RaisePoints(before, log, points, p), z, log);
    }
  }

  method RecordTops<F(==)>(rounds: seq<RoundDims<F>>) returns (tops: map<F, nat>)
    requires RoundsOk(rounds)
    ensures tops == RaiseRounds(rounds, |rounds|)
  {
    tops := map[];
    for r := 0 to |rounds|
      invariant tops == RaiseRounds(rounds, r)
    {
      ghost var before := tops;
      for m := 0 to |rounds[r].logs|
        invariant tops == RaiseMats(before, rounds[r], m)
      { tops := RecordPoints(tops, rounds[r].logs[m], rounds[r].points[m]); }
    }
  }

  /** One coset, as large as the tallest opened matrix, in bit-reversed order; each point takes the
      beginning it needs. */
  method InvertPrefixes<F(!new, ==)>(T: TwoAdicField<F>, shift: F, tops: map<F, nat>) returns (denoms: map<F, seq<F>>)
    requires T.Laws() && tops != map[] && Below(tops, T.bits)
    ensures denoms == InvDenoms(T, shift, tops)
  {
    var top := LargestLog(tops);
    var domain := Coset(T, shift, top);
    forall z | z in tops ensures Pow2(tops[z]) <= |domain|
      && Inverses(T.f, domain, z, Pow2(tops[z])) == Inverses(T.f, Coset(T, shift, tops[z]), z, Pow2(tops[z]))
    { SameInverses(T, shift, top, tops[z], z, Pow2(tops[z])); }
    denoms := map z | z in tops :: Inverses(T.f, domain, z, Pow2(tops[z]));
  }

  /** `compute_inverse_denominators_from_dims`. */
  method ComputeFromDims<F(!new, ==)>(
    T: TwoAdicField<F>, shift: F, rounds: seq<RoundDims<F>>) returns (denoms: map<F, seq<F>>)
    requires T.Laws() && RoundsOk(rounds) && AllLogs(rounds, T.bits) && RaiseRounds(rounds, |rounds|) != map[]
    ensures denoms == InvDenoms(T, shift, RaiseRounds(rounds, |rounds|))
  {
    var tops := RecordTops(rounds);
    RoundsBelow(rounds, |rounds|, T.bits);
    denoms := InvertPrefixes(T, shift, tops);
  }

  /** What every opening relies on: its point is present and its vector serves its matrix. */
  lemma {:induction false} DenomsServe<F(!new)>(
    T: TwoAdicField<F>, shift: F, rounds: seq<RoundDims<F>>, r: nat, m: nat, p: nat)
    requires T.Laws() && RoundsOk(rounds) && AllLogs(rounds, T.bits)
    requires r < |rounds| && m < |rounds[r].logs| && p < |rounds[r].points[m]|
    ensures var z, denoms := rounds[r].points[m][p], InvDenoms(T, shift, RaiseRounds(rounds, |rounds|));
      z in denoms && Serves(T, shift, denoms[z], z, rounds[r].logs[m])
  {
    var tops, z := RaiseRounds(rounds, |rounds|), rounds[r].points[m][p];
    RoundsGrow(rounds, |rounds|, r, m);
    RoundsBelow(rounds, |rounds|, T.bits);
    TruncationServes(T, shift, tops[z], tops[z], rounds[r].logs[m], z);
  }
}
