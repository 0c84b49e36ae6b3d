/** Fields as records of operations.

    The prover works over BabyBear and over a degree-four extension of it; neither is defined in
    this repository.  Every statement about the provers is therefore made for all fields: `Field`
    packs the operations and `Laws` states what is required of them.  The laws are quantified over
    markers (`At1`, `At2`, `At3`) so that the verifier uses a law exactly where a lemma names it. */
module Fields {

  ghost predicate At1<F>(x: F) { true }
  ghost predicate At2<F>(x: F, y: F) { true }
  ghost predicate At3<F>(x: F, y: F, z: F) { true }

  datatype Field<!F(!new)> = Field(
    zero: F, one: F, add: (F, F) -> F, sub: (F, F) -> F, mul: (F, F) -> F, div: (F, F) -> F)
  {
    function Add(x: F, y: F): F { add(x, y) }
    function Mul(x: F, y: F): F { mul(x, y) }
    function Neg(x: F): F { sub(zero, x) }
    function Inv(x: F): F { div(one, x) }
    function Sub(x: F, y: F): F { Add(x, Neg(y)) }
    function Div(x: F, y: F): F { Mul(x, Inv(y)) }
    function Two(): F { Add(one, one) }

    ghost predicate Laws() {
      && zero != one
      && (forall x: F, y: F {:trigger At2(x, y)} :: Add(x, y) == Add(y, x))
      && (forall x: F, y: F {:trigger At2(x, y)} :: Mul(x, y) == Mul(y, x))
      && (forall x: F, y: F, z: F {:trigger At3(x, y, z)} :: Add(Add(x, y), z) == Add(x, Add(y, z)))
      && (forall x: F, y: F, z: F {:trigger At3(x, y, z)} :: Mul(Mul(x, y), z) == Mul(x, Mul(y, z)))
      && (forall x: F, y: F, z: F {:trigger At3(x, y, z)} :: Mul(x, Add(y, z)) == Add(Mul(x, y), Mul(x, z)))
      && (forall x: F {:trigger At1(x)} :: Add(x, zero) == x && Mul(x, one) == x && Add(x, Neg(x)) == zero)
      && (forall x: F {:trigger At1(x)} :: x != zero ==> Mul(x, Inv(x)) == one)
    }

    // ---------- the laws, one instance at a time ----------

    lemma {:induction false} AddComm(x: F, y: F)
      requires Laws()
      ensures Add(x, y) == Add(y, x)
    { assert At2(x, y); }

    lemma {:induction false} MulComm(x: F, y: F)
      requires Laws()
      ensures Mul(x, y) == Mul(y, x)
    { assert At2(x, y); }

    lemma {:induction false} AddAssoc(x: F, y: F, z: F)
      requires Laws()
      ensures Add(Add(x, y), z) == Add(x, Add(y, z))
    { assert At3(x, y, z); }

    lemma {:induction false} MulAssoc(x: F, y: F, z: F)
      requires Laws()
      ensures Mul(Mul(x, y), z) == Mul(x, Mul(y, z))
    { assert At3(x, y, z); }

    lemma {:induction false} Distrib(x: F, y: F, z: F)
      requires Laws()
      ensures Mul(x, Add(y, z)) == Add(Mul(x, y), Mul(x, z))
      ensures Mul(Add(y, z), x) == Add(Mul(y, x), Mul(z, x))
    { assert At3(x, y, z); MulComm(x, Add(y, z)); MulComm(x, y); MulComm(x, z); }

    lemma {:induction false} Unit(x: F)
      requires Laws()
      ensures Add(x, zero) == x && Add(zero, x) == x
      ensures Mul(x, one) == x && Mul(one, x) == x
      ensures Add(x, Neg(x)) == zero && Add(Neg(x), x) == zero && Sub(x, x) == zero
    { assert At1(x); AddComm(x, zero); MulComm(x, one); AddComm(x, Neg(x)); }

    lemma {:induction false} Inverse(x: F)
      requires Laws() && x != zero
      ensures Mul(x, Inv(x)) == one && Mul(Inv(x), x) == one
    { assert At1(x); MulComm(x, Inv(x)); }

    // ---------- consequences ----------

    lemma {:induction false} AddSwap(a: F, b: F, c: F, d: F)
      requires Laws()
      ensures Add(Add(a, b), Add(c, d)) == Add(Add(a, c), Add(b, d))
    { AddAssoc(a, b, Add(c, d)); AddAssoc(b, c, d); AddComm(b, c); AddAssoc(c, b, d); AddAssoc(a, c, Add(b, d)); }

    lemma {:induction false} MulSwap(a: F, b: F, c: F, d: F)
      requires Laws()
      ensures Mul(Mul(a, b), Mul(c, d)) == Mul(Mul(a, c), Mul(b, d))
    { MulAssoc(a, b, Mul(c, d)); MulAssoc(b, c, d); MulComm(b, c); MulAssoc(c, b, d); MulAssoc(a, c, Mul(b, d)); }

    /** Pull the middle factor out: a(bc) = b(ac). */
    lemma {:induction false} MulLift(a: F, b: F, c: F)
      requires Laws()
      ensures Mul(a, Mul(b, c)) == Mul(b, Mul(a, c))
    { MulAssoc(a, b, c); MulComm(a, b); MulAssoc(b, a, c); }

    lemma {:induction false} AddCancel(a: F, b: F, c: F)
      requires Laws() && Add(a, b) == Add(a, c)
      ensures b == c
    { AddAssoc(Neg(a), a, b); AddAssoc(Neg(a), a, c); Unit(a); Unit(b); Unit(c); }

    lemma {:induction false} NegUnique(a: F, b: F)
      requires Laws() && Add(a, b) == zero
      ensures b == Neg(a)
    { Unit(a); AddCancel(a, b, Neg(a)); }

    lemma {:induction false} MulZero(x: F)
      requires Laws()
      ensures Mul(x, zero) == zero && Mul(zero, x) == zero
    { var m := Mul(x, zero); Unit(zero); Distrib(x, zero, zero); Unit(m); AddCancel(m, m, zero); MulComm(x, zero); }

    lemma {:induction false} NegNeg(x: F)
      requires Laws()
      ensures Neg(Neg(x)) == x && Neg(zero) == zero
    { Unit(x); NegUnique(Neg(x), x); Unit(zero); NegUnique(zero, zero); }

    lemma {:induction false} MulNeg(a: F, b: F)
      requires Laws()
      ensures Mul(a, Neg(b)) == Neg(Mul(a, b)) && Mul(Neg(a), b) == Neg(Mul(a, b))
      ensures Mul(Neg(a), Neg(b)) == Mul(a, b)
    {
      MulNegRight(a, b); MulNegRight(b, a); MulComm(a, b); MulComm(b, Neg(a));
      MulNegRight(Neg(a), b); NegNeg(Mul(a, b));
    }

    lemma {:induction false} MulNegRight(a: F, b: F)
      requires Laws()
      ensures Mul(a, Neg(b)) == Neg(Mul(a, b))
    { Distrib(a, b, Neg(b)); Unit(b); MulZero(a); NegUnique(Mul(a, b), Mul(a, Neg(b))); }

    lemma {:induction false} NegAdd(a: F, b: F)
      requires Laws()
      ensures Neg(Add(a, b)) == Add(Neg(a), Neg(b))
      ensures Neg(Sub(a, b)) == Sub(b, a)
    {
      NegAddOnce(a, b); NegAddOnce(a, Neg(b)); NegNeg(b); AddComm(Neg(a), b);
    }

    lemma {:induction false} NegAddOnce(a: F, b: F)
      requires Laws()
      ensures Neg(Add(a, b)) == Add(Neg(a), Neg(b))
    { AddSwap(a, b, Neg(a), Neg(b)); Unit(a); Unit(b); Unit(zero); NegUnique(Add(a, b), Add(Neg(a), Neg(b))); }

    lemma {:induction false} DistribSub(x: F, y: F, z: F)
      requires Laws()
      ensures Mul(x, Sub(y, z)) == Sub(Mul(x, y), Mul(x, z))
      ensures Mul(Sub(y, z), x) == Sub(Mul(y, x), Mul(z, x))
    { Distrib(x, y, Neg(z)); MulNeg(x, z); MulNeg(z, x); }

    lemma {:induction false} SubAdd(a: F, b: F)
      requires Laws()
      ensures Add(Sub(a, b), b) == a && Sub(Add(a, b), b) == a
    { AddAssoc(a, Neg(b), b); AddAssoc(a, b, Neg(b)); Unit(b); Unit(a); }

    /** (a + b) - (c + d) = (a - c) + (b - d). */
    lemma {:induction false} SubSwap(a: F, b: F, c: F, d: F)
      requires Laws()
      ensures Sub(Add(a, b), Add(c, d)) == Add(Sub(a, c), Sub(b, d))
    { NegAdd(c, d); AddSwap(a, b, Neg(c), Neg(d)); }

    lemma {:induction false} NoZeroDivisors(a: F, b: F)
      requires Laws() && a != zero && b != zero
      ensures Mul(a, b) != zero
    {
      if Mul(a, b) == zero { MulAssoc(Inv(a), a, b); Inverse(a); Unit(b); MulZero(Inv(a)); }
    }

    lemma {:induction false} MulCancel(a: F, b: F, c: F)
      requires Laws() && a != zero && Mul(a, b) == Mul(a, c)
      ensures b == c
    { MulAssoc(Inv(a), a, b); MulAssoc(Inv(a), a, c); Inverse(a); Unit(b); Unit(c); }

    lemma {:induction false} InverseUnique(a: F, b: F)
      requires Laws() && Mul(a, b) == one
      ensures a != zero && b == Inv(a)
    { MulZero(b); Inverse(a); MulCancel(a, b, Inv(a)); }

    lemma {:induction false} InverseMul(a: F, b: F)
      requires Laws() && a != zero && b != zero
      ensures Mul(a, b) != zero && Inv(Mul(a, b)) == Mul(Inv(a), Inv(b))
    {
      NoZeroDivisors(a, b);
      MulSwap(a, b, Inv(a), Inv(b)); Inverse(a); Inverse(b); Unit(one);
      InverseUnique(Mul(a, b), Mul(Inv(a), Inv(b)));
    }

    lemma {:induction false} InverseNeg(a: F)
      requires Laws() && a != zero
      ensures Neg(a) != zero && Inv(Neg(a)) == Neg(Inv(a))
    { MulNeg(a, Inv(a)); Inverse(a); InverseUnique(Neg(a), Neg(Inv(a))); }

    /** A quotient is the only solution of its equation. */
    lemma {:induction false} DivUnique(q: F, a: F, b: F)
      requires Laws() && b != zero
      ensures Mul(b, q) == a <==> q == Div(a, b)
    {
      MulComm(b, q); MulAssoc(q, b, Inv(b)); MulAssoc(a, Inv(b), b); Inverse(b); Unit(q); Unit(a);
      MulComm(b, Div(a, b));
    }

    // ---------- powers ----------

    function Pow(x: F, n: nat): F { if n == 0 then one else Mul(x, Pow(x, n - 1)) }

    /** `base.shifted_powers(start).take(n)`: start, start * base, start * base^2, ... */
    function ShiftedPowers(start: F, base: F, n: nat): (r: seq<F>)
      ensures |r| == n
    { if n == 0 then [] else ShiftedPowers(start, base, n - 1) + [Mul(start, Pow(base, n - 1))] }

    lemma {:induction false} ShiftedPowersAt(start: F, base: F, n: nat, i: nat)
      requires i < n
      ensures ShiftedPowers(start, base, n)[i] == Mul(start, Pow(base, i))
    { if i < n - 1 { ShiftedPowersAt(start, base, n - 1, i); } }

    lemma {:induction false} PowAdd(x: F, m: nat, n: nat)
      requires Laws()
      ensures Pow(x, m + n) == Mul(Pow(x, m), Pow(x, n))
    {
      if m == 0 { Unit(Pow(x, n)); }
      else { PowAdd(x, m - 1, n); MulAssoc(x, Pow(x, m - 1), Pow(x, n)); }
    }

    lemma {:induction false} PowOne(n: nat)
      requires Laws()
      ensures Pow(one, n) == one
    { if n > 0 { PowOne(n - 1); Unit(one); } }

    lemma {:induction false} PowMul(x: F, m: nat, n: nat)
      requires Laws()
      ensures Pow(x, m * n) == Pow(Pow(x, m), n)
    {
      if n == 0 { assert m * n == 0; }
      else { PowMul(x, m, n - 1); PowAdd(x, m, m * (n - 1)); assert m + m * (n - 1) == m * n; }
    }

    lemma {:induction false} PowProduct(x: F, y: F, n: nat)
      requires Laws()
      ensures Pow(Mul(x, y), n) == Mul(Pow(x, n), Pow(y, n))
    {
      if n == 0 { Unit(one); }
      else { PowProduct(x, y, n - 1); MulSwap(x, y, Pow(x, n - 1), Pow(y, n - 1)); }
    }

    lemma {:induction false} PowNonZero(x: F, n: nat)
      requires Laws() && x != zero
      ensures Pow(x, n) != zero
    { if n > 0 { PowNonZero(x, n - 1); NoZeroDivisors(x, Pow(x, n - 1)); } }

    lemma {:induction false} PowInverse(x: F, n: nat)
      requires Laws() && x != zero
      ensures Pow(Inv(x), n) == Inv(Pow(x, n)) && Pow(x, n) != zero
    {
      if n == 0 { Unit(one); InverseUnique(one, one); }
      else { PowInverse(x, n - 1); InverseMul(x, Pow(x, n - 1)); }
    }

    // ---------- finite sums ----------

    function Sum(s: seq<F>): F { if s == [] then zero else Add(Sum(s[..|s| - 1]), s[|s| - 1]) }

    lemma {:induction false} SumPush(s: seq<F>, x: F)
      ensures Sum(s + [x]) == Add(Sum(s), x)
    { assert (s + [x])[..|s|] == s; }

    lemma {:induction false} SumConcat(s: seq<F>, t: seq<F>)
      requires Laws()
      ensures Sum(s + t) == Add(Sum(s), Sum(t))
    {
      if t == [] { assert s + t == s; Unit(Sum(s)); }
      else {
        var u, x := t[..|t| - 1], t[|t| - 1];
        assert s + t == (s + u) + [x];
        SumPush(s + u, x); SumConcat(s, u); AddAssoc(Sum(s), Sum(u), x);
      }
    }

    lemma {:induction false} SumScale(c: F, s: seq<F>, t: seq<F>)
      requires Laws() && |s| == |t| && forall i :: 0 <= i < |s| ==> t[i] == Mul(c, s[i])
      ensures Sum(t) == Mul(c, Sum(s))
    {
      if s == [] { MulZero(c); }
      else {
        var n := |s| - 1;
        SumScale(c, s[..n], t[..n]);
        Distrib(c, Sum(s[..n]), s[n]);
      }
    }

    lemma {:induction false} SumAdd(s: seq<F>, t: seq<F>, u: seq<F>)
      requires Laws() && |s| == |t| == |u| && forall i :: 0 <= i < |s| ==> u[i] == Add(s[i], t[i])
      ensures Sum(u) == Add(Sum(s), Sum(t))
    {
      if s == [] { Unit(zero); }
      else {
        var n := |s| - 1;
        SumAdd(s[..n], t[..n], u[..n]);
        AddSwap(Sum(s[..n]), Sum(t[..n]), s[n], t[n]);
      }
    }

    lemma {:induction false} SumZero(s: seq<F>)
      requires Laws() && forall i :: 0 <= i < |s| ==> s[i] == zero
      ensures Sum(s) == zero
    { if s != [] { SumZero(s[..|s| - 1]); Unit(zero); } }

    /** A sum with one nonzero term. */
    lemma {:induction false} SumSingle(s: seq<F>, k: nat)
      requires Laws() && k < |s| && forall i :: 0 <= i < |s| && i != k ==> s[i] == zero
      ensures Sum(s) == s[k]
    {
      var n := |s| - 1;
      if k == n { SumZero(s[..n]); Unit(s[n]); }
      else { SumSingle(s[..n], k); Unit(s[k]); }
    }
  }
}
