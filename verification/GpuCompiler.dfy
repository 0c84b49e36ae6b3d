/** Folding constraints while recording: the compiled accumulator against the CPU folder's. */
module GpuCompiler {
  import opened Basics
  import opened BabyBear
  import opened GpuIr
  import opened GpuRecorder

  // ---------- the degree-four extension ----------

  /** Extension elements are four base coefficients modulo X^4 - 11. */
  const W: nat := 11

  /** Term j of coefficient k of a product. */
  function ProductTerm(x: seq<nat>, y: seq<nat>, k: nat, j: nat): nat
    requires |x| == |y| == 4 && k < 4 && j < 4
  { if j <= k then FMul(x[j], y[k - j]) else FMul(FMul(x[j], y[4 + k - j]), W) }

  /** The first j terms of coefficient k of a product. */
  function ProductSum(x: seq<nat>, y: seq<nat>, k: nat, j: nat): nat
    requires |x| == |y| == 4 && k < 4 && j <= 4
  { if j == 0 then 0 else FAdd(ProductSum(x, y, k, j - 1), ProductTerm(x, y, k, j - 1)) }

  function ExtMul(x: seq<nat>, y: seq<nat>): (r: seq<nat>)
    requires |x| == |y| == 4
    ensures |r| == 4
  { Coefficients(x, y, 4) }

  /** The first k coefficients of a product. */
  function Coefficients(x: seq<nat>, y: seq<nat>, k: nat): (r: seq<nat>)
    requires |x| == |y| == 4 && k <= 4
    ensures |r| == k && forall i :: 0 <= i < k ==> r[i] == ProductSum(x, y, i, 4)
  { if k == 0 then [] else Coefficients(x, y, k - 1) + [ProductSum(x, y, k - 1, 4)] }

  function ExtAdd(x: seq<nat>, y: seq<nat>): (r: seq<nat>)
    requires |x| == |y| == 4
    ensures |r| == 4
  { [FAdd(x[0], y[0]), FAdd(x[1], y[1]), FAdd(x[2], y[2]), FAdd(x[3], y[3])] }

  /** Adding a base element touches the first coefficient only. */
  function ExtAddBase(x: seq<nat>, b: nat): (r: seq<nat>)
    requires |x| == 4
    ensures |r| == 4
  { x[0 := FAdd(x[0], b)] }

  // ---------- the CPU folder ----------

  /** A constraint value: from the base field or from the extension. */
  datatype Constraint = Base(value: nat) | Ext(coeffs: seq<nat>)

  ghost predicate ConstraintOk(c: Constraint) { c.Ext? ==> |c.coeffs| == 4 }

  function Fold(acc: seq<nat>, alpha: seq<nat>, c: Constraint): (r: seq<nat>)
    requires |acc| == |alpha| == 4 && ConstraintOk(c)
    ensures |r| == 4
  {
    var scaled := ExtMul(acc, alpha);
    match c case Base(b) => ExtAddBase(scaled, b) case Ext(e) => ExtAdd(scaled, e)
  }

  /** `ProverConstraintFolder`, one lane. */
  class ProverConstraintFolder {
    const alpha: seq<nat>
    var accumulator: seq<nat>

    constructor (alpha: seq<nat>)
      requires |alpha| == 4
      ensures this.alpha == alpha && accumulator == [0, 0, 0, 0]
    { this.alpha := alpha; accumulator := [0, 0, 0, 0]; }

    method AssertZero(x: nat)
      requires |alpha| == |accumulator| == 4
      modifies this
      ensures accumulator == Fold(old(accumulator), alpha, Base(x))
    {
      accumulator := ExtMul(accumulator, alpha);
      accumulator := ExtAddBase(accumulator, x);
    }

    method AssertZeroExt(x: seq<nat>)
      requires |alpha| == |accumulator| == |x| == 4
      modifies this
      ensures accumulator == Fold(old(accumulator), alpha, Ext(x))
    {
      accumulator := ExtMul(accumulator, alpha);
      accumulator := ExtAdd(accumulator, x);
    }
  }

  // ---------- recorded extension arithmetic ----------

  ghost predicate Handles(hs: seq<nat>, n: nat) { |hs| == 4 && forall i :: 0 <= i < 4 ==> hs[i] < n }

  /** The value of four handles on a row. */
  function ExtValue(row: Row, words: seq<nat>, n: nat, hs: seq<nat>): (r: seq<nat>)
    requires Ssa(words, n) && Handles(hs, n)
    ensures |r| == 4
  {
    [FieldValue(row, words, n, hs[0]), FieldValue(row, words, n, hs[1]),
     FieldValue(row, words, n, hs[2]), FieldValue(row, words, n, hs[3])]
  }

  lemma {:induction false} KeepsExt(words: seq<nat>, n: nat, words': seq<nat>, n': nat, hs: seq<nat>)
    requires Extends(words, n, words', n') && Handles(hs, n)
    ensures Handles(hs, n')
    ensures forall row :: ExtValue(row, words', n', hs) == ExtValue(row, words, n, hs)
  { Keeps(words, n, words', n'); }

  /** Handle h holds, on every row, the first j terms of coefficient k of the product of a and b,
      two values recorded by (w0, n0); and the same for term j alone. */
  ghost predicate SumHeld(
    w: seq<nat>, n: nat, h: nat, w0: seq<nat>, n0: nat, a: seq<nat>, b: seq<nat>, k: nat, j: nat)
    requires Ssa(w0, n0) && Handles(a, n0) && Handles(b, n0) && k < 4 && j <= 4
  {
    && Ssa(w, n) && h < n
    && forall row :: FieldValue(row, w, n, h) == ProductSum(ExtValue(row, w0, n0, a), ExtValue(row, w0, n0, b), k, j)
  }

  ghost predicate TermHeld(
    w: seq<nat>, n: nat, h: nat, w0: seq<nat>, n0: nat, a: seq<nat>, b: seq<nat>, k: nat, j: nat)
    requires Ssa(w0, n0) && Handles(a, n0) && Handles(b, n0) && k < 4 && j < 4
  {
    && Ssa(w, n) && h < n
    && forall row :: FieldValue(row, w, n, h) == ProductTerm(ExtValue(row, w0, n0, a), ExtValue(row, w0, n0, b), k, j)
  }

  lemma {:induction false} SumKept(
    w: seq<nat>, n: nat, w': seq<nat>, n': nat, h: nat, w0: seq<nat>, n0: nat, a: seq<nat>, b: seq<nat>, k: nat,
    j: nat)
    requires Ssa(w0, n0) && Handles(a, n0) && Handles(b, n0) && k < 4 && j <= 4
    requires Extends(w, n, w', n') && SumHeld(w, n, h, w0, n0, a, b, k, j)
    ensures SumHeld(w', n', h, w0, n0, a, b, k, j)
  { Keeps(w, n, w', n'); }

  /** The handles c hold the first coefficients of a product. */
  ghost predicate SumsHeld(w: seq<nat>, n: nat, c: seq<nat>, w0: seq<nat>, n0: nat, a: seq<nat>, b: seq<nat>)
    requires Ssa(w0, n0) && Handles(a, n0) && Handles(b, n0) && |c| <= 4
  { forall i :: 0 <= i < |c| ==> SumHeld(w, n, c[i], w0, n0, a, b, i, 4) }

  lemma {:induction false} SumsPush(
    w: seq<nat>, n: nat, w': seq<nat>, n': nat, c: seq<nat>, h: nat, w0: seq<nat>, n0: nat, a: seq<nat>, b: seq<nat>)
    requires Ssa(w0, n0) && Handles(a, n0) && Handles(b, n0) && |c| < 4 && Extends(w, n, w', n')
    requires SumsHeld(w, n, c, w0, n0, a, b) && SumHeld(w', n', h, w0, n0, a, b, |c|, 4)
    ensures SumsHeld(w', n', c + [h], w0, n0, a, b)
  {
    forall i | 0 <= i < |c| ensures SumHeld(w', n', c[i], w0, n0, a, b, i, 4)
    { SumKept(w, n, w', n', c[i], w0, n0, a, b, i, 4); }
  }

  /** Coefficient k of a product of values recorded by (w0, n0), where handle w holds W. */
  method EmitProductCoefficient(
    ctx: IrContext, a: seq<nat>, b: seq<nat>, w: nat, k: nat, ghost w0: seq<nat>, ghost n0: nat)
    returns (h: nat)
    requires ctx.Valid() && Extends(w0, n0, ctx.words, ctx.nextReg) && Handles(a, n0) && Handles(b, n0) && w < n0
        && k < 4
    requires forall row :: FieldValue(row, w0, n0, w) == W
    modifies ctx
    ensures Extends(old(ctx.words), old(ctx.nextReg), ctx.words, ctx.nextReg)
    ensures SumHeld(ctx.words, ctx.nextReg, h, w0, n0, a, b, k, 4)
  {
    ghost var w2, n2 := ctx.words, ctx.nextReg;
    h := ctx.FromCanonical(0);
    var j := 0;
    while j < 4
      invariant 0 <= j <= 4 && Extends(w2, n2, ctx.words, ctx.nextReg)
      invariant SumHeld(ctx.words, ctx.nextReg, h, w0, n0, a, b, k, j)
    {
      ghost var w3, n3 := ctx.words, ctx.nextReg;
      var t := EmitProductTerm(ctx, a, b, w, k, j, w0, n0);
      SumKept(w3, n3, ctx.words, ctx.nextReg, h, w0, n0, a, b, k, j);
      h := EmitSum(ctx, h, t, a, b, k, j, w0, n0);
      j := j + 1;
    }
  }

  /** One more term of a coefficient. */
  method EmitSum(
    ctx: IrContext, h: nat, t: nat, ghost a: seq<nat>, ghost b: seq<nat>, ghost k: nat, ghost j: nat,
    ghost w0: seq<nat>, ghost n0: nat)
    returns (sum: nat)
    requires ctx.Valid() && Ssa(w0, n0) && Handles(a, n0) && Handles(b, n0) && k < 4 && j < 4
    requires SumHeld(ctx.words, ctx.nextReg, h, w0, n0, a, b, k, j)
        && TermHeld(ctx.words, ctx.nextReg, t, w0, n0, a, b, k, j)
    modifies ctx
    ensures Extends(old(ctx.words), old(ctx.nextReg), ctx.words, ctx.nextReg)
    ensures SumHeld(ctx.words, ctx.nextReg, sum, w0, n0, a, b, k, j + 1)
  { sum := ctx.EmitBinop(OP_ADD, h, t); }

  /** One term of a coefficient. */
  method EmitProductTerm(
    ctx: IrContext, a: seq<nat>, b: seq<nat>, w: nat, k: nat, j: nat, ghost w0: seq<nat>, ghost n0: nat)
    returns (t: nat)
    requires ctx.Valid() && Extends(w0, n0, ctx.words, ctx.nextReg) && Handles(a, n0) && Handles(b, n0) && w < n0
        && k < 4 && j < 4
    requires forall row :: FieldValue(row, w0, n0, w) == W
    modifies ctx
    ensures Extends(old(ctx.words), old(ctx.nextReg), ctx.words, ctx.nextReg)
    ensures TermHeld(ctx.words, ctx.nextReg, t, w0, n0, a, b, k, j)
  {
    var i := if j <= k then k - j else 4 + k - j;
    t := EmitCross(ctx, a, b, j, i, w0, n0);
    if j > k {
      Keeps(w0, n0, ctx.words, ctx.nextReg);
      t := ctx.EmitBinop(OP_MUL, t, w);
    }
  }

  /** The product of coefficient j of a and coefficient i of b. */
  method EmitCross(
    ctx: IrContext, a: seq<nat>, b: seq<nat>, j: nat, i: nat, ghost w0: seq<nat>, ghost n0: nat) returns (t: nat)
    requires ctx.Valid() && Extends(w0, n0, ctx.words, ctx.nextReg) && Handles(a, n0) && Handles(b, n0) && j < 4
        && i < 4
    modifies ctx
    ensures Extends(old(ctx.words), old(ctx.nextReg), ctx.words, ctx.nextReg) && t < ctx.nextReg
    ensures forall row :: FieldValue(row, ctx.words, ctx.nextReg, t)
              == FMul(ExtValue(row, w0, n0, a)[j], ExtValue(row, w0, n0, b)[i])
  {
    Keeps(w0, n0, ctx.words, ctx.nextReg);
    t := ctx.EmitBinop(OP_MUL, a[j], b[i]);
    forall row ensures FieldValue(row, ctx.words, ctx.nextReg, t)
        == FMul(ExtValue(row, w0, n0, a)[j], ExtValue(row, w0, n0, b)[i])
    { ExtValueAt(row, w0, n0, a, j); ExtValueAt(row, w0, n0, b, i); }
  }

  lemma {:induction false} ExtValueAt(row: Row, words: seq<nat>, n: nat, hs: seq<nat>, i: nat)
    requires Ssa(words, n) && Handles(hs, n) && i < 4
    ensures ExtValue(row, words, n, hs)[i] == FieldValue(row, words, n, hs[i])
  {}

  /** A recorded extension product. */
  method EmitExtMul(ctx: IrContext, a: seq<nat>, b: seq<nat>) returns (c: seq<nat>)
    requires ctx.Valid() && Handles(a, ctx.nextReg) && Handles(b, ctx.nextReg)
    modifies ctx
    ensures ctx.Valid() && Handles(c, ctx.nextReg)
        && Extends(old(ctx.words), old(ctx.nextReg), ctx.words, ctx.nextReg)
    ensures forall row :: ExtValue(row, ctx.words, ctx.nextReg, c)
              == ExtMul(ExtValue(row, old(ctx.words), old(ctx.nextReg), a),
                  ExtValue(row, old(ctx.words), old(ctx.nextReg), b))
  {
    ghost var w0, n0 := ctx.words, ctx.nextReg;
    var w := ctx.FromCanonical(W);
    ghost var w1, n1 := ctx.words, ctx.nextReg;
    KeepsExt(w0, n0, w1, n1, a); KeepsExt(w0, n0, w1, n1, b);
    c := [];
    var k := 0;
    while k < 4
      invariant 0 <= k <= 4 && |c| == k && Extends(w1, n1, ctx.words, ctx.nextReg)
      invariant SumsHeld(ctx.words, ctx.nextReg, c, w1, n1, a, b)
    {
      ghost var w2, n2 := ctx.words, ctx.nextReg;
      var h := EmitProductCoefficient(ctx, a, b, w, k, w1, n1);
      SumsPush(w2, n2, ctx.words, ctx.nextReg, c, h, w1, n1, a, b);
      c := c + [h];
      k := k + 1;
    }
    ProductHeld(ctx.words, ctx.nextReg, c, w1, n1, a, b);
  }

  /** Four held coefficients are a held product. */
  lemma {:induction false} ProductHeld(
    w: seq<nat>, n: nat, c: seq<nat>, w0: seq<nat>, n0: nat, a: seq<nat>, b: seq<nat>)
    requires Ssa(w, n) && Ssa(w0, n0) && Handles(a, n0) && Handles(b, n0)
    requires |c| == 4 && SumsHeld(w, n, c, w0, n0, a, b)
    ensures Handles(c, n)
    ensures forall row :: ExtValue(row, w, n, c) == ExtMul(ExtValue(row, w0, n0, a), ExtValue(row, w0, n0, b))
  {
    forall row ensures ExtValue(row, w, n, c) == ExtMul(ExtValue(row, w0, n0, a), ExtValue(row, w0, n0, b)) {
      var x, y := ExtValue(row, w0, n0, a), ExtValue(row, w0, n0, b);
      forall i | 0 <= i < 4 ensures ExtValue(row, w, n, c)[i] == ProductSum(x, y, i, 4)
      { assert SumHeld(w, n, c[i], w0, n0, a, b, i, 4); ExtValueAt(row, w, n, c, i); }
      ProductIs(x, y, ExtValue(row, w, n, c));
    }
  }

  lemma {:induction false} ProductIs(x: seq<nat>, y: seq<nat>, c: seq<nat>)
    requires |x| == |y| == |c| == 4 && forall i :: 0 <= i < 4 ==> c[i] == ProductSum(x, y, i, 4)
    ensures c == ExtMul(x, y)
  {}

  /** A recorded extension value plus a recorded base value. */
  method EmitExtAddBase(ctx: IrContext, a: seq<nat>, x: nat) returns (c: seq<nat>)
    requires ctx.Valid() && Handles(a, ctx.nextReg) && x < ctx.nextReg
    modifies ctx
    ensures ctx.Valid() && Handles(c, ctx.nextReg)
        && Extends(old(ctx.words), old(ctx.nextReg), ctx.words, ctx.nextReg)
    ensures forall row :: ExtValue(row, ctx.words, ctx.nextReg, c)
              == ExtAddBase(ExtValue(row, old(ctx.words), old(ctx.nextReg), a),
                  FieldValue(row, old(ctx.words), old(ctx.nextReg), x))
  {
    ghost var w0, n0 := ctx.words, ctx.nextReg;
    var h := ctx.EmitBinop(OP_ADD, a[0], x);
    Keeps(w0, n0, ctx.words, ctx.nextReg);
    c := a[0 := h];
  }

  /** `ConstraintCompiler`: the recording builder's folding state. */
  class ConstraintCompiler {
    const ctx: IrContext
    const alphaIr: seq<nat>
    var accumulator: seq<nat>

    ghost predicate Valid()
      reads this, ctx
    { ctx.Valid() && Handles(alphaIr, ctx.nextReg) && Handles(accumulator, ctx.nextReg) }

    /** Folding starts from the recorded zero. */
    constructor (ctx: IrContext, alphaIr: seq<nat>)
      requires ctx.Valid() && Handles(alphaIr, ctx.nextReg)
      modifies ctx
      ensures Valid() && this.ctx == ctx && this.alphaIr == alphaIr
      ensures Extends(old(ctx.words), old(ctx.nextReg), ctx.words, ctx.nextReg)
      ensures forall row :: ExtValue(row, ctx.words, ctx.nextReg, accumulator) == [0, 0, 0, 0]
    {
      this.ctx := ctx;
      this.alphaIr := alphaIr;
      var z := ctx.FromCanonical(0);
      accumulator := [z, z, z, z];
    }

    method AssertZero(x: nat)
      requires Valid() && x < ctx.nextReg
      modifies this, ctx
      ensures Valid() && Extends(old(ctx.words), old(ctx.nextReg), ctx.words, ctx.nextReg)
      ensures forall row :: ExtValue(row, ctx.words, ctx.nextReg, accumulator)
                == Fold(ExtValue(row, old(ctx.words), old(ctx.nextReg), old(accumulator)),
                        ExtValue(row, old(ctx.words), old(ctx.nextReg), alphaIr),
                        Base(FieldValue(row, old(ctx.words), old(ctx.nextReg), x)))
    {
      ghost var w0, n0 := ctx.words, ctx.nextReg;
      accumulator := EmitExtMul(ctx, accumulator, alphaIr);
      Keeps(w0, n0, ctx.words, ctx.nextReg);
      accumulator := EmitExtAddBase(ctx, accumulator, x);
    }

    method AssertZeroExt(x: seq<nat>)
      requires Valid() && Handles(x, ctx.nextReg)
      modifies this, ctx
      ensures Valid() && Extends(old(ctx.words), old(ctx.nextReg), ctx.words, ctx.nextReg)
      ensures forall row :: ExtValue(row, ctx.words, ctx.nextReg, accumulator)
                == Fold(ExtValue(row, old(ctx.words), old(ctx.nextReg), old(accumulator)),
                        ExtValue(row, old(ctx.words), old(ctx.nextReg), alphaIr),
                        Ext(ExtValue(row, old(ctx.words), old(ctx.nextReg), x)))
    {
      ghost var w0, n0 := ctx.words, ctx.nextReg;
      accumulator := EmitExtMul(ctx, accumulator, alphaIr);
      KeepsExt(w0, n0, ctx.words, ctx.nextReg, x);
      accumulator := EmitExtAdd(ctx, accumulator, x);
    }
  }

  /** A recorded extension sum. */
  method EmitExtAdd(ctx: IrContext, a: seq<nat>, b: seq<nat>) returns (c: seq<nat>)
    requires ctx.Valid() && Handles(a, ctx.nextReg) && Handles(b, ctx.nextReg)
    modifies ctx
    ensures ctx.Valid() && Handles(c, ctx.nextReg)
        && Extends(old(ctx.words), old(ctx.nextReg), ctx.words, ctx.nextReg)
    ensures forall row :: ExtValue(row, ctx.words, ctx.nextReg, c)
              == ExtAdd(ExtValue(row, old(ctx.words), old(ctx.nextReg), a),
                  ExtValue(row, old(ctx.words), old(ctx.nextReg), b))
  {
    ghost var w0, n0 := ctx.words, ctx.nextReg;
    c := [];
    var k := 0;
    while k < 4
      invariant 0 <= k <= 4 && |c| == k && Extends(w0, n0, ctx.words, ctx.nextReg)
      invariant PairsHeld(ctx.words, ctx.nextReg, c, w0, n0, a, b)
    {
      ghost var w1, n1 := ctx.words, ctx.nextReg;
      Keeps(w0, n0, w1, n1);
      var h := ctx.EmitBinop(OP_ADD, a[k], b[k]);
      PairsPush(w1, n1, ctx.words, ctx.nextReg, c, h, w0, n0, a, b);
      c := c + [h];
      k := k + 1;
    }
    PairsAdd(ctx.words, ctx.nextReg, c, w0, n0, a, b);
  }

  /** The handles c hold the first coefficients of a sum. */
  ghost predicate PairsHeld(w: seq<nat>, n: nat, c: seq<nat>, w0: seq<nat>, n0: nat, a: seq<nat>, b: seq<nat>)
    requires Ssa(w0, n0) && Handles(a, n0) && Handles(b, n0) && |c| <= 4
  { forall i :: 0 <= i < |c| ==> PairHeld(w, n, c[i], w0, n0, a[i], b[i]) }

  lemma {:induction false} PairsPush(
    w: seq<nat>, n: nat, w': seq<nat>, n': nat, c: seq<nat>, h: nat, w0: seq<nat>, n0: nat, a: seq<nat>, b: seq<nat>)
    requires Ssa(w0, n0) && Handles(a, n0) && Handles(b, n0) && |c| < 4 && Extends(w, n, w', n')
    requires PairsHeld(w, n, c, w0, n0, a, b) && PairHeld(w', n', h, w0, n0, a[|c|], b[|c|])
    ensures PairsHeld(w', n', c + [h], w0, n0, a, b)
  {
    forall i | 0 <= i < |c| ensures PairHeld(w', n', c[i], w0, n0, a[i], b[i])
    { PairKept(w, n, w', n', c[i], w0, n0, a[i], b[i]); }
  }

  /** Four held coefficients are a held sum. */
  lemma {:induction false} PairsAdd(w: seq<nat>, n: nat, c: seq<nat>, w0: seq<nat>, n0: nat, a: seq<nat>, b: seq<nat>)
    requires Ssa(w, n) && Ssa(w0, n0) && Handles(a, n0) && Handles(b, n0)
    requires |c| == 4 && PairsHeld(w, n, c, w0, n0, a, b)
    ensures Handles(c, n)
    ensures forall row :: ExtValue(row, w, n, c) == ExtAdd(ExtValue(row, w0, n0, a), ExtValue(row, w0, n0, b))
  {
    assert PairHeld(w, n, c[0], w0, n0, a[0], b[0]) && PairHeld(w, n, c[1], w0, n0, a[1], b[1]);
    assert PairHeld(w, n, c[2], w0, n0, a[2], b[2]) && PairHeld(w, n, c[3], w0, n0, a[3], b[3]);
  }

  /** Handle h holds, on every row, the sum of x and y, two values recorded by (w0, n0). */
  ghost predicate PairHeld(w: seq<nat>, n: nat, h: nat, w0: seq<nat>, n0: nat, x: nat, y: nat)
    requires Ssa(w0, n0) && x < n0 && y < n0
  {
    && Ssa(w, n) && h < n
    && forall row :: FieldValue(row, w, n, h) == FAdd(FieldValue(row, w0, n0, x), FieldValue(row, w0, n0, y))
  }

  lemma {:induction false} PairKept(
    w: seq<nat>, n: nat, w': seq<nat>, n': nat, h: nat, w0: seq<nat>, n0: nat, x: nat, y: nat)
    requires Ssa(w0, n0) && x < n0 && y < n0 && Extends(w, n, w', n') && PairHeld(w, n, h, w0, n0, x, y)
    ensures PairHeld(w', n', h, w0, n0, x, y)
  { Keeps(w, n, w', n'); }

  // ---------- the compiled program ----------

  /** What the GPU leaves in the accumulator registers of a program, decoded. */
  function Decoded(row: Row, words: seq<nat>, n: nat, acc: seq<nat>, regs: seq<nat>): seq<nat>
    requires WellFormed(words, n, |regs|) && Handles(acc, |regs|)
  {
    var r := Exec(MontyAlu(row), words, n, regs, n);
    [FromMonty(r[acc[0]]), FromMonty(r[acc[1]]), FromMonty(r[acc[2]]), FromMonty(r[acc[3]])]
  }

  /** End to end: recording, Montgomery form and register compaction together lose nothing.  Running
      the compacted program on any row, from any register contents, and decoding its accumulator
      gives the field value of the recorded accumulator. */
  lemma {:induction false} CompiledMeaning(
    row: Row, words: seq<nat>, n: nat, acc: seq<nat>, lastUse: seq<nat>, words': seq<nat>, regs': nat,
    acc': seq<nat>, regs: seq<nat>)
    requires Ssa(words, n) && Handles(acc, n) && IsCompaction(words, n, acc, lastUse, words', regs', acc')
        && |regs| == regs'
    ensures WellFormed(words', n, regs') && Handles(acc', regs')
    ensures Decoded(row, words', n, acc', regs) == ExtValue(row, words, n, acc)
  {
    SsaWellFormed(words, n);
    CompactionPreserves(MontyAlu(row), words, n, acc, lastUse, words', regs', acc', Zeros(n), regs);
    ExecIsValue(MontyAlu(row), words, n, Zeros(n), n);
    forall k | 0 <= k < 4
      ensures FromMonty(Exec(MontyAlu(row), words', n, regs, n)[acc'[k]]) == FieldValue(row, words, n, acc[k])
    { DecodedValue(row, words, n, acc[k]); }
  }

  /** The program, run on any row from any register contents, decodes to a recorded value. */
  ghost predicate DecodesTo(program: ConstraintProgram, words: seq<nat>, n: nat, acc: seq<nat>)
    requires Ssa(words, n) && Handles(acc, n)
    reads program
  {
    && program.Valid() && |program.words| == 4 * n && program.numRegs <= n
    && forall row, regs: seq<nat> :: |regs| == program.numRegs ==>
         Decoded(row, program.words, n, program.accumulatorRegs, regs) == ExtValue(row, words, n, acc)
  }

  /** The end of `compile_constraints`: take the recording, then compact it. */
  method Finish(
    compiler: ConstraintCompiler, mainWidth: nat, prepWidth: nat, permU32Width: nat)
    returns (program: ConstraintProgram)
    requires compiler.Valid()
    ensures program.mainWidth == mainWidth && program.prepWidth == prepWidth && program.permU32Width == permU32Width
    ensures DecodesTo(program, compiler.ctx.words, compiler.ctx.nextReg, compiler.accumulator)
  {
    var words, n, acc := compiler.ctx.words, compiler.ctx.nextReg, compiler.accumulator;
    SsaWellFormed(words, n);
    program := new ConstraintProgram(words, n, acc, mainWidth, prepWidth, permU32Width);
    program.CompactRegisters();
    ghost var lastUse :| IsCompaction(words, n, acc, lastUse, program.words, program.numRegs,
        program.accumulatorRegs);
    forall row, regs: seq<nat> | |regs| == program.numRegs
      ensures Decoded(row, program.words, n, program.accumulatorRegs, regs) == ExtValue(row, words, n, acc)
    { CompiledMeaning(row, words, n, acc, lastUse, program.words, program.numRegs, program.accumulatorRegs, regs); }
  }
}
