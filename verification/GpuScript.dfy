/** Whole evaluations: an AIR's constraints as a script that a builder runs.  The recording builder
    and the CPU folder run the same script, and the compiled program computes the folder's result. */
module GpuScript {
  import opened Basics
  import opened BabyBear
  import opened GpuIr
  import opened GpuRecorder
  import opened GpuCompiler

  // ---------- scripts and what they compute ----------

  /** One operation of an evaluation.  Operands are positions among the values made so far; an
      extension value is four of them.  The evaluation code is generic in the builder, so it asks the
      same operations of both. */
  datatype Op =
    | Number(n: nat)
    | Column(load: nat, col: nat)
    | Arith(op: nat, a: nat, b: nat)
    | Negate(a: nat)
    | Assert(a: nat)
    | AssertExt(coeffs: seq<nat>)
  {
    predicate MakesValue() { !Assert? && !AssertExt? }

    /** The operation makes sense when n values exist. */
    predicate Fits(n: nat) {
      match this
      case Number(_) => true
      case Column(load, _) => OP_LOAD_MAIN_LOCAL <= load <= OP_LOAD_SELECTOR
      case Arith(op, a, b) => (op == OP_ADD || op == OP_SUB || op == OP_MUL) && a < n && b < n
      case Negate(a) => a < n
      case Assert(a) => a < n
      case AssertExt(coeffs) => |coeffs| == 4 && forall i :: 0 <= i < 4 ==> coeffs[i] < n
    }
  }

  /** How many values the first i operations make. */
  function Made(script: seq<Op>, i: nat): nat
    requires i <= |script|
  { if i == 0 then 0 else Made(script, i - 1) + if script[i - 1].MakesValue() then 1 else 0 }

  /** Every operation uses values that exist when it runs, of which there are n at the start. */
  ghost predicate ScriptOk(script: seq<Op>, n: nat) {
    forall i :: 0 <= i < |script| ==> script[i].Fits(n + Made(script, i))
  }

  /** The field value an operation makes on a row. */
  function ValueOf(row: Row, values: seq<nat>, o: Op): nat
    requires o.MakesValue() && o.Fits(|values|)
  {
    match o
    case Number(n) => n % P
    case Column(load, col) => FromMonty(row.Load(load, col))
    case Arith(op, a, b) => FieldApply(op, values[a], values[b])
    case Negate(a) => FNeg(values[a])
  }

  /** The values made so far and the folded constraints. */
  datatype Evaluation = Evaluation(values: seq<nat>, acc: seq<nat>)

  function Step(row: Row, alpha: seq<nat>, e: Evaluation, o: Op): (r: Evaluation)
    requires |alpha| == |e.acc| == 4 && o.Fits(|e.values|)
    ensures |r.acc| == 4 && |r.values| == |e.values| + if o.MakesValue() then 1 else 0
  {
    match o
    case Assert(a) => e.(acc := Fold(e.acc, alpha, Base(e.values[a])))
    case AssertExt(c) =>
      e.(acc := Fold(e.acc, alpha, Ext([e.values[c[0]], e.values[c[1]], e.values[c[2]], e.values[c[3]]])))
    case _ => e.(values := e.values + [ValueOf(row, e.values, o)])
  }

  /** The evaluation of the first i operations over field values. */
  function Evaluate(row: Row, alpha: seq<nat>, e: Evaluation, script: seq<Op>, i: nat): (r: Evaluation)
    requires |alpha| == |e.acc| == 4 && ScriptOk(script, |e.values|) && i <= |script|
    ensures |r.acc| == 4 && |r.values| == |e.values| + Made(script, i)
  { if i == 0 then e else Step(row, alpha, Evaluate(row, alpha, e, script, i - 1), script[i - 1]) }

  // ---------- the CPU path ----------

  /** Run a script on a row's field values with the CPU folder. */
  method FoldOnCpu(row: Row, alpha: seq<nat>, inputs: seq<Op>, script: seq<Op>) returns (acc: seq<nat>)
    requires |alpha| == 4 && Leaves(inputs) && ScriptOk(script, |inputs|)
    ensures acc == CpuAccumulator(row, alpha, inputs, script)
  {
    var folder := new ProverConstraintFolder(alpha);
    var values := LeafValues(row, inputs);
    ghost var e := Evaluation(values, [0, 0, 0, 0]);
    var i := 0;
    while i < |script|
      invariant i <= |script| && fresh(folder) && folder.alpha == alpha
      invariant Evaluation(values, folder.accumulator) == Evaluate(row, alpha, e, script, i)
    {
      values := CpuStep(folder, row, values, script[i]);
      i := i + 1;
    }
    acc := folder.accumulator;
  }

  method CpuStep(folder: ProverConstraintFolder, row: Row, values: seq<nat>, o: Op) returns (values': seq<nat>)
    requires |folder.alpha| == |folder.accumulator| == 4 && o.Fits(|values|)
    modifies folder
    ensures Evaluation(values', folder.accumulator)
        == Step(row, folder.alpha, Evaluation(values, old(folder.accumulator)), o)
  {
    values' := values;
    match o
    case Assert(a) => folder.AssertZero(values[a]);
    case AssertExt(c) => folder.AssertZeroExt([values[c[0]], values[c[1]], values[c[2]], values[c[3]]]);
    case _ => values' := values + [ValueOf(row, values, o)];
  }

  // ---------- the recording path ----------

  /** Handle k holds value k on this row. */
  ghost predicate Holds(row: Row, words: seq<nat>, n: nat, handles: seq<nat>, values: seq<nat>) {
    && Ssa(words, n) && |handles| == |values|
    && forall k :: 0 <= k < |handles| ==> handles[k] < n && FieldValue(row, words, n, handles[k]) == values[k]
  }

  /** A recording stands for an evaluation. */
  ghost predicate Stands(row: Row, words: seq<nat>, n: nat, handles: seq<nat>, acc: seq<nat>, e: Evaluation) {
    Holds(row, words, n, handles, e.values) && Handles(acc, n) && ExtValue(row, words, n, acc) == e.acc
  }

  lemma {:induction false} KeepsHolds(
    row: Row, words: seq<nat>, n: nat, words': seq<nat>, n': nat, handles: seq<nat>, values: seq<nat>)
    requires Extends(words, n, words', n') && Holds(row, words, n, handles, values)
    ensures Holds(row, words', n', handles, values)
  { Keeps(words, n, words', n'); }

  lemma {:induction false} HoldsPush(
    row: Row, words: seq<nat>, n: nat, handles: seq<nat>, values: seq<nat>, h: nat, v: nat)
    requires Holds(row, words, n, handles, values) && h < n && FieldValue(row, words, n, h) == v
    ensures Holds(row, words, n, handles + [h], values + [v])
  {}

  ghost predicate Below(handles: seq<nat>, n: nat) { forall k :: 0 <= k < |handles| ==> handles[k] < n }

  /** Record one value; on every row it is what the operation makes of the operands' values. */
  method EmitValue(ctx: IrContext, handles: seq<nat>, o: Op) returns (h: nat)
    requires ctx.Valid() && Below(handles, ctx.nextReg) && o.MakesValue() && o.Fits(|handles|)
    modifies ctx
    ensures ctx.Valid() && h < ctx.nextReg && Extends(old(ctx.words), old(ctx.nextReg), ctx.words, ctx.nextReg)
    ensures forall row, values :: Holds(row, old(ctx.words), old(ctx.nextReg), handles, values) ==>
              FieldValue(row, ctx.words, ctx.nextReg, h) == ValueOf(row, values, o)
  {
    match o
    case Number(n) => h := ctx.FromCanonical(n);
    case Column(load, col) => h := ctx.EmitLoad(load, col);
    case Arith(op, a, b) => h := ctx.EmitBinop(op, handles[a], handles[b]);
    case Negate(a) => h := ctx.EmitUnop(handles[a]);
  }

  /** A recorded value extends what the recording stands for. */
  lemma {:induction false} StandsValue(
    row: Row, w: seq<nat>, n: nat, w': seq<nat>, n': nat, handles: seq<nat>, acc: seq<nat>, alpha: seq<nat>,
    e: Evaluation, o: Op, h: nat)
    requires Extends(w, n, w', n') && Stands(row, w, n, handles, acc, e) && |alpha| == 4
    requires o.MakesValue() && o.Fits(|handles|) && h < n' && FieldValue(row, w', n', h) == ValueOf(row, e.values, o)
    ensures Stands(row, w', n', handles + [h], acc, Step(row, alpha, e, o))
  {
    KeepsHolds(row, w, n, w', n', handles, e.values);
    KeepsExt(w, n, w', n', acc);
    HoldsPush(row, w', n', handles, e.values, h, ValueOf(row, e.values, o));
  }

  /** A recorded constraint changes the accumulator only. */
  lemma {:induction false} StandsFold(
    row: Row, w: seq<nat>, n: nat, w': seq<nat>, n': nat, handles: seq<nat>, acc: seq<nat>, acc': seq<nat>,
    e: Evaluation, folded: seq<nat>)
    requires Extends(w, n, w', n') && Stands(row, w, n, handles, acc, e)
    requires Handles(acc', n') && ExtValue(row, w', n', acc') == folded
    ensures Stands(row, w', n', handles, acc', e.(acc := folded))
  { KeepsHolds(row, w, n, w', n', handles, e.values); }

  /** Whatever evaluation the recording stood for, it now stands for the one after operation o. */
  ghost predicate Advances(
    w: seq<nat>, n: nat, handles: seq<nat>, acc: seq<nat>, alphaIr: seq<nat>, o: Op,
    w': seq<nat>, n': nat, handles': seq<nat>, acc': seq<nat>)
    requires Ssa(w, n) && Handles(alphaIr, n) && o.Fits(|handles|)
  {
    && Extends(w, n, w', n') && Below(handles', n') && |handles'| == |handles| + (if o.MakesValue() then 1 else 0)
    && forall row, e :: Stands(row, w, n, handles, acc, e) ==>
         Stands(row, w', n', handles', acc', Step(row, ExtValue(row, w, n, alphaIr), e, o))
  }

  /** The same after the first i operations of a script. */
  ghost predicate Follows(
    w: seq<nat>, n: nat, handles: seq<nat>, acc: seq<nat>, alphaIr: seq<nat>, script: seq<Op>, i: nat,
    w': seq<nat>, n': nat, handles': seq<nat>, acc': seq<nat>)
    requires Ssa(w, n) && Handles(alphaIr, n) && ScriptOk(script, |handles|) && i <= |script|
  {
    forall row, e :: Stands(row, w, n, handles, acc, e) ==>
      Stands(row, w', n', handles', acc', Evaluate(row, ExtValue(row, w, n, alphaIr), e, script, i))
  }

  /** Run one operation on the recording builder. */
  method RecordStep(compiler: ConstraintCompiler, handles: seq<nat>, o: Op) returns (handles': seq<nat>)
    requires compiler.Valid() && Below(handles, compiler.ctx.nextReg) && o.Fits(|handles|)
    modifies compiler, compiler.ctx
    ensures compiler.Valid()
    ensures Advances(old(compiler.ctx.words), old(compiler.ctx.nextReg), handles, old(compiler.accumulator),
                     compiler.alphaIr, o,
                     compiler.ctx.words, compiler.ctx.nextReg, handles', compiler.accumulator)
  {
    match o
    case Assert(a) => RecordBase(compiler, handles, a); handles' := handles;
    case AssertExt(c) => RecordExt(compiler, handles, c); handles' := handles;
    case _ => handles' := RecordValue(compiler, handles, o);
  }

  method RecordValue(compiler: ConstraintCompiler, handles: seq<nat>, o: Op) returns (handles': seq<nat>)
    requires compiler.Valid() && Below(handles, compiler.ctx.nextReg) && o.Fits(|handles|) && o.MakesValue()
    modifies compiler.ctx
    ensures compiler.Valid()
    ensures Advances(old(compiler.ctx.words), old(compiler.ctx.nextReg), handles, compiler.accumulator,
                     compiler.alphaIr, o,
                     compiler.ctx.words, compiler.ctx.nextReg, handles', compiler.accumulator)
  {
    ghost var w, n, acc := compiler.ctx.words, compiler.ctx.nextReg, compiler.accumulator;
    var h := EmitValue(compiler.ctx, handles, o);
    handles' := handles + [h];
    ghost var w', n' := compiler.ctx.words, compiler.ctx.nextReg;
    forall row, e | Stands(row, w, n, handles, acc, e)
      ensures Stands(row, w', n', handles', acc, Step(row, ExtValue(row, w, n, compiler.alphaIr), e, o))
    { StandsValue(row, w, n, w', n', handles, acc, ExtValue(row, w, n, compiler.alphaIr), e, o, h); }
  }

  method RecordBase(compiler: ConstraintCompiler, handles: seq<nat>, a: nat)
    requires compiler.Valid() && Below(handles, compiler.ctx.nextReg) && a < |handles|
    modifies compiler, compiler.ctx
    ensures compiler.Valid()
    ensures Advances(old(compiler.ctx.words), old(compiler.ctx.nextReg), handles, old(compiler.accumulator),
                     compiler.alphaIr, Assert(a),
                     compiler.ctx.words, compiler.ctx.nextReg, handles, compiler.accumulator)
  {
    ghost var w, n, acc := compiler.ctx.words, compiler.ctx.nextReg, compiler.accumulator;
    compiler.AssertZero(handles[a]);
    ghost var w', n', acc' := compiler.ctx.words, compiler.ctx.nextReg, compiler.accumulator;
    forall row, e | Stands(row, w, n, handles, acc, e)
      ensures Stands(row, w', n', handles, acc', Step(row, ExtValue(row, w, n, compiler.alphaIr), e, Assert(a)))
    { StandsFold(row, w, n, w', n', handles, acc, acc', e, ExtValue(row, w', n', acc')); }
  }

  method RecordExt(compiler: ConstraintCompiler, handles: seq<nat>, c: seq<nat>)
    requires compiler.Valid() && Below(handles, compiler.ctx.nextReg) && AssertExt(c).Fits(|handles|)
    modifies compiler, compiler.ctx
    ensures compiler.Valid()
    ensures Advances(old(compiler.ctx.words), old(compiler.ctx.nextReg), handles, old(compiler.accumulator),
                     compiler.alphaIr, AssertExt(c),
                     compiler.ctx.words, compiler.ctx.nextReg, handles, compiler.accumulator)
  {
    ghost var w, n, acc := compiler.ctx.words, compiler.ctx.nextReg, compiler.accumulator;
    var x := [handles[c[0]], handles[c[1]], handles[c[2]], handles[c[3]]];
    compiler.AssertZeroExt(x);
    ghost var w', n', acc' := compiler.ctx.words, compiler.ctx.nextReg, compiler.accumulator;
    forall row, e | Stands(row, w, n, handles, acc, e)
      ensures Stands(row, w', n', handles, acc', Step(row, ExtValue(row, w, n, compiler.alphaIr), e, AssertExt(c)))
    {
      assert ExtValue(row, w, n, x) == [e.values[c[0]], e.values[c[1]], e.values[c[2]], e.values[c[3]]];
      StandsFold(row, w, n, w', n', handles, acc, acc', e, ExtValue(row, w', n', acc'));
    }
  }

  /** Run a script on the recording builder.  The recording stays in SSA form, every handle holds its
      value, and the accumulator is folded as the CPU folds it, from whatever they were before. */
  method RecordScript(compiler: ConstraintCompiler, start: seq<nat>, script: seq<Op>) returns (handles: seq<nat>)
    requires compiler.Valid() && Below(start, compiler.ctx.nextReg) && ScriptOk(script, |start|)
    modifies compiler, compiler.ctx
    ensures compiler.Valid() && Below(handles, compiler.ctx.nextReg)
    ensures Extends(old(compiler.ctx.words), old(compiler.ctx.nextReg), compiler.ctx.words, compiler.ctx.nextReg)
    ensures Follows(old(compiler.ctx.words), old(compiler.ctx.nextReg), start, old(compiler.accumulator),
                    compiler.alphaIr,
                    script, |script|, compiler.ctx.words, compiler.ctx.nextReg, handles, compiler.accumulator)
  {
    ghost var w, n, acc, alphaIr := compiler.ctx.words, compiler.ctx.nextReg, compiler.accumulator, compiler.alphaIr;
    handles := start;
    var i := 0;
    while i < |script|
      invariant i <= |script| && compiler.Valid() && Below(handles, compiler.ctx.nextReg)
      invariant |handles| == |start| + Made(script, i) && Extends(w, n, compiler.ctx.words, compiler.ctx.nextReg)
      invariant Follows(w, n, start, acc, alphaIr, script, i, compiler.ctx.words, compiler.ctx.nextReg, handles,
          compiler.accumulator)
    {
      KeepsExt(w, n, compiler.ctx.words, compiler.ctx.nextReg, alphaIr);
      handles := RecordStep(compiler, handles, script[i]);
      i := i + 1;
    }
  }

  // ---------- the whole compilation ----------

  /** The first `width` columns of one kind. */
  function Columns(load: nat, width: nat): (r: seq<Op>)
    ensures |r| == width && forall i :: 0 <= i < width ==> r[i] == Column(load, i)
  { if width == 0 then [] else Columns(load, width - 1) + [Column(load, width - 1)] }

  /** The coefficients of extension constants. */
  function Numbers(xs: seq<nat>): (r: seq<Op>)
    ensures |r| == |xs| && forall i :: 0 <= i < |xs| ==> r[i] == Number(xs[i])
  { if xs == [] then [] else Numbers(xs[..|xs| - 1]) + [Number(xs[|xs| - 1])] }

  /** The columns of one trace, in the row itself and in the next one. */
  function TwoRows(local: nat, next: nat, width: nat): (r: seq<Op>)
    ensures |r| == 2 * width
  { Columns(local, width) + Columns(next, width) }

  /** Two rows of the preprocessed, main and permutation traces and the selectors. */
  function Loads(prepWidth: nat, mainWidth: nat, permU32Width: nat): (r: seq<Op>)
    ensures |r| == 2 * (prepWidth + mainWidth + permU32Width) + 3
  {
    TwoRows(OP_LOAD_PREP_LOCAL, OP_LOAD_PREP_NEXT, prepWidth)
        + TwoRows(OP_LOAD_MAIN_LOCAL, OP_LOAD_MAIN_NEXT, mainWidth)
    + TwoRows(OP_LOAD_PERM_LOCAL, OP_LOAD_PERM_NEXT, permU32Width) + Columns(OP_LOAD_SELECTOR, 3)
  }

  /** What an evaluation starts from, in the order recorded: the loads, alpha, and the coefficients of
      the permutation challenges and the cumulative sum. */
  function Inputs(prepWidth: nat, mainWidth: nat, permU32Width: nat, alpha: seq<nat>, constants: seq<nat>): seq<Op>
  { Loads(prepWidth, mainWidth, permU32Width) + Numbers(alpha) + Numbers(constants) }

  ghost predicate Leaves(ops: seq<Op>) { forall i :: 0 <= i < |ops| ==> ops[i].MakesValue() && ops[i].Fits(0) }

  /** The values of constants and columns on a row. */
  function LeafValues(row: Row, ops: seq<Op>): (r: seq<nat>)
    requires Leaves(ops)
    ensures |r| == |ops| && forall i :: 0 <= i < |ops| ==> r[i] == ValueOf(row, [], ops[i])
  { if ops == [] then [] else LeafValues(row, ops[..|ops| - 1]) + [ValueOf(row, [], ops[|ops| - 1])] }

  lemma {:induction false} LeavesConcat(xs: seq<Op>, ys: seq<Op>)
    requires Leaves(xs) && Leaves(ys)
    ensures Leaves(xs + ys)
  {}

  lemma {:induction false} TwoRowsLeaves(local: nat, next: nat, width: nat)
    requires OP_LOAD_MAIN_LOCAL <= local <= OP_LOAD_SELECTOR && OP_LOAD_MAIN_LOCAL <= next <= OP_LOAD_SELECTOR
    ensures Leaves(TwoRows(local, next, width))
  { LeavesConcat(Columns(local, width), Columns(next, width)); }

  lemma {:induction false} LoadsAreLeaves(prepWidth: nat, mainWidth: nat, permU32Width: nat)
    ensures Leaves(Loads(prepWidth, mainWidth, permU32Width))
  {
    var prep := TwoRows(OP_LOAD_PREP_LOCAL, OP_LOAD_PREP_NEXT, prepWidth);
    var main := TwoRows(OP_LOAD_MAIN_LOCAL, OP_LOAD_MAIN_NEXT, mainWidth);
    var perm := TwoRows(OP_LOAD_PERM_LOCAL, OP_LOAD_PERM_NEXT, permU32Width);
    TwoRowsLeaves(OP_LOAD_PREP_LOCAL, OP_LOAD_PREP_NEXT, prepWidth);
    TwoRowsLeaves(OP_LOAD_MAIN_LOCAL, OP_LOAD_MAIN_NEXT, mainWidth);
    TwoRowsLeaves(OP_LOAD_PERM_LOCAL, OP_LOAD_PERM_NEXT, permU32Width);
    LeavesConcat(prep, main);
    LeavesConcat(prep + main, perm);
    LeavesConcat(prep + main + perm, Columns(OP_LOAD_SELECTOR, 3));
  }

  /** The inputs can be recorded first, and alpha's coefficients follow the loads. */
  lemma {:induction false} InputsAreLeaves(
    prepWidth: nat, mainWidth: nat, permU32Width: nat, alpha: seq<nat>, constants: seq<nat>)
    ensures var ops, at := Inputs(prepWidth, mainWidth, permU32Width, alpha, constants),
        |Loads(prepWidth, mainWidth, permU32Width)|;
            Leaves(ops) && at + |alpha| <= |ops| && forall i :: 0 <= i < |alpha| ==> ops[at + i] == Number(alpha[i])
  {
    var loads := Loads(prepWidth, mainWidth, permU32Width);
    LoadsAreLeaves(prepWidth, mainWidth, permU32Width);
    NumbersFollow(loads, alpha, constants);
  }

  lemma {:induction false} NumbersFollow(loads: seq<Op>, alpha: seq<nat>, constants: seq<nat>)
    requires Leaves(loads)
    ensures var ops := loads + Numbers(alpha) + Numbers(constants);
            Leaves(ops) && forall i :: 0 <= i < |alpha| ==> ops[|loads| + i] == Number(alpha[i])
  { LeavesConcat(loads, Numbers(alpha)); LeavesConcat(loads + Numbers(alpha), Numbers(constants)); }

  /** Record constants and columns. */
  method RecordLeaves(ctx: IrContext, ops: seq<Op>) returns (handles: seq<nat>)
    requires ctx.Valid() && Leaves(ops)
    modifies ctx
    ensures ctx.Valid() && Below(handles, ctx.nextReg) && |handles| == |ops|
    ensures forall row :: Holds(row, ctx.words, ctx.nextReg, handles, LeafValues(row, ops))
  {
    handles := [];
    var i := 0;
    while i < |ops|
      invariant i <= |ops| && ctx.Valid() && Below(handles, ctx.nextReg) && |handles| == i
      invariant forall row :: Holds(row, ctx.words, ctx.nextReg, handles, LeafValues(row, ops[..i]))
    {
      ghost var w, n := ctx.words, ctx.nextReg;
      var h := EmitValue(ctx, [], ops[i]);
      ghost var done, next, more := ops[..i], ops[..i + 1], handles + [h];
      assert next[..i] == done;
      forall row ensures Holds(row, ctx.words, ctx.nextReg, more, LeafValues(row, next)) {
        assert Holds(row, w, n, [], []);
        KeepsHolds(row, w, n, ctx.words, ctx.nextReg, handles, LeafValues(row, done));
        HoldsPush(row, ctx.words, ctx.nextReg, handles, LeafValues(row, done), h, ValueOf(row, [], ops[i]));
      }
      handles := handles + [h];
      i := i + 1;
    }
    assert ops[..i] == ops;
  }

  /** The accumulator that the CPU folder reaches on a row. */
  function CpuAccumulator(row: Row, alpha: seq<nat>, inputs: seq<Op>, script: seq<Op>): seq<nat>
    requires |alpha| == 4 && Leaves(inputs) && ScriptOk(script, |inputs|)
  { Evaluate(row, alpha, Evaluation(LeafValues(row, inputs), [0, 0, 0, 0]), script, |script|).acc }

  /** What the recording has before the first constraint: the inputs, alpha among them, and a zero. */
  ghost predicate Ready(
    w: seq<nat>, n: nat, handles: seq<nat>, acc: seq<nat>, alphaIr: seq<nat>, inputs: seq<Op>, alpha: seq<nat>)
    requires Leaves(inputs)
  {
    && Ssa(w, n) && Handles(alphaIr, n)
    && forall row :: Stands(row, w, n, handles, acc, Evaluation(LeafValues(row, inputs), [0, 0, 0, 0]))
        && ExtValue(row, w, n, alphaIr) == alpha
  }

  /** The builder, with its inputs recorded. */
  method StartCompiler(
    inputs: seq<Op>, alpha: seq<nat>, at: nat) returns (compiler: ConstraintCompiler, handles: seq<nat>)
    requires Leaves(inputs) && at + 4 <= |inputs|
    requires |alpha| == 4 && forall i :: 0 <= i < 4 ==> alpha[i] < P && inputs[at + i] == Number(alpha[i])
    ensures fresh(compiler) && fresh(compiler.ctx) && compiler.Valid()
    ensures Below(handles, compiler.ctx.nextReg) && |handles| == |inputs|
    ensures Ready(compiler.ctx.words, compiler.ctx.nextReg, handles, compiler.accumulator, compiler.alphaIr, inputs,
        alpha)
  {
    var ctx := new IrContext();
    handles := RecordLeaves(ctx, inputs);
    var alphaIr := handles[at..at + 4];
    ghost var w0, n0 := ctx.words, ctx.nextReg;
    compiler := new ConstraintCompiler(ctx, alphaIr);
    ghost var w, n, acc := ctx.words, ctx.nextReg, compiler.accumulator;
    forall row ensures Stands(row, w, n, handles, acc, Evaluation(LeafValues(row, inputs), [0, 0, 0, 0]))
        && ExtValue(row, w, n, alphaIr) == alpha
    {
      KeepsHolds(row, w0, n0, w, n, handles, LeafValues(row, inputs));
      AlphaHeld(row, w, n, handles, inputs, at, alpha);
    }
  }

  /** A script run from there folds as the CPU does. */
  lemma {:induction false} FollowsCpu(
    w: seq<nat>, n: nat, handles: seq<nat>, acc: seq<nat>, alphaIr: seq<nat>, inputs: seq<Op>, alpha: seq<nat>,
    script: seq<Op>,
    w': seq<nat>, n': nat, handles': seq<nat>, acc': seq<nat>)
    requires |alpha| == 4 && Leaves(inputs) && |handles| == |inputs| && ScriptOk(script, |inputs|)
    requires Ready(w, n, handles, acc, alphaIr, inputs, alpha)
    requires Follows(w, n, handles, acc, alphaIr, script, |script|, w', n', handles', acc')
    ensures Ssa(w', n') && Handles(acc', n')
    ensures forall row :: ExtValue(row, w', n', acc') == CpuAccumulator(row, alpha, inputs, script)
  {
    forall row ensures Ssa(w', n') && Handles(acc', n')
        && ExtValue(row, w', n', acc') == CpuAccumulator(row, alpha, inputs, script) {
      var e := Evaluation(LeafValues(row, inputs), [0, 0, 0, 0]);
      assert Stands(row, w, n, handles, acc, e);
    }
    var any := Row((o, c) => 0);
    assert CpuAccumulator(any, alpha, inputs, script) == CpuAccumulator(any, alpha, inputs, script);
  }

  /** The program computes the CPU folder's accumulator on every row, from any register contents. */
  ghost predicate Computes(program: ConstraintProgram, alpha: seq<nat>, inputs: seq<Op>, script: seq<Op>)
    requires |alpha| == 4 && Leaves(inputs) && ScriptOk(script, |inputs|)
    reads program
  {
    && program.Valid() && program.numRegs <= |program.words| / 4
    && forall row, regs: seq<nat> :: |regs| == program.numRegs ==>
         Decoded(row, program.words, |program.words| / 4, program.accumulatorRegs, regs)
             == CpuAccumulator(row, alpha, inputs, script)
  }

  /** `compile_constraints`.  The compacted program's decoded accumulator is the CPU folder's for the
      same evaluation. */
  method CompileConstraints(
    prep: nat, main: nat, permCols: nat, alpha: seq<nat>, constants: seq<nat>, script: seq<Op>)
    returns (program: ConstraintProgram)
    requires |alpha| == 4 && forall i :: 0 <= i < 4 ==> alpha[i] < P
    requires ScriptOk(script, |Inputs(Max(prep, 1), Max(main, 1), 4 * permCols, alpha, constants)|)
    ensures var inputs := Inputs(Max(prep, 1), Max(main, 1), 4 * permCols, alpha, constants);
            Leaves(inputs) && Computes(program, alpha, inputs, script)
    ensures program.prepWidth == Max(prep, 1) && program.mainWidth == Max(main, 1)
        && program.permU32Width == 4 * permCols
  {
    var prepWidth, mainWidth, permU32Width := Max(prep, 1), Max(main, 1), 4 * permCols;
    InputsAreLeaves(prepWidth, mainWidth, permU32Width, alpha, constants);
    program := CompileFrom(Inputs(prepWidth, mainWidth, permU32Width, alpha, constants),
                               |Loads(prepWidth, mainWidth, permU32Width)|, alpha, script, prepWidth, mainWidth,
                               permU32Width);
  }

  /** Record the inputs, then the script, then compact. */
  method CompileFrom(
    inputs: seq<Op>, at: nat, alpha: seq<nat>, script: seq<Op>, prepWidth: nat, mainWidth: nat, permU32Width: nat)
    returns (program: ConstraintProgram)
    requires Leaves(inputs) && at + 4 <= |inputs| && ScriptOk(script, |inputs|)
    requires |alpha| == 4 && forall i :: 0 <= i < 4 ==> alpha[i] < P && inputs[at + i] == Number(alpha[i])
    ensures Computes(program, alpha, inputs, script)
    ensures program.prepWidth == prepWidth && program.mainWidth == mainWidth && program.permU32Width == permU32Width
  {
    var compiler, handles := StartCompiler(inputs, alpha, at);
    ghost var w, n, acc := compiler.ctx.words, compiler.ctx.nextReg, compiler.accumulator;
    var values := RecordScript(compiler, handles, script);
    FollowsCpu(w, n, handles, acc, compiler.alphaIr, inputs, alpha, script,
               compiler.ctx.words, compiler.ctx.nextReg, values, compiler.accumulator);
    program := Finish(compiler, mainWidth, prepWidth, permU32Width);
    DecodesCpu(program, compiler.ctx.words, compiler.ctx.nextReg, compiler.accumulator, alpha, inputs, script);
  }

  lemma {:induction false} DecodesCpu(
    program: ConstraintProgram, w: seq<nat>, n: nat, acc: seq<nat>, alpha: seq<nat>, inputs: seq<Op>, script: seq<Op>)
    requires |alpha| == 4 && Leaves(inputs) && ScriptOk(script, |inputs|)
    requires Ssa(w, n) && Handles(acc, n) && DecodesTo(program, w, n, acc)
    requires forall row :: ExtValue(row, w, n, acc) == CpuAccumulator(row, alpha, inputs, script)
    ensures Computes(program, alpha, inputs, script)
  { assert |program.words| / 4 == n; }

  lemma {:induction false} AlphaHeld(
    row: Row, w: seq<nat>, n: nat, handles: seq<nat>, inputs: seq<Op>, at: nat, alpha: seq<nat>)
    requires Leaves(inputs) && Holds(row, w, n, handles, LeafValues(row, inputs)) && at + 4 <= |inputs|
    requires |alpha| == 4 && forall i :: 0 <= i < 4 ==> alpha[i] < P && inputs[at + i] == Number(alpha[i])
    ensures Handles(handles[at..at + 4], n) && ExtValue(row, w, n, handles[at..at + 4]) == alpha
  {
    var hs := handles[at..at + 4];
    forall i | 0 <= i < 4 ensures hs[i] < n && FieldValue(row, w, n, hs[i]) == alpha[i] {
      assert hs[i] == handles[at + i] && LeafValues(row, inputs)[at + i] == alpha[i] % P;
    }
  }
}
