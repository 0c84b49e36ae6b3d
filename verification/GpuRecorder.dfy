/** Recording constraint arithmetic into the IR, and the Montgomery form the program runs in. */
module GpuRecorder {
  import opened BabyBear
  import opened GpuIr

  // ---------- Montgomery form ----------

  const R: nat := 0x1_0000_0000
  /** 225 * 2^22, the inverse of 2^32 modulo P. */
  const R_INV: nat := 943718400

  /** `to_monty`. */
  function ToMonty(n: nat): nat { (n * R) % P }

  /** The field value behind a Montgomery-form word. */
  function FromMonty(m: int): nat { (m * R_INV) % P }

  /** Decoding undoes encoding: `to_monty` represents n modulo P. */
  lemma {:induction false} MontyRoundTrip(n: nat)
    ensures FromMonty(ToMonty(n)) == n % P
  {
    ModFactor(n * R, R_INV);
    var k := (R * R_INV - 1) / P;
    assert R * R_INV == 1 + P * k;
    assert (n * R) * R_INV == n * (R * R_INV);
    assert n * (1 + P * k) == n + P * (n * k);
    ModShift(n, n * k);
  }

  /** What the kernel's arithmetic does to Montgomery-form words below P. */
  function MontyApply(op: nat, a: nat, b: nat): nat {
    if op == OP_ADD then FAdd(a, b)
    else if op == OP_SUB then FSub(a, b)
    else if op == OP_MUL then FMul(a * b, R_INV)
    else FNeg(a)
  }

  /** The same operations on field values. */
  function FieldApply(op: nat, a: nat, b: nat): nat {
    if op == OP_ADD then FAdd(a, b)
    else if op == OP_SUB then FSub(a, b)
    else if op == OP_MUL then FMul(a, b)
    else FNeg(a)
  }

  /** Decoding is a homomorphism from the kernel's arithmetic to the field. */
  lemma {:induction false} MontyHomomorphism(op: nat, a: nat, b: nat)
    ensures FromMonty(MontyApply(op, a, b)) == FieldApply(op, FromMonty(a), FromMonty(b))
  {
    if op == OP_ADD {
      ModFactor(a + b, R_INV); ModSum(a * R_INV, b * R_INV);
      assert (a + b) * R_INV == a * R_INV + b * R_INV;
    } else if op == OP_SUB {
      ModFactor(a - b, R_INV); ModSum(a * R_INV, b * R_INV);
      assert (a - b) * R_INV == a * R_INV - b * R_INV;
    } else if op == OP_MUL {
      ModFactor((a * b) * R_INV, R_INV); ModProduct(a * R_INV, b * R_INV);
      MulRegroup(a, b, R_INV);
    } else {
      ModFactor(0 - a, R_INV); ModSum(0, a * R_INV);
      assert (0 - a) * R_INV == 0 - a * R_INV;
    }
  }

  lemma {:induction false} MulRegroup(a: int, b: int, c: int)
    ensures ((a * b) * c) * c == (a * c) * (b * c)
  {}

  /** An input row: what each load opcode finds in each column, as Montgomery-form words. */
  datatype Row = Row(load: (nat, nat) -> nat) {
    function Load(op: nat, col: nat): nat { load(op, col) }
  }

  /** The kernel's meaning of the opcodes, and the field's. */
  function MontyLeaf(row: Row, op: nat, arg: nat): nat { if op == OP_CONST then arg else row.Load(op, arg) }
  function FieldLeaf(row: Row, op: nat, arg: nat): nat { FromMonty(MontyLeaf(row, op, arg)) }

  function MontyAlu(row: Row): Alu<nat>
  { Alu((op, arg) => MontyLeaf(row, op, arg), (op, a, b) => MontyApply(op, a, b)) }
  function FieldAlu(row: Row): Alu<nat>
  { Alu((op, arg) => FieldLeaf(row, op, arg), (op, a, b) => FieldApply(op, a, b)) }

  // ---------- the value of an SSA register ----------

  /** The value of register k, defined by the instruction that writes it. */
  function Value<V>(alu: Alu<V>, words: seq<nat>, n: nat, k: nat): V
    requires Ssa(words, n) && k < n
    decreases k
  {
    var c := At(words, k);
    if c.Binary() then alu.Apply(c.op, Value(alu, words, n, c.arg0), Value(alu, words, n, c.arg1))
    else if c.op == OP_NEG then alu.Apply(c.op, Value(alu, words, n, c.arg0), Value(alu, words, n, c.arg0))
    else alu.Leaf(c.op, c.arg0)
  }

  /** Running an SSA program leaves each register with its value. */
  lemma {:induction false} ExecIsValue<V>(alu: Alu<V>, words: seq<nat>, n: nat, regs: seq<V>, i: nat)
    requires Ssa(words, n) && WellFormed(words, n, n) && |regs| == n && i <= n
    ensures forall k :: 0 <= k < i ==> Exec(alu, words, n, regs, i)[k] == Value(alu, words, n, k)
  { if i > 0 { ExecIsValue(alu, words, n, regs, i - 1); } }

  /** Later instructions do not change the value of an earlier register. */
  lemma {:induction false} ValueExtends<V>(alu: Alu<V>, words: seq<nat>, n: nat, more: seq<nat>, m: nat, k: nat)
    requires Ssa(words, n) && Ssa(words + more, m) && k < n <= m
    ensures Value(alu, words + more, m, k) == Value(alu, words, n, k)
    decreases k
  {
    var c := At(words, k);
    assert At(words + more, k) == c;
    if c.Binary() {
      ValueExtends(alu, words, n, more, m, c.arg0);
      ValueExtends(alu, words, n, more, m, c.arg1);
    } else if c.op == OP_NEG { ValueExtends(alu, words, n, more, m, c.arg0); }
  }

  /** Decoding the Montgomery-form run gives the field value of every register. */
  lemma {:induction false} DecodedValue(row: Row, words: seq<nat>, n: nat, k: nat)
    requires Ssa(words, n) && k < n
    ensures FromMonty(Value(MontyAlu(row), words, n, k)) == Value(FieldAlu(row), words, n, k)
    decreases k
  {
    var c := At(words, k);
    if c.Binary() {
      DecodedValue(row, words, n, c.arg0); DecodedValue(row, words, n, c.arg1);
      MontyHomomorphism(c.op, Value(MontyAlu(row), words, n, c.arg0), Value(MontyAlu(row), words, n, c.arg1));
    } else if c.op == OP_NEG {
      DecodedValue(row, words, n, c.arg0);
      MontyHomomorphism(c.op, Value(MontyAlu(row), words, n, c.arg0), Value(MontyAlu(row), words, n, c.arg0));
    }
  }

  // ---------- recording ----------

  /** The field value of a recorded handle on an input row. */
  function FieldValue(row: Row, words: seq<nat>, n: nat, k: nat): nat
    requires Ssa(words, n) && k < n
  { Value(FieldAlu(row), words, n, k) }

  ghost predicate Extends(words: seq<nat>, n: nat, words': seq<nat>, n': nat) {
    Ssa(words, n) && Ssa(words', n') && n <= n' && words <= words'
  }

  /** Handles keep their values while recording goes on. */
  lemma {:induction false} Keeps(words: seq<nat>, n: nat, words': seq<nat>, n': nat)
    requires Extends(words, n, words', n')
    ensures forall row, k :: 0 <= k < n ==> FieldValue(row, words', n', k) == FieldValue(row, words, n, k)
  {
    forall row, k | 0 <= k < n ensures FieldValue(row, words', n', k) == FieldValue(row, words, n, k) {
      assert words' == words + words'[|words|..];
      ValueExtends(FieldAlu(row), words, n, words'[|words|..], n', k);
    }
  }

  /** Appending an instruction that writes the next register and reads earlier ones. */
  lemma {:induction false} AppendSsa(words: seq<nat>, n: nat, c: Instr)
    requires Ssa(words, n) && c.dst == n && c.ReadsBelow(n)
    ensures Extends(words, n, words + c.Words(), n + 1) && At(words + c.Words(), n) == c
  {
    var w := words + c.Words();
    forall i | 0 <= i < n ensures At(w, i) == At(words, i) {}
  }

  /** The thread-local recording context. */
  class IrContext {
    var words: seq<nat>
    var nextReg: nat

    /** Every recording is an SSA program. */
    ghost predicate Valid()
      reads this
    { Ssa(words, nextReg) }

    constructor ()
      ensures Valid() && words == [] && nextReg == 0
    { words, nextReg := [], 0; }

    method Alloc() returns (r: nat)
      modifies this`nextReg
      ensures r == old(nextReg) && nextReg == old(nextReg) + 1
    { r := nextReg; nextReg := nextReg + 1; }

    method Emit(op: nat, dst: nat, arg0: nat, arg1: nat)
      modifies this`words
      ensures words == old(words) + Instr(op, dst, arg0, arg1).Words()
    { words := words + [op, dst, arg0, arg1]; }

    method EmitConst(monty: nat) returns (h: nat)
      requires Valid()
      modifies this
      ensures Valid() && h == old(nextReg) < nextReg && Extends(old(words), old(nextReg), words, nextReg)
      ensures forall row :: FieldValue(row, words, nextReg, h) == FromMonty(monty)
    {
      AppendSsa(words, nextReg, Instr(OP_CONST, nextReg, monty, 0));
      h := Alloc();
      Emit(OP_CONST, h, monty, 0);
    }

    /** `from_canonical_u32` and its relatives. */
    method FromCanonical(n: nat) returns (h: nat)
      requires Valid()
      modifies this
      ensures Valid() && h == old(nextReg) < nextReg && Extends(old(words), old(nextReg), words, nextReg)
      ensures forall row :: FieldValue(row, words, nextReg, h) == n % P
    { MontyRoundTrip(n); h := EmitConst(ToMonty(n)); }

    /** A load; its value is the decoded word of that column. */
    method EmitLoad(op: nat, col: nat) returns (h: nat)
      requires Valid() && OP_LOAD_MAIN_LOCAL <= op <= OP_LOAD_SELECTOR
      modifies this
      ensures Valid() && h == old(nextReg) < nextReg && Extends(old(words), old(nextReg), words, nextReg)
      ensures forall row :: FieldValue(row, words, nextReg, h) == FromMonty(row.Load(op, col))
    {
      AppendSsa(words, nextReg, Instr(op, nextReg, col, 0));
      h := Alloc();
      Emit(op, h, col, 0);
    }

    method EmitBinop(op: nat, lhs: nat, rhs: nat) returns (h: nat)
      requires Valid() && lhs < nextReg && rhs < nextReg && (op == OP_ADD || op == OP_SUB || op == OP_MUL)
      modifies this
      ensures Valid() && h == old(nextReg) < nextReg && Extends(old(words), old(nextReg), words, nextReg)
      ensures forall row :: FieldValue(row, words, nextReg, h)
                == FieldApply(op, FieldValue(row, old(words), old(nextReg), lhs),
                    FieldValue(row, old(words), old(nextReg), rhs))
    {
      AppendSsa(words, nextReg, Instr(op, nextReg, lhs, rhs));
      Keeps(words, nextReg, words + Instr(op, nextReg, lhs, rhs).Words(), nextReg + 1);
      h := Alloc();
      Emit(op, h, lhs, rhs);
      forall row ensures FieldValue(row, words, nextReg, h)
                == FieldApply(op, FieldValue(row, old(words), old(nextReg), lhs),
                    FieldValue(row, old(words), old(nextReg), rhs)) {
        assert FieldValue(row, words, nextReg, lhs) == FieldValue(row, old(words), old(nextReg), lhs);
        assert FieldValue(row, words, nextReg, rhs) == FieldValue(row, old(words), old(nextReg), rhs);
      }
    }

    method EmitUnop(src: nat) returns (h: nat)
      requires Valid() && src < nextReg
      modifies this
      ensures Valid() && h == old(nextReg) < nextReg && Extends(old(words), old(nextReg), words, nextReg)
      ensures forall row :: FieldValue(row, words, nextReg, h) == FNeg(FieldValue(row, old(words), old(nextReg), src))
    {
      AppendSsa(words, nextReg, Instr(OP_NEG, nextReg, src, 0));
      Keeps(words, nextReg, words + Instr(OP_NEG, nextReg, src, 0).Words(), nextReg + 1);
      h := Alloc();
      Emit(OP_NEG, h, src, 0);
      forall row ensures FieldValue(row, words, nextReg, h) == FNeg(FieldValue(row, old(words), old(nextReg), src))
      { assert FieldValue(row, words, nextReg, src) == FieldValue(row, old(words), old(nextReg), src); }
    }
  }
}
