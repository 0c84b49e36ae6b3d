/** The flat constraint IR: its instructions, what a program computes, and register compaction. */
module GpuIr {
  import opened Basics

  // Opcodes; each instruction is the four words [op, dst, arg0, arg1].
  const OP_CONST: nat := 0
  const OP_LOAD_MAIN_LOCAL: nat := 1
  const OP_LOAD_MAIN_NEXT: nat := 2
  const OP_LOAD_PREP_LOCAL: nat := 3
  const OP_LOAD_PREP_NEXT: nat := 4
  const OP_LOAD_PERM_LOCAL: nat := 5
  const OP_LOAD_PERM_NEXT: nat := 6
  const OP_LOAD_SELECTOR: nat := 7
  const OP_ADD: nat := 8
  const OP_SUB: nat := 9
  const OP_MUL: nat := 10
  const OP_NEG: nat := 11

  datatype Instr = Instr(op: nat, dst: nat, arg0: nat, arg1: nat) {
    predicate Binary() { op == OP_ADD || op == OP_SUB || op == OP_MUL }

    /** Whether the instruction reads register r. */
    predicate Reads(r: nat) { (Binary() && (arg0 == r || arg1 == r)) || (op == OP_NEG && arg0 == r) }

    /** The registers read are below k. */
    predicate ReadsBelow(k: nat) { (Binary() ==> arg0 < k && arg1 < k) && (op == OP_NEG ==> arg0 < k) }

    function Words(): seq<nat> { [op, dst, arg0, arg1] }

    /** The instruction with its registers renamed; the argument of a load or a constant stays. */
    function Renamed(remap: seq<nat>): Instr
      requires dst < |remap| && ReadsBelow(|remap|)
    {
      Instr(op, remap[dst], if Binary() || op == OP_NEG then remap[arg0] else arg0,
            if Binary() then remap[arg1] else arg1)
    }
  }

  /** Instruction i of a word list. */
  function At(words: seq<nat>, i: nat): Instr
    requires 4 * i + 4 <= |words|
  { Instr(words[4 * i], words[4 * i + 1], words[4 * i + 2], words[4 * i + 3]) }

  /** n instructions over registers below `regs`. */
  ghost predicate WellFormed(words: seq<nat>, n: nat, regs: nat) {
    && |words| == 4 * n
    && forall i :: 0 <= i < n ==> At(words, i).dst < regs && At(words, i).ReadsBelow(regs)
  }

  /** Static single assignment: instruction i writes register i and reads only lower ones. */
  ghost predicate Ssa(words: seq<nat>, n: nat) {
    && |words| == 4 * n
    && forall i :: 0 <= i < n ==> At(words, i).dst == i && At(words, i).ReadsBelow(i)
  }

  // ---------- what a program computes ----------

  /** A meaning for the instructions: `leaf(op, arg)` for constants and loads (the input row lives in
      here), `apply(op, a, b)` for arithmetic; negation passes its operand twice. */
  datatype Alu<!V> = Alu(leaf: (nat, nat) -> V, apply: (nat, V, V) -> V) {
    function Leaf(op: nat, arg: nat): V { leaf(op, arg) }
    function Apply(op: nat, a: V, b: V): V { apply(op, a, b) }

    /** The value instruction `c` writes, given the register file. */
    function Result(c: Instr, regs: seq<V>): V
      requires c.ReadsBelow(|regs|)
    {
      if c.Binary() then Apply(c.op, regs[c.arg0], regs[c.arg1])
      else if c.op == OP_NEG then Apply(c.op, regs[c.arg0], regs[c.arg0])
      else Leaf(c.op, c.arg0)
    }
  }

  /** The register file after the first i instructions. */
  function Exec<V>(alu: Alu<V>, words: seq<nat>, n: nat, regs: seq<V>, i: nat): (r: seq<V>)
    requires WellFormed(words, n, |regs|) && i <= n
    ensures |r| == |regs|
  {
    if i == 0 then regs
    else var before := Exec(alu, words, n, regs, i - 1);
         before[At(words, i - 1).dst := alu.Result(At(words, i - 1), before)]
  }

  // ---------- last uses ----------

  /** The last of the first i instructions that reads r, or 0. */
  function LastRead(words: seq<nat>, r: nat, i: nat): (u: nat)
    requires 4 * i <= |words|
    ensures u == 0 || u < i
  { if i == 0 then 0 else if At(words, i - 1).Reads(r) then i - 1 else LastRead(words, r, i - 1) }

  /** What the `last_use` table holds: accumulator registers are live at the very end. */
  ghost predicate IsLastUse(words: seq<nat>, n: nat, acc: seq<nat>, lastUse: seq<nat>)
    requires |words| == 4 * n
  { forall r :: 0 <= r < |lastUse| ==> lastUse[r] == if r in acc then n else LastRead(words, r, n) }

  /** Step 1 of `compact_registers`. */
  method FindLastUse(words: seq<nat>, n: nat, regs: nat, acc: seq<nat>) returns (lastUse: seq<nat>)
    requires WellFormed(words, n, regs) && forall k :: 0 <= k < |acc| ==> acc[k] < regs
    ensures |lastUse| == regs && IsLastUse(words, n, acc, lastUse)
  {
    lastUse := Zeros(regs);
    var i := 0;
    while i < n
      invariant i <= n && |lastUse| == regs
      invariant forall r :: 0 <= r < regs ==> lastUse[r] == LastRead(words, r, i)
    {
      var c := At(words, i);
      if c.Binary() {
        lastUse := lastUse[c.arg0 := if lastUse[c.arg0] < i then i else lastUse[c.arg0]];
        lastUse := lastUse[c.arg1 := if lastUse[c.arg1] < i then i else lastUse[c.arg1]];
      } else if c.op == OP_NEG {
        lastUse := lastUse[c.arg0 := if lastUse[c.arg0] < i then i else lastUse[c.arg0]];
      }
      i := i + 1;
    }
    var k := 0;
    while k < |acc|
      invariant k <= |acc| && |lastUse| == regs
      invariant forall r :: 0 <= r < regs ==> lastUse[r] == if r in acc[..k] then n else LastRead(words, r, n)
    {
      lastUse := lastUse[acc[k] := n];
      assert acc[..k + 1] == acc[..k] + [acc[k]];
      k := k + 1;
    }
    assert acc[..k] == acc;
  }

  // ---------- register assignment ----------

  /** The allocator: new ids so far, the free list (a stack), and the next unused id. */
  datatype Allocator = Allocator(remap: seq<nat>, free: seq<nat>, next: nat)

  function Start(regs: nat): Allocator { Allocator(Zeros(regs), [], 0) }

  /** Pop a free register, or take a new one. */
  function Take(a: Allocator): (r: (nat, Allocator)) {
    if a.free != [] then (a.free[|a.free| - 1], a.(free := a.free[..|a.free| - 1]))
    else (a.next, a.(next := a.next + 1))
  }

  /** The free list after the sources of c that die at instruction i are pushed. */
  function Freed(c: Instr, lastUse: seq<nat>, i: nat, remap: seq<nat>, free: seq<nat>): seq<nat>
    requires |lastUse| == |remap| && c.ReadsBelow(|lastUse|)
  {
    if c.Binary() then
      var first := if lastUse[c.arg0] == i && c.arg0 != c.dst then free + [remap[c.arg0]] else free;
      if lastUse[c.arg1] == i && c.arg1 != c.dst && c.arg1 != c.arg0 then first + [remap[c.arg1]] else first
    else if c.op == OP_NEG && lastUse[c.arg0] == i && c.arg0 != c.dst then free + [remap[c.arg0]]
    else free
  }

  /** One step of the forward pass: allocate the destination, then free the dying sources. */
  function AllocStep(c: Instr, lastUse: seq<nat>, i: nat, a: Allocator): (b: Allocator)
    requires c.dst < |a.remap| == |lastUse| && c.ReadsBelow(|lastUse|)
  {
    var (r, taken) := Take(a);
    var remap := taken.remap[c.dst := r];
    Allocator(remap, Freed(c, lastUse, i, remap, taken.free), taken.next)
  }

  /** The forward pass over the first i instructions. */
  function AllocRun(words: seq<nat>, n: nat, lastUse: seq<nat>, i: nat): (a: Allocator)
    requires WellFormed(words, n, |lastUse|) && i <= n
    ensures |a.remap| == |lastUse|
  {
    if i == 0 then Start(|lastUse|)
    else AllocStep(At(words, i - 1), lastUse, i - 1, AllocRun(words, n, lastUse, i - 1))
  }

  /** Step 2 of `compact_registers`. */
  method AssignRegisters(words: seq<nat>, n: nat, lastUse: seq<nat>) returns (remap: seq<nat>, next: nat)
    requires WellFormed(words, n, |lastUse|)
    ensures remap == AllocRun(words, n, lastUse, n).remap && next == AllocRun(words, n, lastUse, n).next
  {
    remap := Zeros(|lastUse|);
    next := 0;
    var free: seq<nat> := [];
    var i := 0;
    while i < n
      invariant i <= n
      invariant Allocator(remap, free, next) == AllocRun(words, n, lastUse, i)
    {
      var c := At(words, i);
      var r;
      if free != [] {
        r := free[|free| - 1];
        free := free[..|free| - 1];
      } else {
        r := next;
        next := next + 1;
      }
      remap := remap[c.dst := r];
      if c.Binary() {
        if lastUse[c.arg0] == i && c.arg0 != c.dst { free := free + [remap[c.arg0]]; }
        if lastUse[c.arg1] == i && c.arg1 != c.dst && c.arg1 != c.arg0 { free := free + [remap[c.arg1]]; }
      } else if c.op == OP_NEG {
        if lastUse[c.arg0] == i && c.arg0 != c.dst { free := free + [remap[c.arg0]]; }
      }
      i := i + 1;
    }
  }

  /** Register r has been written by the first i instructions and not been freed by them. */
  ghost predicate Held(lastUse: seq<nat>, r: nat, i: nat)
    requires r < |lastUse|
  { r < i && (lastUse[r] == 0 || lastUse[r] >= i) }

  ghost function HeldSet(lastUse: seq<nat>, i: nat): set<nat> {
    set r: nat | r < |lastUse| && Held(lastUse, r, i)
  }

  /** The allocator's invariant, for the set of registers whose values are still held: held values
      have different new ids, and the free list never holds the id of a held value and never holds
      an id twice. */
  ghost predicate Sound(held: set<nat>, a: Allocator) {
    && (forall r :: r in held ==> r < |a.remap| && a.remap[r] < a.next)
    && (forall k :: 0 <= k < |a.free| ==> a.free[k] < a.next)
    && (forall j, k :: 0 <= j < k < |a.free| ==> a.free[j] != a.free[k])
    && (forall r, k :: r in held && 0 <= k < |a.free| ==> a.remap[r] != a.free[k])
    && (forall r, s :: r in held && s in held && r != s ==> a.remap[r] != a.remap[s])
  }

  lemma {:induction false} TakeSound(held: set<nat>, a: Allocator, dst: nat)
    requires Sound(held, a) && dst !in held && dst < |a.remap|
    ensures var (r, b) := Take(a); Sound(held + {dst}, b.(remap := b.remap[dst := r]))
  {}

  lemma {:induction false} PushSound(held: set<nat>, a: Allocator, x: nat)
    requires Sound(held, a) && x in held
    ensures Sound(held - {x}, a.(free := a.free + [a.remap[x]]))
  {}

  lemma {:induction false} SoundSubset(held: set<nat>, fewer: set<nat>, a: Allocator)
    requires Sound(held, a) && fewer <= held
    ensures Sound(fewer, a)
  {}

  /** What stays held after the sources of c that die at instruction i are freed. */
  ghost function Survivors(held: set<nat>, c: Instr, lastUse: seq<nat>, i: nat): set<nat>
    requires forall r :: r in held ==> r < |lastUse|
  { set r | r in held && !(c.Reads(r) && lastUse[r] == i) }

  /** Freeing the dying sources of an instruction, all of them held. */
  lemma {:induction false} FreedSound(held: set<nat>, a: Allocator, c: Instr, lastUse: seq<nat>, i: nat)
    requires |lastUse| == |a.remap| && c.ReadsBelow(|lastUse|) && Sound(held, a)
    requires c.Binary() ==> c.arg0 in held && c.arg1 in held && c.arg0 != c.dst && c.arg1 != c.dst
    requires c.op == OP_NEG ==> c.arg0 in held && c.arg0 != c.dst
    ensures Sound(Survivors(held, c, lastUse, i), a.(free := Freed(c, lastUse, i, a.remap, a.free)))
  {
    var fewer := Survivors(held, c, lastUse, i);
    if c.Binary() {
      FreedTwo(held, a, c, lastUse, i);
    } else if c.op == OP_NEG && lastUse[c.arg0] == i {
      PushSound(held, a, c.arg0);
      SoundSubset(held - {c.arg0}, fewer, a.(free := a.free + [a.remap[c.arg0]]));
    } else {
      SoundSubset(held, fewer, a);
    }
  }

  /** Free x if asked. */
  ghost function FreeIf(die: bool, held: set<nat>, a: Allocator, x: nat): (set<nat>, Allocator)
    requires x < |a.remap|
  { if die then (held - {x}, a.(free := a.free + [a.remap[x]])) else (held, a) }

  lemma {:induction false} FreeIfSound(die: bool, held: set<nat>, a: Allocator, x: nat)
    requires Sound(held, a) && x in held
    ensures var (h, b) := FreeIf(die, held, a, x); Sound(h, b)
  { if die { PushSound(held, a, x); } }

  /** The two sources of a binary instruction. */
  lemma {:induction false} FreedTwo(held: set<nat>, a: Allocator, c: Instr, lastUse: seq<nat>, i: nat)
    requires |lastUse| == |a.remap| && c.Binary() && c.ReadsBelow(|lastUse|) && Sound(held, a)
    requires c.arg0 in held && c.arg1 in held && c.arg0 != c.dst && c.arg1 != c.dst
    ensures Sound(Survivors(held, c, lastUse, i), a.(free := Freed(c, lastUse, i, a.remap, a.free)))
  {
    var die0, die1 := lastUse[c.arg0] == i, lastUse[c.arg1] == i && c.arg1 != c.arg0;
    var (held1, a1) := FreeIf(die0, held, a, c.arg0);
    FreeIfSound(die0, held, a, c.arg0);
    if die1 {
      var (held2, a2) := FreeIf(true, held1, a1, c.arg1);
      FreeIfSound(true, held1, a1, c.arg1);
      SoundSubset(held2, Survivors(held, c, lastUse, i), a2);
    } else {
      SoundSubset(held1, Survivors(held, c, lastUse, i), a1);
    }
  }

  lemma {:induction false} SourceLastUse(words: seq<nat>, r: nat, i: nat, n: nat)
    requires i < n && 4 * n <= |words| && At(words, i).Reads(r)
    ensures LastRead(words, r, n) >= i
  { if i < n - 1 && !At(words, n - 1).Reads(r) { SourceLastUse(words, r, i, n - 1); } }

  /** In an SSA program a register is still held at every instruction that reads it. */
  lemma {:induction false} ReadsHeld(words: seq<nat>, n: nat, acc: seq<nat>, lastUse: seq<nat>, i: nat, r: nat)
    requires Ssa(words, n) && |lastUse| == n && IsLastUse(words, n, acc, lastUse)
    requires i < n && At(words, i).Reads(r)
    ensures r < i && lastUse[r] >= i && Held(lastUse, r, i)
  { SourceLastUse(words, r, i, n); }

  /** A freshly written register is held. */
  lemma {:induction false} WrittenHeld(words: seq<nat>, n: nat, acc: seq<nat>, lastUse: seq<nat>, i: nat)
    requires Ssa(words, n) && |lastUse| == n && IsLastUse(words, n, acc, lastUse) && i < n
    ensures Held(lastUse, i, i + 1)
  {
    if i !in acc && lastUse[i] != 0 {
      var u := LastRead(words, i, n);
      LastReadReads(words, i, n);
      assert At(words, u).Reads(i);
    }
  }

  lemma {:induction false} LastReadReads(words: seq<nat>, r: nat, i: nat)
    requires 4 * i <= |words| && LastRead(words, r, i) != 0
    ensures At(words, LastRead(words, r, i)).Reads(r)
  { if !At(words, i - 1).Reads(r) { LastReadReads(words, r, i - 1); } }

  /** One step of the forward pass keeps the invariant. */
  lemma {:induction false} AllocStepSound(
    words: seq<nat>, n: nat, acc: seq<nat>, lastUse: seq<nat>, i: nat, a: Allocator)
    requires Ssa(words, n) && |lastUse| == |a.remap| == n && IsLastUse(words, n, acc, lastUse) && i < n
    requires Sound(HeldSet(lastUse, i), a)
    ensures Sound(HeldSet(lastUse, i + 1), AllocStep(At(words, i), lastUse, i, a))
  {
    var c, held := At(words, i), HeldSet(lastUse, i);
    if c.Binary() {
      ReadsHeld(words, n, acc, lastUse, i, c.arg0);
      ReadsHeld(words, n, acc, lastUse, i, c.arg1);
    } else if c.op == OP_NEG { ReadsHeld(words, n, acc, lastUse, i, c.arg0); }
    TakeSound(held, a, i);
    var (r, taken) := Take(a);
    var b := taken.(remap := taken.remap[i := r]);
    FreedSound(held + {i}, b, c, lastUse, i);
    HeldNext(c, lastUse, i);
    SoundSubset(Survivors(held + {i}, c, lastUse, i), HeldSet(lastUse, i + 1), AllocStep(c, lastUse, i, a));
  }

  lemma {:induction false} HeldNext(c: Instr, lastUse: seq<nat>, i: nat)
    requires i < |lastUse| && c.ReadsBelow(i)
    ensures forall r :: r in HeldSet(lastUse, i) + {i} ==> r < |lastUse|
    ensures HeldSet(lastUse, i + 1) <= Survivors(HeldSet(lastUse, i) + {i}, c, lastUse, i)
  {}

  lemma {:induction false} SsaWellFormed(words: seq<nat>, n: nat)
    requires Ssa(words, n)
    ensures WellFormed(words, n, n)
  {}

  /** The interference condition that makes a renaming safe: a value still held when instruction i
      writes does not share its register with the value written.  For the first n instructions. */
  ghost predicate NoInterference(lastUse: seq<nat>, remap: seq<nat>, n: nat)
    requires n <= |lastUse| == |remap|
  { forall r, i :: 0 <= r < i < n && Held(lastUse, r, i + 1) ==> remap[r] != remap[i] }

  /** One step: the new destination differs from every value that stays held, and is in range. */
  lemma {:induction false} StepSeparates(lastUse: seq<nat>, remap: seq<nat>, i: nat, b: Allocator)
    requires i < |lastUse| == |remap| && NoInterference(lastUse, remap, i) && Held(lastUse, i, i + 1)
    requires Sound(HeldSet(lastUse, i + 1), b) && |b.remap| == |remap| && b.remap == remap[i := b.remap[i]]
    ensures NoInterference(lastUse, b.remap, i + 1) && b.remap[i] < b.next
  {
    assert i in HeldSet(lastUse, i + 1);
    forall r | 0 <= r < i && Held(lastUse, r, i + 1) ensures b.remap[r] != b.remap[i]
    { assert r in HeldSet(lastUse, i + 1); }
  }

  lemma {:induction false} AllocStepRemap(c: Instr, lastUse: seq<nat>, i: nat, a: Allocator)
    requires c.dst < |a.remap| == |lastUse| && c.ReadsBelow(|lastUse|)
    ensures var b := AllocStep(c, lastUse, i, a);
            b.remap == a.remap[c.dst := b.remap[c.dst]] && a.next <= b.next <= a.next + 1
  {}

  /** What holds after the first i instructions: the free list is sound, no held value shares a
      register with a newer one, ids are below the register count, and the count is at most i. */
  ghost predicate Safe(lastUse: seq<nat>, i: nat, a: Allocator) {
    && i <= |lastUse| == |a.remap|
    && Sound(HeldSet(lastUse, i), a) && NoInterference(lastUse, a.remap, i)
    && a.next <= i && forall r :: 0 <= r < i ==> a.remap[r] < a.next
  }

  /** At every point of every forward pass over an SSA program. */
  lemma {:induction false} AssignmentSafe(words: seq<nat>, n: nat, acc: seq<nat>, lastUse: seq<nat>, i: nat)
    requires Ssa(words, n) && WellFormed(words, n, n) && |lastUse| == n && IsLastUse(words, n, acc, lastUse) && i <= n
    ensures Safe(lastUse, i, AllocRun(words, n, lastUse, i))
  {
    if i == 0 { SafeStart(lastUse); }
    else {
      var k, a := i - 1, AllocRun(words, n, lastUse, i - 1);
      AssignmentSafe(words, n, acc, lastUse, k);
      AllocRunStep(words, n, lastUse, k, i);
      SafeNext(words, n, acc, lastUse, k, i, a, AllocRun(words, n, lastUse, i));
    }
  }

  lemma {:induction false} SafeStart(lastUse: seq<nat>)
    ensures Safe(lastUse, 0, Start(|lastUse|))
  { assert HeldSet(lastUse, 0) == {}; }

  lemma {:induction false} SafeNext(
    words: seq<nat>, n: nat, acc: seq<nat>, lastUse: seq<nat>, k: nat, i: nat, a: Allocator, b: Allocator)
    requires Ssa(words, n) && |lastUse| == n && IsLastUse(words, n, acc, lastUse) && k < n && i == k + 1
    requires Safe(lastUse, k, a) && b == AllocStep(At(words, k), lastUse, k, a)
    ensures Safe(lastUse, i, b)
  { AssignmentStep(words, n, acc, lastUse, k, a); }

  lemma {:induction false} AllocRunStep(words: seq<nat>, n: nat, lastUse: seq<nat>, k: nat, i: nat)
    requires WellFormed(words, n, |lastUse|) && k < n && i == k + 1
    ensures AllocRun(words, n, lastUse, i) == AllocStep(At(words, k), lastUse, k, AllocRun(words, n, lastUse, k))
  {}

  lemma {:induction false} AssignmentStep(
    words: seq<nat>, n: nat, acc: seq<nat>, lastUse: seq<nat>, k: nat, a: Allocator)
    requires Ssa(words, n) && |lastUse| == n && IsLastUse(words, n, acc, lastUse) && k < n && Safe(lastUse, k, a)
    ensures Safe(lastUse, k + 1, AllocStep(At(words, k), lastUse, k, a))
  {
    AllocStepSound(words, n, acc, lastUse, k, a);
    AllocStepRemap(At(words, k), lastUse, k, a);
    WrittenHeld(words, n, acc, lastUse, k);
    StepSeparates(lastUse, a.remap, k, AllocStep(At(words, k), lastUse, k, a));
  }

  // ---------- rewriting ----------

  /** The first i instructions with renamed registers. */
  function Rewritten(words: seq<nat>, n: nat, remap: seq<nat>, i: nat): (w: seq<nat>)
    requires WellFormed(words, n, |remap|) && i <= n
    ensures |w| == 4 * i
    ensures forall k :: 0 <= k < i ==> At(w, k) == At(words, k).Renamed(remap)
  { if i == 0 then [] else Rewritten(words, n, remap, i - 1) + At(words, i - 1).Renamed(remap).Words() }

  lemma {:induction false} RewrittenWellFormed(words: seq<nat>, n: nat, remap: seq<nat>, regs: nat)
    requires WellFormed(words, n, |remap|) && forall r :: 0 <= r < |remap| ==> remap[r] < regs
    ensures WellFormed(Rewritten(words, n, remap, n), n, regs)
  {}

  /** The register contents that must agree after i instructions. */
  ghost predicate Agree<V>(lastUse: seq<nat>, remap: seq<nat>, i: nat, old': seq<V>, new': seq<V>)
    requires |lastUse| == |remap| == |old'| && i <= |remap| && forall r :: 0 <= r < |remap| ==> remap[r] < |new'|
  { forall r :: 0 <= r < i && Held(lastUse, r, i) ==> new'[remap[r]] == old'[r] }

  lemma {:induction false} RenamingPreserves<V>(
    alu: Alu<V>, words: seq<nat>, n: nat, acc: seq<nat>, lastUse: seq<nat>, remap: seq<nat>, before: seq<V>,
    after: seq<V>, i: nat)
    requires Ssa(words, n) && WellFormed(words, n, n) && |lastUse| == |remap| == |before| == n
    requires IsLastUse(words, n, acc, lastUse) && NoInterference(lastUse, remap, |remap|)
    requires (forall r :: 0 <= r < n ==> remap[r] < |after|) && WellFormed(Rewritten(words, n, remap, n), n, |after|)
    requires i <= n
    ensures Agree(lastUse, remap, i, Exec(alu, words, n, before, i),
        Exec(alu, Rewritten(words, n, remap, n), n, after, i))
  {
    if i > 0 {
      var k := i - 1;
      RenamingPreserves(alu, words, n, acc, lastUse, remap, before, after, k);
      var x, y := Exec(alu, words, n, before, k), Exec(alu, Rewritten(words, n, remap, n), n, after, k);
      var c := At(words, k);
      if c.Binary() {
        ReadsHeld(words, n, acc, lastUse, k, c.arg0);
        ReadsHeld(words, n, acc, lastUse, k, c.arg1);
      } else if c.op == OP_NEG { ReadsHeld(words, n, acc, lastUse, k, c.arg0); }
      AgreeStep(alu, c, lastUse, remap, k, x, y);
    }
  }

  /** One instruction: equal operands, so equal results; and no held value is overwritten. */
  lemma {:induction false} AgreeStep<V>(
    alu: Alu<V>, c: Instr, lastUse: seq<nat>, remap: seq<nat>, k: nat, x: seq<V>, y: seq<V>)
    requires |lastUse| == |remap| == |x| && k < |remap| && forall r :: 0 <= r < |remap| ==> remap[r] < |y|
    requires c.dst == k && c.ReadsBelow(k) && NoInterference(lastUse, remap, |remap|)
        && Agree(lastUse, remap, k, x, y)
    requires (c.Binary() ==> Held(lastUse, c.arg0, k) && Held(lastUse, c.arg1, k))
        && (c.op == OP_NEG ==> Held(lastUse, c.arg0, k))
    ensures Agree(lastUse, remap, k + 1, x[k := alu.Result(c, x)], y[remap[k] := alu.Result(c.Renamed(remap), y)])
  {
    assert alu.Result(c.Renamed(remap), y) == alu.Result(c, x);
    forall r | 0 <= r < k + 1 && Held(lastUse, r, k + 1)
      ensures y[remap[k] := alu.Result(c.Renamed(remap), y)][remap[r]] == x[k := alu.Result(c, x)][r]
    { if r < k { assert Held(lastUse, r, k); } }
  }

  // ---------- the pass ----------

  /** A compiled constraint program. */
  class ConstraintProgram {
    var words: seq<nat>
    var numRegs: nat
    var accumulatorRegs: seq<nat>
    const mainWidth: nat
    const prepWidth: nat
    const permU32Width: nat

    ghost predicate Valid()
      reads this
    {
      |words| % 4 == 0 && WellFormed(words, |words| / 4, numRegs) && |accumulatorRegs| == 4
      && forall k :: 0 <= k < 4 ==> accumulatorRegs[k] < numRegs
    }

    constructor (
      words: seq<nat>, numRegs: nat, accumulatorRegs: seq<nat>, mainWidth: nat, prepWidth: nat, permU32Width: nat)
      ensures this.words == words && this.numRegs == numRegs && this.accumulatorRegs == accumulatorRegs
      ensures this.mainWidth == mainWidth && this.prepWidth == prepWidth && this.permU32Width == permU32Width
    {
      this.words, this.numRegs, this.accumulatorRegs := words, numRegs, accumulatorRegs;
      this.mainWidth, this.prepWidth, this.permU32Width := mainWidth, prepWidth, permU32Width;
    }

    /** `compact_registers`. */
    method CompactRegisters()
      requires Valid()
      modifies this
      ensures exists lastUse ::
          IsCompaction(old(words), old(numRegs), old(accumulatorRegs), lastUse, words, numRegs, accumulatorRegs)
      ensures |words| == |old(words)|
      ensures Ssa(old(words), old(numRegs)) ==> Valid() && numRegs <= old(numRegs)
    {
      var n := |words| / 4;
      var lastUse := FindLastUse(words, n, numRegs, accumulatorRegs);
      var remap, next := AssignRegisters(words, n, lastUse);
      var rewritten := RewriteWords(words, n, remap);
      ghost var before, regs, acc := words, numRegs, accumulatorRegs;
      words := rewritten;
      var k := 0;
      while k < 4
        invariant k <= 4 && |accumulatorRegs| == 4
        invariant forall j :: 0 <= j < 4 ==> accumulatorRegs[j] == if j < k then remap[acc[j]] else acc[j]
        modifies this`accumulatorRegs
      {
        accumulatorRegs := accumulatorRegs[k := remap[accumulatorRegs[k]]];
        k := k + 1;
      }
      numRegs := next;
      assert IsCompaction(before, regs, acc, lastUse, words, numRegs, accumulatorRegs);
      if Ssa(before, regs) {
        SsaCompaction(before, regs, acc, lastUse, words, numRegs, accumulatorRegs);
        CompactionInRange(before, regs, acc, lastUse, remap, words, numRegs, accumulatorRegs);
      }
    }
  }

  /** Step 3 of `compact_registers`. */
  method RewriteWords(words: seq<nat>, n: nat, remap: seq<nat>) returns (w: seq<nat>)
    requires WellFormed(words, n, |remap|)
    ensures w == Rewritten(words, n, remap, n)
  {
    w := words;
    var i := 0;
    while i < n
      invariant i <= n && |w| == 4 * n
      invariant forall k :: 0 <= k < n ==> At(w, k) == if k < i then At(words, k).Renamed(remap) else At(words, k)
    {
      var base := 4 * i;
      var c := At(w, i);
      assert c == At(words, i);
      w := w[base + 1 := remap[w[base + 1]]];
      if c.Binary() {
        w := w[base + 2 := remap[w[base + 2]]];
        w := w[base + 3 := remap[w[base + 3]]];
      } else if c.op == OP_NEG {
        w := w[base + 2 := remap[w[base + 2]]];
      }
      i := i + 1;
    }
    SameInstructions(w, Rewritten(words, n, remap, n), n);
  }

  /** Word lists are equal when their instructions are. */
  lemma {:induction false} SameInstructions(v: seq<nat>, w: seq<nat>, n: nat)
    requires |v| == |w| == 4 * n && forall k :: 0 <= k < n ==> At(v, k) == At(w, k)
    ensures v == w
  {
    forall j | 0 <= j < 4 * n ensures v[j] == w[j] {
      var k := j / 4;
      assert At(v, k) == At(w, k);
      assert j == 4 * k || j == 4 * k + 1 || j == 4 * k + 2 || j == 4 * k + 3;
    }
  }

  /** The program that `compact_registers` leaves behind, for its last-use table. */
  ghost predicate IsCompaction(
    words: seq<nat>, regs: nat, acc: seq<nat>, lastUse: seq<nat>, words': seq<nat>, regs': nat, acc': seq<nat>) {
    && |words| % 4 == 0 && WellFormed(words, |words| / 4, regs) && |lastUse| == regs
    && IsLastUse(words, |words| / 4, acc, lastUse)
    && var a := AllocRun(words, |words| / 4, lastUse, |words| / 4);
    && words' == Rewritten(words, |words| / 4, a.remap, |words| / 4)
    && regs' == a.next
    && |acc'| == |acc| && forall k :: 0 <= k < |acc| ==> acc[k] < regs && acc'[k] == a.remap[acc[k]]
  }

  /** The same for an SSA program, whose register count is its length. */
  ghost predicate IsSsaCompaction(
    words: seq<nat>, n: nat, acc: seq<nat>, lastUse: seq<nat>, remap: seq<nat>, words': seq<nat>, regs': nat,
    acc': seq<nat>) {
    && Ssa(words, n) && WellFormed(words, n, n) && |lastUse| == |remap| == n && IsLastUse(words, n, acc, lastUse)
    && remap == AllocRun(words, n, lastUse, n).remap && regs' == AllocRun(words, n, lastUse, n).next
    && words' == Rewritten(words, n, remap, n)
    && |acc'| == |acc| && forall k :: 0 <= k < |acc| ==> acc[k] < n && acc'[k] == remap[acc[k]]
  }

  lemma {:induction false} SsaCompaction(
    words: seq<nat>, regs: nat, acc: seq<nat>, lastUse: seq<nat>, words': seq<nat>, regs': nat, acc': seq<nat>)
    requires Ssa(words, regs) && IsCompaction(words, regs, acc, lastUse, words', regs', acc')
    ensures WellFormed(words, regs, regs)
    ensures IsSsaCompaction(words, regs, acc, lastUse, AllocRun(words, regs, lastUse, regs).remap, words', regs',
        acc')
  { assert |words| / 4 == regs; }

  /** The compacted SSA program runs within its register count, which never grows. */
  lemma {:induction false} CompactionInRange(
    words: seq<nat>, n: nat, acc: seq<nat>, lastUse: seq<nat>, remap: seq<nat>, words': seq<nat>, regs': nat,
    acc': seq<nat>)
    requires IsSsaCompaction(words, n, acc, lastUse, remap, words', regs', acc')
    ensures regs' <= n && WellFormed(words', n, regs') && NoInterference(lastUse, remap, n)
    ensures forall r :: 0 <= r < n ==> remap[r] < regs'
    ensures forall k :: 0 <= k < |acc| ==> acc'[k] < regs'
  {
    AssignmentSafe(words, n, acc, lastUse, n);
    RewrittenWellFormed(words, n, remap, regs');
  }

  /** Compaction preserves meaning: whatever the opcodes mean, whatever row is loaded, and whatever
      the registers hold at the start, the compacted program leaves in its accumulator registers what
      the SSA program leaves in its own. */
  lemma {:induction false} CompactionPreserves<V>(
    alu: Alu<V>, words: seq<nat>, regs: nat, acc: seq<nat>, lastUse: seq<nat>, words': seq<nat>, regs': nat,
    acc': seq<nat>,
    before: seq<V>, after: seq<V>)
    requires Ssa(words, regs) && IsCompaction(words, regs, acc, lastUse, words', regs', acc')
    requires |before| == regs && |after| == regs'
    ensures regs' <= regs && WellFormed(words, regs, regs) && WellFormed(words', regs, regs')
    ensures forall k :: 0 <= k < |acc| ==>
              acc'[k] < regs' && Exec(alu, words', regs, after, regs)[acc'[k]]
                  == Exec(alu, words, regs, before, regs)[acc[k]]
  {
    SsaCompaction(words, regs, acc, lastUse, words', regs', acc');
    var remap := AllocRun(words, regs, lastUse, regs).remap;
    CompactionInRange(words, regs, acc, lastUse, remap, words', regs', acc');
    forall k | 0 <= k < |acc|
      ensures acc'[k] < regs' && Exec(alu, words', regs, after, regs)[acc'[k]]
          == Exec(alu, words, regs, before, regs)[acc[k]]
    { AccumulatorKept(alu, words, regs, acc, lastUse, remap, words', regs', acc', before, after, k); }
  }

  /** An accumulator register is held to the end, so its value is kept. */
  lemma {:induction false} AccumulatorKept<V>(
    alu: Alu<V>, words: seq<nat>, n: nat, acc: seq<nat>, lastUse: seq<nat>, remap: seq<nat>, words': seq<nat>,
    regs': nat, acc': seq<nat>,
    before: seq<V>, after: seq<V>, k: nat)
    requires IsSsaCompaction(words, n, acc, lastUse, remap, words', regs', acc') && k < |acc|
    requires WellFormed(words', n, regs') && NoInterference(lastUse, remap, n)
        && (forall r :: 0 <= r < n ==> remap[r] < regs')
    requires |before| == n && |after| == regs'
    ensures Exec(alu, words', n, after, n)[acc'[k]] == Exec(alu, words, n, before, n)[acc[k]]
  {
    RenamingPreserves(alu, words, n, acc, lastUse, remap, before, after, n);
    assert Held(lastUse, acc[k], n);
  }
}
