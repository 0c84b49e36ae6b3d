/** The shard-chain checks of core proof verification: several scans over the shards in order, each
    carrying a little state, that together make the whole run well formed. */
module ShardChain {
  import opened Basics
  import opened BabyBear

  const MAX_CPU_LOG_DEGREE: nat := 22
  const MAX_SHARDS: nat := 65536
  const ADDRESS_BITS: nat := 32
  const COMMITTED_CELLS: nat := 32
  const DEFERRED_CELLS: nat := 8

  datatype PublicValues = PublicValues(
    shard: nat, executionShard: nat, startPc: nat, nextPc: nat, exitCode: nat,
    previousInit: seq<nat>, lastInit: seq<nat>, previousFinalize: seq<nat>, lastFinalize: seq<nat>,
    committed: seq<nat>, deferred: seq<nat>)

  datatype Shard = Shard(hasCpu: bool, logDegreeCpu: nat, hasMemoryInit: bool, hasMemoryFinalize: bool,
      pv: PublicValues)

  datatype Error =
    | MissingCpuInFirstShard | CpuLogDegreeTooLarge(degree: nat) | InvalidPublicValues | TooManyShards | MachineFailed

  /** CPU shards among the first n. */
  function CpuCount(proof: seq<Shard>, n: nat): nat
    requires n <= |proof|
  { if n == 0 then 0 else CpuCount(proof, n - 1) + if proof[n - 1].hasCpu then 1 else 0 }

  // ---------- what each scan checks ----------

  predicate DegreesOk(proof: seq<Shard>)
  { forall i :: 0 <= i < |proof| && proof[i].hasCpu ==> proof[i].logDegreeCpu <= MAX_CPU_LOG_DEGREE }

  predicate Numbered(proof: seq<Shard>, n: nat)
    requires n <= |proof|
  { forall i :: 0 <= i < n ==> proof[i].pv.shard == (i + 1) % P }

  predicate ExecutionNumbered(proof: seq<Shard>, n: nat)
    requires n <= |proof|
  { forall i :: 0 <= i < n && proof[i].hasCpu ==> proof[i].pv.executionShard == CpuCount(proof, i + 1) % P }

  predicate PcOk(proof: seq<Shard>, pcStart: nat, i: nat)
    requires i < |proof|
  {
    var pv := proof[i].pv;
    && pv.startPc == (if i == 0 then pcStart else proof[i - 1].pv.nextPc)
    && (!proof[i].hasCpu ==> pv.startPc == pv.nextPc)
    && (proof[i].hasCpu ==> pv.startPc != 0)
    && (i == |proof| - 1 ==> pv.nextPc == 0)
  }

  predicate PcsOk(proof: seq<Shard>, pcStart: nat, n: nat)
    requires n <= |proof|
  { forall i :: 0 <= i < n ==> PcOk(proof, pcStart, i) }

  predicate ExitsOk(proof: seq<Shard>) { forall i :: 0 <= i < |proof| ==> proof[i].pv.exitCode == 0 }

  function InitBefore(proof: seq<Shard>, i: nat): seq<nat>
    requires i <= |proof|
  { if i == 0 then Zeros(ADDRESS_BITS) else proof[i - 1].pv.lastInit }

  function FinalizeBefore(proof: seq<Shard>, i: nat): seq<nat>
    requires i <= |proof|
  { if i == 0 then Zeros(ADDRESS_BITS) else proof[i - 1].pv.lastFinalize }

  predicate MemoryAt(proof: seq<Shard>, i: nat)
    requires i < |proof|
  {
    var pv := proof[i].pv;
    && pv.previousInit == InitBefore(proof, i) && pv.previousFinalize == FinalizeBefore(proof, i)
    && (!proof[i].hasMemoryInit ==> pv.previousInit == pv.lastInit)
    && (!proof[i].hasMemoryFinalize ==> pv.previousFinalize == pv.lastFinalize)
  }

  predicate MemoryOk(proof: seq<Shard>, n: nat)
    requires n <= |proof|
  { forall i :: 0 <= i < n ==> MemoryAt(proof, i) }

  function CommittedBefore(proof: seq<Shard>, i: nat): seq<nat>
    requires i <= |proof|
  { if i == 0 then Zeros(COMMITTED_CELLS) else proof[i - 1].pv.committed }

  function DeferredBefore(proof: seq<Shard>, i: nat): seq<nat>
    requires i <= |proof|
  { if i == 0 then Zeros(DEFERRED_CELLS) else proof[i - 1].pv.deferred }

  /** A digest keeps its value once set, and outside CPU shards. */
  predicate Keeps(before: seq<nat>, unset: seq<nat>, hasCpu: bool, now: seq<nat>)
  { before != unset || !hasCpu ==> now == before }

  predicate DigestsAt(proof: seq<Shard>, i: nat)
    requires i < |proof|
  {
    && Keeps(CommittedBefore(proof, i), Zeros(COMMITTED_CELLS), proof[i].hasCpu, proof[i].pv.committed)
    && Keeps(DeferredBefore(proof, i), Zeros(DEFERRED_CELLS), proof[i].hasCpu, proof[i].pv.deferred)
  }

  predicate DigestsOk(proof: seq<Shard>, n: nat)
    requires n <= |proof|
  { forall i :: 0 <= i < n ==> DigestsAt(proof, i) }

  /** Every scan passes. */
  predicate Accepted(proof: seq<Shard>, pcStart: nat) {
    && proof != [] && proof[0].hasCpu && DegreesOk(proof)
    && Numbered(proof, |proof|) && ExecutionNumbered(proof, |proof|) && PcsOk(proof, pcStart, |proof|)
    && ExitsOk(proof) && MemoryOk(proof, |proof|) && DigestsOk(proof, |proof|)
    && |proof| <= MAX_SHARDS
  }

  // ---------- the scans ----------

  lemma {:induction false} NextModulus(n: nat)
    ensures ((n % P) + 1) % P == (n + 1) % P
  {}

  method CheckDegrees(proof: seq<Shard>) returns (r: Result<(), Error>)
    ensures r.Ok? <==> DegreesOk(proof)
    ensures r.Err? ==>
        exists i :: 0 <= i < |proof| && proof[i].hasCpu && r == Err(CpuLogDegreeTooLarge(proof[i].logDegreeCpu))
  {
    for i := 0 to |proof|
      invariant forall j :: 0 <= j < i && proof[j].hasCpu ==> proof[j].logDegreeCpu <= MAX_CPU_LOG_DEGREE
    {
      if proof[i].hasCpu && proof[i].logDegreeCpu > MAX_CPU_LOG_DEGREE
          { return Err(CpuLogDegreeTooLarge(proof[i].logDegreeCpu)); }
    }
    return Ok(());
  }

  method CheckNumbers(proof: seq<Shard>) returns (ok: bool)
    ensures ok <==> Numbered(proof, |proof|)
  {
    var current: nat := 0;
    for i := 0 to |proof|
      invariant current == i % P && Numbered(proof, i)
    {
      NextModulus(i);
      current := FAdd(current, 1);
      if proof[i].pv.shard != current { return false; }
    }
    return true;
  }

  method CheckExecutionNumbers(proof: seq<Shard>) returns (ok: bool)
    ensures ok <==> ExecutionNumbered(proof, |proof|)
  {
    var current: nat := 0;
    for i := 0 to |proof|
      invariant current == CpuCount(proof, i) % P && ExecutionNumbered(proof, i)
    {
      if proof[i].hasCpu {
        NextModulus(CpuCount(proof, i));
        current := FAdd(current, 1);
        if proof[i].pv.executionShard != current { return false; }
      }
    }
    return true;
  }

  method CheckPcs(proof: seq<Shard>, pcStart: nat) returns (ok: bool)
    ensures ok <==> PcsOk(proof, pcStart, |proof|)
  {
    var prev: nat := 0;
    for i := 0 to |proof|
      invariant i > 0 ==> prev == proof[i - 1].pv.nextPc
      invariant PcsOk(proof, pcStart, i)
    {
      var pv := proof[i].pv;
      var bad := false;
      if i == 0 && pv.startPc != pcStart { bad := true; }
      else if i != 0 && pv.startPc != prev { bad := true; }
      else if !proof[i].hasCpu && pv.startPc != pv.nextPc { bad := true; }
      else if proof[i].hasCpu && pv.startPc == 0 { bad := true; }
      else if i == |proof| - 1 && pv.nextPc != 0 { bad := true; }
      if bad { assert !PcOk(proof, pcStart, i); return false; }
      prev := pv.nextPc;
    }
    return true;
  }

  method CheckExits(proof: seq<Shard>) returns (ok: bool)
    ensures ok <==> ExitsOk(proof)
  {
    for i := 0 to |proof|
      invariant forall j :: 0 <= j < i ==> proof[j].pv.exitCode == 0
    { if proof[i].pv.exitCode != 0 { return false; } }
    return true;
  }

  method CheckMemory(proof: seq<Shard>) returns (ok: bool)
    ensures ok <==> MemoryOk(proof, |proof|)
  {
    var init, finalize := Zeros(ADDRESS_BITS), Zeros(ADDRESS_BITS);
    for i := 0 to |proof|
      invariant init == InitBefore(proof, i) && finalize == FinalizeBefore(proof, i) && MemoryOk(proof, i)
    {
      var pv := proof[i].pv;
      var bad := false;
      if pv.previousInit != init { bad := true; }
      else if pv.previousFinalize != finalize { bad := true; }
      else if !proof[i].hasMemoryInit && pv.previousInit != pv.lastInit { bad := true; }
      else if !proof[i].hasMemoryFinalize && pv.previousFinalize != pv.lastFinalize { bad := true; }
      assert bad <==> !MemoryAt(proof, i);
      if bad { return false; }
      init, finalize := pv.lastInit, pv.lastFinalize;
    }
    return true;
  }

  method CheckDigests(proof: seq<Shard>) returns (ok: bool)
    ensures ok <==> DigestsOk(proof, |proof|)
  {
    var noCommitted, noDeferred := Zeros(COMMITTED_CELLS), Zeros(DEFERRED_CELLS);
    var committed, deferred := noCommitted, noDeferred;
    for i := 0 to |proof|
      invariant committed == CommittedBefore(proof, i) && deferred == DeferredBefore(proof, i) && DigestsOk(proof, i)
    {
      var pv := proof[i].pv;
      var bad := false;
      if committed != noCommitted && pv.committed != committed { bad := true; }
      else if deferred != noDeferred && pv.deferred != deferred { bad := true; }
      else if !proof[i].hasCpu && pv.committed != committed { bad := true; }
      else if !proof[i].hasCpu && pv.deferred != deferred { bad := true; }
      assert bad <==> !DigestsAt(proof, i);
      if bad { return false; }
      committed, deferred := pv.committed, pv.deferred;
    }
    return true;
  }

  /** `SP1Prover::verify`; the verdict of the machine verifier on the shard proofs is a parameter. */
  method Verify(proof: seq<Shard>, pcStart: nat, machineOk: bool) returns (r: Result<(), Error>)
    requires proof != []
    ensures r.Ok? <==> Accepted(proof, pcStart) && machineOk
    ensures r == Err(TooManyShards) ==> |proof| > MAX_SHARDS
    ensures r == Err(MissingCpuInFirstShard) <==> !proof[0].hasCpu
    ensures r == Err(MachineFailed) <==> Accepted(proof, pcStart) && !machineOk
  {
    if !proof[0].hasCpu { return Err(MissingCpuInFirstShard); }
    r := CheckDegrees(proof);
    if r.Err? { return; }
    r := Err(InvalidPublicValues);
    var ok := CheckNumbers(proof);
    if !ok { return; }
    ok := CheckExecutionNumbers(proof);
    if !ok { return; }
    ok := CheckPcs(proof, pcStart);
    if !ok { return; }
    ok := CheckExits(proof);
    if !ok { return; }
    ok := CheckMemory(proof);
    if !ok { return; }
    ok := CheckDigests(proof);
    if !ok { return; }
    if |proof| > MAX_SHARDS { return Err(TooManyShards); }
    return if machineOk then Ok(()) else Err(MachineFailed);
  }

  // ---------- what acceptance means for the whole run ----------

  lemma {:induction false} CpuCountBounds(proof: seq<Shard>, m: nat, n: nat)
    requires m <= n <= |proof|
    ensures CpuCount(proof, m) <= CpuCount(proof, n) <= CpuCount(proof, m) + (n - m)
  { if m < n { CpuCountBounds(proof, m, n - 1); } }

  /** Shards are numbered from one without wrapping, and the k-th CPU shard is execution shard k. */
  lemma {:induction false} NumbersAreExact(proof: seq<Shard>, pcStart: nat, i: nat)
    requires Accepted(proof, pcStart) && i < |proof|
    ensures proof[i].pv.shard == i + 1
    ensures proof[i].hasCpu ==> proof[i].pv.executionShard == CpuCount(proof, i + 1) >= 1
  {
    CpuCountBounds(proof, 0, i + 1);
    CpuCountBounds(proof, i, i + 1);
    Canonical(i + 1); Canonical(CpuCount(proof, i + 1));
  }

  lemma {:induction false} Canonical(n: nat)
    requires n < P
    ensures n % P == n
  {}

  /** Numbers identify shards: no two shards share one, and no two CPU shards share an execution number. */
  lemma {:induction false} NumbersIdentify(proof: seq<Shard>, pcStart: nat, i: nat, j: nat)
    requires Accepted(proof, pcStart) && i < j < |proof|
    ensures proof[i].pv.shard < proof[j].pv.shard
    ensures proof[i].hasCpu && proof[j].hasCpu ==> proof[i].pv.executionShard < proof[j].pv.executionShard
  {
    NumbersAreExact(proof, pcStart, i); NumbersAreExact(proof, pcStart, j);
    CpuCountBounds(proof, i + 1, j);
  }

  /** Once the program counter reaches zero it stays there, and no CPU shard follows. */
  lemma {:induction false} HaltedForGood(proof: seq<Shard>, pcStart: nat, i: nat, j: nat)
    requires Accepted(proof, pcStart) && i < j < |proof| && proof[i].pv.nextPc == 0
    ensures !proof[j].hasCpu && proof[j].pv.startPc == 0 && proof[j].pv.nextPc == 0
  {
    if i + 1 < j { HaltedForGood(proof, pcStart, i, j - 1); }
    assert PcOk(proof, pcStart, j);
  }

  /** The program counters chain: between CPU shards the counter does not move. */
  lemma {:induction false} PcChain(proof: seq<Shard>, pcStart: nat, i: nat, j: nat)
    requires Accepted(proof, pcStart) && i <= j < |proof| && forall k :: i <= k < j ==> !proof[k].hasCpu
    ensures proof[j].pv.startPc == if i == 0 then pcStart else proof[i - 1].pv.nextPc
    decreases j - i
  {
    assert PcOk(proof, pcStart, j);
    if i < j { PcChain(proof, pcStart, i, j - 1); assert PcOk(proof, pcStart, j - 1); }
  }

  /** The end of the chain: a CPU shard leaves the counter at zero exactly when it is the last one. */
  lemma {:induction false} LastCpuHalts(proof: seq<Shard>, pcStart: nat, i: nat)
    requires Accepted(proof, pcStart) && i < |proof| && proof[i].hasCpu
    ensures proof[i].pv.nextPc == 0 <==> forall k :: i < k < |proof| ==> !proof[k].hasCpu
  {
    var last := |proof| - 1;
    assert PcOk(proof, pcStart, last);
    if proof[i].pv.nextPc == 0 {
      forall k | i < k < |proof| ensures !proof[k].hasCpu { HaltedForGood(proof, pcStart, i, k); }
    } else if forall k :: i < k < |proof| ==> !proof[k].hasCpu {
      PcChain(proof, pcStart, i + 1, last);
    }
  }

  /** Address bits change only in shards that initialise or finalise memory. */
  lemma {:induction false} AddressesHold(proof: seq<Shard>, pcStart: nat, i: nat, j: nat)
    requires Accepted(proof, pcStart) && i <= j <= |proof|
    ensures (forall k :: i <= k < j ==> !proof[k].hasMemoryInit) ==> InitBefore(proof, j) == InitBefore(proof, i)
    ensures (forall k :: i <= k < j ==> !proof[k].hasMemoryFinalize) ==>
        FinalizeBefore(proof, j) == FinalizeBefore(proof, i)
    decreases j - i
  { if i < j { AddressesHold(proof, pcStart, i, j - 1); assert MemoryAt(proof, j - 1); } }

  /** A digest never changes once it is nonzero, and changes only in CPU shards. */
  lemma {:induction false} DigestsHold(proof: seq<Shard>, pcStart: nat, i: nat, j: nat)
    requires Accepted(proof, pcStart) && i <= j <= |proof|
    ensures CommittedBefore(proof, i) != Zeros(COMMITTED_CELLS) || (forall k :: i <= k < j ==> !proof[k].hasCpu) ==>
              CommittedBefore(proof, j) == CommittedBefore(proof, i)
    ensures DeferredBefore(proof, i) != Zeros(DEFERRED_CELLS) || (forall k :: i <= k < j ==> !proof[k].hasCpu) ==>
              DeferredBefore(proof, j) == DeferredBefore(proof, i)
    decreases j - i
  { if i < j { DigestsHold(proof, pcStart, i, j - 1); assert DigestsAt(proof, j - 1); } }
}
