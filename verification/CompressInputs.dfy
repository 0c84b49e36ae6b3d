/** The inputs of the first layer of the compress tree, and when the root they lead to is complete. */
module CompressInputs {
  import opened Chunking
  import opened CompressTree

  /** The batch size of the first layer. */
  const FIRST_LAYER_BATCH: nat := 2

  /** A first-layer input: a batch of shard proofs, or a batch of deferred proofs with the digest of
      the deferred proofs before it. */
  datatype Input<S, R, G> =
    | Core(shards: seq<S>, isComplete: bool, isFirstShard: bool, deferredDigest: G)
    | Deferred(proofs: seq<R>, startDigest: G)

  /** `hash_deferred_proofs`. */
  function HashAll<R, G>(hash: (G, R) -> G, start: G, proofs: seq<R>): G {
    if proofs == [] then start else hash(HashAll(hash, start, proofs[..|proofs| - 1]), proofs[|proofs| - 1])
  }

  lemma {:induction false} HashAllConcat<R, G>(hash: (G, R) -> G, start: G, a: seq<R>, b: seq<R>)
    ensures HashAll(hash, start, a + b) == HashAll(hash, HashAll(hash, start, a), b)
    decreases |b|
  {
    if b == [] { assert a + b == a; }
    else {
      var n := |b| - 1;
      assert (a + b)[..|a| + n] == a + b[..n];
      HashAllConcat(hash, start, a, b[..n]);
    }
  }

  /** The i-th deferred batch starts from the digest of all deferred proofs before it. */
  ghost predicate DeferredOk<S, R, G>(hash: (G, R) -> G, zero: G, batches: seq<seq<R>>, inputs: seq<Input<S, R, G>>) {
    |inputs| == |batches| && forall i :: 0 <= i < |batches| ==>
        inputs[i] == Deferred(batches[i], HashAll(hash, zero, Joined(batches[..i])))
  }

  /** `get_recursion_deferred_inputs`. */
  method GetDeferredInputs<S, R, G>(
    hash: (G, R) -> G, zero: G, deferred: seq<R>, batch: nat) returns (inputs: seq<Input<S, R, G>>, digest: G)
    requires batch >= 1
    ensures DeferredOk(hash, zero, Chunks(deferred, batch), inputs) && digest == HashAll(hash, zero, deferred)
  {
    var batches := Chunks(deferred, batch);
    inputs, digest := [], zero;
    for i := 0 to |batches|
      invariant |inputs| == i && digest == HashAll(hash, zero, Joined(batches[..i]))
      invariant forall j :: 0 <= j < i ==>
          inputs[j] == Deferred(batches[j], HashAll(hash, zero, Joined(batches[..j])))
    {
      inputs := inputs + [Deferred(batches[i], digest)];
      assert batches[..i + 1] == batches[..i] + [batches[i]];
      JoinedPush(batches[..i], batches[i]);
      HashAllConcat(hash, zero, Joined(batches[..i]), batches[i]);
      digest := HashAll(hash, digest, batches[i]);
    }
    assert batches[..|batches|] == batches;
    ChunksJoin(deferred, batch);
  }

  ghost predicate CoreOk<S, R, G>(batches: seq<seq<S>>, isComplete: bool, digest: G, inputs: seq<Input<S, R, G>>) {
    |inputs| == |batches| && forall i :: 0 <= i < |batches| ==>
        inputs[i] == Core(batches[i], isComplete, i == 0, digest)
  }

  /** `get_recursion_core_inputs`. */
  method GetCoreInputs<S, R, G>(
    shards: seq<S>, batch: nat, isComplete: bool, digest: G) returns (inputs: seq<Input<S, R, G>>)
    requires batch >= 1
    ensures CoreOk(Chunks(shards, batch), isComplete, digest, inputs)
  {
    var batches := Chunks(shards, batch);
    inputs := [];
    for i := 0 to |batches|
      invariant |inputs| == i && forall j :: 0 <= j < i ==> inputs[j] == Core(batches[j], isComplete, j == 0, digest)
    { inputs := inputs + [Core(batches[i], isComplete, i == 0, digest)]; }
  }

  /** The deferred batches, then the core batches. */
  ghost predicate FirstLayerOk<S, R, G>(
    hash: (G, R) -> G, zero: G, shards: seq<S>, deferred: seq<R>, batch: nat, inputs: seq<Input<S, R, G>>)
    requires batch >= 1
  {
    var d := |Chunks(deferred, batch)|;
    && d <= |inputs| && DeferredOk(hash, zero, Chunks(deferred, batch), inputs[..d])
    && CoreOk(Chunks(shards, batch), |shards| == 1 && deferred == [], HashAll(hash, zero, deferred), inputs[d..])
  }

  /** `get_first_layer_inputs`. */
  method GetFirstLayerInputs<S, R, G>(
    hash: (G, R) -> G, zero: G, shards: seq<S>, deferred: seq<R>, batch: nat) returns (inputs: seq<Input<S, R, G>>)
    requires batch >= 1
    ensures FirstLayerOk(hash, zero, shards, deferred, batch, inputs)
  {
    var first, digest := GetDeferredInputs<S, R, G>(hash, zero, deferred, batch);
    var core := GetCoreInputs<S, R, G>(shards, batch, |shards| == 1 && |deferred| == 0, digest);
    inputs := first + core;
    assert inputs[..|first|] == first && inputs[|first|..] == core;
  }

  function ShardsOf<S, R, G>(inputs: seq<Input<S, R, G>>): seq<S> {
    if inputs == [] then [] else (if inputs[0].Core? then inputs[0].shards else []) + ShardsOf(inputs[1..])
  }

  function DeferredOf<S, R, G>(inputs: seq<Input<S, R, G>>): seq<R> {
    if inputs == [] then [] else (if inputs[0].Deferred? then inputs[0].proofs else []) + DeferredOf(inputs[1..])
  }

  lemma {:induction false} CoreShards<S, R, G>(batches: seq<seq<S>>, inputs: seq<Input<S, R, G>>)
    requires |inputs| == |batches| && forall i :: 0 <= i < |batches| ==>
        inputs[i].Core? && inputs[i].shards == batches[i]
    ensures ShardsOf(inputs) == Joined(batches) && DeferredOf(inputs) == []
    decreases |batches|
  { if batches != [] { CoreShards(batches[1..], inputs[1..]); } }

  lemma {:induction false} DeferredFirst<S, R, G>(
    batches: seq<seq<R>>, inputs: seq<Input<S, R, G>>, core: seq<Input<S, R, G>>)
    requires |inputs| == |batches| && forall i :: 0 <= i < |batches| ==>
        inputs[i].Deferred? && inputs[i].proofs == batches[i]
    ensures ShardsOf(inputs + core) == ShardsOf(core)
        && DeferredOf(inputs + core) == Joined(batches) + DeferredOf(core)
    decreases |batches|
  {
    if batches == [] { assert inputs + core == core; }
    else {
      DeferredFirst(batches[1..], inputs[1..], core);
      assert (inputs + core)[1..] == inputs[1..] + core;
    }
  }

  /** What the deferred batches `ds` and the core batches `cs` put into a first layer. */
  lemma {:induction false} LayerParts<S, R, G>(
    hash: (G, R) -> G, zero: G, ds: seq<seq<R>>, cs: seq<seq<S>>, isComplete: bool, digest: G,
    first: seq<Input<S, R, G>>, core: seq<Input<S, R, G>>, inputs: seq<Input<S, R, G>>)
    requires inputs == first + core && DeferredOk(hash, zero, ds, first) && CoreOk(cs, isComplete, digest, core)
    ensures ShardsOf(inputs) == Joined(cs) && DeferredOf(inputs) == Joined(ds) && |inputs| == |ds| + |cs|
  { CoreShards(cs, core); DeferredFirst(ds, first, core); }

  /** Every shard proof and every deferred proof is in the first layer once, in order. */
  lemma {:induction false} FirstLayerKeepsAll<S, R, G>(
    hash: (G, R) -> G, zero: G, shards: seq<S>, deferred: seq<R>, batch: nat, inputs: seq<Input<S, R, G>>)
    requires batch >= 1 && FirstLayerOk(hash, zero, shards, deferred, batch, inputs)
    ensures ShardsOf(inputs) == shards && DeferredOf(inputs) == deferred
    ensures |inputs| == CeilDiv(|deferred|, batch) + CeilDiv(|shards|, batch)
  {
    var ds, cs := Chunks(deferred, batch), Chunks(shards, batch);
    LayerParts(hash, zero, ds, cs, |shards| == 1 && deferred == [], HashAll(hash, zero, deferred),
        inputs[..|ds|], inputs[|ds|..], inputs);
    ChunksJoin(shards, batch); ChunksJoin(deferred, batch);
    ChunkCount(shards, batch); ChunkCount(deferred, batch);
  }

  /** Whether the proof left at the end says that it is complete. */
  predicate SaysComplete<S, R, G>(root: Proof, inputs: seq<Input<S, R, G>>) {
    match root
    case FirstLayer(i) => i < |inputs| && inputs[i].Core? && inputs[i].isComplete
    case Merged(_, isComplete) => isComplete
  }

  /** The final proof says that it is complete for every run with a shard, except one of exactly two
      shards without deferred proofs: both shards then form the only input, which is not marked. */
  lemma {:induction false} RootComplete<S, R, G>(
    hash: (G, R) -> G, zero: G, shards: seq<S>, deferred: seq<R>, inputs: seq<Input<S, R, G>>)
    requires shards != [] && FirstLayerOk(hash, zero, shards, deferred, FIRST_LAYER_BATCH, inputs)
    ensures |inputs| >= 1
    ensures SaysComplete(Root(|inputs|), inputs) <==> !(|shards| == 2 && deferred == [])
  {
    FirstLayerKeepsAll(hash, zero, shards, deferred, FIRST_LAYER_BATCH, inputs);
    var n := |inputs|;
    RootCovers(n);
    if n == 1 {
      assert Root(1) == Layer(1, 0)[0] == FirstLayer(0);
      assert Chunks(deferred, FIRST_LAYER_BATCH) == [] by { ChunkCount(deferred, FIRST_LAYER_BATCH); }
      assert inputs[0..][0] == inputs[0];
    }
  }
}
