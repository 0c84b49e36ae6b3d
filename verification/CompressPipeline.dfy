/** The compress pipeline as a step relation: one feeder, trace workers, provers, a reducer and the
    main thread, joined by three bounded channels and three turn counters.  A thread's own
    computation is one step; sends, turn advances and receives are separate steps, so every
    interleaving of the threads is a run of this relation. */
module CompressPipeline {
  import opened Basics
  import opened CompressTree

  /** n first-layer inputs, the two configured channel capacities, and the worker counts. */
  datatype Params = Params(n: nat, inputCap: nat, recordCap: nat, tracers: nat, provers: nat)

  datatype Work = Input(i: nat) | Compress(proofs: seq<Proof>, isComplete: bool)
  datatype Item = Item(index: nat, height: nat, work: Work, passthrough: bool)
  datatype Message = Message(index: nat, height: nat, proof: Proof)

  /** A worker waits for an item, works on one until its turn comes and the channel has room, has
      sent it but not yet advanced the turn, or has seen its input channel closed. */
  datatype Worker = Idle | Busy(item: Item) | Posted | Stopped

  /** A pool of workers and its turn counter; `taken` and `sent` count items in and out. */
  datatype Stage = Stage(workers: seq<Worker>, turn: nat, taken: nat, sent: nat)

  datatype Phase = Receiving | Sending(item: Item) | Sent(isComplete: bool) | Done

  /** The reducer's variables. */
  datatype Reducer = Reducer(count: nat, batch: seq<Message>, received: seq<nat>, phase: Phase)


  /** `fed`, `sentIn` and `consumed` are the counts of completed feeds, of sends into the input
      channel and of proofs received by the reducer; the last of them is history only. */
  datatype State = State(
    fed: nat, feederPosted: bool, inputTurn: nat, sentIn: nat, inputs: seq<Item>,
    trace: Stage, records: seq<Item>, prove: Stage, proofs: seq<Message>,
    reducer: Reducer, consumed: nat, dropped: bool, result: Option<Message>)

  // ---------- the reducer ----------

  function Proofs(batch: seq<Message>): (r: seq<Proof>)
    ensures |r| == |batch| && forall i :: 0 <= i < |r| ==> r[i] == batch[i].proof
  { if batch == [] then [] else Proofs(batch[..|batch| - 1]) + [batch[|batch| - 1].proof] }

  /** `send_batch` up to its wait for the turn: what will be sent. */
  function BatchItem(n: nat, count: nat, batch: seq<Message>): Item
    requires batch != []
  {
    var h := batch[0].height + 1;
    Item(count, h, Compress(Proofs(batch), h == Height(n)), |batch| == 1)
  }

  /** The first position whose height differs from the first message's. */
  function SplitIndex(batch: seq<Message>, i: nat): (k: nat)
    requires 1 <= i <= |batch|
    ensures i <= k <= |batch|
    decreases |batch| - i
  { if i == |batch| || batch[i].height != batch[0].height then i else SplitIndex(batch, i + 1) }

  /** One iteration of the reducer loop, from a received message to the next blocking point. */
  function Deliver(n: nat, r: Reducer, m: Message): Reducer {
    var received := if m.height < |r.received| then r.received[m.height := r.received[m.height] + 1] else r.received;
    var batch := r.batch + [m];
    if |batch| > 1 && batch[0].height != batch[|batch| - 1].height then
      var k := SplitIndex(batch, 1);
      Reducer(r.count, batch[k..], received, Sending(BatchItem(n, r.count, batch[..k])))
    else if |batch| >= BATCH then Reducer(r.count, [], received, Sending(BatchItem(n, r.count, batch)))
    else
      var h := batch[0].height;
      if h < |received| && h <= Height(n) && received[h] == Count(n, h)
      then Reducer(r.count, [], received, Sending(BatchItem(n, r.count, batch)))
      else Reducer(r.count, batch, received, Receiving)
  }

  // ---------- the provers' result ----------

  /** The proof made from an item; a passed-through batch of one is forwarded. */
  function ProofOf(it: Item): Proof {
    match it.work
    case Input(i) => FirstLayer(i)
    case Compress(ps, c) => if it.passthrough && |ps| == 1 then ps[0] else Merged(ps, c)
  }

  // ---------- steps ----------

  datatype Label =
    | FeedSend | FeedAdvance
    | TraceTake(w: nat) | TracePost(w: nat) | TraceAdvance(w: nat) | TraceStop(w: nat)
    | ProveTake(w: nat) | ProvePost(w: nat) | ProveAdvance(w: nat) | ProveStop(w: nat)
    | ReduceSkip | ReduceTake | ReduceSend | ReduceAdvance | ReduceClosed
    | MainDrop | MainFinish

  /** A channel accepts an item when it is below capacity; a rendezvous channel (capacity zero) holds
      the item until the receiver has it, and its sender is released only then. */
  predicate HasRoom(len: nat, cap: nat) { len < cap || (cap == 0 && len == 0) }
  predicate Released(len: nat, cap: nat) { cap > 0 || len == 0 }

  predicate AllStopped(st: Stage) { forall w :: 0 <= w < |st.workers| ==> st.workers[w].Stopped? }

  /** Every sender of the input channel is gone. */
  predicate InputClosed(p: Params, s: State) { s.fed == p.n && !s.feederPosted && s.reducer.phase.Done? && s.dropped }

  predicate CanTake(st: Stage, w: nat, len: nat) { w < |st.workers| && st.workers[w].Idle? && len > 0 }
  predicate CanPost(st: Stage, w: nat)
  { w < |st.workers| && st.workers[w].Busy? && st.workers[w].item.index == st.turn }
  predicate CanAdvance(st: Stage, w: nat) { w < |st.workers| && st.workers[w].Posted? }
  predicate CanStop(st: Stage, w: nat, len: nat) { w < |st.workers| && st.workers[w].Idle? && len == 0 }

  predicate Enabled(p: Params, s: State, l: Label) {
    s.result.None? &&
    match l
    case FeedSend => !s.feederPosted && s.fed < p.n && s.inputTurn == s.fed && HasRoom(|s.inputs|, p.inputCap)
    case FeedAdvance => s.feederPosted && Released(|s.inputs|, p.inputCap)
    case TraceTake(w) => CanTake(s.trace, w, |s.inputs|)
    case TracePost(w) => CanPost(s.trace, w) && HasRoom(|s.records|, p.recordCap)
    case TraceAdvance(w) => CanAdvance(s.trace, w) && Released(|s.records|, p.recordCap)
    case TraceStop(w) => CanStop(s.trace, w, |s.inputs|) && InputClosed(p, s)
    case ProveTake(w) => CanTake(s.prove, w, |s.records|)
    case ProvePost(w) => CanPost(s.prove, w) && HasRoom(|s.proofs|, 2 * p.n)
    case ProveAdvance(w) => CanAdvance(s.prove, w) && Released(|s.proofs|, 2 * p.n)
    case ProveStop(w) => CanStop(s.prove, w, |s.records|) && AllStopped(s.trace) && s.dropped
    case ReduceSkip => s.reducer.phase.Receiving? && Height(p.n) == 0
    case ReduceTake => s.reducer.phase.Receiving? && Height(p.n) != 0 && |s.proofs| > 0
    case ReduceSend => s.reducer.phase.Sending? && s.inputTurn == s.reducer.count && HasRoom(|s.inputs|, p.inputCap)
    case ReduceAdvance => s.reducer.phase.Sent? && Released(|s.inputs|, p.inputCap)
    case ReduceClosed => s.reducer.phase.Receiving? && Height(p.n) != 0 && |s.proofs| == 0 && AllStopped(s.prove)
        && s.dropped
    case MainDrop => !s.dropped
    case MainFinish => s.dropped && AllStopped(s.prove) && s.reducer.phase.Done? && |s.proofs| > 0
  }

  function Take(st: Stage, w: nat, it: Item): Stage
    requires w < |st.workers|
  { st.(workers := st.workers[w := Busy(it)], taken := st.taken + 1) }

  function Post(st: Stage, w: nat): Stage
    requires w < |st.workers|
  { st.(workers := st.workers[w := Posted], sent := st.sent + 1) }

  function Advance(st: Stage, w: nat): Stage
    requires w < |st.workers|
  { st.(workers := st.workers[w := Idle], turn := st.turn + 1) }

  function Stop(st: Stage, w: nat): Stage
    requires w < |st.workers|
  { st.(workers := st.workers[w := Stopped]) }

  predicate IsComplete(it: Item) { it.work.Compress? && it.work.isComplete }

  function Apply(p: Params, s: State, l: Label): State
    requires Enabled(p, s, l)
  {
    match l
    case FeedSend => s.(feederPosted := true, sentIn := s.sentIn + 1, inputs := s.inputs
        + [Item(s.fed, 0, Input(s.fed), false)])
    case FeedAdvance => s.(feederPosted := false, fed := s.fed + 1, inputTurn := s.inputTurn + 1)
    case TraceTake(w) => s.(trace := Take(s.trace, w, s.inputs[0]), inputs := s.inputs[1..])
    case TracePost(w) => s.(trace := Post(s.trace, w), records := s.records + [s.trace.workers[w].item])
    case TraceAdvance(w) => s.(trace := Advance(s.trace, w))
    case TraceStop(w) => s.(trace := Stop(s.trace, w))
    case ProveTake(w) => s.(prove := Take(s.prove, w, s.records[0]), records := s.records[1..])
    case ProvePost(w) =>
      var it := s.prove.workers[w].item;
      s.(prove := Post(s.prove, w), proofs := s.proofs + [Message(it.index, it.height, ProofOf(it))])
    case ProveAdvance(w) => s.(prove := Advance(s.prove, w))
    case ProveStop(w) => s.(prove := Stop(s.prove, w))
    case ReduceSkip => s.(reducer := s.reducer.(phase := Done))
    case ReduceTake => s.(reducer := Deliver(p.n, s.reducer, s.proofs[0]), proofs := s.proofs[1..],
        consumed := s.consumed + 1)
    case ReduceSend => s.(reducer := s.reducer.(phase := Sent(IsComplete(s.reducer.phase.item))), sentIn := s.sentIn
        + 1, inputs := s.inputs + [s.reducer.phase.item])
    case ReduceAdvance =>
      s.(inputTurn := s.inputTurn + 1,
         reducer := s.reducer.(count := s.reducer.count + 1, phase := if s.reducer.phase.isComplete then Done
         else Receiving))
    case ReduceClosed => s.(reducer := s.reducer.(phase := Done))
    case MainDrop => s.(dropped := true)
    case MainFinish => s.(result := Some(s.proofs[0]), proofs := s.proofs[1..])
  }

  function IdleWorkers(k: nat): (r: seq<Worker>)
    ensures |r| == k && forall w :: 0 <= w < k ==> r[w].Idle?
  { if k == 0 then [] else IdleWorkers(k - 1) + [Idle] }

  function Start(p: Params): State {
    State(0, false, 0, 0, [], Stage(IdleWorkers(p.tracers), 0, 0, 0), [], Stage(IdleWorkers(p.provers), 0, 0, 0), [],
          Reducer(p.n, [], Zeros(Height(p.n) + 1), Receiving), 0, false, None)
  }

  /** A run: a start state and steps from it. */
  ghost predicate IsRun(p: Params, run: seq<State>) {
    && run != [] && run[0] == Start(p)
    && forall i :: 0 <= i < |run| - 1 ==> exists l :: Enabled(p, run[i], l) && run[i + 1] == Apply(p, run[i], l)
  }
}
