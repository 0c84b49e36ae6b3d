/** What every reachable state of the compress pipeline satisfies. */
module CompressInvariant {
  import opened Basics
  import opened CompressTree
  import opened CompressPipeline

  // ---------- items ----------

  /** Position k of layer h has this index. */
  ghost predicate At(n: nat, h: nat, k: nat, index: nat)
  { h <= Height(n) && k < Count(n, h) && index == Offset(n, h) + k }

  /** Position k of layer h is made by this work. */
  ghost predicate WorkOk(n: nat, h: nat, k: nat, work: Work, passthrough: bool) {
    if h == 0 then work == Input(k) && !passthrough
    else k < Batches(|Layer(n, h - 1)|) && IsGroup(Group(Layer(n, h - 1), k), h == Height(n), work, passthrough)
  }

  ghost predicate IsGroup(g: seq<Proof>, isComplete: bool, work: Work, passthrough: bool) {
    work == Compress(g, isComplete) && passthrough == (|g| == 1)
  }

  ghost predicate ItemAt(n: nat, it: Item, k: nat)
  { At(n, it.height, k, it.index) && WorkOk(n, it.height, k, it.work, it.passthrough) }

  /** The item is the one the tree prescribes for its index. */
  ghost predicate ItemOk(n: nat, it: Item) { exists k: nat :: ItemAt(n, it, k) }

  ghost predicate MessageAt(n: nat, m: Message, k: nat)
  { At(n, m.height, k, m.index) && m.proof == Layer(n, m.height)[k] }

  ghost predicate MessageOk(n: nat, m: Message) { exists k: nat :: MessageAt(n, m, k) }

  lemma {:induction false} ProvedItem(n: nat, it: Item)
    requires ItemOk(n, it)
    ensures MessageOk(n, Message(it.index, it.height, ProofOf(it)))
  {
    var k: nat :| ItemAt(n, it, k);
    ProvedAt(n, it, k);
    assert MessageAt(n, Message(it.index, it.height, ProofOf(it)), k);
  }

  lemma {:induction false} ProvedAt(n: nat, it: Item, k: nat)
    requires ItemAt(n, it, k)
    ensures k < |Layer(n, it.height)| && ProofOf(it) == Layer(n, it.height)[k]
  { if it.height == 0 { FirstLayerAt(n, k); } else { ProvedMerge(n, it.height, k, it); } }

  lemma {:induction false} ProvedMerge(n: nat, h: nat, k: nat, it: Item)
    requires h > 0 && k < Count(n, h) && k < Batches(|Layer(n, h - 1)|)
    requires IsGroup(Group(Layer(n, h - 1), k), h == Height(n), it.work, it.passthrough)
    ensures ProofOf(it) == Layer(n, h)[k]
  {
    LayerAt(n, h, k);
    MergedProof(Group(Layer(n, h - 1), k), h == Height(n), it);
  }

  lemma {:induction false} FirstLayerAt(n: nat, k: nat)
    requires k < n
    ensures Layer(n, 0)[k] == FirstLayer(k)
  {}

  lemma {:induction false} MergedProof(g: seq<Proof>, isComplete: bool, it: Item)
    requires |g| >= 1 && IsGroup(g, isComplete, it.work, it.passthrough)
    ensures ProofOf(it) == Merge(g, isComplete)
  {}

  /** A channel holds consecutive prescribed items from index `lo` on. */
  ghost predicate QueueOk(n: nat, q: seq<Item>, lo: nat) {
    forall i :: 0 <= i < |q| ==> q[i].index == lo + i && ItemOk(n, q[i])
  }

  ghost predicate MessagesOk(n: nat, q: seq<Message>, lo: nat) {
    forall i :: 0 <= i < |q| ==> q[i].index == lo + i && MessageOk(n, q[i])
  }

  // ---------- worker pools ----------

  ghost predicate HasBusy(st: Stage, k: nat)
  { exists w :: 0 <= w < |st.workers| && st.workers[w].Busy? && st.workers[w].item.index == k }
  ghost predicate HasPosted(st: Stage) { exists w :: 0 <= w < |st.workers| && st.workers[w].Posted? }

  ghost predicate BusyOk(n: nat, st: Stage) {
    forall w :: 0 <= w < |st.workers| && st.workers[w].Busy? ==>
      st.sent <= st.workers[w].item.index < st.taken && ItemOk(n, st.workers[w].item)
  }

  ghost predicate BusyOnce(ws: seq<Worker>) {
    forall v, w :: 0 <= v < w < |ws| && ws[v].Busy? && ws[w].Busy? ==> ws[v].item.index != ws[w].item.index
  }

  ghost predicate AllHeld(st: Stage) { forall k :: st.sent <= k < st.taken ==> HasBusy(st, k) }

  ghost predicate PostedOnce(ws: seq<Worker>) {
    forall v, w :: 0 <= v < w < |ws| ==> !(ws[v].Posted? && ws[w].Posted?)
  }

  /** The busy workers hold exactly the items taken and not yet sent, each once; one worker at most
      stands between its send and its turn advance. */
  ghost predicate StageOk(n: nat, st: Stage) {
    && st.sent <= st.taken && BusyOk(n, st) && BusyOnce(st.workers) && AllHeld(st) && PostedOnce(st.workers)
    && st.sent == st.turn + (if HasPosted(st) then 1 else 0)
  }

  /** A step of worker w leaves the items of the other workers held. */
  lemma {:induction false} OthersHeld(st: Stage, t: Stage, w: nat, k: nat)
    requires w < |st.workers| == |t.workers| && HasBusy(st, k)
    requires !(st.workers[w].Busy? && st.workers[w].item.index == k)
    requires t.workers == st.workers[w := t.workers[w]]
    ensures HasBusy(t, k)
  {
    var v :| 0 <= v < |st.workers| && st.workers[v].Busy? && st.workers[v].item.index == k;
    assert t.workers[v] == st.workers[v];
  }

  lemma {:induction false} TakeOk(n: nat, st: Stage, w: nat, it: Item)
    requires StageOk(n, st) && w < |st.workers| && st.workers[w].Idle? && ItemOk(n, it) && it.index == st.taken
    ensures StageOk(n, Take(st, w, it))
  {
    var t := Take(st, w, it);
    forall k | t.sent <= k < t.taken ensures HasBusy(t, k) {
      if k == st.taken { assert t.workers[w].item.index == k; }
      else { OthersHeld(st, t, w, k); }
    }
    assert BusyOk(n, t);
    SamePosted(st, t, w);
  }

  lemma {:induction false} SamePosted(st: Stage, t: Stage, w: nat)
    requires w < |st.workers| == |t.workers| && !st.workers[w].Posted? && !t.workers[w].Posted?
    requires t.workers == st.workers[w := t.workers[w]]
    ensures HasPosted(t) <==> HasPosted(st)
  {
    if HasPosted(st) { var v :| 0 <= v < |st.workers| && st.workers[v].Posted?; assert t.workers[v].Posted?; }
    if HasPosted(t) { var v :| 0 <= v < |t.workers| && t.workers[v].Posted?; assert st.workers[v].Posted?; }
  }

  lemma {:induction false} PostOk(n: nat, st: Stage, w: nat)
    requires StageOk(n, st) && CanPost(st, w)
    ensures st.workers[w].item.index == st.sent && ItemOk(n, st.workers[w].item) && StageOk(n, Post(st, w))
  {
    var t := Post(st, w);
    assert !HasPosted(st);
    assert t.workers[w].Posted?;
    forall k | t.sent <= k < t.taken ensures HasBusy(t, k) { OthersHeld(st, t, w, k); }
    forall v | 0 <= v < |t.workers| && t.workers[v].Busy? ensures t.sent <= t.workers[v].item.index
    { assert t.workers[v] == st.workers[v]; }
  }

  lemma {:induction false} AdvanceOk(n: nat, st: Stage, w: nat)
    requires StageOk(n, st) && CanAdvance(st, w)
    ensures StageOk(n, Advance(st, w))
  {
    var t := Advance(st, w);
    forall k | t.sent <= k < t.taken ensures HasBusy(t, k) { OthersHeld(st, t, w, k); }
    assert HasPosted(st);
    assert !HasPosted(t);
  }

  lemma {:induction false} StopOk(n: nat, st: Stage, w: nat)
    requires StageOk(n, st) && w < |st.workers| && st.workers[w].Idle?
    ensures StageOk(n, Stop(st, w))
  {
    var t := Stop(st, w);
    forall k | t.sent <= k < t.taken ensures HasBusy(t, k) { OthersHeld(st, t, w, k); }
    SamePosted(st, t, w);
  }

  /** A pool with nobody busy and nobody between send and advance has passed on all it took. */
  lemma {:induction false} QuietStage(n: nat, st: Stage)
    requires StageOk(n, st) && forall w :: 0 <= w < |st.workers| ==> st.workers[w].Idle? || st.workers[w].Stopped?
    ensures st.turn == st.sent == st.taken
  { assert st.sent < st.taken ==> HasBusy(st, st.sent); }

  // ---------- the reducer ----------

  ghost predicate Pending(r: Reducer) { r.phase.Sending? || r.phase.Sent? }

  ghost predicate ReceivedOk(n: nat, received: seq<nat>, h: nat, j: nat) {
    && |received| == Height(n) + 1
    && forall g :: 0 <= g <= Height(n) ==> received[g] == if g < h then Count(n, g) else if g == h then j else 0
  }

  /** The batch holds proofs `lo`, `lo + 1`, ... of a layer whose first proof has index `first`. */
  ghost predicate BatchOk(layer: seq<Proof>, first: nat, h: nat, batch: seq<Message>, lo: nat) {
    && lo + |batch| <= |layer|
    && forall i :: 0 <= i < |batch| ==> batch[i] == Message(first + lo + i, h, layer[lo + i])
  }

  /** What the phase says when the reducer is in layer h. */
  ghost predicate PhaseOk(n: nat, r: Reducer, h: nat) {
    match r.phase
    case Receiving => h < Height(n) || Height(n) == 0
    case Sending(it) => ItemOk(n, it) && it.index == r.count && (IsComplete(it) <==> h == Height(n)) && r.batch == []
    case Sent(c) => (c <==> h == Height(n)) && r.batch == []
    case Done => h == Height(n)
  }

  /** The reducer has received q full batches and e more proofs of layer h, and all of the layers below. */
  ghost predicate ReducerAt(n: nat, r: Reducer, h: nat, q: nat, e: nat) {
    && h <= Height(n) && 3 * q + e < Count(n, h) && e < 3
    && ReceivedOk(n, r.received, h, 3 * q + e)
    && |r.batch| == e && BatchOk(Layer(n, h), Offset(n, h), h, r.batch, 3 * q)
    && r.count >= n
    && r.count + (if Pending(r) then 1 else 0) == Offset(n, h + 1) + q
    && PhaseOk(n, r, h)
  }

  ghost predicate ReducerOk(n: nat, r: Reducer, consumed: nat) {
    exists h: nat, q: nat, e: nat :: ReducerAt(n, r, h, q, e) && consumed == Offset(n, h) + 3 * q + e
  }

  lemma {:induction false} BatchIsGroup(layer: seq<Proof>, first: nat, h: nat, batch: seq<Message>, k: nat)
    requires 0 < |batch| <= 3 && BatchOk(layer, first, h, batch, 3 * k)
    requires |batch| == 3 || 3 * k + |batch| == |layer|
    ensures k < Batches(|layer|) && Proofs(batch) == Group(layer, k) && batch[0].height == h
  {
    SplitGroup(layer, k);
    forall i | 0 <= i < |batch| ensures Group(layer, k)[i] == Proofs(batch)[i]
        { assert batch[i].proof == layer[3 * k + i]; }
  }

  lemma {:induction false} BatchGrows(layer: seq<Proof>, first: nat, h: nat, batch: seq<Message>, m: Message, lo: nat)
    requires BatchOk(layer, first, h, batch, lo) && lo + |batch| < |layer|
    requires m == Message(first + lo + |batch|, h, layer[lo + |batch|])
    ensures BatchOk(layer, first, h, batch + [m], lo)
  {}

  /** A flushed batch is the item the tree prescribes. */
  lemma {:induction false} BatchItemOk(n: nat, count: nat, batch: seq<Message>, h: nat, k: nat)
    requires h < Height(n) && 0 < |batch| <= 3 && BatchOk(Layer(n, h), Offset(n, h), h, batch, 3 * k)
    requires |batch| == 3 || 3 * k + |batch| == Count(n, h)
    requires count == Offset(n, h + 1) + k
    ensures var it := BatchItem(n, count, batch);
        ItemOk(n, it) && it.index == count && (IsComplete(it) <==> h + 1 == Height(n))
  {
    BatchIsGroup(Layer(n, h), Offset(n, h), h, batch, k);
    GroupItemOk(n, h, k, BatchItem(n, count, batch));
  }

  lemma {:induction false} GroupItemOk(n: nat, h: nat, k: nat, it: Item)
    requires h < Height(n) && k < Batches(Count(n, h)) && it.index == Offset(n, h + 1) + k && it.height == h + 1
    requires IsGroup(Group(Layer(n, h), k), h + 1 == Height(n), it.work, it.passthrough)
    ensures ItemOk(n, it)
  { assert ItemAt(n, it, k); }

  /** The message that arrives next belongs to the layer being received. */
  lemma {:induction false} NextMessage(n: nat, m: Message, h: nat, j: nat)
    requires MessageOk(n, m) && j < Count(n, h) && m.index == Offset(n, h) + j
    ensures m == Message(Offset(n, h) + j, h, Layer(n, h)[j])
  {
    var k: nat :| MessageAt(n, m, k);
    LayerUnique(n, m.height, k, h, j);
  }

  lemma {:induction false} FullCount(n: nat, h: nat, q: nat, e: nat)
    requires n >= 1 && h < Height(n) && 3 * q + e + 1 == Count(n, h) && e < 3
    ensures Offset(n, h + 2) == Offset(n, h + 1) + q + 1 && Count(n, h + 1) >= 1
  {}

  lemma {:induction false} ReceiveOne(n: nat, r: Reducer, h: nat, j: nat)
    requires h < Height(n) && j < Count(n, h) && ReceivedOk(n, r.received, h, j)
    ensures h < |r.received|
    ensures j + 1 < Count(n, h) ==> ReceivedOk(n, r.received[h := r.received[h] + 1], h, j + 1)
    ensures j + 1 == Count(n, h) ==> ReceivedOk(n, r.received[h := r.received[h] + 1], h + 1, 0)
    ensures r.received[h] + 1 == j + 1
  {}

  /** A batch of one height is flushed when it is full or the layer is. */
  lemma {:induction false} DeliverForm(n: nat, r: Reducer, m: Message, h: nat)
    requires h <= Height(n) && h < |r.received| && m.height == h && OneHeight(r.batch, h)
    ensures var received, b := r.received[h := r.received[h] + 1], r.batch + [m];
      Deliver(n, r, m) == if |b| >= 3 || received[h] == Count(n, h)
                          then Reducer(r.count, [], received, Sending(BatchItem(n, r.count, b)))
                          else Reducer(r.count, b, received, Receiving)
  {}

  /** A flush leaves the reducer at the start of a batch. */
  lemma {:induction false} FlushedAt(n: nat, count: nat, received: seq<nat>, it: Item, h: nat, q: nat)
    requires h <= Height(n) && 3 * q < Count(n, h) && ReceivedOk(n, received, h, 3 * q)
    requires count >= n && count + 1 == Offset(n, h + 1) + q
    requires ItemOk(n, it) && it.index == count && (IsComplete(it) <==> h == Height(n))
    ensures ReducerAt(n, Reducer(count, [], received, Sending(it)), h, q, 0)
  {}

  lemma {:induction false} KeptAt(n: nat, count: nat, received: seq<nat>, b: seq<Message>, h: nat, q: nat, e: nat)
    requires h < Height(n) && 3 * q + e < Count(n, h) && e < 3 && ReceivedOk(n, received, h, 3 * q + e)
    requires |b| == e && BatchOk(Layer(n, h), Offset(n, h), h, b, 3 * q)
    requires count >= n && count == Offset(n, h + 1) + q
    ensures ReducerAt(n, Reducer(count, b, received, Receiving), h, q, e)
  {}

  /** Where the reducer is after the proof at position 3q + e of layer h. */
  ghost predicate NextAt(n: nat, t: Reducer, h: nat, q: nat, e: nat) {
    if 3 * q + e + 1 == Count(n, h) then ReducerAt(n, t, h + 1, 0, 0)
    else if e == 2 then ReducerAt(n, t, h, q + 1, 0)
    else ReducerAt(n, t, h, q, e + 1)
  }

  ghost predicate OneHeight(b: seq<Message>, h: nat) { forall i :: 0 <= i < |b| ==> b[i].height == h }

  /** One loop iteration of the reducer: it moves to the next proof of the layer, or to the next
      layer, and never sees two heights in one batch. */
  lemma {:induction false} DeliverOk(n: nat, r: Reducer, m: Message, h: nat, q: nat, e: nat)
    requires n >= 1 && ReducerAt(n, r, h, q, e) && r.phase.Receiving? && h < Height(n)
    requires MessageOk(n, m) && m.index == Offset(n, h) + 3 * q + e
    ensures OneHeight(r.batch + [m], h)
    ensures NextAt(n, Deliver(n, r, m), h, q, e)
  {
    DeliverReady(n, r, m, h, q, e);
    DeliverForm(n, r, m, h);
    AfterOne(n, r.count, r.received[h := r.received[h] + 1], r.batch + [m], h, q, e);
  }

  /** What a received proof does to the batch and the counts. */
  lemma {:induction false} DeliverReady(n: nat, r: Reducer, m: Message, h: nat, q: nat, e: nat)
    requires n >= 1 && ReducerAt(n, r, h, q, e) && r.phase.Receiving? && h < Height(n)
    requires MessageOk(n, m) && m.index == Offset(n, h) + 3 * q + e
    ensures m.height == h && OneHeight(r.batch, h) && OneHeight(r.batch + [m], h)
    ensures |r.batch + [m]| == e + 1 && BatchOk(Layer(n, h), Offset(n, h), h, r.batch + [m], 3 * q)
    ensures h < |r.received| && r.received[h] + 1 == 3 * q + e + 1
    ensures var received := r.received[h := r.received[h] + 1];
      if 3 * q + e + 1 < Count(n, h) then ReceivedOk(n, received, h, 3 * q + e + 1)
      else ReceivedOk(n, received, h + 1, 0)
  {
    MessageJoins(n, r.batch, m, h, q, e);
    ReceiveOne(n, r, h, 3 * q + e);
  }

  /** The next message belongs to the batch. */
  lemma {:induction false} MessageJoins(n: nat, batch: seq<Message>, m: Message, h: nat, q: nat, e: nat)
    requires MessageOk(n, m) && m.index == Offset(n, h) + 3 * q + e && 3 * q + e < Count(n, h)
    requires |batch| == e && BatchOk(Layer(n, h), Offset(n, h), h, batch, 3 * q)
    ensures m.height == h && OneHeight(batch, h) && OneHeight(batch + [m], h)
    ensures BatchOk(Layer(n, h), Offset(n, h), h, batch + [m], 3 * q)
  {
    NextMessage(n, m, h, 3 * q + e);
    BatchReady(Layer(n, h), Offset(n, h), h, batch, m, q, e);
  }

  lemma {:induction false} BatchReady(
    layer: seq<Proof>, first: nat, h: nat, batch: seq<Message>, m: Message, q: nat, e: nat)
    requires BatchOk(layer, first, h, batch, 3 * q) && |batch| == e && 3 * q + e < |layer|
    requires m == Message(first + (3 * q + e), h, layer[3 * q + e])
    ensures OneHeight(batch, h) && OneHeight(batch + [m], h) && BatchOk(layer, first, h, batch + [m], 3 * q)
  {
    BatchGrows(layer, first, h, batch, m, 3 * q);
    BatchHeight(layer, first, h, batch, 3 * q);
    BatchHeight(layer, first, h, batch + [m], 3 * q);
  }

  lemma {:induction false} BatchHeight(layer: seq<Proof>, first: nat, h: nat, batch: seq<Message>, lo: nat)
    requires BatchOk(layer, first, h, batch, lo)
    ensures OneHeight(batch, h)
  {}

  /** The three ends of an iteration: the layer is complete, the batch is full, or neither. */
  lemma {:induction false} AfterOne(n: nat, count: nat, received: seq<nat>, b: seq<Message>, h: nat, q: nat, e: nat)
    requires n >= 1 && h < Height(n) && 3 * q + e < Count(n, h) && e < 3 && count >= n
        && count == Offset(n, h + 1) + q
    requires |b| == e + 1 && BatchOk(Layer(n, h), Offset(n, h), h, b, 3 * q)
    requires if 3 * q + e + 1 < Count(n, h) then ReceivedOk(n, received, h, 3 * q + e + 1)
    else ReceivedOk(n, received, h + 1, 0)
    ensures |b| >= 3 || 3 * q + e + 1 == Count(n, h) ==>
              NextAt(n, Reducer(count, [], received, Sending(BatchItem(n, count, b))), h, q, e)
    ensures |b| < 3 && 3 * q + e + 1 < Count(n, h) ==> NextAt(n, Reducer(count, b, received, Receiving), h, q, e)
  {
    if 3 * q + e + 1 == Count(n, h) { LayerEnds(n, count, received, b, h, q, e); }
    else if e == 2 { BatchEnds(n, count, received, b, h, q); }
    else { KeptAt(n, count, received, b, h, q, e + 1); }
  }

  lemma {:induction false} LayerEnds(n: nat, count: nat, received: seq<nat>, b: seq<Message>, h: nat, q: nat, e: nat)
    requires n >= 1 && h < Height(n) && 3 * q + e + 1 == Count(n, h) && e < 3 && count >= n
        && count == Offset(n, h + 1) + q
    requires |b| == e + 1 && BatchOk(Layer(n, h), Offset(n, h), h, b, 3 * q) && ReceivedOk(n, received, h + 1, 0)
    ensures ReducerAt(n, Reducer(count, [], received, Sending(BatchItem(n, count, b))), h + 1, 0, 0)
  {
    BatchItemOk(n, count, b, h, q);
    FullCount(n, h, q, e);
    FlushedAt(n, count, received, BatchItem(n, count, b), h + 1, 0);
  }

  lemma {:induction false} BatchEnds(n: nat, count: nat, received: seq<nat>, b: seq<Message>, h: nat, q: nat)
    requires n >= 1 && h < Height(n) && 3 * q + 3 < Count(n, h) && count >= n && count == Offset(n, h + 1) + q
    requires |b| == 3 && BatchOk(Layer(n, h), Offset(n, h), h, b, 3 * q) && ReceivedOk(n, received, h, 3 * (q + 1))
    ensures ReducerAt(n, Reducer(count, [], received, Sending(BatchItem(n, count, b))), h, q + 1, 0)
  {
    CountBounds(n, h);
    BatchItemOk(n, count, b, h, q);
    FlushedAt(n, count, received, BatchItem(n, count, b), h, q + 1);
  }

  /** The reducer never sends more than the tree holds, and what it has sent stays ahead of what it
      has received. */
  lemma {:induction false} ReducerBounds(n: nat, r: Reducer, consumed: nat)
    requires n >= 1 && ReducerOk(n, r, consumed)
    ensures r.count + (if Pending(r) then 1 else 0) <= Total(n)
    ensures r.count + (if Pending(r) then 1 else 0) > consumed
    ensures r.phase.Done? ==> consumed == Offset(n, Height(n)) && r.count == Total(n)
    ensures r.phase.Done? ==> forall h :: 0 <= h < Height(n) ==> r.received[h] == Count(n, h)
  {
    var h: nat, q: nat, e: nat :| ReducerAt(n, r, h, q, e) && consumed == Offset(n, h) + 3 * q + e;
    CountBounds(n, h);
    if h < Height(n) { SentBound(n, h, q); }
  }

  lemma {:induction false} SentBound(n: nat, h: nat, q: nat)
    requires n >= 1 && h < Height(n) && 3 * q < Count(n, h)
    ensures Offset(n, h + 1) + q < Total(n)
  {
    OffsetMonotone(n, h + 1, Height(n));
    CountBounds(n, Height(n)); CountBounds(n, h);
  }

  // ---------- the invariant ----------

  /** The feeder sends the first n items, then the reducer the rest. */
  ghost predicate FeedOk(n: nat, fed: nat, posted: bool, turn: nat, sentIn: nat, r: Reducer) {
    && fed <= n
    && (fed < n ==> r.count == n && !r.phase.Sent? && turn == fed && sentIn == fed + (if posted then 1 else 0))
    && (fed == n ==> !posted && turn == r.count && sentIn == r.count + (if r.phase.Sent? then 1 else 0))
  }

  ghost predicate ChannelOk(n: nat, q: seq<Item>, taken: nat, sent: nat)
  { taken + |q| == sent && QueueOk(n, q, taken) }

  ghost predicate StopsOk(st: Stage, closed: bool, len: nat) {
    forall w :: 0 <= w < |st.workers| && st.workers[w].Stopped? ==> closed && len == 0
  }

  ghost predicate Sizes(p: Params, s: State) { |s.trace.workers| == p.tracers && |s.prove.workers| == p.provers }

  /** The invariant while the main thread is still waiting. */
  ghost predicate Running(p: Params, s: State) {
    && s.result.None? && Sizes(p, s)
    && FeedOk(p.n, s.fed, s.feederPosted, s.inputTurn, s.sentIn, s.reducer)
    && ChannelOk(p.n, s.inputs, s.trace.taken, s.sentIn)
    && StageOk(p.n, s.trace)
    && ChannelOk(p.n, s.records, s.prove.taken, s.trace.sent)
    && StageOk(p.n, s.prove)
    && s.consumed + |s.proofs| == s.prove.sent && MessagesOk(p.n, s.proofs, s.consumed)
    && ReducerOk(p.n, s.reducer, s.consumed)
    && StopsOk(s.trace, InputClosed(p, s), |s.inputs|)
    && StopsOk(s.prove, AllStopped(s.trace) && s.dropped, |s.records|)
  }

  /** The invariant once the main thread has its proof: it is the root, nothing is left over, and
      the reducer has received every layer below the root in full. */
  ghost predicate Finished(p: Params, s: State) {
    && p.n >= 1 && s.result == Some(Message(Offset(p.n, Height(p.n)), Height(p.n), Root(p.n))) && Sizes(p, s)
    && s.inputs == [] && s.records == [] && s.proofs == []
    && |s.reducer.received| == Height(p.n) + 1
    && forall h :: 0 <= h < Height(p.n) ==> s.reducer.received[h] == Count(p.n, h)
  }

  ghost predicate Inv(p: Params, s: State) { Running(p, s) || Finished(p, s) }

  /** At least one input and one worker of each kind. */
  predicate Sensible(p: Params) { p.n >= 1 && p.tracers >= 1 && p.provers >= 1 }
}
