/** Every run of the compress pipeline keeps its invariant, can always go on, ends within a fixed
    number of steps, and ends with the root of the tree. */
module CompressRuns {
  import opened CompressTree
  import opened CompressPipeline
  import opened CompressInvariant

  // ---------- the invariant holds at the start ----------

  lemma {:induction false} StartOk(p: Params)
    requires Sensible(p)
    ensures Running(p, Start(p))
  {
    var n := p.n;
    assert Offset(n, 1) == n;
    assert ReducerAt(n, Start(p).reducer, 0, 0, 0);
  }

  // ---------- and is kept by every step ----------

  lemma {:induction false} PushOk(n: nat, q: seq<Item>, taken: nat, sent: nat, it: Item)
    requires ChannelOk(n, q, taken, sent) && ItemOk(n, it) && it.index == sent
    ensures ChannelOk(n, q + [it], taken, sent + 1)
  {}

  lemma {:induction false} PopOk(n: nat, q: seq<Item>, taken: nat, sent: nat)
    requires ChannelOk(n, q, taken, sent) && q != []
    ensures ItemOk(n, q[0]) && q[0].index == taken && ChannelOk(n, q[1..], taken + 1, sent)
  {}

  lemma {:induction false} FeedKeeps(p: Params, s: State, l: Label)
    requires Sensible(p) && Running(p, s) && (l.FeedSend? || l.FeedAdvance?) && Enabled(p, s, l)
    ensures Running(p, Apply(p, s, l))
  {
    if l.FeedSend? {
      var it := Item(s.fed, 0, Input(s.fed), false);
      assert ItemAt(p.n, it, s.fed);
      PushOk(p.n, s.inputs, s.trace.taken, s.sentIn, it);
    }
  }

  /** A pool and the channel it takes from, which receives `sent` items in all. */
  ghost predicate Side(n: nat, st: Stage, q: seq<Item>, sent: nat, closed: bool) {
    StageOk(n, st) && ChannelOk(n, q, st.taken, sent) && StopsOk(st, closed, |q|)
  }

  /** While the channel holds something no worker has stopped. */
  lemma {:induction false} SideTake(n: nat, st: Stage, q: seq<Item>, sent: nat, closed: bool, w: nat)
    requires Side(n, st, q, sent, closed) && CanTake(st, w, |q|)
    ensures Side(n, Take(st, w, q[0]), q[1..], sent, closed)
  {
    PopOk(n, q, st.taken, sent);
    TakeOk(n, st, w, q[0]);
  }

  /** The item sent is the next one. */
  lemma {:induction false} SidePost(n: nat, st: Stage, q: seq<Item>, sent: nat, closed: bool, w: nat)
    requires Side(n, st, q, sent, closed) && CanPost(st, w)
    ensures Side(n, Post(st, w), q, sent, closed)
    ensures st.workers[w].item.index == st.sent && ItemOk(n, st.workers[w].item)
  { PostOk(n, st, w); }

  lemma {:induction false} SideAdvance(n: nat, st: Stage, q: seq<Item>, sent: nat, closed: bool, w: nat)
    requires Side(n, st, q, sent, closed) && CanAdvance(st, w)
    ensures Side(n, Advance(st, w), q, sent, closed)
  { AdvanceOk(n, st, w); }

  lemma {:induction false} SideStop(n: nat, st: Stage, q: seq<Item>, sent: nat, closed: bool, w: nat)
    requires Side(n, st, q, sent, closed) && CanStop(st, w, |q|) && closed
    ensures Side(n, Stop(st, w), q, sent, closed)
  { StopOk(n, st, w); }

  /** A step of one tracer changes their pool and the two channels beside it. */
  lemma {:induction false} TraceSide(p: Params, s: State, t: State, w: nat)
    requires Running(p, s) && t == s.(trace := t.trace, inputs := t.inputs, records := t.records)
    requires |t.trace.workers| == |s.trace.workers| && w < |s.trace.workers| && !s.trace.workers[w].Stopped?
    requires Side(p.n, t.trace, t.inputs, s.sentIn, InputClosed(p, s))
    requires ChannelOk(p.n, t.records, s.prove.taken, t.trace.sent)
    ensures Running(p, t)
  {}

  /** And a step of one prover theirs. */
  lemma {:induction false} ProveSide(p: Params, s: State, t: State)
    requires Running(p, s) && t == s.(prove := t.prove, records := t.records, proofs := t.proofs)
    requires |t.prove.workers| == |s.prove.workers|
    requires Side(p.n, t.prove, t.records, s.trace.sent, AllStopped(s.trace) && s.dropped)
    requires s.consumed + |t.proofs| == t.prove.sent && MessagesOk(p.n, t.proofs, s.consumed)
    ensures Running(p, t)
  {}

  lemma {:induction false} TraceTakeKeeps(p: Params, s: State, w: nat)
    requires Sensible(p) && Running(p, s) && Enabled(p, s, TraceTake(w))
    ensures Running(p, Apply(p, s, TraceTake(w)))
  {
    SideTake(p.n, s.trace, s.inputs, s.sentIn, InputClosed(p, s), w);
    TraceSide(p, s, Apply(p, s, TraceTake(w)), w);
  }

  lemma {:induction false} TracePostKeeps(p: Params, s: State, w: nat)
    requires Sensible(p) && Running(p, s) && Enabled(p, s, TracePost(w))
    ensures Running(p, Apply(p, s, TracePost(w)))
  {
    SidePost(p.n, s.trace, s.inputs, s.sentIn, InputClosed(p, s), w);
    PushOk(p.n, s.records, s.prove.taken, s.trace.sent, s.trace.workers[w].item);
    TraceSide(p, s, Apply(p, s, TracePost(w)), w);
  }

  lemma {:induction false} TraceAdvanceKeeps(p: Params, s: State, w: nat)
    requires Sensible(p) && Running(p, s) && Enabled(p, s, TraceAdvance(w))
    ensures Running(p, Apply(p, s, TraceAdvance(w)))
  {
    SideAdvance(p.n, s.trace, s.inputs, s.sentIn, InputClosed(p, s), w);
    TraceSide(p, s, Apply(p, s, TraceAdvance(w)), w);
  }

  lemma {:induction false} TraceStopKeeps(p: Params, s: State, w: nat)
    requires Sensible(p) && Running(p, s) && Enabled(p, s, TraceStop(w))
    ensures Running(p, Apply(p, s, TraceStop(w)))
  {
    SideStop(p.n, s.trace, s.inputs, s.sentIn, InputClosed(p, s), w);
    TraceSide(p, s, Apply(p, s, TraceStop(w)), w);
  }

  lemma {:induction false} ProveTakeKeeps(p: Params, s: State, w: nat)
    requires Sensible(p) && Running(p, s) && Enabled(p, s, ProveTake(w))
    ensures Running(p, Apply(p, s, ProveTake(w)))
  {
    SideTake(p.n, s.prove, s.records, s.trace.sent, AllStopped(s.trace) && s.dropped, w);
    ProveSide(p, s, Apply(p, s, ProveTake(w)));
  }

  lemma {:induction false} PushMessageOk(n: nat, q: seq<Message>, lo: nat, m: Message)
    requires MessagesOk(n, q, lo) && MessageOk(n, m) && m.index == lo + |q|
    ensures MessagesOk(n, q + [m], lo)
  {}

  lemma {:induction false} ProvePostKeeps(p: Params, s: State, w: nat)
    requires Sensible(p) && Running(p, s) && Enabled(p, s, ProvePost(w))
    ensures Running(p, Apply(p, s, ProvePost(w)))
  {
    SidePost(p.n, s.prove, s.records, s.trace.sent, AllStopped(s.trace) && s.dropped, w);
    var it := s.prove.workers[w].item;
    ProvedItem(p.n, it);
    PushMessageOk(p.n, s.proofs, s.consumed, Message(it.index, it.height, ProofOf(it)));
    ProveSide(p, s, Apply(p, s, ProvePost(w)));
  }

  lemma {:induction false} ProveAdvanceKeeps(p: Params, s: State, w: nat)
    requires Sensible(p) && Running(p, s) && Enabled(p, s, ProveAdvance(w))
    ensures Running(p, Apply(p, s, ProveAdvance(w)))
  {
    SideAdvance(p.n, s.prove, s.records, s.trace.sent, AllStopped(s.trace) && s.dropped, w);
    ProveSide(p, s, Apply(p, s, ProveAdvance(w)));
  }

  lemma {:induction false} ProveStopKeeps(p: Params, s: State, w: nat)
    requires Sensible(p) && Running(p, s) && Enabled(p, s, ProveStop(w))
    ensures Running(p, Apply(p, s, ProveStop(w)))
  {
    SideStop(p.n, s.prove, s.records, s.trace.sent, AllStopped(s.trace) && s.dropped, w);
    ProveSide(p, s, Apply(p, s, ProveStop(w)));
  }

  /** Provers stop after the tracers, and tracers after the reducer: the reducer is never told that
      the proofs have run out before the tree is complete. */
  lemma {:induction false} NeverClosedEarly(p: Params, s: State)
    requires Sensible(p) && Running(p, s)
    ensures AllStopped(s.prove) ==> AllStopped(s.trace) && InputClosed(p, s) && s.inputs == [] && s.records == []
    ensures !Enabled(p, s, ReduceClosed)
  {
    assert AllStopped(s.prove) ==> s.prove.workers[0].Stopped?;
    assert AllStopped(s.trace) ==> s.trace.workers[0].Stopped?;
  }

  lemma {:induction false} PopMessageOk(n: nat, q: seq<Message>, lo: nat)
    requires MessagesOk(n, q, lo) && q != []
    ensures MessageOk(n, q[0]) && q[0].index == lo && MessagesOk(n, q[1..], lo + 1)
  {}

  lemma {:induction false} TakeKeeps(p: Params, s: State)
    requires Sensible(p) && Running(p, s) && Enabled(p, s, ReduceTake)
    ensures Running(p, Apply(p, s, ReduceTake))
  {
    var n, r, t := p.n, s.reducer, Apply(p, s, ReduceTake);
    assert ReducerOk(n, r, s.consumed);
    PopMessageOk(n, s.proofs, s.consumed);
    DeliverKeeps(n, r, s.proofs[0], s.consumed);
    assert !InputClosed(p, s);
  }

  lemma {:induction false} DeliverKeeps(n: nat, r: Reducer, m: Message, consumed: nat)
    requires n >= 1 && ReducerOk(n, r, consumed) && r.phase.Receiving? && Height(n) != 0 && MessageOk(n, m)
        && m.index == consumed
    ensures var t := Deliver(n, r, m);
        ReducerOk(n, t, consumed + 1) && t.count == r.count && !t.phase.Sent? && !t.phase.Done?
  {
    var h: nat, q: nat, e: nat :| ReducerAt(n, r, h, q, e) && consumed == Offset(n, h) + 3 * q + e;
    DeliverFrom(n, r, m, consumed, h, q, e);
  }

  lemma {:induction false} DeliverFrom(n: nat, r: Reducer, m: Message, consumed: nat, h: nat, q: nat, e: nat)
    requires n >= 1 && ReducerAt(n, r, h, q, e) && consumed == Offset(n, h) + 3 * q + e
    requires r.phase.Receiving? && Height(n) != 0 && MessageOk(n, m) && m.index == consumed
    ensures var t := Deliver(n, r, m);
        ReducerOk(n, t, consumed + 1) && t.count == r.count && !t.phase.Sent? && !t.phase.Done?
  {
    DeliverOk(n, r, m, h, q, e);
    Moved(n, Deliver(n, r, m), consumed, h, q, e);
  }

  lemma {:induction false} Moved(n: nat, t: Reducer, consumed: nat, h: nat, q: nat, e: nat)
    requires NextAt(n, t, h, q, e) && consumed == Offset(n, h) + 3 * q + e && 3 * q + e < Count(n, h) && e < 3
    ensures ReducerOk(n, t, consumed + 1)
  {
    if 3 * q + e + 1 == Count(n, h) { assert ReducerAt(n, t, h + 1, 0, 0); }
    else if e == 2 { assert ReducerAt(n, t, h, q + 1, 0); }
    else { assert ReducerAt(n, t, h, q, e + 1); }
  }

  /** Moving on from a blocking point keeps the reducer's position. */
  lemma {:induction false} PhaseMoves(n: nat, r: Reducer, t: Reducer, consumed: nat)
    requires n >= 1 && ReducerOk(n, r, consumed)
    requires
      || (r.phase.Receiving? && Height(n) == 0 && t == r.(phase := Done))
      || (r.phase.Sending? && t == r.(phase := Sent(IsComplete(r.phase.item))))
      || (r.phase.Sent? && t == r.(count := r.count + 1, phase := if r.phase.isComplete then Done else Receiving))
    ensures ReducerOk(n, t, consumed)
  {
    var h: nat, q: nat, e: nat :| ReducerAt(n, r, h, q, e) && consumed == Offset(n, h) + 3 * q + e;
    PhaseFollows(n, r, t, h);
    SamePlace(n, r, t, h, q, e);
  }

  lemma {:induction false} PhaseFollows(n: nat, r: Reducer, t: Reducer, h: nat)
    requires h <= Height(n) && PhaseOk(n, r, h) && t.batch == r.batch
    requires
      || (r.phase.Receiving? && Height(n) == 0 && t.phase == Done)
      || (r.phase.Sending? && t.phase == Sent(IsComplete(r.phase.item)))
      || (r.phase.Sent? && t.phase == if r.phase.isComplete then Done else Receiving)
    ensures PhaseOk(n, t, h)
  {}

  lemma {:induction false} SamePlace(n: nat, r: Reducer, t: Reducer, h: nat, q: nat, e: nat)
    requires ReducerAt(n, r, h, q, e) && PhaseOk(n, t, h) && t.batch == r.batch && t.received == r.received
        && t.count >= n
    requires t.count + (if Pending(t) then 1 else 0) == r.count + (if Pending(r) then 1 else 0)
    ensures ReducerAt(n, t, h, q, e)
  {}

  lemma {:induction false} SendingOk(n: nat, r: Reducer, consumed: nat)
    requires ReducerOk(n, r, consumed)
    ensures r.count >= n
    ensures r.phase.Sending? ==> ItemOk(n, r.phase.item) && r.phase.item.index == r.count
  {}

  lemma {:induction false} SkipKeeps(p: Params, s: State)
    requires Sensible(p) && Running(p, s) && Enabled(p, s, ReduceSkip)
    ensures Running(p, Apply(p, s, ReduceSkip))
  {
    var t := Apply(p, s, ReduceSkip);
    PhaseMoves(p.n, s.reducer, t.reducer, s.consumed);
    assert !InputClosed(p, s);
  }

  lemma {:induction false} SendKeeps(p: Params, s: State)
    requires Sensible(p) && Running(p, s) && Enabled(p, s, ReduceSend)
    ensures Running(p, Apply(p, s, ReduceSend))
  {
    var t := Apply(p, s, ReduceSend);
    SendingOk(p.n, s.reducer, s.consumed);
    PushOk(p.n, s.inputs, s.trace.taken, s.sentIn, s.reducer.phase.item);
    PhaseMoves(p.n, s.reducer, t.reducer, s.consumed);
    assert !InputClosed(p, s);
  }

  lemma {:induction false} AdvanceKeeps(p: Params, s: State)
    requires Sensible(p) && Running(p, s) && Enabled(p, s, ReduceAdvance)
    ensures Running(p, Apply(p, s, ReduceAdvance))
  {
    var t := Apply(p, s, ReduceAdvance);
    PhaseMoves(p.n, s.reducer, t.reducer, s.consumed);
    assert !InputClosed(p, s);
  }

  lemma {:induction false} RootMessage(n: nat, m: Message)
    requires n >= 1 && MessageOk(n, m) && m.index == Offset(n, Height(n))
    ensures m == Message(Offset(n, Height(n)), Height(n), Root(n))
  { CountBounds(n, Height(n)); NextMessage(n, m, Height(n), 0); }

  /** Once all provers have stopped, only the root is left in the proofs channel. */
  lemma {:induction false} OneLeft(p: Params, s: State)
    requires Sensible(p) && Running(p, s) && AllStopped(s.prove)
    ensures s.reducer.phase.Done? && s.consumed == Offset(p.n, Height(p.n)) && |s.proofs| == 1
  {
    NeverClosedEarly(p, s);
    ReducerBounds(p.n, s.reducer, s.consumed);
    QuietStage(p.n, s.trace); QuietStage(p.n, s.prove);
  }

  lemma {:induction false} ReceivedAll(n: nat, r: Reducer, consumed: nat)
    requires n >= 1 && ReducerOk(n, r, consumed)
    ensures |r.received| == Height(n) + 1
  {}

  /** What the main thread takes at the end is the root, and nothing else is left. */
  lemma {:induction false} FinishOk(p: Params, s: State)
    requires Sensible(p) && Running(p, s) && Enabled(p, s, MainFinish)
    ensures Finished(p, Apply(p, s, MainFinish))
  {
    OneLeft(p, s);
    NeverClosedEarly(p, s);
    PopMessageOk(p.n, s.proofs, s.consumed);
    RootMessage(p.n, s.proofs[0]);
    ReducerBounds(p.n, s.reducer, s.consumed);
    ReceivedAll(p.n, s.reducer, s.consumed);
  }

  lemma {:induction false} TraceKeeps(p: Params, s: State, l: Label)
    requires Sensible(p) && Running(p, s) && Enabled(p, s, l)
        && (l.TraceTake? || l.TracePost? || l.TraceAdvance? || l.TraceStop?)
    ensures Running(p, Apply(p, s, l))
  {
    match l
    case TraceTake(w) => TraceTakeKeeps(p, s, w);
    case TracePost(w) => TracePostKeeps(p, s, w);
    case TraceAdvance(w) => TraceAdvanceKeeps(p, s, w);
    case TraceStop(w) => TraceStopKeeps(p, s, w);
  }

  lemma {:induction false} ProveKeeps(p: Params, s: State, l: Label)
    requires Sensible(p) && Running(p, s) && Enabled(p, s, l)
        && (l.ProveTake? || l.ProvePost? || l.ProveAdvance? || l.ProveStop?)
    ensures Running(p, Apply(p, s, l))
  {
    match l
    case ProveTake(w) => ProveTakeKeeps(p, s, w);
    case ProvePost(w) => ProvePostKeeps(p, s, w);
    case ProveAdvance(w) => ProveAdvanceKeeps(p, s, w);
    case ProveStop(w) => ProveStopKeeps(p, s, w);
  }

  lemma {:induction false} ReduceKeeps(p: Params, s: State, l: Label)
    requires Sensible(p) && Running(p, s) && Enabled(p, s, l)
        && (l.ReduceSkip? || l.ReduceTake? || l.ReduceSend? || l.ReduceAdvance?)
    ensures Running(p, Apply(p, s, l))
  {
    match l
    case ReduceSkip => SkipKeeps(p, s);
    case ReduceTake => TakeKeeps(p, s);
    case ReduceSend => SendKeeps(p, s);
    case ReduceAdvance => AdvanceKeeps(p, s);
  }

  /** Every step of a run that is not its last. */
  lemma {:induction false} RunningKeeps(p: Params, s: State, l: Label)
    requires Sensible(p) && Running(p, s) && Enabled(p, s, l) && !l.MainFinish?
    ensures Running(p, Apply(p, s, l))
  {
    if l.FeedSend? || l.FeedAdvance? { FeedKeeps(p, s, l); }
    else if l.TraceTake? || l.TracePost? || l.TraceAdvance? || l.TraceStop? { TraceKeeps(p, s, l); }
    else if l.ProveTake? || l.ProvePost? || l.ProveAdvance? || l.ProveStop? { ProveKeeps(p, s, l); }
    else if l.ReduceSkip? || l.ReduceTake? || l.ReduceSend? || l.ReduceAdvance? { ReduceKeeps(p, s, l); }
    else if l.ReduceClosed? { NeverClosedEarly(p, s); }
    else { DropKeeps(p, s); }
  }

  /** Every step keeps the invariant. */
  lemma {:induction false} StepKeeps(p: Params, s: State, l: Label)
    requires Sensible(p) && Inv(p, s) && Enabled(p, s, l)
    ensures Inv(p, Apply(p, s, l))
  { if l.MainFinish? { FinishOk(p, s); } else { RunningKeeps(p, s, l); } }

  lemma {:induction false} DropKeeps(p: Params, s: State)
    requires Sensible(p) && Running(p, s) && Enabled(p, s, MainDrop)
    ensures Running(p, Apply(p, s, MainDrop))
  {}

  lemma {:induction false} ReachableOk(p: Params, run: seq<State>, i: nat)
    requires Sensible(p) && IsRun(p, run) && i < |run|
    ensures Inv(p, run[i])
  {
    if i == 0 { StartOk(p); }
    else {
      ReachableOk(p, run, i - 1);
      var l :| Enabled(p, run[i - 1], l) && run[i - 1 + 1] == Apply(p, run[i - 1], l);
      StepKeeps(p, run[i - 1], l);
    }
  }
}
