/** No run of the compress pipeline gets stuck or goes on for ever. */
module CompressProgress {
  import opened CompressTree
  import opened CompressPipeline
  import opened CompressInvariant
  import opened CompressRuns

  // ---------- progress ----------

  ghost predicate CanStep(p: Params, s: State) { exists l :: Enabled(p, s, l) }

  predicate Quiet(st: Stage) { forall w :: 0 <= w < |st.workers| ==> st.workers[w].Idle? || st.workers[w].Stopped? }

  /** The reducer's sends bound every counter of the pipeline. */
  lemma {:induction false} CountersBound(p: Params, s: State)
    requires Sensible(p) && Running(p, s)
    ensures s.prove.turn <= s.prove.sent <= s.prove.taken <= s.trace.sent <= s.trace.taken <= s.sentIn <= Total(p.n)
    ensures s.trace.turn <= s.trace.sent && s.inputTurn <= s.sentIn && s.consumed <= s.prove.sent
  {
    ReducerBounds(p.n, s.reducer, s.consumed);
    TotalBound(p.n);
  }

  /** The proofs channel, of capacity 2n, never fills. */
  lemma {:induction false} ProofsHaveRoom(p: Params, s: State)
    requires Sensible(p) && Running(p, s)
    ensures |s.proofs| <= 2 * p.n - 1
  { CountersBound(p, s); TotalBound(p.n); }

  /** In a pool that is not quiet, some worker is between send and advance, or holds the item whose
      turn it is. */
  lemma {:induction false} SomeoneMoves(n: nat, st: Stage) returns (w: nat)
    requires StageOk(n, st) && !Quiet(st)
    ensures CanPost(st, w) || CanAdvance(st, w)
  {
    if HasPosted(st) { w :| 0 <= w < |st.workers| && st.workers[w].Posted?; }
    else {
      var v :| 0 <= v < |st.workers| && !(st.workers[v].Idle? || st.workers[v].Stopped?);
      assert st.workers[v].Busy?;
      assert HasBusy(st, st.sent);
      w :| 0 <= w < |st.workers| && st.workers[w].Busy? && st.workers[w].item.index == st.sent;
    }
  }

  lemma {:induction false} ProveStage(p: Params, s: State)
    requires Sensible(p) && Running(p, s) && (!Quiet(s.prove) || s.records != [])
    ensures CanStep(p, s)
  {
    ProofsHaveRoom(p, s);
    if !Quiet(s.prove) {
      var w := SomeoneMoves(p.n, s.prove);
      assert if CanPost(s.prove, w) then Enabled(p, s, ProvePost(w)) else Enabled(p, s, ProveAdvance(w));
    } else {
      assert s.prove.workers[0].Idle?;
      assert Enabled(p, s, ProveTake(0));
    }
  }

  lemma {:induction false} TraceStage(p: Params, s: State)
    requires Sensible(p) && Running(p, s) && s.records == [] && (!Quiet(s.trace) || s.inputs != [])
    ensures CanStep(p, s)
  {
    if !Quiet(s.trace) {
      var w := SomeoneMoves(p.n, s.trace);
      assert if CanPost(s.trace, w) then Enabled(p, s, TracePost(w)) else Enabled(p, s, TraceAdvance(w));
    } else {
      assert s.trace.workers[0].Idle?;
      assert Enabled(p, s, TraceTake(0));
    }
  }

  lemma {:induction false} FeedStage(p: Params, s: State)
    requires Sensible(p) && Running(p, s) && s.inputs == [] && s.fed < p.n
    ensures CanStep(p, s)
  { assert if s.feederPosted then Enabled(p, s, FeedAdvance) else Enabled(p, s, FeedSend); }

  /** With the workers quiet and the channels to them empty, everything sent in has been proved. */
  lemma {:induction false} Drained(p: Params, s: State)
    requires Sensible(p) && Running(p, s) && s.inputs == [] && s.records == [] && Quiet(s.trace) && Quiet(s.prove)
    ensures s.consumed + |s.proofs| == s.sentIn
  { QuietStage(p.n, s.trace); QuietStage(p.n, s.prove); }

  lemma {:induction false} ReduceStage(p: Params, s: State)
    requires Sensible(p) && Running(p, s) && s.inputs == [] && s.records == [] && Quiet(s.trace) && Quiet(s.prove)
    requires s.fed == p.n && !s.reducer.phase.Done?
    ensures CanStep(p, s)
  {
    Drained(p, s);
    ReducerBounds(p.n, s.reducer, s.consumed);
    match s.reducer.phase
    case Receiving => assert if Height(p.n) == 0 then Enabled(p, s, ReduceSkip) else Enabled(p, s, ReduceTake);
    case Sending(_) => assert Enabled(p, s, ReduceSend);
    case Sent(_) => assert Enabled(p, s, ReduceAdvance);
  }

  lemma {:induction false} EndStage(p: Params, s: State)
    requires Sensible(p) && Running(p, s) && s.inputs == [] && s.records == [] && Quiet(s.trace) && Quiet(s.prove)
    requires s.fed == p.n && s.reducer.phase.Done?
    ensures CanStep(p, s)
  {
    Drained(p, s);
    ReducerBounds(p.n, s.reducer, s.consumed);
    if !s.dropped { assert Enabled(p, s, MainDrop); }
    else if !AllStopped(s.trace) {
      var w :| 0 <= w < |s.trace.workers| && !s.trace.workers[w].Stopped?;
      assert Enabled(p, s, TraceStop(w));
    } else if !AllStopped(s.prove) {
      var w :| 0 <= w < |s.prove.workers| && !s.prove.workers[w].Stopped?;
      assert Enabled(p, s, ProveStop(w));
    } else { assert Enabled(p, s, MainFinish); }
  }

  /** No reachable state is stuck before the main thread has its proof. */
  lemma {:induction false} Progress(p: Params, s: State)
    requires Sensible(p) && Running(p, s)
    ensures CanStep(p, s)
  {
    if !Quiet(s.prove) || s.records != [] { ProveStage(p, s); }
    else if !Quiet(s.trace) || s.inputs != [] { TraceStage(p, s); }
    else if s.fed < p.n { FeedStage(p, s); }
    else if !s.reducer.phase.Done? { ReduceStage(p, s); }
    else { EndStage(p, s); }
  }

  // ---------- termination ----------

  function StoppedCount(ws: seq<Worker>): (r: nat)
    ensures r <= |ws|
  { if ws == [] then 0 else StoppedCount(ws[1..]) + if ws[0].Stopped? then 1 else 0 }

  lemma {:induction false} StoppedUpdate(ws: seq<Worker>, w: nat, x: Worker)
    requires w < |ws| && !ws[w].Stopped?
    ensures StoppedCount(ws[w := x]) == StoppedCount(ws) + if x.Stopped? then 1 else 0
  {
    var u := ws[w := x];
    if w == 0 { assert u[1..] == ws[1..]; }
    else {
      assert u[1..] == ws[1..][w - 1 := x];
      StoppedUpdate(ws[1..], w - 1, x);
    }
  }

  function StageWork(st: Stage): nat { st.turn + st.taken + st.sent + StoppedCount(st.workers) }

  /** How far a state is into its run. */
  function Work(s: State): nat {
    s.sentIn + s.inputTurn + StageWork(s.trace) + StageWork(s.prove) + s.consumed
    + (if s.reducer.phase.Done? then 1 else 0) + (if s.dropped then 1 else 0) + (if s.result.Some? then 1 else 0)
  }

  lemma {:induction false} StageWorks(st: Stage, w: nat, len: nat, it: Item)
    requires w < |st.workers|
    ensures CanTake(st, w, len) ==> StageWork(Take(st, w, it)) == StageWork(st) + 1
    ensures CanPost(st, w) ==> StageWork(Post(st, w)) == StageWork(st) + 1
    ensures CanAdvance(st, w) ==> StageWork(Advance(st, w)) == StageWork(st) + 1
    ensures CanStop(st, w, len) ==> StageWork(Stop(st, w)) == StageWork(st) + 1
  {
    if !st.workers[w].Stopped? {
      StoppedUpdate(st.workers, w, Busy(it)); StoppedUpdate(st.workers, w, Posted);
      StoppedUpdate(st.workers, w, Idle); StoppedUpdate(st.workers, w, Stopped);
    }
  }

  lemma {:induction false} DeliverNotDone(n: nat, r: Reducer, m: Message)
    ensures !Deliver(n, r, m).phase.Done? && !Deliver(n, r, m).phase.Sent?
  {}

  lemma {:induction false} TraceWorks(p: Params, s: State, l: Label)
    requires Enabled(p, s, l) && (l.TraceTake? || l.TracePost? || l.TraceAdvance? || l.TraceStop?)
    ensures Work(Apply(p, s, l)) > Work(s)
  {
    match l
    case TraceTake(w) => StageWorks(s.trace, w, |s.inputs|, s.inputs[0]);
    case TracePost(w) => StageWorks(s.trace, w, 0, s.trace.workers[w].item);
    case TraceAdvance(w) => StageWorks(s.trace, w, 0, Item(0, 0, Input(0), false));
    case TraceStop(w) => StageWorks(s.trace, w, 0, Item(0, 0, Input(0), false));
  }

  lemma {:induction false} ProveWorks(p: Params, s: State, l: Label)
    requires Enabled(p, s, l) && (l.ProveTake? || l.ProvePost? || l.ProveAdvance? || l.ProveStop?)
    ensures Work(Apply(p, s, l)) > Work(s)
  {
    match l
    case ProveTake(w) => StageWorks(s.prove, w, |s.records|, s.records[0]);
    case ProvePost(w) => StageWorks(s.prove, w, 0, s.prove.workers[w].item);
    case ProveAdvance(w) => StageWorks(s.prove, w, 0, Item(0, 0, Input(0), false));
    case ProveStop(w) => StageWorks(s.prove, w, 0, Item(0, 0, Input(0), false));
  }

  /** Every step does some of the work. */
  lemma {:induction false} StepWorks(p: Params, s: State, l: Label)
    requires Enabled(p, s, l)
    ensures Work(Apply(p, s, l)) > Work(s)
  {
    if l.TraceTake? || l.TracePost? || l.TraceAdvance? || l.TraceStop? { TraceWorks(p, s, l); }
    else if l.ProveTake? || l.ProvePost? || l.ProveAdvance? || l.ProveStop? { ProveWorks(p, s, l); }
    else if l.ReduceTake? { DeliverNotDone(p.n, s.reducer, s.proofs[0]); }
  }

  lemma {:induction false} WorkBound(p: Params, s: State)
    requires Sensible(p) && Running(p, s)
    ensures Work(s) <= 9 * Total(p.n) + p.tracers + p.provers + 2
  { CountersBound(p, s); }

  lemma {:induction false} WorkGrows(p: Params, run: seq<State>, i: nat)
    requires IsRun(p, run) && i < |run|
    ensures Work(run[i]) >= i
  {
    if i > 0 {
      WorkGrows(p, run, i - 1);
      var l :| Enabled(p, run[i - 1], l) && run[i - 1 + 1] == Apply(p, run[i - 1], l);
      StepWorks(p, run[i - 1], l);
    }
  }

  lemma {:induction false} RunBound(p: Params, run: seq<State>)
    requires Sensible(p) && IsRun(p, run)
    ensures |run| <= 9 * Total(p.n) + p.tracers + p.provers + 4
  {
    if |run| > 1 {
      var i := |run| - 2;
      ReachableOk(p, run, i);
      WorkGrows(p, run, i);
      assert exists l :: Enabled(p, run[i], l) && run[i + 1] == Apply(p, run[i], l);
      WorkBound(p, run[i]);
    }
  }

  // ---------- the theorem ----------

  /** Whatever the channel capacities, the numbers of workers and the interleaving: a run of the
      pipeline over n inputs has a bounded number of steps; it can always be continued until the main
      thread has its proof; and that proof is the root of the tree, which covers every input once, in
      order, and is a complete merge of two or three proofs when there are two inputs or more. */
  lemma {:induction false} CompressCorrect(p: Params, run: seq<State>)
    requires Sensible(p) && IsRun(p, run)
    ensures |run| <= 9 * (2 * p.n - 1) + p.tracers + p.provers + 4
    ensures var s := run[|run| - 1];
      if s.result.None? then CanStep(p, s)
      else Finished(p, s) && Leaves(s.result.value.proof) == UpTo(p.n)
           && (p.n >= 2 ==>
               var root := s.result.value.proof; root.Merged? && root.isComplete && 2 <= |root.children| <= 3)
  {
    RunBound(p, run);
    TotalBound(p.n);
    var s := run[|run| - 1];
    ReachableOk(p, run, |run| - 1);
    if s.result.None? { Progress(p, s); } else { RootCovers(p.n); }
  }
}
