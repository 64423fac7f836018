/** The whole server: the pipeline and the concurrent store, coupled at the workers. Worker i is
    store thread i; popping an item starts its command, and the reply is what the command
    returned. */
module System {
  import opened Bytes
  import opened Parser
  import opened Framing
  import opened Requests
  import opened Dispatcher
  import opened Loop
  import P = Pipeline
  import PS = PipelineSteps
  import G = PipelineGuarantees
  import L = Linearization
  import Replies
  import Sharding

  datatype State = State(pipe: P.State, store: L.State)

  datatype Step =
    | PipeStep(pipe: P.Step)
    | Start(i: nat)
    | Finish(i: nat)
    | StoreStep(store: L.Step)

  ghost predicate Enabled(s: State, cfg: Config, step: Step) {
    match step
    case PipeStep(p) => !p.Pop? && !p.Dispatch? && P.Enabled(s.pipe, cfg, p)
    case Start(i) =>
      P.Enabled(s.pipe, cfg, P.Pop(i)) && i < |s.store.threads| && s.store.threads[i].Idle?
    case Finish(i) =>
      P.Enabled(s.pipe, cfg, P.Dispatch(i, "")) && L.Enabled(s.store, L.Take(i))
          && s.store.threads[i].at < |s.store.log|
    case StoreStep(l) => !l.Call? && !l.Take? && L.Enabled(s.store, l)
  }

  /** The bytes a finished command sends back. */
  function Response(s: State, i: nat): string
    requires i < |s.store.threads| && s.store.threads[i].Returned? && s.store.threads[i].at < |s.store.log|
  {
    Replies.Encode(ReplyOf(s.store.log[s.store.threads[i].at].answer))
  }

  ghost function Apply(hash: string -> nat, s: State, cfg: Config, step: Step): State
    requires L.Shape(s.store) && Enabled(s, cfg, step)
  {
    match step
    case PipeStep(p) => s.(pipe := P.Apply(s.pipe, cfg, p))
    case Start(i) =>
      var item := s.pipe.work.items[0];
      State(P.Apply(s.pipe, cfg, P.Pop(i)),
            s.store.(threads := s.store.threads[i := L.Called(item.command, item.tag)],
                     used := s.store.used + {item.tag}))
    case Finish(i) =>
      State(P.Apply(s.pipe, cfg, P.Dispatch(i, Response(s, i))), L.Apply(hash, s.store, L.Take(i)))
    case StoreStep(l) => s.(store := L.Apply(hash, s.store, l))
  }

  // Coupling ---------------------------------------------------------------------------

  /** An accepted request is what its connection sent, and only a worker ever answers it. */
  predicate AcceptedItemOk(p: P.State, item: P.WorkItem) {
    && item.tag.generation in p.hist
    && var h := p.hist[item.tag.generation];
    && item.tag.sequence < |h.events| == |h.fates|
    && h.events[item.tag.sequence] == Request(item.command)
    && (h.fates[item.tag.sequence].Waiting? || h.fates[item.tag.sequence].Replied?)
  }

  /** The requests of one connection are accepted in frame order. */
  predicate AcceptedInFrameOrder(accepted: seq<P.WorkItem>) {
    forall j, k | 0 <= j < k < |accepted| && accepted[j].tag.generation == accepted[k].tag.generation ::
      accepted[j].tag.sequence < accepted[k].tag.sequence
  }

  predicate AcceptedOk(p: P.State) {
    (forall k | 0 <= k < |p.accepted| :: AcceptedItemOk(p, p.accepted[k])) && AcceptedInFrameOrder(p.accepted)
  }

  predicate Coupled(w: P.Worker, t: L.Thread) {
    if w.Holding? then !t.Idle? && t.command == w.item.command && t.tag == w.item.tag else t.Idle?
  }

  /** The log entry that explains a dispatch result. */
  predicate Explains(e: L.LogEntry, done: P.Completion, p: P.State) {
    && e.tag == done.tag
    && done.tag.generation in p.hist
    && done.tag.sequence < |p.hist[done.tag.generation].events|
    && p.hist[done.tag.generation].events[done.tag.sequence] == Request(e.command)
    && done.response == Replies.Encode(ReplyOf(e.answer))
  }

  ghost predicate HasEntry(log: seq<L.LogEntry>, done: P.Completion, p: P.State) {
    exists m | 0 <= m < |log| :: Explains(log[m], done, p)
  }

  ghost predicate Answered(s: State) {
    forall k | 0 <= k < |s.pipe.dispatched| :: HasEntry(s.store.log, s.pipe.dispatched[k], s.pipe)
  }

  ghost predicate Linked(s: State) {
    && |s.store.threads| == |s.pipe.workers|
    && (forall i | 0 <= i < |s.pipe.workers| :: Coupled(s.pipe.workers[i], s.store.threads[i]))
    && (forall tag | tag in s.store.used :: exists k | 0 <= k < |s.pipe.popped| :: s.pipe.popped[k].tag == tag)
  }

  ghost predicate Inv(hash: string -> nat, s: State, cfg: Config) {
    && P.Inv(s.pipe, cfg)
    && G.Logged(s.pipe)
    && L.Inv(hash, s.store)
    && AcceptedOk(s.pipe)
    && Linked(s)
    && Answered(s)
  }

  // Pipeline side ----------------------------------------------------------------------

  /** Frames and their fates stay, except that a worker's answer may settle one. */
  predicate Grows(p: P.State, p': P.State) {
    forall g | g in p.hist ::
      && g in p'.hist
      && p.hist[g].events <= p'.hist[g].events
      && (|p.hist[g].events| == |p.hist[g].fates| ==>
            && |p'.hist[g].events| == |p'.hist[g].fates|
            && forall i | 0 <= i < |p.hist[g].fates| ::
                 p'.hist[g].fates[i] == p.hist[g].fates[i] || p'.hist[g].fates[i].Replied?)
  }

  lemma AcceptedKept(p: P.State, p': P.State)
    requires AcceptedOk(p) && p'.accepted == p.accepted && Grows(p, p')
    ensures AcceptedOk(p')
  {
  }

  lemma StepGrows(p: P.State, cfg: Config, step: P.Step)
    requires P.Inv(p, cfg) && P.Enabled(p, cfg, step)
    ensures Grows(p, P.Apply(p, cfg, step))
  {
    hide P.Inv, P.ApplyParse, P.ApplyDrain, P.Closed, P.Written;
    if step.Dispatch? {
      DispatchGrows(p, cfg, step.i, step.response);
    } else {
      G.StepGrows(p, cfg, step);
    }
  }

  lemma DispatchGrows(p: P.State, cfg: Config, i: nat, response: string)
    requires P.Inv(p, cfg) && P.Enabled(p, cfg, P.Dispatch(i, response))
    ensures Grows(p, P.Apply(p, cfg, P.Dispatch(i, response)))
  {
    hide P.Inv;
  }

  lemma ParseAccepted(p: P.State, cfg: Config, flushed: nat)
    requires P.Inv(p, cfg) && AcceptedOk(p) && P.Enabled(p, cfg, P.ParseTurn(flushed))
    ensures AcceptedOk(P.Apply(p, cfg, P.ParseTurn(flushed)))
  {
    hide P.Inv, TurnOf, P.Delivered, AcceptedOk, Grows;
    var p' := P.Apply(p, cfg, P.ParseTurn(flushed));
    StepGrows(p, cfg, P.ParseTurn(flushed));
    var t := TurnOf(p.conns[p.pc.fd], cfg, P.QueueStatus(p.work));
    if t.Enqueue? {
      PS.EnqueueParts(p, cfg);
      HistSizes(p, cfg, p.conns[p.pc.fd].generation);
      EnqueueAccepted(p, p', p'.accepted[|p.accepted|]);
    } else {
      AcceptedKept(p, p');
    }
  }

  lemma HistSizes(p: P.State, cfg: Config, g: nat)
    requires P.Inv(p, cfg) && g in p.hist
    ensures |p.hist[g].events| == |p.hist[g].fates|
  {
    G.HistKnown(p, cfg, g);
  }

  lemma EnqueueAccepted(p: P.State, p': P.State, item: P.WorkItem)
    requires AcceptedOk(p) && p'.accepted == p.accepted + [item] && Grows(p, p')
    requires item.tag.generation in p.hist && item.tag.sequence == |p.hist[item.tag.generation].events|
    requires AcceptedItemOk(p', item)
    ensures AcceptedOk(p')
  {
  }

  lemma StepAccepted(p: P.State, cfg: Config, step: P.Step)
    requires P.Inv(p, cfg) && AcceptedOk(p) && P.Enabled(p, cfg, step)
    ensures AcceptedOk(P.Apply(p, cfg, step))
  {
    hide P.Inv, AcceptedOk, P.ApplyParse, P.ApplyDrain, P.Closed, P.Written, Grows;
    if step.ParseTurn? {
      ParseAccepted(p, cfg, step.flushed);
    } else {
      StepGrows(p, cfg, step);
      if step.Drain? {
        G.DrainFrame(p, cfg, step.flushed);
      } else {
        AcceptedOnlyByParsing(p, cfg, step);
      }
      AcceptedKept(p, P.Apply(p, cfg, step));
    }
  }

  lemma AcceptedOnlyByParsing(p: P.State, cfg: Config, step: P.Step)
    requires P.Enabled(p, cfg, step) && !step.ParseTurn? && !step.Drain?
    ensures P.Apply(p, cfg, step).accepted == p.accepted
  {
  }

  lemma ExplainsKept(e: L.LogEntry, done: P.Completion, p: P.State, p': P.State)
    requires Explains(e, done, p)
    requires Grows(p, p')
    ensures Explains(e, done, p')
  {
  }

  lemma AnsweredKept(s: State, s': State)
    requires Answered(s) && s'.pipe.dispatched == s.pipe.dispatched && s.store.log <= s'.store.log
    requires Grows(s.pipe, s'.pipe)
    ensures Answered(s')
  {
    hide Grows;
    forall k | 0 <= k < |s'.pipe.dispatched|
      ensures HasEntry(s'.store.log, s'.pipe.dispatched[k], s'.pipe)
    {
      assert HasEntry(s.store.log, s.pipe.dispatched[k], s.pipe);
      var m :| 0 <= m < |s.store.log| && Explains(s.store.log[m], s.pipe.dispatched[k], s.pipe);
      ExplainsKept(s.store.log[m], s.pipe.dispatched[k], s.pipe, s'.pipe);
      assert s'.store.log[m] == s.store.log[m];
    }
  }

  /** A pipeline step other than taking or finishing a command does not touch held items. */
  lemma HoldersKept(p: P.State, cfg: Config, step: P.Step)
    requires P.Enabled(p, cfg, step) && !step.Pop? && !step.Dispatch?
    ensures var p' := P.Apply(p, cfg, step);
            && p'.dispatched == p.dispatched && p'.popped == p.popped && |p'.workers| == |p.workers|
            && forall i | 0 <= i < |p.workers| ::
                 (p.workers[i].Holding? ==> p'.workers[i] == p.workers[i])
                     && (p'.workers[i].Holding? ==> p.workers[i].Holding?)
  {
    hide P.ApplyParse, P.ApplyDrain;
    if step.ParseTurn? {
      G.ParseFrame(p, cfg, step.flushed);
    } else if step.Drain? {
      G.DrainFrame(p, cfg, step.flushed);
    }
  }

  lemma PipeInv(hash: string -> nat, s: State, cfg: Config, p: P.Step)
    requires Inv(hash, s, cfg) && Enabled(s, cfg, PipeStep(p))
    ensures Inv(hash, Apply(hash, s, cfg, PipeStep(p)), cfg)
  {
    hide P.Inv, G.Logged, L.Inv, AcceptedOk, Answered, P.Apply, P.Enabled;
    L.ShapeOf(hash, s.store);
    var s' := Apply(hash, s, cfg, PipeStep(p));
    PS.StepInv(s.pipe, cfg, p);
    G.StepLogged(s.pipe, cfg, p);
    StepAccepted(s.pipe, cfg, p);
    StepGrows(s.pipe, cfg, p);
    HoldersKept(s.pipe, cfg, p);
    AnsweredKept(s, s');
    forall i | 0 <= i < |s'.pipe.workers|
      ensures Coupled(s'.pipe.workers[i], s'.store.threads[i])
    {
      assert Coupled(s.pipe.workers[i], s.store.threads[i]);
    }
  }

  // Taking a command -------------------------------------------------------------------

  /** The item at the front of the work queue was never popped before. */
  lemma FrontIsNew(s: State, cfg: Config)
    requires P.Inv(s.pipe, cfg) && AcceptedOk(s.pipe) && Linked(s) && s.pipe.work.items != []
    ensures s.pipe.work.items[0].tag !in s.store.used
  {
    hide P.ConnsOk, P.HistsOk, P.RecordsOk, P.Unique, P.WakeOk, P.NoneStuck, P.Tokens;
    var n := |s.pipe.popped|;
    assert s.pipe.accepted[n] == s.pipe.work.items[0];
    assert forall k | 0 <= k < n :: s.pipe.accepted[k] == s.pipe.popped[k];
  }

  lemma StartInv(hash: string -> nat, s: State, cfg: Config, i: nat)
    requires Inv(hash, s, cfg) && Enabled(s, cfg, Start(i))
    ensures Inv(hash, Apply(hash, s, cfg, Start(i)), cfg)
  {
    hide P.Inv, G.Logged, L.Inv, AcceptedOk, Answered;
    L.ShapeOf(hash, s.store);
    var s' := Apply(hash, s, cfg, Start(i));
    FrontIsNew(s, cfg);
    PS.StepInv(s.pipe, cfg, P.Pop(i));
    G.StepLogged(s.pipe, cfg, P.Pop(i));
    StepAccepted(s.pipe, cfg, P.Pop(i));
    L.StepInv(hash, s.store, L.Call(i, s.pipe.work.items[0].command, s.pipe.work.items[0].tag));
    AnsweredKept(s, s');
    forall j | 0 <= j < |s'.pipe.workers|
      ensures Coupled(s'.pipe.workers[j], s'.store.threads[j])
    {
      assert Coupled(s.pipe.workers[j], s.store.threads[j]);
    }
    forall tag | tag in s'.store.used
      ensures exists k | 0 <= k < |s'.pipe.popped| :: s'.pipe.popped[k].tag == tag
    {
      if tag in s.store.used {
        var k :| 0 <= k < |s.pipe.popped| && s.pipe.popped[k].tag == tag;
        assert s'.pipe.popped[k].tag == tag;
      } else {
        assert s'.pipe.popped[|s.pipe.popped|].tag == tag;
      }
    }
  }

  // Finishing a command ----------------------------------------------------------------

  lemma ReturnedLogged(hash: string -> nat, s: L.State, i: nat)
    requires L.Inv(hash, s) && i < |s.threads| && s.threads[i].Returned?
    ensures s.threads[i].at < |s.log| && s.log[s.threads[i].at].tag == s.threads[i].tag
    ensures s.log[s.threads[i].at].command == s.threads[i].command
  {
    assert L.ThreadOk(s.threads[i], s.clock, s.log);
  }

  lemma FinishInv(hash: string -> nat, s: State, cfg: Config, i: nat)
    requires Inv(hash, s, cfg) && Enabled(s, cfg, Finish(i))
    ensures Inv(hash, Apply(hash, s, cfg, Finish(i)), cfg)
  {
    hide P.Inv, G.Logged, L.Inv, AcceptedOk, Answered, Replies.Encode, ReplyOf;
    L.ShapeOf(hash, s.store);
    var s' := Apply(hash, s, cfg, Finish(i));
    var d := P.Dispatch(i, Response(s, i));
    PS.StepInv(s.pipe, cfg, d);
    G.StepLogged(s.pipe, cfg, d);
    StepAccepted(s.pipe, cfg, d);
    L.StepInv(hash, s.store, L.Take(i));
    FinishAnswered(hash, s, cfg, i);
    forall j | 0 <= j < |s'.pipe.workers|
      ensures Coupled(s'.pipe.workers[j], s'.store.threads[j])
    {
      assert Coupled(s.pipe.workers[j], s.store.threads[j]);
    }
  }

  lemma HeldRequest(p: P.State, cfg: Config, i: nat)
    requires P.Inv(p, cfg) && i < |p.workers| && p.workers[i].Holding?
    ensures P.ItemOk(p.hist, p.workers[i].item)
  {
    PS.HoldsOk(p, i);
  }

  lemma FinishAnswered(hash: string -> nat, s: State, cfg: Config, i: nat)
    requires Inv(hash, s, cfg) && Enabled(s, cfg, Finish(i))
    ensures Answered(Apply(hash, s, cfg, Finish(i)))
  {
    hide P.Inv, G.Logged, L.Inv, AcceptedOk, Replies.Encode, ReplyOf;
    L.ShapeOf(hash, s.store);
    var s' := Apply(hash, s, cfg, Finish(i));
    var d := P.Dispatch(i, Response(s, i));
    var item := s.pipe.workers[i].item;
    assert Coupled(s.pipe.workers[i], s.store.threads[i]);
    ReturnedLogged(hash, s.store, i);
    HeldRequest(s.pipe, cfg, i);
    DispatchGrows(s.pipe, cfg, i, Response(s, i));
    var at := s.store.threads[i].at;
    assert Explains(s'.store.log[at], P.Completion(item.fd, item.tag, Response(s, i)), s'.pipe);
    forall k | 0 <= k < |s'.pipe.dispatched|
      ensures HasEntry(s'.store.log, s'.pipe.dispatched[k], s'.pipe)
    {
      if k < |s.pipe.dispatched| {
        assert HasEntry(s.store.log, s.pipe.dispatched[k], s.pipe);
        var m :| 0 <= m < |s.store.log| && Explains(s.store.log[m], s.pipe.dispatched[k], s.pipe);
        ExplainsKept(s.store.log[m], s.pipe.dispatched[k], s.pipe, s'.pipe);
        assert s'.store.log[m] == s.store.log[m];
      }
    }
  }

  // Store steps ------------------------------------------------------------------------

  lemma StoreThreads(hash: string -> nat, s: L.State, l: L.Step)
    requires L.Shape(s) && L.Enabled(s, l) && !l.Call? && !l.Take?
    ensures var s' := L.Apply(hash, s, l);
            && s'.used == s.used && |s'.threads| == |s.threads| && s.log <= s'.log
            && forall i | 0 <= i < |s.threads| ::
                 && (s'.threads[i].Idle? <==> s.threads[i].Idle?)
                 && (!s.threads[i].Idle? ==>
                       s'.threads[i].command == s.threads[i].command && s'.threads[i].tag == s.threads[i].tag)
  {
    hide L.FirstSection, L.AnswerTime, Sharding.ShardFor;
  }

  lemma StoreInv(hash: string -> nat, s: State, cfg: Config, l: L.Step)
    requires Inv(hash, s, cfg) && Enabled(s, cfg, StoreStep(l))
    ensures Inv(hash, Apply(hash, s, cfg, StoreStep(l)), cfg)
  {
    hide P.Inv, G.Logged, L.Inv, AcceptedOk, Answered, L.Apply, L.Enabled;
    L.ShapeOf(hash, s.store);
    var s' := Apply(hash, s, cfg, StoreStep(l));
    L.StepInv(hash, s.store, l);
    StoreThreads(hash, s.store, l);
    AnsweredKept(s, s');
    forall i | 0 <= i < |s'.pipe.workers|
      ensures Coupled(s'.pipe.workers[i], s'.store.threads[i])
    {
      assert Coupled(s.pipe.workers[i], s.store.threads[i]);
    }
  }

  lemma StepInv(hash: string -> nat, s: State, cfg: Config, step: Step)
    requires Inv(hash, s, cfg) && Enabled(s, cfg, step)
    ensures L.Shape(s.store) && Inv(hash, Apply(hash, s, cfg, step), cfg)
  {
    hide Inv, Enabled;
    StoreShape(hash, s, cfg);
    match step
    case PipeStep(p) => PipeInv(hash, s, cfg, p);
    case Start(i) => StartInv(hash, s, cfg, i);
    case Finish(i) => FinishInv(hash, s, cfg, i);
    case StoreStep(l) => StoreInv(hash, s, cfg, l);
  }

  lemma StoreShape(hash: string -> nat, s: State, cfg: Config)
    requires Inv(hash, s, cfg)
    ensures L.Shape(s.store)
  {
    L.ShapeOf(hash, s.store);
  }

  // Runs -------------------------------------------------------------------------------

  ghost predicate Run(hash: string -> nat, s: State, cfg: Config, steps: seq<Step>, t: State)
    decreases |steps|
  {
    if steps == [] then s == t
    else
      && L.Shape(s.store)
      && Enabled(s, cfg, steps[0])
      && Run(hash, Apply(hash, s, cfg, steps[0]), cfg, steps[1..], t)
  }

  function Init(workCapacity: nat, completionCapacity: nat, workers: nat, shardCount: nat, clock: int): State {
    State(G.Init(workCapacity, completionCapacity, workers), L.Init(shardCount, workers, clock))
  }

  lemma InitInv(hash: string -> nat, workCapacity: nat, completionCapacity: nat, workers: nat, shardCount: nat,
                clock: int, cfg: Config)
    requires shardCount > 0 && Sharding.IsPow2(shardCount)
    ensures Inv(hash, Init(workCapacity, completionCapacity, workers, shardCount, clock), cfg)
  {
    hide P.Inv, L.Inv;
    G.InitInv(workCapacity, completionCapacity, workers, cfg);
    L.InitInv(hash, shardCount, workers, clock);
  }

  lemma {:induction false} RunInv(hash: string -> nat, s: State, cfg: Config, steps: seq<Step>, t: State)
    requires Inv(hash, s, cfg) && Run(hash, s, cfg, steps, t)
    ensures Inv(hash, t, cfg)
    decreases |steps|
  {
    hide Inv, Enabled, Apply;
    if steps != [] {
      StepInv(hash, s, cfg, steps[0]);
      RunInv(hash, Apply(hash, s, cfg, steps[0]), cfg, steps[1..], t);
    }
  }

  // The whole story --------------------------------------------------------------------

  /** What a client may see as the reply to its frame: a protocol error about that frame, a
      refusal, or the encoded answer of the one logged execution of that very command. */
  ghost predicate OwnReply(t: State, g: nat, i: nat, text: string)
    requires g in t.pipe.hist && i < |t.pipe.hist[g].events|
  {
    var event := t.pipe.hist[g].events[i];
    || (!event.Request? && text == Replies.EncodeError(event.error.message))
    || (event.Request? && (text == Replies.EncodeError(BUSY_TEXT) || text == Replies.EncodeError(CLOSING_TEXT)))
    || (event.Request? && exists m | 0 <= m < |t.store.log| ::
          && t.store.log[m].tag == Tag(g, i)
          && t.store.log[m].command == event.command
          && text == Replies.Encode(ReplyOf(L.AnswerAt(t.store.log, m))))
  }

  lemma OwnReplyOf(hash: string -> nat, t: State, cfg: Config, g: nat, i: nat)
    requires Inv(hash, t, cfg) && g in t.pipe.hist
    requires P.HistOk(t.pipe.hist[g]) && i < |t.pipe.hist[g].events| && !t.pipe.hist[g].fates[i].Waiting?
    ensures OwnReply(t, g, i, Text(t.pipe.hist[g].events[i], t.pipe.hist[g].fates[i]))
  {
    hide P.Inv, L.Inv, AcceptedOk, Linked, P.ReplyBytes, Frames, Replies.Encode, ReplyOf, L.AnswerAt,
         Replies.EncodeError;
    var h := t.pipe.hist[g];
    assert FateFits(h.events[i], h.fates[i]);
    if h.fates[i].Replied? {
      var k :| 0 <= k < |t.pipe.dispatched| && t.pipe.dispatched[k].tag == Tag(g, i);
      assert P.CompletionOk(t.pipe.hist, t.pipe.dispatched[k]);
      assert HasEntry(t.store.log, t.pipe.dispatched[k], t.pipe);
      var m :| 0 <= m < |t.store.log| && Explains(t.store.log[m], t.pipe.dispatched[k], t.pipe);
      LogExplained(hash, t.store);
      assert t.store.log[m].answer == L.AnswerAt(t.store.log, m);
      assert t.store.log[m].tag == Tag(g, i);
    }
  }

  lemma OrderOf(hash: string -> nat, s: State, cfg: Config)
    requires Inv(hash, s, cfg)
    ensures AcceptedInFrameOrder(s.pipe.accepted)
  {
    hide P.Inv, L.Inv, G.Logged, Linked, Answered, AcceptedInFrameOrder;
  }

  /** Answered by the loop itself, without a worker. */
  predicate Refused(fate: Fate) {
    fate.Busy? || fate.ShuttingDown? || fate.ProtocolFailure?
  }

  /** Whatever executed had been accepted. */
  lemma LoggedIsAccepted(hash: string -> nat, t: State, cfg: Config, m: nat) returns (k: nat)
    requires Inv(hash, t, cfg) && m < |t.store.log|
    ensures k < |t.pipe.popped| <= |t.pipe.accepted| && t.pipe.popped[k] == t.pipe.accepted[k]
    ensures t.pipe.accepted[k].tag == t.store.log[m].tag && AcceptedItemOk(t.pipe, t.pipe.accepted[k])
  {
    hide P.ConnsOk, P.HistsOk, P.RecordsOk, P.Unique, P.WakeOk, P.NoneStuck, P.Tokens, G.Logged, Answered,
         AcceptedItemOk;
    assert t.store.log[m].tag in t.store.used;
    k :| 0 <= k < |t.pipe.popped| && t.pipe.popped[k].tag == t.store.log[m].tag;
    assert t.pipe.accepted[k] == t.pipe.popped[k];
  }

  lemma LogExplained(hash: string -> nat, s: L.State)
    requires L.Inv(hash, s)
    ensures L.Explained(s.log)
    ensures forall j, k | 0 <= j < k < |s.log| :: s.log[j].tag != s.log[k].tag
  {
    hide L.Explained, L.Refines;
  }

  /** End to end: in every run of the server with any number of workers and shards, what is ever
      appended to a connection's output is the in-order concatenation of exactly one reply for
      each of its first frames, each of them that frame's own; the replies of all executed
      commands, on all connections, are those of one sequential execution on a simple map; and a
      refused frame is never executed. */
  lemma EndToEnd(hash: string -> nat, workCapacity: nat, completionCapacity: nat, workers: nat, shardCount: nat,
                 clock: int, cfg: Config, steps: seq<Step>, t: State, g: nat)
    requires shardCount > 0 && Sharding.IsPow2(shardCount)
    requires Run(hash, Init(workCapacity, completionCapacity, workers, shardCount, clock), cfg, steps, t)
    requires g in t.pipe.hist
    ensures var h := t.pipe.hist[g];
            && P.HistOk(h)
            && h.events <= Frames(h.received)
            && h.sent <= h.appended == P.ReplyBytes(h.events, h.fates, h.released)
            && forall i | 0 <= i < h.released :: OwnReply(t, g, i, Text(h.events[i], h.fates[i]))
    ensures AcceptedInFrameOrder(t.pipe.accepted)
    ensures L.Explained(t.store.log)
    ensures forall j, k | 0 <= j < k < |t.store.log| :: t.store.log[j].tag != t.store.log[k].tag
    ensures forall i, m | 0 <= i < |t.pipe.hist[g].fates| && Refused(t.pipe.hist[g].fates[i])
            && 0 <= m < |t.store.log| ::
              t.store.log[m].tag != Tag(g, i)
  {
    hide Inv, OwnReply, P.ReplyBytes, Frames, L.Explained, AcceptedInFrameOrder;
    InitInv(hash, workCapacity, completionCapacity, workers, shardCount, clock, cfg);
    RunInv(hash, Init(workCapacity, completionCapacity, workers, shardCount, clock), cfg, steps, t);
    Parts(hash, t, cfg);
    G.HistKnown(t.pipe, cfg, g);
    LogExplained(hash, t.store);
    OrderOf(hash, t, cfg);
    forall i, m | 0 <= i < |t.pipe.hist[g].fates| && Refused(t.pipe.hist[g].fates[i]) && 0 <= m < |t.store.log|
      ensures t.store.log[m].tag != Tag(g, i)
    {
      var k := LoggedIsAccepted(hash, t, cfg, m);
    }
    forall i | 0 <= i < t.pipe.hist[g].released
      ensures OwnReply(t, g, i, Text(t.pipe.hist[g].events[i], t.pipe.hist[g].fates[i]))
    {
      OwnReplyOf(hash, t, cfg, g, i);
    }
  }

  lemma Parts(hash: string -> nat, t: State, cfg: Config)
    requires Inv(hash, t, cfg)
    ensures P.Inv(t.pipe, cfg) && L.Inv(hash, t.store)
  {
  }

  // Decoding the output ----------------------------------------------------------------

  /** Error replies of the first n frames carry no CRLF of their own. */
  predicate CleanErrors(events: seq<Event>, n: nat)
    requires n <= |events|
  {
    forall i | 0 <= i < n && !events[i].Request? :: CrlfFree(events[i].error.message)
  }

  /** Among the first n frames of the bytes sent, none names an unknown command with a CRLF in it. */
  predicate EchoFree(sent: string, n: nat)
    decreases n
  {
    n == 0 || match ReadFrame(sent)
              case Done(args, k) => !Replies.EchoesCrlf(args) && EchoFree(sent[k..], n - 1)
              case _ => true
  }

  lemma {:induction false} CleanIffEchoFree(sent: string, n: nat)
    requires n <= |Frames(sent)|
    ensures CleanErrors(Frames(sent), n) <==> EchoFree(sent, n)
    decreases n
  {
    hide ReadFrame, BuildCommand, CrlfFree, Replies.EchoesCrlf;
    if n > 0 {
      var r := ReadFrame(sent);
      CompleteIsDone(sent);
      if r.Done? {
        FirstErrorClean(r.value, r.consumed);
        CleanIffEchoFree(sent[r.consumed..], n - 1);
        CleanCons(Frames(sent), n);
        assert Frames(sent)[1..] == Frames(sent[r.consumed..]);
      } else {
        Replies.FatalTextFree(sent);
        assert Frames(sent) == [EventOf(Parse(sent))];
      }
    }
  }

  lemma CleanCons(events: seq<Event>, n: nat)
    requires 0 < n <= |events|
    ensures CleanErrors(events, n)
            <==> (events[0].Request? || CrlfFree(events[0].error.message)) && CleanErrors(events[1..], n - 1)
  {
    hide CrlfFree;
    assert forall i | 0 <= i < n - 1 :: events[1..][i] == events[i + 1];
    if CleanErrors(events[1..], n - 1) && (events[0].Request? || CrlfFree(events[0].error.message)) {
      forall i | 0 <= i < n && !events[i].Request?
        ensures CrlfFree(events[i].error.message)
      {
        assert i > 0 ==> events[1..][i - 1] == events[i];
      }
    }
  }

  lemma FirstErrorClean(args: seq<string>, consumed: nat)
    ensures var event := EventOf(Interpret(args, consumed));
            event.Request? || CrlfFree(event.error.message) <==> !Replies.EchoesCrlf(args)
  {
    hide BuildCommand, CrlfFree;
    if BuildCommand(args).Invalid? {
      Replies.ErrorTextFramed(args);
    }
  }

  lemma ReplyValue(hash: string -> nat, t: State, cfg: Config, g: nat, i: nat) returns (r: Replies.Reply)
    requires Inv(hash, t, cfg) && g in t.pipe.hist
    requires P.HistOk(t.pipe.hist[g]) && i < |t.pipe.hist[g].events| && !t.pipe.hist[g].fates[i].Waiting?
    ensures Replies.Encode(r) == Text(t.pipe.hist[g].events[i], t.pipe.hist[g].fates[i])
    ensures Replies.Framed(r) <==> t.pipe.hist[g].events[i].Request? || CrlfFree(t.pipe.hist[g].events[i].error.message)
  {
    hide Inv, P.ReplyBytes, Frames, L.AnswerAt, ReplyOf;
    OwnReplyOf(hash, t, cfg, g, i);
    var event := t.pipe.hist[g].events[i];
    var text := Text(event, t.pipe.hist[g].fates[i]);
    if !event.Request? {
      r := Replies.Error(event.error.message);
    } else if text == Replies.EncodeError(BUSY_TEXT) {
      Refusals();
      r := Replies.Error(BUSY_TEXT);
    } else if text == Replies.EncodeError(CLOSING_TEXT) {
      Refusals();
      r := Replies.Error(CLOSING_TEXT);
    } else {
      var m :| 0 <= m < |t.store.log| && t.store.log[m].tag == Tag(g, i)
          && text == Replies.Encode(ReplyOf(L.AnswerAt(t.store.log, m)));
      r := ReplyOf(L.AnswerAt(t.store.log, m));
      ReplyFramed(L.AnswerAt(t.store.log, m));
    }
  }

  lemma Refusals()
    ensures CrlfFree(BUSY_TEXT) && CrlfFree(CLOSING_TEXT)
  {
    assert '\r' !in BUSY_TEXT && '\r' !in CLOSING_TEXT;
    Replies.NoCrIsFree(BUSY_TEXT);
    Replies.NoCrIsFree(CLOSING_TEXT);
  }

  lemma {:induction false} EncodeAllSnoc(rs: seq<Replies.Reply>, r: Replies.Reply)
    ensures Replies.EncodeAll(rs + [r]) == Replies.EncodeAll(rs) + Replies.Encode(r)
  {
    hide Replies.Encode;
    if rs == [] {
      assert rs + [r] == [r];
      assert Replies.EncodeAll([r][1..]) == "";
    } else {
      assert (rs + [r])[1..] == rs[1..] + [r];
      EncodeAllSnoc(rs[1..], r);
    }
  }

  lemma {:induction false} ReplyValues(hash: string -> nat, t: State, cfg: Config, g: nat, n: nat)
      returns (rs: seq<Replies.Reply>)
    requires Inv(hash, t, cfg) && g in t.pipe.hist
    requires P.HistOk(t.pipe.hist[g]) && n <= t.pipe.hist[g].released
    ensures |rs| == n
    ensures Replies.EncodeAll(rs) == P.ReplyBytes(t.pipe.hist[g].events, t.pipe.hist[g].fates, n)
    ensures forall i | 0 <= i < n :: Replies.Encode(rs[i]) == Text(t.pipe.hist[g].events[i], t.pipe.hist[g].fates[i])
    ensures CleanErrors(t.pipe.hist[g].events, n) <==> forall i | 0 <= i < n :: Replies.Framed(rs[i])
    decreases n
  {
    hide Inv, Replies.Encode, Replies.Framed, Text, Frames;
    if n == 0 {
      rs := [];
    } else {
      var front := ReplyValues(hash, t, cfg, g, n - 1);
      var r := ReplyValue(hash, t, cfg, g, n - 1);
      rs := front + [r];
      EncodeAllSnoc(front, r);
    }
  }

  /** In every run, a client that decodes its output stream gets exactly one reply per frame, in
      order, if and only if none of its answered frames names an unknown command with a CRLF in it. */
  lemma ClientDecodesItsReplies(hash: string -> nat, workCapacity: nat, completionCapacity: nat, workers: nat,
                                shardCount: nat, clock: int, cfg: Config, steps: seq<Step>, t: State, g: nat)
      returns (rs: seq<Replies.Reply>)
    requires shardCount > 0 && Sharding.IsPow2(shardCount)
    requires Run(hash, Init(workCapacity, completionCapacity, workers, shardCount, clock), cfg, steps, t)
    requires g in t.pipe.hist
    ensures P.HistOk(t.pipe.hist[g]) && |rs| == t.pipe.hist[g].released
    ensures Replies.EncodeAll(rs) == t.pipe.hist[g].appended
    ensures forall i | 0 <= i < |rs| :: Replies.Encode(rs[i]) == Text(t.pipe.hist[g].events[i], t.pipe.hist[g].fates[i])
    ensures Replies.DecodeAll(t.pipe.hist[g].appended) == rs
            <==> EchoFree(t.pipe.hist[g].received, t.pipe.hist[g].released)
  {
    hide Inv, Replies.Encode, Replies.Framed, Text, Frames, Replies.EncodeAll, Replies.DecodeAll, CleanErrors,
         OwnReply, EchoFree;
    InitInv(hash, workCapacity, completionCapacity, workers, shardCount, clock, cfg);
    RunInv(hash, Init(workCapacity, completionCapacity, workers, shardCount, clock), cfg, steps, t);
    Parts(hash, t, cfg);
    G.HistKnown(t.pipe, cfg, g);
    rs := ReplyValues(hash, t, cfg, g, t.pipe.hist[g].released);
    Replies.StreamsDecodeUniquely(rs);
    CleanIffEchoFree(t.pipe.hist[g].received, t.pipe.hist[g].released);
    CleanPrefix(t.pipe.hist[g].events, Frames(t.pipe.hist[g].received), t.pipe.hist[g].released);
  }

  lemma CleanPrefix(events: seq<Event>, more: seq<Event>, n: nat)
    requires n <= |events| && events <= more
    ensures CleanErrors(events, n) <==> CleanErrors(more, n)
  {
    assert forall i | 0 <= i < n :: events[i] == more[i];
  }

  // One worker -------------------------------------------------------------------------

  /** With one worker the log is the popped requests in order. */
  ghost predicate Sequential(s: State) {
    && |s.store.threads| == 1
    && G.InAcceptOrder(s.pipe)
    && L.Orderly(s.store)
    && |s.store.log| == |s.pipe.popped| - (if s.store.threads[0].Called? || s.store.threads[0].Clocked? then 1 else 0)
    && (forall k | 0 <= k < |s.store.log| ::
          s.store.log[k].tag == s.pipe.popped[k].tag && s.store.log[k].command == s.pipe.popped[k].command)
    && (s.store.threads[0].Cleaning? || s.store.threads[0].Returned? ==> s.store.threads[0].at == |s.store.log| - 1)
    && |s.pipe.dispatched| <= |s.store.log|
    && (forall k | 0 <= k < |s.pipe.dispatched| ::
          s.pipe.dispatched[k].response == Replies.Encode(ReplyOf(s.store.log[k].answer)))
  }

  lemma SequentialPipe(hash: string -> nat, s: State, cfg: Config, p: P.Step)
    requires Inv(hash, s, cfg) && Sequential(s) && Enabled(s, cfg, PipeStep(p))
    ensures L.Shape(s.store) && Sequential(Apply(hash, s, cfg, PipeStep(p)))
  {
    hide P.Inv, L.Inv, G.Logged, AcceptedOk, Answered, P.Apply, P.Enabled, L.Orderly, Replies.Encode, ReplyOf,
         G.InAcceptOrder;
    StoreShape(hash, s, cfg);
    QueueFacts(s.pipe, cfg);
    G.StepInAcceptOrder(s.pipe, cfg, p);
    HoldersKept(s.pipe, cfg, p);
  }

  lemma QueueFacts(p: P.State, cfg: Config)
    requires P.Inv(p, cfg)
    ensures P.QueuesOk(p)
  {
  }

  lemma SequentialStart(hash: string -> nat, s: State, cfg: Config, i: nat)
    requires Inv(hash, s, cfg) && Sequential(s) && Enabled(s, cfg, Start(i))
    ensures L.Shape(s.store) && Sequential(Apply(hash, s, cfg, Start(i)))
  {
    hide P.Inv, L.Inv, G.Logged, AcceptedOk, Answered, Replies.Encode, ReplyOf;
    StoreShape(hash, s, cfg);
    QueueFacts(s.pipe, cfg);
    G.StepInAcceptOrder(s.pipe, cfg, P.Pop(i));
  }

  lemma SequentialFinish(hash: string -> nat, s: State, cfg: Config, i: nat)
    requires Inv(hash, s, cfg) && Sequential(s) && Enabled(s, cfg, Finish(i))
    ensures L.Shape(s.store) && Sequential(Apply(hash, s, cfg, Finish(i)))
  {
    hide P.Inv, L.Inv, G.Logged, AcceptedOk, Answered, Replies.Encode, ReplyOf, G.InAcceptOrder;
    StoreShape(hash, s, cfg);
    QueueFacts(s.pipe, cfg);
    G.StepInAcceptOrder(s.pipe, cfg, P.Dispatch(i, Response(s, i)));
    L.OrderlyStep(hash, s.store, L.Take(i));
    DispatchCount(s.pipe);
  }

  lemma DispatchCount(p: P.State)
    requires G.InAcceptOrder(p)
    ensures |p.workers| == 1 && |p.popped| == |p.dispatched| + (if p.workers[0].Holding? then 1 else 0)
  {
  }

  lemma LockAppends(hash: string -> nat, s: L.State, l: L.Step)
    requires L.Shape(s) && L.Enabled(s, l) && !l.Call? && !l.Take? && |s.threads| == 1
    ensures var s' := L.Apply(hash, s, l);
            && (!l.Lock? ==> s'.log == s.log)
            && (l.Lock? ==> |s'.log| == |s.log| + 1 && s'.log[|s.log|].tag == s.threads[0].tag
                            && s'.log[|s.log|].command == s.threads[0].command)
            && ((s'.threads[0].Called? || s'.threads[0].Clocked?)
                <==> (s.threads[0].Called? || s.threads[0].Clocked?) && !l.Lock?)
            && (s'.threads[0].Cleaning? || s'.threads[0].Returned? ==>
                  s'.threads[0].at == if l.Lock? then |s.log|
                                      else if s.threads[0].Cleaning? || s.threads[0].Returned? then s.threads[0].at
                                      else s'.threads[0].at)
            && (l.Lock? ==> s.threads[0].Clocked?)
            && (!l.Lock? && (s'.threads[0].Cleaning? || s'.threads[0].Returned?) ==>
                s.threads[0].Cleaning? || s.threads[0].Returned?)
  {
    hide L.FirstSection, L.AnswerTime, Sharding.ShardFor;
  }

  lemma SequentialStore(hash: string -> nat, s: State, cfg: Config, l: L.Step)
    requires Inv(hash, s, cfg) && Sequential(s) && Enabled(s, cfg, StoreStep(l))
    ensures L.Shape(s.store) && Sequential(Apply(hash, s, cfg, StoreStep(l)))
  {
    hide P.Inv, L.Inv, G.Logged, AcceptedOk, Answered, L.Apply, L.Enabled, Replies.Encode, ReplyOf, L.Orderly;
    StoreShape(hash, s, cfg);
    StoreThreads(hash, s.store, l);
    LockAppends(hash, s.store, l);
    L.OrderlyStep(hash, s.store, l);
    assert Coupled(s.pipe.workers[0], s.store.threads[0]);
  }

  lemma SequentialStep(hash: string -> nat, s: State, cfg: Config, step: Step)
    requires Inv(hash, s, cfg) && Sequential(s) && Enabled(s, cfg, step)
    ensures L.Shape(s.store) && Sequential(Apply(hash, s, cfg, step))
  {
    hide Inv, Enabled, Sequential;
    StoreShape(hash, s, cfg);
    match step
    case PipeStep(p) => SequentialPipe(hash, s, cfg, p);
    case Start(i) => SequentialStart(hash, s, cfg, i);
    case Finish(i) => SequentialFinish(hash, s, cfg, i);
    case StoreStep(l) => SequentialStore(hash, s, cfg, l);
  }

  lemma {:induction false} SequentialRun(hash: string -> nat, s: State, cfg: Config, steps: seq<Step>, t: State)
    requires Inv(hash, s, cfg) && Sequential(s) && Run(hash, s, cfg, steps, t)
    ensures Inv(hash, t, cfg) && Sequential(t)
    decreases |steps|
  {
    hide Inv, Enabled, Apply, Sequential;
    if steps != [] {
      StepInv(hash, s, cfg, steps[0]);
      SequentialStep(hash, s, cfg, steps[0]);
      SequentialRun(hash, Apply(hash, s, cfg, steps[0]), cfg, steps[1..], t);
    }
  }

  /** One worker is one at a time: in every run with a single worker, the k-th dispatched reply is
      the reply the simple map gives to the k-th accepted command after the ones before it, at
      instants that never go backwards. Each connection's commands are accepted in frame order, so
      each connection sees its own program order. */
  lemma OneWorkerIsSequential(hash: string -> nat, workCapacity: nat, completionCapacity: nat, shardCount: nat,
                              clock: int, cfg: Config, steps: seq<Step>, t: State)
    requires shardCount > 0 && Sharding.IsPow2(shardCount)
    requires Run(hash, Init(workCapacity, completionCapacity, 1, shardCount, clock), cfg, steps, t)
    ensures AcceptedInFrameOrder(t.pipe.accepted)
    ensures |t.pipe.dispatched| <= |t.store.log| <= |t.pipe.accepted|
    ensures forall k | 0 <= k < |t.store.log| :: t.store.log[k].tag == t.pipe.accepted[k].tag
    ensures forall k | 0 <= k < |t.pipe.dispatched| ::
              && t.pipe.dispatched[k].tag == t.pipe.accepted[k].tag
              && t.store.log[k].command == t.pipe.accepted[k].command
              && t.pipe.dispatched[k].response
                 == Replies.Encode(ReplyOf(L.Exec(L.Replay(t.store.log[..k]), t.pipe.accepted[k].command,
                                                  t.store.log[k].time).1))
    ensures forall j, k | 0 <= j < k < |t.store.log| :: t.store.log[j].time <= t.store.log[k].time
  {
    hide Inv, Replies.Encode, ReplyOf, L.Exec, Run, L.Replay, AcceptedInFrameOrder;
    var s := Init(workCapacity, completionCapacity, 1, shardCount, clock);
    InitInv(hash, workCapacity, completionCapacity, 1, shardCount, clock, cfg);
    SequentialRun(hash, s, cfg, steps, t);
    Parts(hash, t, cfg);
    OrderOf(hash, t, cfg);
    LogExplained(hash, t.store);
    forall j, k | 0 <= j < k < |t.store.log|
      ensures t.store.log[j].time <= t.store.log[k].time
    {
      L.SingleThreadTimesSorted(hash, t.store, j, k);
    }
    forall k | 0 <= k < |t.pipe.dispatched|
      ensures t.pipe.dispatched[k].response
              == Replies.Encode(ReplyOf(L.Exec(L.Replay(t.store.log[..k]), t.pipe.accepted[k].command,
                                               t.store.log[k].time).1))
    {
      assert t.store.log[k].answer == L.AnswerAt(t.store.log, k);
    }
  }
}
