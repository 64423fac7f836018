/** What the pipeline guarantees over whole runs. */
module PipelineGuarantees {
  import opened Bytes
  import opened Parser
  import opened Framing
  import opened Queueing
  import opened Sequencing
  import opened Requests
  import opened Loop
  import opened Pipeline
  import opened PipelineSafety
  import opened PipelineSteps

  predicate Run(s: State, cfg: Config, steps: seq<Step>, t: State)
    decreases |steps|
  {
    if steps == [] then s == t
    else Enabled(s, cfg, steps[0]) && Run(Apply(s, cfg, steps[0]), cfg, steps[1..], t)
  }

  function Init(workCapacity: nat, completionCapacity: nat, workers: nat): State {
    State(map[], 1, Queue([], workCapacity, false), Queue([], completionCapacity, false), seq(workers, _ => Idle),
          false, false, Rest, [], [], [], map[])
  }

  lemma InitInv(workCapacity: nat, completionCapacity: nat, workers: nat, cfg: Config)
    ensures Inv(Init(workCapacity, completionCapacity, workers), cfg)
  {
    SumNone(seq(workers, _ => Idle), WorkerToken);
    assert Tokens(Init(workCapacity, completionCapacity, workers)) == multiset{};
  }

  lemma {:induction false} RunInv(s: State, cfg: Config, steps: seq<Step>, t: State)
    requires Inv(s, cfg) && Run(s, cfg, steps, t)
    ensures Inv(t, cfg)
    decreases |steps|
  {
    hide Inv, Enabled, Apply;
    if steps != [] {
      StepInv(s, cfg, steps[0]);
      RunInv(Apply(s, cfg, steps[0]), cfg, steps[1..], t);
    }
  }

  // Dispatch records -------------------------------------------------------------------

  /** The replies that come from workers are exactly the dispatch results, one per request. */
  ghost predicate Logged(s: State) {
    && (forall k | 0 <= k < |s.dispatched| :: CompletionOk(s.hist, s.dispatched[k]))
    && (forall j, k | 0 <= j < k < |s.dispatched| :: s.dispatched[j].tag != s.dispatched[k].tag)
    && (forall g, i | g in s.hist && 0 <= i < |s.hist[g].fates| && s.hist[g].fates[i].Replied? ::
          exists k | 0 <= k < |s.dispatched| :: s.dispatched[k].tag == Tag(g, i))
  }

  /** No fate changes except that of the dispatched request. */
  predicate HistsGrow(s: State, s': State) {
    forall g | g in s.hist ::
      g in s'.hist && Extends(s.hist[g], s'.hist[g])
      && (forall i | |s.hist[g].fates| <= i < |s'.hist[g].fates| :: !s'.hist[g].fates[i].Replied?)
  }

  predicate NewHistsEmpty(s: State, s': State) {
    forall g | g in s'.hist && g !in s.hist :: s'.hist[g].fates == []
  }

  lemma {:induction false} LoggedKept(s: State, s': State)
    requires Logged(s) && HistsGrow(s, s') && NewHistsEmpty(s, s') && s'.dispatched == s.dispatched
    ensures Logged(s')
  {
    forall k | 0 <= k < |s'.dispatched|
      ensures CompletionOk(s'.hist, s'.dispatched[k])
    {
      assert CompletionOk(s.hist, s.dispatched[k]);
    }
    forall g, i | g in s'.hist && 0 <= i < |s'.hist[g].fates| && s'.hist[g].fates[i].Replied?
      ensures exists k | 0 <= k < |s'.dispatched| :: s'.dispatched[k].tag == Tag(g, i)
    {
      assert g in s.hist && i < |s.hist[g].fates| && s.hist[g].fates[i].Replied?;
    }
  }

  lemma TurnFates(c: Conn, cfg: Config, status: PushStatus)
    ensures var t := TurnOf(c, cfg, status); t.Reply? ==> !t.fate.Replied?
  {
    hide Parse, Deliver, Text;
  }

  /** What the parse loop leaves alone. */
  lemma ParseFrame(s: State, cfg: Config, flushed: nat)
    requires s.pc.Parsing? && s.pc.fd in s.conns
    ensures var s' := ApplyParse(s, cfg, flushed);
            && s'.workers == s.workers && s'.completions == s.completions && s'.dispatched == s.dispatched
            && s'.popped == s.popped && s'.work.capacity == s.work.capacity && s.accepted <= s'.accepted
            && s'.nextGeneration == s.nextGeneration
            && s'.stopping == s.stopping && s'.signalled == s.signalled && s'.work.closed == s.work.closed
  {
    hide TurnOf, HistOf, Delivered, Numbered, Head, Parse, Concat;
  }

  /** What the drain loop leaves alone. */
  lemma DrainFrame(s: State, cfg: Config, flushed: nat)
    ensures var s' := ApplyDrain(s, cfg, flushed);
            && s'.workers == s.workers && s'.work == s.work && s'.dispatched == s.dispatched
            && s'.popped == s.popped && s'.accepted == s.accepted
            && s'.completions.capacity == s.completions.capacity
            && s'.nextGeneration == s.nextGeneration
            && s'.stopping == s.stopping && s'.signalled == s.signalled
  {
    hide Deliver, HistOf, Delivered, Head, Concat;
  }

  lemma GrowOne(s: State, s': State, g: nat)
    requires HistsOk(s) && g in s.hist && g in s'.hist && s'.hist == s.hist[g := s'.hist[g]]
    requires Extends(s.hist[g], s'.hist[g])
    requires forall i | |s.hist[g].fates| <= i < |s'.hist[g].fates| :: !s'.hist[g].fates[i].Replied?
    ensures HistsGrow(s, s') && NewHistsEmpty(s, s')
  {
    hide HistOk, Extends;
    forall o | o in s.hist
      ensures o in s'.hist && Extends(s.hist[o], s'.hist[o])
    {
      SelfExtends(s.hist[o]);
    }
  }

  lemma ParseGrows(s: State, cfg: Config, flushed: nat)
    requires Inv(s, cfg) && Enabled(s, cfg, ParseTurn(flushed))
    ensures HistsGrow(s, Apply(s, cfg, ParseTurn(flushed))) && NewHistsEmpty(s, Apply(s, cfg, ParseTurn(flushed)))
  {
    hide ConnOk, HistOk, Parse, Deliver, TurnOf, RecordsOk, WakeOk, QueuesOk, NoneStuck, Unique, Conserved, Tokens,
         HistsGrow, NewHistsEmpty;
    var s' := Apply(s, cfg, ParseTurn(flushed));
    assert OpenOk(s, cfg, s.pc.fd);
    var c := s.conns[s.pc.fd];
    var g := c.generation;
    HistSizes(s.hist[g]);
    TurnFates(c, cfg, QueueStatus(s.work));
    GrowOne(s, s', g);
  }

  lemma DrainGrows(s: State, cfg: Config, flushed: nat)
    requires Inv(s, cfg) && Enabled(s, cfg, Drain(flushed))
    ensures HistsGrow(s, Apply(s, cfg, Drain(flushed))) && NewHistsEmpty(s, Apply(s, cfg, Drain(flushed)))
  {
    hide ConnOk, HistOk, Deliver, RecordsOk, WakeOk, QueuesOk, NoneStuck, Unique, Conserved, Tokens, HistsGrow,
         NewHistsEmpty;
    var s' := Apply(s, cfg, Drain(flushed));
    if s.completions.items != [] && Current(s, s.completions.items[0].fd, s.completions.items[0].tag.generation) {
      var fd := s.completions.items[0].fd;
      assert OpenOk(s, cfg, fd);
      HistSizes(s.hist[s.conns[fd].generation]);
      GrowOne(s, s', s.conns[fd].generation);
    } else {
      GrowNone(s, s');
    }
  }

  lemma GrowNone(s: State, s': State)
    requires HistsOk(s) && s'.hist == s.hist
    ensures HistsGrow(s, s') && NewHistsEmpty(s, s')
  {
    hide HistOk;
    forall o | o in s.hist
      ensures Extends(s.hist[o], s'.hist[o])
    {
      SelfExtends(s.hist[o]);
    }
  }

  lemma OtherGrows(s: State, cfg: Config, step: Step)
    requires Inv(s, cfg) && Enabled(s, cfg, step) && !step.Dispatch? && !step.ParseTurn? && !step.Drain?
    ensures HistsGrow(s, Apply(s, cfg, step)) && NewHistsEmpty(s, Apply(s, cfg, step))
  {
    hide ConnOk, HistOk, RecordsOk, WakeOk, QueuesOk, NoneStuck, Unique, Conserved, Tokens, HistsGrow, NewHistsEmpty;
    var s' := Apply(s, cfg, step);
    if step.Receive? || step.ReadFailed? || step.Flush? || step.FlushFailed? || step.HangUp? {
      var fd := if step.HangUp? then step.fd else s.pc.fd;
      assert OpenOk(s, cfg, fd);
      HistSizes(s.hist[s.conns[fd].generation]);
      GrowOne(s, s', s.conns[fd].generation);
    } else if step.Accept? {
      AcceptGrows(s, s');
    } else {
      GrowNone(s, s');
    }
  }

  lemma AcceptGrows(s: State, s': State)
    requires HistsOk(s) && s.nextGeneration in s'.hist
    requires s'.hist == s.hist[s.nextGeneration := s'.hist[s.nextGeneration]]
    requires s'.hist[s.nextGeneration].fates == []
    ensures HistsGrow(s, s') && NewHistsEmpty(s, s')
  {
    hide HistOk;
    assert s.nextGeneration !in s.hist;
    forall o | o in s.hist
      ensures o in s'.hist && Extends(s.hist[o], s'.hist[o])
    {
      SelfExtends(s.hist[o]);
    }
  }

  lemma StepGrows(s: State, cfg: Config, step: Step)
    requires Inv(s, cfg) && Enabled(s, cfg, step) && !step.Dispatch?
    ensures HistsGrow(s, Apply(s, cfg, step)) && NewHistsEmpty(s, Apply(s, cfg, step))
    ensures Apply(s, cfg, step).dispatched == s.dispatched
  {
    hide Inv, ApplyParse, ApplyDrain, HistsGrow, NewHistsEmpty;
    if step.ParseTurn? {
      ParseGrows(s, cfg, step.flushed);
      ParseFrame(s, cfg, step.flushed);
    } else if step.Drain? {
      DrainGrows(s, cfg, step.flushed);
      DrainFrame(s, cfg, step.flushed);
    } else {
      OtherGrows(s, cfg, step);
    }
  }

  /** A new dispatch result names a request that had none. */
  lemma DispatchRecordsKept(s: State, cfg: Config, i: nat, response: string, s': State, item: WorkItem)
    requires RecordsOk(s) && Logged(s) && Enabled(s, cfg, Dispatch(i, response))
    requires s' == Apply(s, cfg, Dispatch(i, response)) && item == s.workers[i].item
    ensures s'.dispatched == s.dispatched + [Completion(item.fd, item.tag, response)]
    ensures forall k | 0 <= k < |s'.dispatched| :: CompletionOk(s'.hist, s'.dispatched[k])
    ensures forall k | 0 <= k < |s.dispatched| :: s.dispatched[k].tag != item.tag
    ensures item.tag.generation in s.hist
  {
    HoldsOk(s, i);
    SettledHere(s.hist, item, response);
    forall k | 0 <= k < |s.dispatched|
      ensures CompletionOk(s'.hist, s.dispatched[k]) && s.dispatched[k].tag != item.tag
    {
      assert CompletionOk(s.hist, s.dispatched[k]);
      SettleCompletion(s.hist, item.tag, response, s.dispatched[k]);
    }
  }

  lemma DispatchLogged(s: State, cfg: Config, i: nat, response: string)
    requires Inv(s, cfg) && Logged(s) && Enabled(s, cfg, Dispatch(i, response))
    ensures Logged(Apply(s, cfg, Dispatch(i, response)))
  {
    hide CompletionOk, RecordsOk, ConnsOk, HistsOk, WakeOk, QueuesOk, NoneStuck, Unique, Tokens;
    var s' := Apply(s, cfg, Dispatch(i, response));
    var item := s.workers[i].item;
    DispatchRecordsKept(s, cfg, i, response, s', item);
    forall g, j | g in s'.hist && 0 <= j < |s'.hist[g].fates| && s'.hist[g].fates[j].Replied?
      ensures exists k | 0 <= k < |s'.dispatched| :: s'.dispatched[k].tag == Tag(g, j)
    {
      if Tag(g, j) == item.tag {
        assert s'.dispatched[|s.dispatched|].tag == Tag(g, j);
      } else {
        var k :| 0 <= k < |s.dispatched| && s.dispatched[k].tag == Tag(g, j);
        assert s'.dispatched[k].tag == Tag(g, j);
      }
    }
  }

  lemma StepLogged(s: State, cfg: Config, step: Step)
    requires Inv(s, cfg) && Logged(s) && Enabled(s, cfg, step)
    ensures Logged(Apply(s, cfg, step))
  {
    hide Inv, Logged, Enabled, Apply, HistsGrow, NewHistsEmpty;
    if step.Dispatch? {
      DispatchLogged(s, cfg, step.i, step.response);
    } else {
      StepGrows(s, cfg, step);
      LoggedKept(s, Apply(s, cfg, step));
    }
  }

  lemma {:induction false} RunLogged(s: State, cfg: Config, steps: seq<Step>, t: State)
    requires Inv(s, cfg) && Logged(s) && Run(s, cfg, steps, t)
    ensures Inv(t, cfg) && Logged(t)
    decreases |steps|
  {
    hide Inv, Logged, Enabled, Apply;
    if steps != [] {
      StepInv(s, cfg, steps[0]);
      StepLogged(s, cfg, steps[0]);
      RunLogged(Apply(s, cfg, steps[0]), cfg, steps[1..], t);
    }
  }

  // Theorems ---------------------------------------------------------------------------

  /** Replies in order, one per frame, each its own. In every run, for every connection that
      ever existed: the bytes appended to its output are the concatenation, in frame order, of
      exactly one settled reply for each of its first frames; those frames are the first ones of
      the bytes it sent; the bytes that reached its socket are a prefix; and a reply that comes
      from a worker is the single dispatch result recorded for that very request. */
  lemma RepliesInOrder(workCapacity: nat, completionCapacity: nat, workers: nat, cfg: Config, steps: seq<Step>,
                       t: State, g: nat)
    requires Run(Init(workCapacity, completionCapacity, workers), cfg, steps, t) && g in t.hist
    ensures var h := t.hist[g];
            && HistOk(h)
            && h.released <= |h.events| == |h.fates|
            && h.events <= Frames(h.received)
            && h.appended == ReplyBytes(h.events, h.fates, h.released)
            && h.sent <= h.appended
            && (forall i | 0 <= i < h.released :: !h.fates[i].Waiting?)
            && (forall i | 0 <= i < h.released && h.fates[i].Replied? ::
                  exists k | 0 <= k < |t.dispatched| ::
                    t.dispatched[k] == Completion(h.fd, Tag(g, i), h.fates[i].text))
    ensures forall j, k | 0 <= j < k < |t.dispatched| :: t.dispatched[j].tag != t.dispatched[k].tag
  {
    hide ReplyBytes, Frames, Inv;
    InitInv(workCapacity, completionCapacity, workers, cfg);
    var s := Init(workCapacity, completionCapacity, workers);
    RunLogged(s, cfg, steps, t);
    HistKnown(t, cfg, g);
    var h := t.hist[g];
    forall i | 0 <= i < h.released && h.fates[i].Replied?
      ensures exists k | 0 <= k < |t.dispatched| :: t.dispatched[k] == Completion(h.fd, Tag(g, i), h.fates[i].text)
    {
      var k :| 0 <= k < |t.dispatched| && t.dispatched[k].tag == Tag(g, i);
      assert CompletionOk(t.hist, t.dispatched[k]);
      assert t.dispatched[k] == Completion(h.fd, Tag(g, i), h.fates[i].text);
    }
  }

  lemma HistKnown(t: State, cfg: Config, g: nat)
    requires Inv(t, cfg) && g in t.hist
    ensures HistOk(t.hist[g])
  {
  }

  /** Conservation, no stuck frame and no lost wakeup, at every point of every run. */
  lemma PipelineKeepsItsPromises(workCapacity: nat, completionCapacity: nat, workers: nat, cfg: Config,
                                 steps: seq<Step>, t: State)
    requires Run(Init(workCapacity, completionCapacity, workers), cfg, steps, t)
    ensures forall fd | fd in t.conns ::
              Conserved(t.conns[fd], Tokens(t)) && t.conns[fd].seqr.nextExpected !in t.conns[fd].seqr.pending
    ensures WakeOk(t)
    ensures t.pc.Rest? ==> forall fd | fd in t.conns :: Settled(t.conns[fd], cfg)
    ensures |t.work.items| <= workCapacity && |t.completions.items| <= completionCapacity
    ensures t.popped + t.work.items == t.accepted
  {
    hide HistOk, Consumes, Settled, Conserved, Text, Parse, RecordsOk, HistsOk, Unique, Tokens;
    var s := Init(workCapacity, completionCapacity, workers);
    InitInv(workCapacity, completionCapacity, workers, cfg);
    RunInv(s, cfg, steps, t);
    RunCapacities(s, cfg, steps, t);
    forall fd | fd in t.conns
      ensures Conserved(t.conns[fd], Tokens(t)) && t.conns[fd].seqr.nextExpected !in t.conns[fd].seqr.pending
    {
      assert OpenOk(t, cfg, fd);
    }
  }

  lemma {:induction false} RunCapacities(s: State, cfg: Config, steps: seq<Step>, t: State)
    requires Run(s, cfg, steps, t)
    ensures t.work.capacity == s.work.capacity && t.completions.capacity == s.completions.capacity
    ensures |t.workers| == |s.workers|
    decreases |steps|
  {
    hide TurnOf, Deliver, Enabled;
    if steps != [] {
      StepCapacities(s, cfg, steps[0]);
      RunCapacities(Apply(s, cfg, steps[0]), cfg, steps[1..], t);
    }
  }

  lemma StepCapacities(s: State, cfg: Config, step: Step)
    requires Enabled(s, cfg, step)
    ensures var s' := Apply(s, cfg, step);
            s'.work.capacity == s.work.capacity && s'.completions.capacity == s.completions.capacity
            && |s'.workers| == |s.workers|
  {
    hide ApplyParse, ApplyDrain;
    if step.ParseTurn? {
      ParseFrame(s, cfg, step.flushed);
    } else if step.Drain? {
      DrainFrame(s, cfg, step.flushed);
    }
  }

  // One worker -------------------------------------------------------------------------

  /** With one worker, items are dispatched in the order they were accepted. */
  predicate InAcceptOrder(s: State) {
    && |s.workers| == 1
    && |s.popped| == |s.dispatched| + (if s.workers[0].Holding? then 1 else 0)
    && (s.workers[0].Holding? ==> s.popped[|s.popped| - 1] == s.workers[0].item)
    && (forall k | 0 <= k < |s.dispatched| :: s.dispatched[k].tag == s.popped[k].tag)
    && s.popped <= s.accepted
  }

  lemma StepInAcceptOrder(s: State, cfg: Config, step: Step)
    requires InAcceptOrder(s) && QueuesOk(s) && Enabled(s, cfg, step)
    ensures InAcceptOrder(Apply(s, cfg, step))
  {
    hide ApplyParse, ApplyDrain;
    if step.ParseTurn? {
      ParseFrame(s, cfg, step.flushed);
    } else if step.Drain? {
      DrainFrame(s, cfg, step.flushed);
    }
  }
}
