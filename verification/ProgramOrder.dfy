/** Does each connection see its own program order? Replies always come in frame order; execution
    does so in every run exactly for the configurations named in `FrameOrderExactly`. */
module ProgramOrder {
  import opened Bytes
  import opened Parser
  import opened CommandMeaning
  import opened RequestCodec
  import opened Queueing
  import opened Sequencing
  import opened Requests
  import opened Framing
  import opened Dispatcher
  import opened Loop
  import opened System
  import P = Pipeline
  import PS = PipelineSteps
  import G = PipelineGuarantees
  import L = Linearization
  import C = Scenarios
  import Replies
  import Sharding

  /** The commands of one connection executed in the order of its frames. */
  predicate InFrameOrder(log: seq<L.LogEntry>) {
    forall a, b | 0 <= a < b < |log| && log[a].tag.generation == log[b].tag.generation ::
      log[a].tag.sequence < log[b].tag.sequence
  }

  // At most one worker -----------------------------------------------------------------

  lemma SequentialInFrameOrder(hash: string -> nat, t: State, cfg: Config)
    requires Inv(hash, t, cfg) && Sequential(t)
    ensures InFrameOrder(t.store.log)
  {
    hide P.ConnsOk, P.HistsOk, P.RecordsOk, P.Unique, P.WakeOk, P.NoneStuck, P.Tokens, G.Logged, Answered, L.Inv,
         AcceptedItemOk;
    assert forall k | 0 <= k < |t.pipe.popped| :: t.pipe.popped[k] == t.pipe.accepted[k];
  }

  /** Nobody is there to execute anything. */
  predicate NoThreads(s: State) {
    s.store.threads == [] && s.store.log == []
  }

  lemma NoThreadsStep(hash: string -> nat, s: State, cfg: Config, step: Step)
    requires L.Shape(s.store) && NoThreads(s) && Enabled(s, cfg, step)
    ensures NoThreads(Apply(hash, s, cfg, step))
  {
    hide P.Apply, P.Enabled;
  }

  lemma {:induction false} NoThreadsRun(hash: string -> nat, s: State, cfg: Config, steps: seq<Step>, t: State)
    requires NoThreads(s) && Run(hash, s, cfg, steps, t)
    ensures NoThreads(t)
    decreases |steps|
  {
    hide NoThreads, Enabled, Apply;
    if steps != [] {
      NoThreadsStep(hash, s, cfg, steps[0]);
      NoThreadsRun(hash, Apply(hash, s, cfg, steps[0]), cfg, steps[1..], t);
    }
  }

  // Nothing is ever accepted -----------------------------------------------------------

  lemma ShutSystemStep(hash: string -> nat, s: State, cfg: Config, step: Step)
    requires Inv(hash, s, cfg) && C.Shut(s.pipe, cfg) && C.Unused(s.pipe) && Enabled(s, cfg, step)
    ensures L.Shape(s.store) && C.Shut(Apply(hash, s, cfg, step).pipe, cfg) && C.Unused(Apply(hash, s, cfg, step).pipe)
  {
    hide P.Inv, P.Apply, C.Shut, C.Unused, Inv, P.Enabled;
    StoreShape(hash, s, cfg);
    Parts(hash, s, cfg);
    match step
    case PipeStep(p) => C.ShutStep(s.pipe, cfg, p);
    case Start(i) => C.ShutStep(s.pipe, cfg, P.Pop(i));
    case Finish(i) => DispatchAnything(s.pipe, cfg, i, Response(s, i));
      C.ShutStep(s.pipe, cfg, P.Dispatch(i, Response(s, i)));
    case StoreStep(l) =>
  }

  lemma DispatchAnything(p: P.State, cfg: Config, i: nat, response: string)
    requires P.Enabled(p, cfg, P.Dispatch(i, ""))
    ensures P.Enabled(p, cfg, P.Dispatch(i, response))
  {
  }

  lemma {:induction false} ShutRun(hash: string -> nat, s: State, cfg: Config, steps: seq<Step>, t: State)
    requires Inv(hash, s, cfg) && C.Shut(s.pipe, cfg) && C.Unused(s.pipe) && Run(hash, s, cfg, steps, t)
    ensures Inv(hash, t, cfg) && C.Unused(t.pipe)
    decreases |steps|
  {
    hide Inv, C.Shut, C.Unused, Enabled, Apply;
    if steps != [] {
      StepInv(hash, s, cfg, steps[0]);
      ShutSystemStep(hash, s, cfg, steps[0]);
      ShutRun(hash, Apply(hash, s, cfg, steps[0]), cfg, steps[1..], t);
    }
  }

  lemma NothingAcceptedNothingLogged(hash: string -> nat, t: State, cfg: Config)
    requires Inv(hash, t, cfg) && t.pipe.accepted == []
    ensures t.store.log == []
  {
    hide Inv;
    if t.store.log != [] {
      var k := LoggedIsAccepted(hash, t, cfg, 0);
    }
  }

  // One request in flight --------------------------------------------------------------

  /** Before a connection's next request is accepted, the one before was answered by a worker. */
  predicate OneAtATime(p: P.State) {
    forall j, k | 0 <= j < k < |p.accepted| && p.accepted[j].tag.generation == p.accepted[k].tag.generation ::
      Settled(p, p.accepted[j].tag)
  }

  predicate Settled(p: P.State, tag: Tag) {
    tag.generation in p.hist && tag.sequence < |p.hist[tag.generation].fates|
    && |p.hist[tag.generation].events| == |p.hist[tag.generation].fates|
    && p.hist[tag.generation].fates[tag.sequence].Replied?
  }

  lemma SettledKept(p: P.State, p': P.State, tag: Tag)
    requires Settled(p, tag) && Grows(p, p')
    ensures Settled(p', tag)
  {
  }

  lemma OneAtATimeKept(p: P.State, p': P.State)
    requires OneAtATime(p) && Grows(p, p') && p'.accepted == p.accepted
    ensures OneAtATime(p')
  {
    hide Grows, Settled;
    forall j, k | 0 <= j < k < |p'.accepted| && p'.accepted[j].tag.generation == p'.accepted[k].tag.generation
      ensures Settled(p', p'.accepted[j].tag)
    {
      SettledKept(p, p', p.accepted[j].tag);
    }
  }

  /** With nothing in flight, every frame of the connection has its answer. */
  lemma NothingInFlight(p: P.State, cfg: Config, j: nat)
    requires P.Inv(p, cfg) && AcceptedOk(p) && j < |p.accepted| && p.pc.Parsing? && p.pc.fd in p.conns
    requires p.conns[p.pc.fd].seqr.InFlight() < 1 && p.accepted[j].tag.generation == p.conns[p.pc.fd].generation
    ensures Settled(p, p.accepted[j].tag)
  {
    hide P.HistsOk, P.RecordsOk, P.Unique, P.WakeOk, P.NoneStuck, P.Tokens, P.Conserved, Consumes, Parse,
         P.ReplyBytes, Text;
    assert P.OpenOk(p, cfg, p.pc.fd);
    assert AcceptedItemOk(p, p.accepted[j]);
  }

  lemma OneAtATimeParse(p: P.State, cfg: Config, flushed: nat)
    requires P.Inv(p, cfg) && AcceptedOk(p) && cfg.maxInFlight <= 1 && OneAtATime(p)
    requires P.Enabled(p, cfg, P.ParseTurn(flushed))
    ensures OneAtATime(P.Apply(p, cfg, P.ParseTurn(flushed)))
  {
    hide P.Inv, AcceptedOk, P.HistOf, P.Numbered, P.Delivered, Grows, Settled, Parse, Deliver;
    var p' := P.Apply(p, cfg, P.ParseTurn(flushed));
    StepGrows(p, cfg, P.ParseTurn(flushed));
    var c := p.conns[p.pc.fd];
    if TurnOf(c, cfg, P.QueueStatus(p.work)).Enqueue? {
      forall j, k | 0 <= j < k < |p'.accepted| && p'.accepted[j].tag.generation == p'.accepted[k].tag.generation
        ensures Settled(p', p'.accepted[j].tag)
      {
        if k == |p.accepted| {
          NothingInFlight(p, cfg, j);
        }
        SettledKept(p, p', p.accepted[j].tag);
      }
    } else {
      OneAtATimeKept(p, p');
    }
  }

  lemma OneAtATimeStep(p: P.State, cfg: Config, step: P.Step)
    requires P.Inv(p, cfg) && AcceptedOk(p) && cfg.maxInFlight <= 1 && OneAtATime(p) && P.Enabled(p, cfg, step)
    ensures OneAtATime(P.Apply(p, cfg, step))
  {
    hide P.Inv, AcceptedOk, OneAtATime, P.ApplyParse, P.ApplyDrain, P.Closed, P.Written, Grows;
    if step.ParseTurn? {
      OneAtATimeParse(p, cfg, step.flushed);
    } else {
      StepGrows(p, cfg, step);
      if step.Drain? {
        G.DrainFrame(p, cfg, step.flushed);
      } else {
        AcceptedOnlyByParsing(p, cfg, step);
      }
      OneAtATimeKept(p, P.Apply(p, cfg, step));
    }
  }

  /** What a store step appends to the log. */
  lemma LogStep(hash: string -> nat, s: L.State, l: L.Step)
    requires L.Shape(s) && L.Enabled(s, l)
    ensures !l.Lock? ==> L.Apply(hash, s, l).log == s.log
    ensures l.Lock? ==> |L.Apply(hash, s, l).log| == |s.log| + 1 && s.log <= L.Apply(hash, s, l).log
                        && L.Apply(hash, s, l).log[|s.log|].tag == s.threads[l.i].tag
  {
    hide L.FirstSection, L.AnswerTime, Sharding.ShardFor;
  }

  /** The command a worker is executing comes after everything its connection executed before. */
  lemma LockInOrder(hash: string -> nat, s: State, cfg: Config, i: nat, a: nat)
    requires Inv(hash, s, cfg) && OneAtATime(s.pipe) && i < |s.store.threads| && s.store.threads[i].Clocked?
             && a < |s.store.log|
    requires s.store.log[a].tag.generation == s.store.threads[i].tag.generation
    ensures s.store.log[a].tag.sequence < s.store.threads[i].tag.sequence
  {
    hide Inv, P.Inv, L.Inv, Settled, AcceptedItemOk, OneAtATime, AcceptedInFrameOrder;
    Parts(hash, s, cfg);
    var ka := LoggedIsAccepted(hash, s, cfg, a);
    var kb := HeldIsAccepted(hash, s, cfg, i);
    NotLoggedYet(hash, s.store, i, a);
    OrderOf(hash, s, cfg);
    if kb < ka {
      EarlierIsSettled(s.pipe, kb, ka);
    } else {
      AcceptedBefore(s.pipe.accepted, ka, kb);
    }
  }

  lemma EarlierIsSettled(p: P.State, j: nat, k: nat)
    requires OneAtATime(p) && j < k < |p.accepted| && p.accepted[j].tag.generation == p.accepted[k].tag.generation
    ensures Settled(p, p.accepted[j].tag)
  {
  }

  lemma AcceptedBefore(accepted: seq<P.WorkItem>, j: nat, k: nat)
    requires AcceptedInFrameOrder(accepted) && j < |accepted| && k < |accepted|
    requires accepted[j].tag.generation == accepted[k].tag.generation && j < k
    ensures accepted[j].tag.sequence < accepted[k].tag.sequence
  {
  }

  /** A thread at its lock has not answered yet. */
  lemma NotLoggedYet(hash: string -> nat, s: L.State, i: nat, a: nat)
    requires L.Inv(hash, s) && i < |s.threads| && s.threads[i].Clocked? && a < |s.log|
    ensures s.log[a].tag != s.threads[i].tag
  {
    hide L.Refines, L.Explained, L.Named;
    assert L.ThreadOk(s.threads[i], s.clock, s.log);
  }

  /** The item a busy worker holds was accepted, and its frame still waits for the answer. */
  lemma HeldIsAccepted(hash: string -> nat, s: State, cfg: Config, i: nat) returns (k: nat)
    requires Inv(hash, s, cfg) && i < |s.store.threads| && !s.store.threads[i].Idle?
    ensures k < |s.pipe.accepted| && s.pipe.accepted[k].tag == s.store.threads[i].tag
    ensures !Settled(s.pipe, s.store.threads[i].tag)
  {
    hide P.ConnsOk, P.HistsOk, P.Unique, P.WakeOk, P.NoneStuck, P.Tokens, G.Logged, Answered, AcceptedOk;
    assert Coupled(s.pipe.workers[i], s.store.threads[i]);
    HeldRequest(s.pipe, cfg, i);
    TagUsed(hash, s.store, i);
    k :| 0 <= k < |s.pipe.popped| && s.pipe.popped[k].tag == s.store.threads[i].tag;
    assert s.pipe.accepted[k] == s.pipe.popped[k];
  }

  lemma TagUsed(hash: string -> nat, s: L.State, i: nat)
    requires L.Inv(hash, s) && i < |s.threads| && !s.threads[i].Idle?
    ensures s.threads[i].tag in s.used
  {
    hide L.Refines, L.Explained;
  }

  ghost predicate Ordered(s: State) {
    OneAtATime(s.pipe) && InFrameOrder(s.store.log)
  }

  lemma OrderedStore(hash: string -> nat, s: State, cfg: Config, l: L.Step)
    requires Inv(hash, s, cfg) && Ordered(s) && Enabled(s, cfg, StoreStep(l))
    ensures L.Shape(s.store) && Ordered(Apply(hash, s, cfg, StoreStep(l)))
  {
    hide Inv, OneAtATime, L.Apply;
    StoreShape(hash, s, cfg);
    LogStep(hash, s.store, l);
    if l.Lock? {
      forall a | 0 <= a < |s.store.log| && s.store.log[a].tag.generation == s.store.threads[l.i].tag.generation
        ensures s.store.log[a].tag.sequence < s.store.threads[l.i].tag.sequence
      {
        LockInOrder(hash, s, cfg, l.i, a);
      }
    }
  }

  lemma OrderedStep(hash: string -> nat, s: State, cfg: Config, step: Step)
    requires Inv(hash, s, cfg) && Ordered(s) && cfg.maxInFlight <= 1 && Enabled(s, cfg, step)
    ensures L.Shape(s.store) && Ordered(Apply(hash, s, cfg, step))
  {
    hide P.Inv, L.Inv, G.Logged, AcceptedOk, Linked, Answered, P.Apply, P.Enabled, L.Apply, InFrameOrder, OneAtATime;
    StoreShape(hash, s, cfg);
    match step
    case PipeStep(p) => OneAtATimeStep(s.pipe, cfg, p);
    case Start(i) => OneAtATimeStep(s.pipe, cfg, P.Pop(i));
    case Finish(i) =>
      DispatchAnything(s.pipe, cfg, i, Response(s, i));
      OneAtATimeStep(s.pipe, cfg, P.Dispatch(i, Response(s, i)));
      LogStep(hash, s.store, L.Take(i));
    case StoreStep(l) => OrderedStore(hash, s, cfg, l);
  }

  lemma {:induction false} OrderedRun(hash: string -> nat, s: State, cfg: Config, steps: seq<Step>, t: State)
    requires Inv(hash, s, cfg) && Ordered(s) && cfg.maxInFlight <= 1 && Run(hash, s, cfg, steps, t)
    ensures Ordered(t)
    decreases |steps|
  {
    hide Inv, Ordered, Enabled, Apply;
    if steps != [] {
      StepInv(hash, s, cfg, steps[0]);
      OrderedStep(hash, s, cfg, steps[0]);
      OrderedRun(hash, Apply(hash, s, cfg, steps[0]), cfg, steps[1..], t);
    }
  }

  // Two workers ------------------------------------------------------------------------

  function Lifted(steps: seq<P.Step>): seq<Step> {
    seq(|steps|, i requires 0 <= i < |steps| => PipeStep(steps[i]))
  }

  lemma {:induction false} LiftRun(hash: string -> nat, s: State, cfg: Config, steps: seq<P.Step>, p: P.State)
    requires L.Shape(s.store) && G.Run(s.pipe, cfg, steps, p)
    requires forall i | 0 <= i < |steps| :: !steps[i].Pop? && !steps[i].Dispatch?
    ensures Run(hash, s, cfg, Lifted(steps), State(p, s.store))
    decreases |steps|
  {
    hide P.Apply, P.Enabled, L.Shape;
    if steps != [] {
      var s' := State(P.Apply(s.pipe, cfg, steps[0]), s.store);
      LiftRun(hash, s', cfg, steps[1..], p);
      assert Lifted(steps)[1..] == Lifted(steps[1..]);
    }
  }

  lemma {:induction false} RunConcat(hash: string -> nat, s: State, cfg: Config, a: seq<Step>, u: State, b: seq<Step>,
                                     t: State)
    requires Run(hash, s, cfg, a, u) && Run(hash, u, cfg, b, t)
    ensures Run(hash, s, cfg, a + b, t)
    decreases |a|
  {
    hide Enabled, Apply, L.Shape;
    if a == [] {
      assert a + b == b;
    } else {
      RunConcat(hash, Apply(hash, s, cfg, a[0]), cfg, a[1..], u, b, t);
      assert (a + b)[1..] == a[1..] + b;
    }
  }

  lemma RunSnoc(hash: string -> nat, s: State, cfg: Config, steps: seq<Step>, u: State, step: Step)
    requires Run(hash, s, cfg, steps, u) && L.Shape(u.store) && Enabled(u, cfg, step)
    ensures Run(hash, s, cfg, steps + [step], Apply(hash, u, cfg, step))
  {
    hide Enabled, Apply, L.Shape;
    var t := Apply(hash, u, cfg, step);
    assert Run(hash, t, cfg, [step][1..], t);
    assert Run(hash, u, cfg, [step], t);
    RunConcat(hash, s, cfg, steps, u, [step], t);
  }

  /** Thread i, once called, reads the clock, takes its lock, and cleans up if it has to. */
  lemma Execute(hash: string -> nat, s: State, cfg: Config, i: nat) returns (steps: seq<Step>, t: State)
    requires L.Shape(s.store) && i < |s.store.threads| && s.store.threads[i].Called?
    ensures Run(hash, s, cfg, steps, t) && t.pipe == s.pipe && L.Shape(t.store)
    ensures |t.store.log| == |s.store.log| + 1 && s.store.log <= t.store.log
    ensures t.store.log[|s.store.log|].tag == s.store.threads[i].tag
    ensures t.store.log[|s.store.log|].command == s.store.threads[i].command
    ensures t.store.threads
            == s.store.threads[i := L.Returned(s.store.threads[i].command, s.store.threads[i].tag, |s.store.log|)]
  {
    hide Run, L.FirstSection, L.AnswerTime, Sharding.ShardFor;
    assert Run(hash, s, cfg, [], s) by {
      EmptyRun(hash, s, cfg);
    }
    var s1 := Apply(hash, s, cfg, StoreStep(L.ReadClock(i)));
    RunSnoc(hash, s, cfg, [], s, StoreStep(L.ReadClock(i)));
    t := Apply(hash, s1, cfg, StoreStep(L.Lock(i)));
    steps := [] + [StoreStep(L.ReadClock(i))];
    RunSnoc(hash, s, cfg, steps, s1, StoreStep(L.Lock(i)));
    steps := steps + [StoreStep(L.Lock(i))];
    if t.store.threads[i].Cleaning? {
      RunSnoc(hash, s, cfg, steps, t, StoreStep(L.Clean(i)));
      t := Apply(hash, t, cfg, StoreStep(L.Clean(i)));
      steps := steps + [StoreStep(L.Clean(i))];
    }
  }

  lemma EmptyRun(hash: string -> nat, s: State, cfg: Config)
    ensures Run(hash, s, cfg, [], s)
  {
  }

  /** Two commands of one connection, each in the hands of a worker, neither executed. */
  predicate TwoHeld(s: State, first: Command, second: Command) {
    && |s.pipe.workers| == |s.store.threads| >= 2
    && s.pipe.workers[0] == P.Holding(P.WorkItem(0, Tag(1, 0), first))
    && s.pipe.workers[1] == P.Holding(P.WorkItem(0, Tag(1, 1), second))
    && s.store.threads[0] == L.Called(first, Tag(1, 0)) && s.store.threads[1] == L.Called(second, Tag(1, 1))
    && s.store.log == [] && s.pipe.dispatched == []
  }

  lemma StartOne(hash: string -> nat, s: State, cfg: Config, i: nat, item: P.WorkItem) returns (t: State)
    requires L.Shape(s.store) && s.pipe.work.items == [item]
    requires i < |s.pipe.workers| == |s.store.threads| && s.pipe.workers[i].Idle? && s.store.threads[i].Idle?
    ensures Enabled(s, cfg, Start(i)) && t == Apply(hash, s, cfg, Start(i)) && L.Shape(t.store)
    ensures t.pipe.workers == s.pipe.workers[i := P.Holding(item)] && t.pipe.work == s.pipe.work.(items := [])
    ensures t.store.threads == s.store.threads[i := L.Called(item.command, item.tag)]
    ensures t.pipe.conns == s.pipe.conns && t.pipe.pc == s.pipe.pc && t.pipe.completions == s.pipe.completions
    ensures t.store.log == s.store.log && t.pipe.dispatched == s.pipe.dispatched
  {
    t := Apply(hash, s, cfg, Start(i));
  }

  /** One command in the hands of worker 0, its client still being read. */
  predicate OneHeld(s: State, workers: nat, workCapacity: nat, completionCapacity: nat, first: Command) {
    && |s.pipe.workers| == |s.store.threads| == workers
    && (forall i | 1 <= i < workers :: s.pipe.workers[i].Idle? && s.store.threads[i].Idle?)
    && workers > 0 && s.pipe.workers[0] == P.Holding(P.WorkItem(0, Tag(1, 0), first))
    && s.store.threads[0] == L.Called(first, Tag(1, 0))
    && s.store.log == [] && s.pipe.dispatched == []
    && s.pipe.pc == P.Reading(0) && 0 in s.pipe.conns
    && s.pipe.conns[0] == NewConn(1).(seqr := Assign(FRESH))
    && s.pipe.work == Queue([], workCapacity, false) && s.pipe.completions == Queue([], completionCapacity, false)
  }

  lemma TakeFirst(hash: string -> nat, workCapacity: nat, completionCapacity: nat, workers: nat, shardCount: nat,
                  clock: int, cfg: Config, first: Command) returns (steps: seq<Step>, t: State)
    requires shardCount > 0 && Sharding.IsPow2(shardCount)
    requires workers >= 1 && workCapacity >= 1 && cfg.maxInFlight >= 1 && C.Fits(first, cfg)
    ensures Run(hash, Init(workCapacity, completionCapacity, workers, shardCount, clock), cfg, steps, t)
    ensures L.Shape(t.store) && OneHeld(t, workers, workCapacity, completionCapacity, first)
  {
    hide Run, G.Run, Apply, Enabled, C.Fits, C.Wire;
    var s := Init(workCapacity, completionCapacity, workers, shardCount, clock);
    var p1 := C.Connect(s.pipe, cfg, 0);
    var connecting := [P.Accept(0), P.StartRead(0)];
    LiftRun(hash, s, cfg, connecting, p1);
    var p2 := C.Send(p1, cfg, 0, first);
    var sending := [P.Receive(C.Wire(first)), P.ParseTurn(0), P.ParseTurn(0)];
    LiftRun(hash, State(p1, s.store), cfg, sending, p2);
    var s2 := State(p2, s.store);
    RunConcat(hash, s, cfg, Lifted(connecting), State(p1, s.store), Lifted(sending), s2);
    t := StartOne(hash, s2, cfg, 0, P.WorkItem(0, Tag(1, 0), first));
    RunSnoc(hash, s, cfg, Lifted(connecting) + Lifted(sending), s2, Start(0));
    steps := Lifted(connecting) + Lifted(sending) + [Start(0)];
  }

  lemma TakeSecond(hash: string -> nat, s: State, cfg: Config, workers: nat, workCapacity: nat, completionCapacity: nat,
                   first: Command, second: Command)
      returns (steps: seq<Step>, t: State)
    requires L.Shape(s.store) && OneHeld(s, workers, workCapacity, completionCapacity, first)
    requires workers >= 2 && workCapacity >= 1 && cfg.maxInFlight >= 2 && C.Fits(second, cfg)
    ensures Run(hash, s, cfg, steps, t) && L.Shape(t.store) && TwoHeld(t, first, second)
  {
    hide Run, G.Run, Apply, Enabled, C.Fits, C.Wire;
    var p1 := C.Send(s.pipe, cfg, 0, second);
    var sending := [P.Receive(C.Wire(second)), P.ParseTurn(0), P.ParseTurn(0)];
    LiftRun(hash, s, cfg, sending, p1);
    var s1 := State(p1, s.store);
    t := StartOne(hash, s1, cfg, 1, P.WorkItem(0, Tag(1, 1), second));
    RunSnoc(hash, s, cfg, Lifted(sending), s1, Start(1));
    steps := Lifted(sending) + [Start(1)];
  }

  lemma FinishOne(hash: string -> nat, s: State, cfg: Config, i: nat) returns (t: State)
    requires L.Shape(s.store) && i < |s.pipe.workers| == |s.store.threads| && s.pipe.workers[i].Holding?
    requires s.store.threads[i].Returned? && s.store.threads[i].at < |s.store.log|
    ensures Enabled(s, cfg, Finish(i)) && t == Apply(hash, s, cfg, Finish(i)) && L.Shape(t.store)
    ensures t.store.log == s.store.log && t.store.threads == s.store.threads[i := L.Idle]
    ensures t.pipe.conns == s.pipe.conns && t.pipe.pc == s.pipe.pc && t.pipe.completions == s.pipe.completions
    ensures |t.pipe.workers| == |s.pipe.workers| && forall j | 0 <= j < |s.pipe.workers| && j != i ::
            t.pipe.workers[j] == s.pipe.workers[j]
    ensures t.pipe.workers[i]
            == P.Ready(P.Completion(s.pipe.workers[i].item.fd, s.pipe.workers[i].item.tag, Response(s, i)))
    ensures t.pipe.dispatched
            == s.pipe.dispatched + [P.Completion(s.pipe.workers[i].item.fd, s.pipe.workers[i].item.tag, Response(s, i))]
  {
    hide Response;
    t := Apply(hash, s, cfg, Finish(i));
  }

  /** Two commands of one connection, executed and answered in the wrong order. */
  ghost predicate Reordered(t: State, first: Command, second: Command) {
    && |t.store.log| == 2
    && t.store.log[0].tag == Tag(1, 1) && t.store.log[0].command == second
    && t.store.log[1].tag == Tag(1, 0) && t.store.log[1].command == first
    && t.pipe.dispatched == [P.Completion(0, Tag(1, 1), Replies.Encode(ReplyOf(t.store.log[0].answer))),
                             P.Completion(0, Tag(1, 0), Replies.Encode(ReplyOf(t.store.log[1].answer)))]
  }

  /** With two workers, two requests in flight and room for one queued item, any two commands of a
      connection may be executed in the wrong order. */
  lemma SomeRunReorders(hash: string -> nat, workCapacity: nat, completionCapacity: nat, workers: nat, shardCount: nat,
                        clock: int, cfg: Config, first: Command, second: Command) returns (steps: seq<Step>, t: State)
    requires shardCount > 0 && Sharding.IsPow2(shardCount)
    requires workers >= 2 && workCapacity >= 1 && cfg.maxInFlight >= 2 && C.Fits(first, cfg) && C.Fits(second, cfg)
    ensures Run(hash, Init(workCapacity, completionCapacity, workers, shardCount, clock), cfg, steps, t)
    ensures Reordered(t, first, second)
  {
    hide Run, Apply, Enabled, C.Fits, Init, Replies.Encode, ReplyOf;
    var s := Init(workCapacity, completionCapacity, workers, shardCount, clock);
    var s0, s1, s2, s3, s4, more;
    steps, s0 := TakeFirst(hash, workCapacity, completionCapacity, workers, shardCount, clock, cfg, first);
    more, s1 := TakeSecond(hash, s0, cfg, workers, workCapacity, completionCapacity, first, second);
    RunConcat(hash, s, cfg, steps, s0, more, s1);
    steps := steps + more;
    more, s2 := Execute(hash, s1, cfg, 1);
    RunConcat(hash, s, cfg, steps, s1, more, s2);
    steps := steps + more;
    s3 := FinishOne(hash, s2, cfg, 1);
    RunSnoc(hash, s, cfg, steps, s2, Finish(1));
    steps := steps + [Finish(1)];
    more, s4 := Execute(hash, s3, cfg, 0);
    RunConcat(hash, s, cfg, steps, s3, more, s4);
    steps := steps + more;
    t := FinishOne(hash, s4, cfg, 0);
    RunSnoc(hash, s, cfg, steps, s4, Finish(0));
    steps := steps + [Finish(0)];
  }

  // The exact condition ----------------------------------------------------------------

  /** Configurations in which execution follows frame order. */
  predicate KeepsOrder(workCapacity: nat, workers: nat, cfg: Config) {
    workers <= 1 || cfg.maxInFlight <= 1 || workCapacity == 0 || cfg.maxInput < SMALLEST_COMMAND
  }

  lemma OrderKept(hash: string -> nat, workCapacity: nat, completionCapacity: nat, workers: nat, shardCount: nat,
                  clock: int, cfg: Config, steps: seq<Step>, t: State)
    requires shardCount > 0 && Sharding.IsPow2(shardCount) && KeepsOrder(workCapacity, workers, cfg)
    requires Run(hash, Init(workCapacity, completionCapacity, workers, shardCount, clock), cfg, steps, t)
    ensures InFrameOrder(t.store.log)
  {
    hide Run, Inv;
    var s := Init(workCapacity, completionCapacity, workers, shardCount, clock);
    InitInv(hash, workCapacity, completionCapacity, workers, shardCount, clock, cfg);
    if workers == 0 {
      NoThreadsRun(hash, s, cfg, steps, t);
    } else if workers == 1 {
      SequentialRun(hash, s, cfg, steps, t);
      SequentialInFrameOrder(hash, t, cfg);
    } else if cfg.maxInFlight <= 1 {
      OrderedRun(hash, s, cfg, steps, t);
    } else {
      ShutRun(hash, s, cfg, steps, t);
      NothingAcceptedNothingLogged(hash, t, cfg);
    }
  }

  /** Program order, exactly: every run executes each connection's commands in frame order if and
      only if there is at most one worker, at most one request in flight per connection, no room in
      the work queue, or no room for a command in the input buffer. */
  lemma FrameOrderExactly(hash: string -> nat, workCapacity: nat, completionCapacity: nat, workers: nat,
                          shardCount: nat, clock: int, cfg: Config)
    requires shardCount > 0 && Sharding.IsPow2(shardCount)
    ensures (forall steps: seq<Step>, t: State |
               Run(hash, Init(workCapacity, completionCapacity, workers, shardCount, clock), cfg, steps, t) ::
               InFrameOrder(t.store.log))
            <==> KeepsOrder(workCapacity, workers, cfg)
  {
    hide Run, Init, C.Wire;
    if KeepsOrder(workCapacity, workers, cfg) {
      forall steps: seq<Step>, t: State |
        Run(hash, Init(workCapacity, completionCapacity, workers, shardCount, clock), cfg, steps, t)
        ensures InFrameOrder(t.store.log)
      {
        OrderKept(hash, workCapacity, completionCapacity, workers, shardCount, clock, cfg, steps, t);
      }
    } else {
      C.PingFits(cfg);
      var steps, t :=
        SomeRunReorders(hash, workCapacity, completionCapacity, workers, shardCount, clock, cfg, Ping, Ping);
      assert !InFrameOrder(t.store.log);
    }
  }

  // A reader that misses its own write -------------------------------------------------

  lemma DefaultFits(command: Command, cfg: Config)
    requires Acceptable(command) && cfg.maxInput >= MAX_COMMAND_BYTES
    ensures C.Fits(command, cfg)
  {
    hide Encode, Spelled, Parse;
    CommandRoundTrip(command, "");
    CommandSize(Encode(Spelled(command)) + "");
  }

  /** One connection sends SET k v and then GET k to a server with two workers and the default
      input buffer; the GET is answered with the null reply, the SET with OK. */
  lemma GetMissesItsSet(hash: string -> nat, workCapacity: nat, completionCapacity: nat, workers: nat, shardCount: nat,
                        clock: int, cfg: Config) returns (steps: seq<Step>, t: State)
    requires shardCount > 0 && Sharding.IsPow2(shardCount)
    requires workers >= 2 && workCapacity >= 1 && cfg.maxInFlight >= 2 && cfg.maxInput >= MAX_COMMAND_BYTES
    ensures Run(hash, Init(workCapacity, completionCapacity, workers, shardCount, clock), cfg, steps, t)
    ensures 1 in t.pipe.hist && P.HistOk(t.pipe.hist[1]) && |t.pipe.hist[1].events| >= 2
    ensures t.pipe.hist[1].events[..2] == [Request(Set("k", "v")), Request(Get("k"))]
    ensures t.pipe.hist[1].fates[..2] == [Replied("+OK\r\n"), Replied("$-1\r\n")]
  {
    hide Run, Init, C.Fits, P.HistOk, L.Explained, Reordered;
    var first, second := Set("k", "v"), Get("k");
    DefaultFits(first, cfg);
    DefaultFits(second, cfg);
    steps, t := SomeRunReorders(hash, workCapacity, completionCapacity, workers, shardCount, clock, cfg, first, second);
    ReorderedHistory(hash, workCapacity, completionCapacity, workers, shardCount, clock, cfg, steps, t, first, second);
    Misses(t.store.log);
    assert |t.pipe.hist[1].fates| == |t.pipe.hist[1].events| by {
      SameSizes(t.pipe.hist[1]);
    }
  }

  lemma SameSizes(h: P.Hist)
    requires P.HistOk(h)
    ensures |h.events| == |h.fates|
  {
  }

  lemma Misses(log: seq<L.LogEntry>)
    requires L.Explained(log) && |log| == 2 && log[0].command == Get("k") && log[1].command == Set("k", "v")
    ensures Replies.Encode(ReplyOf(log[0].answer)) == "$-1\r\n" && Replies.Encode(ReplyOf(log[1].answer)) == "+OK\r\n"
  {
    assert log[0].answer == L.AnswerAt(log, 0) && log[1].answer == L.AnswerAt(log, 1);
  }

  lemma ReorderedHistory(hash: string -> nat, workCapacity: nat, completionCapacity: nat, workers: nat, shardCount: nat,
                         clock: int, cfg: Config, steps: seq<Step>, t: State, first: Command, second: Command)
    requires shardCount > 0 && Sharding.IsPow2(shardCount)
    requires Run(hash, Init(workCapacity, completionCapacity, workers, shardCount, clock), cfg, steps, t)
    requires Reordered(t, first, second)
    ensures L.Explained(t.store.log) && |t.store.log| == 2
    ensures t.store.log[0].command == second && t.store.log[1].command == first
    ensures 1 in t.pipe.hist && P.HistOk(t.pipe.hist[1]) && |t.pipe.hist[1].events| >= 2
    ensures t.pipe.hist[1].events[0] == Request(first) && t.pipe.hist[1].events[1] == Request(second)
    ensures t.pipe.hist[1].fates[0] == Replied(Replies.Encode(ReplyOf(t.store.log[1].answer)))
    ensures t.pipe.hist[1].fates[1] == Replied(Replies.Encode(ReplyOf(t.store.log[0].answer)))
  {
    hide Run, P.Inv, L.Inv, AcceptedOk, Linked, Replies.Encode, ReplyOf, L.Explained;
    InitInv(hash, workCapacity, completionCapacity, workers, shardCount, clock, cfg);
    RunInv(hash, Init(workCapacity, completionCapacity, workers, shardCount, clock), cfg, steps, t);
    LogExplained(hash, t.store);
    assert P.CompletionOk(t.pipe.hist, t.pipe.dispatched[0]) && P.CompletionOk(t.pipe.hist, t.pipe.dispatched[1]);
    assert HasEntry(t.store.log, t.pipe.dispatched[0], t.pipe) && HasEntry(t.store.log, t.pipe.dispatched[1], t.pipe);
    G.HistKnown(t.pipe, cfg, 1);
  }
}
