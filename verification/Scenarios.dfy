/** Building blocks for concrete runs of the pipeline: a client connects, sends one command, and a
    worker serves it. */
module Scenarios {
  import opened Bytes
  import opened Parser
  import opened RequestCodec
  import opened CommandMeaning
  import opened Framing
  import opened Queueing
  import opened Sequencing
  import opened Requests
  import opened Loop
  import opened Pipeline
  import opened PipelineSteps
  import opened PipelineGuarantees

  /** The bytes of a command. */
  function Wire(command: Command): string {
    Encode(Spelled(command))
  }

  /** A command that the server accepts and that fits the input buffer. */
  predicate Fits(command: Command, cfg: Config) {
    Acceptable(command) && |Wire(command)| <= cfg.maxInput
  }

  lemma PingFits(cfg: Config)
    requires cfg.maxInput >= SMALLEST_COMMAND
    ensures Fits(Ping, cfg)
  {
    PingSize();
  }

  lemma {:induction false} RunConcat(s: State, cfg: Config, a: seq<Step>, u: State, b: seq<Step>, t: State)
    requires Run(s, cfg, a, u) && Run(u, cfg, b, t)
    ensures Run(s, cfg, a + b, t)
    decreases |a|
  {
    hide Enabled, Apply;
    if a == [] {
      assert a + b == b;
    } else {
      RunConcat(Apply(s, cfg, a[0]), cfg, a[1..], u, b, t);
      assert (a + b)[1..] == a[1..] + b;
    }
  }

  lemma RunOne(s: State, cfg: Config, step: Step)
    requires Enabled(s, cfg, step)
    ensures Run(s, cfg, [step], Apply(s, cfg, step))
  {
    hide Apply, Enabled;
    assert Run(Apply(s, cfg, step), cfg, [step][1..], Apply(s, cfg, step));
  }

  lemma RunTwo(s: State, cfg: Config, first: Step, second: Step)
    requires Enabled(s, cfg, first) && Enabled(Apply(s, cfg, first), cfg, second)
    ensures Run(s, cfg, [first, second], Apply(Apply(s, cfg, first), cfg, second))
  {
    hide Enabled, Apply, Run;
    RunOne(s, cfg, first);
    RunOne(Apply(s, cfg, first), cfg, second);
    RunConcat(s, cfg, [first], Apply(s, cfg, first), [second], Apply(Apply(s, cfg, first), cfg, second));
    assert [first] + [second] == [first, second];
  }

  // Connecting and leaving -------------------------------------------------------------

  /** Everything but the connections, the loop's position and the histories is as before. */
  predicate SameQueues(s: State, t: State) {
    && t.work == s.work && t.completions == s.completions && t.workers == s.workers
    && t.accepted == s.accepted && t.popped == s.popped && t.dispatched == s.dispatched
    && t.stopping == s.stopping
  }

  lemma Connect(s: State, cfg: Config, fd: int) returns (t: State)
    requires s.pc.Rest?
    ensures Run(s, cfg, [Accept(fd), StartRead(fd)], t)
    ensures SameQueues(s, t) && t.pc == Reading(fd) && t.conns == s.conns[fd := NewConn(s.nextGeneration)]
    ensures t.nextGeneration == s.nextGeneration + 1
  {
    hide Run;
    t := Apply(Apply(s, cfg, Accept(fd)), cfg, StartRead(fd));
    RunTwo(s, cfg, Accept(fd), StartRead(fd));
  }

  /** The read would block, and the socket takes nothing yet. */
  lemma Leave(s: State, cfg: Config) returns (t: State)
    requires s.pc.Reading? && s.pc.fd in s.conns
    ensures Run(s, cfg, [ReadBlocked, Flush(0)], t)
    ensures SameQueues(s, t) && t.pc == Rest && t.conns == s.conns && t.nextGeneration == s.nextGeneration
  {
    hide Run;
    t := Apply(Apply(s, cfg, ReadBlocked), cfg, Flush(0));
    RunTwo(s, cfg, ReadBlocked, Flush(0));
  }

  // Sending ----------------------------------------------------------------------------

  lemma CommandTurn(c: Conn, cfg: Config, command: Command)
    requires c.input == Wire(command) && Acceptable(command) && c.seqr.InFlight() < cfg.maxInFlight
    ensures TurnOf(c, cfg, PushOk) == Enqueue(c.(input := "", seqr := Assign(c.seqr)), c.seqr.nextRequest, command)
  {
    hide Parse, Encode, Spelled, Deliver;
    CommandRoundTrip(command, "");
    assert Encode(Spelled(command)) + "" == c.input;
  }

  lemma EmptyTurn(c: Conn, cfg: Config, status: PushStatus)
    requires c.input == ""
    ensures TurnOf(c, cfg, status) == Pause
  {
  }

  /** The state once a command was read, parsed and queued. */
  predicate Sent(s: State, fd: int, command: Command, t: State)
    requires fd in s.conns
  {
    var c := s.conns[fd];
    var item := WorkItem(fd, Tag(c.generation, c.seqr.nextRequest), command);
    && t.pc == s.pc && t.conns == s.conns[fd := c.(seqr := Assign(c.seqr))] && t.nextGeneration == s.nextGeneration
    && t.work == s.work.(items := s.work.items + [item]) && t.accepted == s.accepted + [item]
    && t.completions == s.completions && t.workers == s.workers
    && t.popped == s.popped && t.dispatched == s.dispatched && t.stopping == s.stopping
  }

  lemma Send(s: State, cfg: Config, fd: int, command: Command) returns (t: State)
    requires s.pc == Reading(fd) && fd in s.conns && s.conns[fd].input == ""
    requires s.conns[fd].seqr.InFlight() < cfg.maxInFlight && Fits(command, cfg)
    requires !s.work.closed && |s.work.items| < s.work.capacity
    ensures Run(s, cfg, [Receive(Wire(command)), ParseTurn(0), ParseTurn(0)], t) && Sent(s, fd, command, t)
  {
    hide Run, TurnOf, Parse, Encode, Spelled, HistOf, Numbered, Delivered;
    assert Wire(command) != "" by {
      WireNonempty(command);
    }
    var s1 := Apply(s, cfg, Receive(Wire(command)));
    assert "" + Wire(command) == Wire(command);
    CommandTurn(s1.conns[fd], cfg, command);
    var s2 := Apply(s1, cfg, ParseTurn(0));
    EmptyTurn(s2.conns[fd], cfg, QueueStatus(s2.work));
    t := Apply(s2, cfg, ParseTurn(0));
    RunOne(s, cfg, Receive(Wire(command)));
    RunTwo(s1, cfg, ParseTurn(0), ParseTurn(0));
    RunConcat(s, cfg, [Receive(Wire(command))], s1, [ParseTurn(0), ParseTurn(0)], t);
    assert [Receive(Wire(command))] + [ParseTurn(0), ParseTurn(0)]
           == [Receive(Wire(command)), ParseTurn(0), ParseTurn(0)];
  }

  lemma WireNonempty(command: Command)
    ensures Wire(command) != ""
  {
  }

  // Serving ----------------------------------------------------------------------------

  /** Worker 0 takes the only queued item, executes it and queues its completion. */
  lemma Serve(s: State, cfg: Config, response: string) returns (t: State)
    requires |s.workers| > 0 && s.workers[0].Idle? && |s.work.items| == 1
    requires |s.completions.items| < s.completions.capacity && !s.completions.closed
    ensures Run(s, cfg, [Pop(0), Dispatch(0, response), PushCompletion(0), Notify(0)], t)
    ensures t.pc == s.pc && t.conns == s.conns && t.workers == s.workers && t.nextGeneration == s.nextGeneration
    ensures t.work == s.work.(items := []) && t.stopping == s.stopping
    ensures |t.completions.items| == |s.completions.items| + 1
    ensures t.completions.capacity == s.completions.capacity && !t.completions.closed
  {
    hide Run, HistOf, WithFate;
    var s1 := Apply(s, cfg, Pop(0));
    var s2 := Apply(s1, cfg, Dispatch(0, response));
    var s3 := Apply(s2, cfg, PushCompletion(0));
    t := Apply(s3, cfg, Notify(0));
    RunTwo(s, cfg, Pop(0), Dispatch(0, response));
    RunTwo(s2, cfg, PushCompletion(0), Notify(0));
    RunConcat(s, cfg, [Pop(0), Dispatch(0, response)], s2, [PushCompletion(0), Notify(0)], t);
    assert [Pop(0), Dispatch(0, response)] + [PushCompletion(0), Notify(0)]
        == [Pop(0), Dispatch(0, response), PushCompletion(0), Notify(0)];
  }

  // Servers that accept nothing --------------------------------------------------------

  /** No request may be in flight, the work queue holds none, or no command fits the input buffer. */
  predicate Shut(s: State, cfg: Config) {
    cfg.maxInFlight == 0 || s.work.capacity == 0 || cfg.maxInput < SMALLEST_COMMAND
  }

  /** No request ever got past the loop. */
  predicate Unused(s: State) {
    && s.accepted == [] && s.work.items == [] && s.completions.items == []
    && forall i | 0 <= i < |s.workers| :: s.workers[i].Idle? || s.workers[i].Exited?
  }

  lemma NeverEnqueues(s: State, cfg: Config)
    requires Inv(s, cfg) && Shut(s, cfg) && s.pc.Parsing? && s.pc.fd in s.conns
    ensures !TurnOf(s.conns[s.pc.fd], cfg, QueueStatus(s.work)).Enqueue?
  {
    hide HistsOk, RecordsOk, Unique, WakeOk, NoneStuck, Tokens, Conserved, HistOk, Text, Consumes, Parse, Deliver;
    var c := s.conns[s.pc.fd];
    assert OpenOk(s, cfg, s.pc.fd);
    if Parse(c.input).Parsed? {
      SmallestCommand(c.input);
    }
  }

  lemma ShutStep(s: State, cfg: Config, step: Step)
    requires Inv(s, cfg) && Shut(s, cfg) && Unused(s) && Enabled(s, cfg, step)
    ensures Shut(Apply(s, cfg, step), cfg) && Unused(Apply(s, cfg, step))
  {
    hide Inv, TurnOf, HistOf, Numbered, Delivered, Deliver;
    StepCapacities(s, cfg, step);
    if step.ParseTurn? {
      NeverEnqueues(s, cfg);
    }
  }

  lemma {:induction false} ShutRun(s: State, cfg: Config, steps: seq<Step>, t: State)
    requires Inv(s, cfg) && Shut(s, cfg) && Unused(s) && Run(s, cfg, steps, t)
    ensures Unused(t)
    decreases |steps|
  {
    hide Inv, Shut, Unused, Enabled, Apply;
    if steps != [] {
      StepInv(s, cfg, steps[0]);
      ShutStep(s, cfg, steps[0]);
      ShutRun(Apply(s, cfg, steps[0]), cfg, steps[1..], t);
    }
  }
}
