/** The loop methods and the pipeline machine agree: however worker steps are interleaved, the
    machine's parse steps add up to one call of the parse loop, and its drain, parse and flush
    steps to one turn of the drain loop. */
module LoopRefinement {
  import opened Bytes
  import opened Parser
  import opened Framing
  import opened Queueing
  import opened Requests
  import opened Loop
  import opened Pipeline
  import opened PipelineGuarantees
  import opened EventLoop

  /** Steps of the workers and of whoever shuts the pool down. */
  predicate WorkerSide(step: Step) {
    step.Pop? || step.Dispatch? || step.PushCompletion? || step.Notify? || step.Exit? || step.CloseWork?
        || step.StopWorkers?
  }

  predicate ParseOrWorker(steps: seq<Step>) {
    forall i | 0 <= i < |steps| :: steps[i].ParseTurn? || WorkerSide(steps[i])
  }

  /** What the work queue says at each parse step of a run. */
  function StatusesOf(s: State, cfg: Config, steps: seq<Step>, t: State): seq<PushStatus>
    requires Run(s, cfg, steps, t)
    decreases |steps|
  {
    if steps == [] then []
    else (if steps[0].ParseTurn? then [QueueStatus(s.work)] else [])
         + StatusesOf(Apply(s, cfg, steps[0]), cfg, steps[1..], t)
  }

  /** A state in which the parse loop, entered in `start`, is where its turns say it is. */
  ghost predicate Tracks(start: State, cfg: Config, statuses: seq<PushStatus>, s: State)
    requires start.pc.Parsing? && start.pc.fd in start.conns
  {
    var Parsing(fd, origin) := start.pc;
    var c := start.conns[fd];
    var p := Turns(c, cfg, statuses);
    && s.accepted == start.accepted + Items(fd, c.generation, p.queued)
    && p.conn.generation == c.generation
    && match p.stage
       case Going => s.pc == start.pc && s.conns == start.conns[fd := p.conn]
       case Kept =>
         && s.conns == start.conns[fd := p.conn]
         && s.pc == if origin.FromRead? then Reading(fd) else Flushing(fd, FromDrain)
       case Dropped => s.conns == start.conns - {fd} && s.pc == Back(origin)
  }

  lemma WorkerFrame(s: State, cfg: Config, step: Step)
    requires WorkerSide(step) && Enabled(s, cfg, step)
    ensures var s' := Apply(s, cfg, step); s'.conns == s.conns && s'.pc == s.pc && s'.accepted == s.accepted
  {
    hide ApplyParse, ApplyDrain;
  }

  lemma ItemsSnoc(fd: int, generation: nat, queued: seq<(nat, Command)>, n: nat, command: Command)
    ensures Items(fd, generation, queued + [(n, command)])
            == Items(fd, generation, queued) + [WorkItem(fd, Tag(generation, n), command)]
  {
  }

  lemma ParseTracks(start: State, cfg: Config, statuses: seq<PushStatus>, s: State, flushed: nat)
    requires start.pc.Parsing? && start.pc.fd in start.conns && Tracks(start, cfg, statuses, s)
    requires Enabled(s, cfg, ParseTurn(flushed))
    ensures Tracks(start, cfg, statuses + [QueueStatus(s.work)], ApplyParse(s, cfg, flushed))
  {
    hide Turns, TurnOf, Items, HistOf, Numbered, Delivered, Consumed, Parse;
    var fd := start.pc.fd;
    var c := start.conns[fd];
    var p := Turns(c, cfg, statuses);
    var status := QueueStatus(s.work);
    TurnsSnoc(c, cfg, statuses, status);
    NextTurnGeneration(p, cfg, status);
    var turn := TurnOf(p.conn, cfg, status);
    if turn.Enqueue? {
      ItemsSnoc(fd, c.generation, p.queued, turn.sequence, turn.command);
    }
  }

  lemma StepTracks(start: State, cfg: Config, statuses: seq<PushStatus>, s: State, step: Step)
    requires start.pc.Parsing? && start.pc.fd in start.conns && Tracks(start, cfg, statuses, s)
    requires Enabled(s, cfg, step) && (step.ParseTurn? || WorkerSide(step))
    ensures Tracks(start, cfg, statuses + (if step.ParseTurn? then [QueueStatus(s.work)] else []), Apply(s, cfg, step))
  {
    hide Turns, ApplyParse, ApplyDrain;
    if step.ParseTurn? {
      ParseTracks(start, cfg, statuses, s, step.flushed);
    } else {
      WorkerFrame(s, cfg, step);
      assert statuses + [] == statuses;
    }
  }

  lemma {:induction false} RunTracks(start: State, cfg: Config, statuses: seq<PushStatus>, s: State, steps: seq<Step>,
                                     t: State)
    requires start.pc.Parsing? && start.pc.fd in start.conns && Tracks(start, cfg, statuses, s)
    requires Run(s, cfg, steps, t) && ParseOrWorker(steps)
    ensures Tracks(start, cfg, statuses + StatusesOf(s, cfg, steps, t), t)
    decreases |steps|
  {
    hide Tracks, Enabled, Apply;
    if steps == [] {
      assert statuses + [] == statuses;
    } else {
      var now := if steps[0].ParseTurn? then [QueueStatus(s.work)] else [];
      var s' := Apply(s, cfg, steps[0]);
      StepTracks(start, cfg, statuses, s, steps[0]);
      RunTracks(start, cfg, statuses + now, s', steps[1..], t);
      var later := StatusesOf(s', cfg, steps[1..], t);
      assert statuses + (now + later) == (statuses + now) + later;
    }
  }

  /** Any run of parse steps, with worker steps in between, is the parse loop's turns. */
  lemma ParseRunIsTurns(s: State, cfg: Config, steps: seq<Step>, t: State)
    requires s.pc.Parsing? && s.pc.fd in s.conns
    requires Run(s, cfg, steps, t) && ParseOrWorker(steps)
    ensures Tracks(s, cfg, StatusesOf(s, cfg, steps, t), t)
  {
    hide Apply, Enabled;
    assert s.accepted + Items(s.pc.fd, s.conns[s.pc.fd].generation, []) == s.accepted;
    assert Tracks(s, cfg, [], s);
    RunTracks(s, cfg, [], s, steps, t);
    assert [] + StatusesOf(s, cfg, steps, t) == StatusesOf(s, cfg, steps, t);
  }

  lemma {:induction false} OutsideParsing(s: State, cfg: Config, steps: seq<Step>, t: State)
    requires !s.pc.Parsing? && Run(s, cfg, steps, t) && ParseOrWorker(steps)
    ensures t.conns == s.conns && t.pc == s.pc
    decreases |steps|
  {
    hide Apply;
    if steps != [] {
      WorkerFrame(s, cfg, steps[0]);
      OutsideParsing(Apply(s, cfg, steps[0]), cfg, steps[1..], t);
    }
  }

  /** How a drain turn that still has output to write ends: at once, or in one of the two flush
      steps. */
  predicate Ends(u: State, cfg: Config, end: seq<Step>) {
    if u.pc.Flushing? then |end| == 1 && (end[0].Flush? || end[0].FlushFailed?) && Enabled(u, cfg, end[0])
    else end == []
  }

  function Ended(u: State, cfg: Config, end: seq<Step>): State
    requires Ends(u, cfg, end)
  {
    if end == [] then u else Apply(u, cfg, end[0])
  }

  function ChoiceOf(statuses: seq<PushStatus>, end: seq<Step>): Choice {
    if end == [] then Choice(statuses, Socket(0, false))
    else if end[0].Flush? then Choice(statuses, Socket(end[0].written, false))
    else Choice(statuses, Socket(0, true))
  }

  /** Parsing after a delivery, then the flush. */
  lemma ParseAndFlush(s: State, cfg: Config, steps: seq<Step>, u: State, end: seq<Step>)
    requires s.pc.Parsing? && s.pc.origin.FromDrain? && s.pc.fd in s.conns
    requires Run(s, cfg, steps, u) && ParseOrWorker(steps)
    requires !u.pc.Parsing? && Ends(u, cfg, end)
    ensures Ended(u, cfg, end).pc == Draining
    ensures Ended(u, cfg, end).conns
            == Put(s.conns, s.pc.fd, Resumed(s.conns[s.pc.fd], cfg, ChoiceOf(StatusesOf(s, cfg, steps, u), end)))
  {
    hide Turns, ApplyParse, ApplyDrain, StatusesOf, Run, HistOf, Items;
    ParseRunIsTurns(s, cfg, steps, u);
  }

  lemma DrainStep(s: State, cfg: Config, flushed: nat)
    requires s.pc.Draining? && s.completions.items != []
    ensures var s1 := ApplyDrain(s, cfg, flushed);
            var done := s.completions.items[0];
            if Current(s, done.fd, done.tag.generation)
            then var d := Deliver(s.conns[done.fd], done.tag.sequence, done.response, cfg.maxOutput);
                 if Fitted(d) then s1.pc == Parsing(done.fd, FromDrain) && s1.conns == s.conns[done.fd := d.conn]
                 else s1.pc == Draining && s1.conns == s.conns - {done.fd}
            else s1.pc == Draining && s1.conns == s.conns
  {
    hide Deliver, HistOf, Delivered;
  }

  /** One turn of the drain loop: the machine's drain step, any parse and worker steps up to the
      end of parsing, and the flush give exactly the connections that the method computes. */
  lemma DrainTurnIsDrainOne(s: State, cfg: Config, flushed: nat, steps: seq<Step>, u: State, end: seq<Step>)
    requires s.pc.Draining? && s.completions.items != []
    requires Run(ApplyDrain(s, cfg, flushed), cfg, steps, u) && ParseOrWorker(steps)
    requires !u.pc.Parsing? && Ends(u, cfg, end)
    ensures Ended(u, cfg, end).pc == Draining
    ensures Ended(u, cfg, end).conns
            == DrainOne(s.conns, cfg, s.completions.items[0],
                        ChoiceOf(StatusesOf(ApplyDrain(s, cfg, flushed), cfg, steps, u), end))
  {
    hide Deliver, Resumed, ApplyDrain, Apply, StatusesOf, Run;
    var s1 := ApplyDrain(s, cfg, flushed);
    DrainStep(s, cfg, flushed);
    if s1.pc.Parsing? {
      ParseAndFlush(s1, cfg, steps, u, end);
    } else {
      OutsideParsing(s1, cfg, steps, u);
    }
  }

  /** One iteration of the read loop: received bytes, then any parse and worker steps up to the end
      of parsing. The loop reads on exactly if the connection stays open. */
  lemma ReadTurnIsReadOne(s: State, cfg: Config, bytes: string, steps: seq<Step>, u: State)
    requires Enabled(s, cfg, Receive(bytes))
    requires Run(Apply(s, cfg, Receive(bytes)), cfg, steps, u) && ParseOrWorker(steps) && !u.pc.Parsing?
    ensures var statuses := StatusesOf(Apply(s, cfg, Receive(bytes)), cfg, steps, u);
            var after := ReadOne(s.conns[s.pc.fd], cfg, Chunk(bytes, statuses));
            && u.conns == Put(s.conns, s.pc.fd, after)
            && u.pc == if after.Some? then s.pc else Rest
  {
    hide Turns, ApplyParse, ApplyDrain, StatusesOf, Run, HistOf, Items;
    ParseRunIsTurns(Apply(s, cfg, Receive(bytes)), cfg, steps, u);
  }
}
