/** The pipeline never gets stuck: as long as some request is outstanding, some internal step is
    possible, and internal steps cannot go on forever. */
module Progress {
  import opened Bytes
  import opened Parser
  import opened Framing
  import opened Queueing
  import opened Sequencing
  import opened Requests
  import opened Loop
  import opened Pipeline
  import opened PipelineSafety
  import opened PipelineSteps
  import opened PipelineGuarantees

  /** Steps the server takes on its own: no new bytes, connections, failures or shutdown. */
  predicate Internal(step: Step) {
    step.ParseTurn? || step.ReadBlocked? || step.Flush? || step.Wake? || step.Drain?
    || step.Pop? || step.Dispatch? || step.PushCompletion? || step.Notify?
  }

  // A measure of pending work ----------------------------------------------------------

  /** Bytes waiting in input buffers. */
  ghost function Buffered(conns: map<int, Conn>): nat
    decreases |conns|
  {
    if forall fd: int :: fd !in conns then 0
    else
      var fd: int :| fd in conns;
      Shrinks(conns, fd);
      |conns[fd].input| + Buffered(conns - {fd})
  }

  lemma Shrinks(conns: map<int, Conn>, fd: int)
    requires fd in conns
    ensures |conns - {fd}| < |conns|
  {
    assert (conns - {fd}).Keys == conns.Keys - {fd};
  }

  lemma {:induction false} BufferedRemove(conns: map<int, Conn>, fd: int)
    requires fd in conns
    ensures Buffered(conns) == |conns[fd].input| + Buffered(conns - {fd})
    decreases |conns|
  {
    var o: int :| o in conns && Buffered(conns) == |conns[o].input| + Buffered(conns - {o});
    if o != fd {
      Shrinks(conns, o);
      BufferedRemove(conns - {o}, fd);
      Shrinks(conns, fd);
      BufferedRemove(conns - {fd}, o);
      assert conns - {o} - {fd} == conns - {fd} - {o};
    }
  }

  lemma BufferedUpdate(conns: map<int, Conn>, fd: int, c: Conn)
    requires fd in conns
    ensures Buffered(conns[fd := c]) + |conns[fd].input| == Buffered(conns) + |c.input|
  {
    BufferedRemove(conns, fd);
    BufferedRemove(conns[fd := c], fd);
    assert conns[fd := c] - {fd} == conns - {fd};
  }

  function PcWeight(pc: Pc): nat {
    match pc
    case Rest => 0
    case Reading(_) => 2
    case Parsing(_, _) => 3
    case Flushing(_, origin) => if origin.FromRead? then 1 else 2
    case Draining => 1
    case Stopped => 0
  }

  function WorkerWeight(w: Worker): nat {
    match w
    case Holding(_) => 8
    case Ready(_) => 7
    case Notifying => 3
    case _ => 0
  }

  ghost function Measure(s: State): nat {
    3 * Buffered(s.conns) + 9 * |s.work.items| + Total(s.workers, WorkerWeight) + 3 * |s.completions.items|
    + PcWeight(s.pc) + (if s.signalled then 2 else 0)
  }

  lemma TurnConsumes(c: Conn, cfg: Config, status: PushStatus)
    ensures var t := TurnOf(c, cfg, status);
            && (t.Enqueue? ==> |t.conn.input| + 4 <= |c.input|)
            && (t.Reply? ==> |t.delivery.conn.input| <= |c.input|)
            && (t.Reply? && !t.event.Fatal? ==> |t.delivery.conn.input| + 4 <= |c.input|)
  {
    hide Parse, Text, Record, AppendAll;
  }

  lemma ParseDecreases(s: State, cfg: Config, flushed: nat)
    requires Enabled(s, cfg, ParseTurn(flushed))
    ensures Measure(Apply(s, cfg, ParseTurn(flushed))) < Measure(s)
  {
    hide TurnOf, Buffered, Total;
    var fd := s.pc.fd;
    var c := s.conns[fd];
    var t := TurnOf(c, cfg, QueueStatus(s.work));
    TurnConsumes(c, cfg, QueueStatus(s.work));
    var s' := Apply(s, cfg, ParseTurn(flushed));
    if t.Enqueue? {
      BufferedUpdate(s.conns, fd, t.conn);
    } else if t.Reply? {
      BufferedUpdate(s.conns, fd, t.delivery.conn);
      BufferedRemove(s.conns[fd := t.delivery.conn], fd);
      assert s.conns[fd := t.delivery.conn] - {fd} == s.conns - {fd};
    }
  }

  lemma DrainDecreases(s: State, cfg: Config, flushed: nat)
    requires Enabled(s, cfg, Drain(flushed))
    ensures Measure(Apply(s, cfg, Drain(flushed))) < Measure(s)
  {
    hide Deliver, Buffered, Total;
    if s.completions.items != [] {
      var done := s.completions.items[0];
      if Current(s, done.fd, done.tag.generation) {
        var d := Deliver(s.conns[done.fd], done.tag.sequence, done.response, cfg.maxOutput);
        BufferedUpdate(s.conns, done.fd, d.conn);
        BufferedRemove(s.conns[done.fd := d.conn], done.fd);
      }
    }
  }

  lemma FlushDecreases(s: State, cfg: Config, n: nat)
    requires Enabled(s, cfg, Flush(n))
    ensures Measure(Apply(s, cfg, Flush(n))) < Measure(s)
  {
    hide Buffered, Total;
    var c := s.conns[s.pc.fd];
    BufferedUpdate(s.conns, s.pc.fd, c.(output := Tail(c.output, n)));
  }

  /** Every internal step lowers the measure: the server's own work is finite. */
  lemma InternalDecreases(s: State, cfg: Config, step: Step)
    requires Enabled(s, cfg, step) && Internal(step)
    ensures Measure(Apply(s, cfg, step)) < Measure(s)
  {
    hide Buffered, Total, ApplyParse, ApplyDrain, Written;
    match step
    case ParseTurn(flushed) => ParseDecreases(s, cfg, flushed);
    case Drain(flushed) => DrainDecreases(s, cfg, flushed);
    case Flush(n) => FlushDecreases(s, cfg, n);
    case Pop(i) => TotalUpdate(s.workers, WorkerWeight, i, Holding(s.work.items[0]));
    case Dispatch(i, response) =>
      TotalUpdate(s.workers, WorkerWeight, i, Ready(Completion(s.workers[i].item.fd, s.workers[i].item.tag, response)));
    case PushCompletion(i) => TotalUpdate(s.workers, WorkerWeight, i, Notifying);
    case Notify(i) => TotalUpdate(s.workers, WorkerWeight, i, Idle);
    case _ =>
  }

  /** A run of internal steps is no longer than the measure it starts with. */
  lemma {:induction false} InternalRunsAreFinite(s: State, cfg: Config, steps: seq<Step>, t: State)
    requires Run(s, cfg, steps, t) && forall k | 0 <= k < |steps| :: Internal(steps[k])
    ensures |steps| + Measure(t) <= Measure(s)
    decreases |steps|
  {
    hide Enabled, Apply, Measure, Internal;
    if steps != [] {
      assert Internal(steps[0]);
      assert forall k | 0 <= k < |steps[1..]| :: steps[1..][k] == steps[k + 1];
      InternalDecreases(s, cfg, steps[0]);
      InternalRunsAreFinite(Apply(s, cfg, steps[0]), cfg, steps[1..], t);
    }
  }

  // Quiescence -------------------------------------------------------------------------

  /** The server is up: the loop runs, some worker is alive, the queues accept. */
  predicate Running(s: State, cfg: Config) {
    && !s.pc.Stopped?
    && (exists i | 0 <= i < |s.workers| :: !s.workers[i].Exited?)
    && s.completions.capacity > 0
    && cfg.maxInFlight > 0
  }

  /** No internal step is possible. */
  predicate Quiet(s: State, cfg: Config) {
    && (forall i | 0 <= i < |s.workers| ::
          !s.workers[i].Holding? && !s.workers[i].Notifying? && !Enabled(s, cfg, Pop(i))
              && !Enabled(s, cfg, PushCompletion(i)))
    && !Enabled(s, cfg, ReadBlocked) && !Enabled(s, cfg, Wake) && !Enabled(s, cfg, ParseTurn(0))
    && !Enabled(s, cfg, Flush(0)) && !Enabled(s, cfg, Drain(0))
  }

  /** That is: being quiet is exactly having no enabled internal step. */
  lemma QuietIsStuck(s: State, cfg: Config)
    ensures Quiet(s, cfg) <==> forall step | Internal(step) :: !Enabled(s, cfg, step)
  {
    if Quiet(s, cfg) {
      forall step | Internal(step)
        ensures !Enabled(s, cfg, step)
      {
        match step
        case Pop(i) => if i < |s.workers| { assert !Enabled(s, cfg, Pop(i)); }
        case PushCompletion(i) => if i < |s.workers| { assert !Enabled(s, cfg, PushCompletion(i)); }
        case _ =>
      }
    } else {
      if i :| 0 <= i < |s.workers| && (s.workers[i].Holding? || s.workers[i].Notifying? || Enabled(s, cfg, Pop(i))
                                       || Enabled(s, cfg, PushCompletion(i))) {
        assert Enabled(s, cfg, Dispatch(i, "")) || Enabled(s, cfg, Notify(i)) || Enabled(s, cfg, Pop(i))
               || Enabled(s, cfg, PushCompletion(i));
      }
    }
  }

  lemma {:induction false} NothingHeld(workers: seq<Worker>)
    requires forall i | 0 <= i < |workers| :: WorkerToken(workers[i]) == multiset{}
    ensures Sum(workers, WorkerToken) == multiset{}
  {
    if workers != [] {
      assert forall i | 0 <= i < |workers[1..]| :: workers[1..][i] == workers[i + 1];
      NothingHeld(workers[1..]);
      assert WorkerToken(workers[0]) == multiset{};
    }
  }

  lemma QuietIsEmpty(s: State, cfg: Config)
    requires PcOk(s) && WakeOk(s) && QueuesOk(s) && Running(s, cfg) && Quiet(s, cfg)
    ensures s.pc.Rest? && s.work.items == [] && s.completions.items == []
    ensures Tokens(s) == multiset{}
  {
    assert s.pc.Rest?;
    assert s.completions.items == [];
    forall i | 0 <= i < |s.workers|
      ensures s.workers[i].Idle? || s.workers[i].Exited?
    {
      assert !Enabled(s, cfg, PushCompletion(i));
    }
    var i :| 0 <= i < |s.workers| && !s.workers[i].Exited?;
    assert !Enabled(s, cfg, Pop(i));
    NothingHeld(s.workers);
  }

  /** No request is left behind: when the server has nothing more to do on its own, every open
      connection has all its requests answered and released, and its buffered input is only the
      beginning of a frame. */
  lemma QuietMeansAnswered(s: State, cfg: Config, fd: int)
    requires Inv(s, cfg) && Running(s, cfg) && Quiet(s, cfg) && fd in s.conns
    ensures s.conns[fd].seqr.InFlight() == 0 && s.conns[fd].seqr.pending == map[]
    ensures Parse(s.conns[fd].input).NeedMoreData?
    ensures var h := HistOf(s, s.conns[fd].generation);
            h.released == |h.events| && HistOk(h) && h.appended == ReplyBytes(h.events, h.fates, |h.events|)
  {
    hide Parse, Text, Consumes, ReplyBytes, Frames, Tokens, RecordsOk, Unique;
    QuietIsEmpty(s, cfg);
    assert OpenOk(s, cfg, fd);
    var q := s.conns[fd].seqr;
    assert Tokens(s)[Tag(s.conns[fd].generation, q.nextExpected)] == if Outstanding(q, q.nextExpected) then 1 else 0;
    assert q.nextExpected == q.nextRequest;
    assert forall k :: k !in q.pending;
    assert Settled(s.conns[fd], cfg);
  }

  /** While a request is outstanding on an open connection, some internal step is possible. */
  lemma OutstandingMeansEnabled(s: State, cfg: Config, fd: int)
    requires Inv(s, cfg) && Running(s, cfg) && fd in s.conns && s.conns[fd].seqr.InFlight() > 0
    ensures exists step :: Internal(step) && Enabled(s, cfg, step)
  {
    hide Inv, Running, Enabled;
    QuietIsStuck(s, cfg);
    if Quiet(s, cfg) {
      QuietMeansAnswered(s, cfg, fd);
      assert false;
    }
  }

  /** In every run, whenever the server is still running: a request outstanding on an open
      connection leaves some internal step enabled, and if none is enabled, every open connection
      has the replies to all its frames in its output. */
  lemma NoRequestIsLeftBehind(workCapacity: nat, completionCapacity: nat, workers: nat, cfg: Config, steps: seq<Step>,
                              t: State, fd: int)
    requires Run(Init(workCapacity, completionCapacity, workers), cfg, steps, t) && Running(t, cfg) && fd in t.conns
    ensures t.conns[fd].seqr.InFlight() > 0 ==> exists step :: Internal(step) && Enabled(t, cfg, step)
    ensures (forall step | Internal(step) :: !Enabled(t, cfg, step)) ==>
              var h := HistOf(t, t.conns[fd].generation);
              && Parse(t.conns[fd].input).NeedMoreData?
              && h.released == |h.events| && HistOk(h) && h.appended == ReplyBytes(h.events, h.fates, |h.events|)
  {
    hide Inv, Enabled, Running, HistOk, ReplyBytes, Internal, Parse, HistOf;
    InitInv(workCapacity, completionCapacity, workers, cfg);
    RunInv(Init(workCapacity, completionCapacity, workers), cfg, steps, t);
    QuietIsStuck(t, cfg);
    if t.conns[fd].seqr.InFlight() > 0 {
      OutstandingMeansEnabled(t, cfg, fd);
    }
    if forall step | Internal(step) :: !Enabled(t, cfg, step) {
      QuietMeansAnswered(t, cfg, fd);
    }
  }
}
