/** What one turn of the loop does in any state a run can reach: when a request is queued, refused or
    answered with an error, with which bytes, and when the connection is closed for it. */
module LoopLaws {
  import opened Bytes
  import opened Parser
  import opened Framing
  import opened Queueing
  import opened Sequencing
  import opened Requests
  import opened Loop
  import opened Pipeline
  import opened PipelineSteps
  import opened PipelineGuarantees
  import Replies

  /** The connection after `ready` was released into its output, or none if it does not fit. */
  function Released(c: Conn, seqr: Sequencer, ready: seq<string>, maxOutput: nat): Option<Conn> {
    if |c.output| + |Concat(ready)| <= maxOutput
    then Some(c.(seqr := seqr, output := c.output + Concat(ready)))
    else None
  }

  /** Delivery closes a connection if and only if what is released does not fit its output. */
  lemma DeliverExactly(c: Conn, sequence: nat, text: string, maxOutput: nat)
    requires |c.output| <= maxOutput
    ensures var (seqr, ready) := Record(c.seqr, sequence, text);
            var d := Deliver(c, sequence, text, maxOutput);
            if Fitted(d) then Released(c, seqr, ready, maxOutput) == Some(d.conn)
            else Released(c, seqr, ready, maxOutput) == None
  {
    hide Record;
    var ready := Record(c.seqr, sequence, text).1;
    AppendExactly(c.output, ready, maxOutput);
    assert ready[..|ready|] == ready;
  }

  /** The bytes with which the loop itself answers a frame. */
  function OwnAnswer(r: ParseResult, closed: bool): string
    requires !r.NeedMoreData?
  {
    if r.Failed? then "-" + r.error.message + "\r\n"
    else if closed then "-ERR server shutting down\r\n"
    else "-ERR server busy, try again\r\n"
  }

  lemma BusyText()
    ensures Replies.EncodeError(BUSY_TEXT) == "-ERR server busy, try again\r\n"
  {
  }

  lemma ClosingText()
    ensures Replies.EncodeError(CLOSING_TEXT) == "-ERR server shutting down\r\n"
  {
  }

  function With(conns: map<int, Conn>, fd: int, c: Option<Conn>): map<int, Conn> {
    if c.Some? then conns[fd := c.value] else conns - {fd}
  }

  /** What a turn makes of the connection when it answers the frame itself: the frame is taken off
      the input unless the framing broke, and the answer released in sequence. */
  function AnsweredConn(c: Conn, r: ParseResult, closed: bool, maxOutput: nat): Option<Conn>
    requires r.Parsed? ==> r.consumed <= |c.input|
    requires r.Failed? && r.error.recoverable ==> r.error.consumed <= |c.input|
    requires !r.NeedMoreData?
  {
    var (seqr, ready) := Record(Assign(c.seqr), c.seqr.nextRequest, OwnAnswer(r, closed));
    if r.Failed? && !r.error.recoverable then None
    else Released(c.(input := c.input[if r.Parsed? then r.consumed else r.error.consumed..]), seqr, ready, maxOutput)
  }

  lemma OwnTurn(c: Conn, cfg: Config, status: PushStatus)
    requires |c.output| <= cfg.maxOutput && c.seqr.InFlight() < cfg.maxInFlight && !Parse(c.input).NeedMoreData?
    requires Parse(c.input).Parsed? ==> status != PushOk
    ensures var t := TurnOf(c, cfg, status);
            && t.Reply?
            && (if Fitted(t.delivery) && !t.event.Fatal?
                then AnsweredConn(c, Parse(c.input), status == PushClosed, cfg.maxOutput) == Some(t.delivery.conn)
                else AnsweredConn(c, Parse(c.input), status == PushClosed, cfg.maxOutput) == None)
  {
    hide Parse, Record, Deliver, BUSY_TEXT, CLOSING_TEXT;
    BusyText();
    ClosingText();
    var r := Parse(c.input);
    var taken := Consumed(r);
    var c' := c.(input := c.input[taken..], seqr := Assign(c.seqr));
    DeliverExactly(c', c.seqr.nextRequest, OwnAnswer(r, status == PushClosed), cfg.maxOutput);
  }

  /** A turn of the parse loop, in any reachable state. */
  lemma ParseTurnExactly(workCapacity: nat, completionCapacity: nat, workers: nat, cfg: Config, steps: seq<Step>,
                         s: State, flushed: nat)
    requires Run(Init(workCapacity, completionCapacity, workers), cfg, steps, s) && s.pc.Parsing? && s.pc.fd in s.conns
    ensures var fd := s.pc.fd; var c := s.conns[fd]; var r := Parse(c.input);
            var s' := Apply(s, cfg, ParseTurn(flushed));
            if c.seqr.InFlight() >= cfg.maxInFlight || r.NeedMoreData?
            then s'.conns == s.conns && s'.work == s.work && s'.hist == s.hist && s'.pc != s.pc
            else if r.Parsed? && !s.work.closed && |s.work.items| < s.work.capacity
            then && s'.conns == s.conns[fd := c.(input := c.input[r.consumed..], seqr := Assign(c.seqr))]
                 && s'.work.items == s.work.items + [WorkItem(fd, Tag(c.generation, c.seqr.nextRequest), r.command)]
            else s'.conns == With(s.conns, fd, AnsweredConn(c, r, s.work.closed, cfg.maxOutput)) && s'.work == s.work
  {
    hide Run, Inv, Parse, AnsweredConn, HistOf, Numbered, Delivered;
    InitInv(workCapacity, completionCapacity, workers, cfg);
    RunInv(Init(workCapacity, completionCapacity, workers), cfg, steps, s);
    OutputFits(s, cfg, s.pc.fd);
    var c := s.conns[s.pc.fd];
    var r := Parse(c.input);
    if c.seqr.InFlight() < cfg.maxInFlight && !r.NeedMoreData?
       && !(r.Parsed? && !s.work.closed && |s.work.items| < s.work.capacity) {
      OwnTurn(c, cfg, QueueStatus(s.work));
    }
  }

  lemma OutputFits(s: State, cfg: Config, fd: int)
    requires Inv(s, cfg) && fd in s.conns
    ensures |s.conns[fd].output| <= cfg.maxOutput && |s.conns[fd].input| <= cfg.maxInput && s.conns[fd].seqr.Valid()
  {
    hide HistsOk, RecordsOk, Unique, WakeOk, NoneStuck, Tokens, Conserved, HistOk, Text, Consumes;
    assert OpenOk(s, cfg, fd);
  }

  /** A turn of the drain loop, in any reachable state: a stale completion changes no connection, and
      any other closes its connection if and only if what it releases does not fit. */
  lemma DrainTurnExactly(workCapacity: nat, completionCapacity: nat, workers: nat, cfg: Config, steps: seq<Step>,
                         s: State, flushed: nat)
    requires Run(Init(workCapacity, completionCapacity, workers), cfg, steps, s)
    requires s.pc.Draining? && s.completions.items != []
    ensures var done := s.completions.items[0];
            var s' := Apply(s, cfg, Drain(flushed));
            && s'.completions.items == s.completions.items[1..]
            && if done.fd in s.conns && s.conns[done.fd].generation == done.tag.generation
               then var c := s.conns[done.fd];
                    var (seqr, ready) := Record(c.seqr, done.tag.sequence, done.response);
                    s'.conns == With(s.conns, done.fd, Released(c, seqr, ready, cfg.maxOutput))
               else s'.conns == s.conns
  {
    hide Run, Inv, Record, HistOf, Delivered, Deliver, Released;
    InitInv(workCapacity, completionCapacity, workers, cfg);
    RunInv(Init(workCapacity, completionCapacity, workers), cfg, steps, s);
    var done := s.completions.items[0];
    if done.fd in s.conns && s.conns[done.fd].generation == done.tag.generation {
      OutputFits(s, cfg, done.fd);
      DeliverExactly(s.conns[done.fd], done.tag.sequence, done.response, cfg.maxOutput);
    }
  }

  // Closing ----------------------------------------------------------------------------

  /** Whatever closes a connection, what the socket takes of its output on the way out is the next
      part of what was appended. */
  lemma CloseFlushes(workCapacity: nat, completionCapacity: nat, workers: nat, cfg: Config, steps: seq<Step>,
                     s: State, fd: int, n: nat)
    requires Run(Init(workCapacity, completionCapacity, workers), cfg, steps, s) && fd in s.conns
    requires n <= |s.conns[fd].output|
    ensures var c := s.conns[fd]; var t := Closed(s, fd, n);
            && fd !in t.conns && c.generation in s.hist && c.generation in t.hist
            && t.hist[c.generation].appended == s.hist[c.generation].appended
            && t.hist[c.generation].sent == s.hist[c.generation].sent + c.output[..n]
            && t.hist[c.generation].sent + c.output[n..] == t.hist[c.generation].appended
  {
    hide Run, Inv;
    InitInv(workCapacity, completionCapacity, workers, cfg);
    RunInv(Init(workCapacity, completionCapacity, workers), cfg, steps, s);
    OutputIsPending(s, cfg, fd);
    var c := s.conns[fd];
    assert s.hist[c.generation].sent + c.output[..n] + c.output[n..] == s.hist[c.generation].sent + c.output;
  }

  lemma OutputIsPending(s: State, cfg: Config, fd: int)
    requires Inv(s, cfg) && fd in s.conns
    ensures s.conns[fd].generation in s.hist
    ensures s.hist[s.conns[fd].generation].sent + s.conns[fd].output == s.hist[s.conns[fd].generation].appended
  {
    hide HistsOk, RecordsOk, Unique, WakeOk, NoneStuck, Tokens, Conserved, HistOk, Text, Consumes;
    assert OpenOk(s, cfg, fd);
  }

  // Caps -------------------------------------------------------------------------------

  /** No connection has more requests in flight than allowed. */
  predicate Capped(s: State, cfg: Config) {
    forall fd | fd in s.conns :: s.conns[fd].seqr.InFlight() <= cfg.maxInFlight
  }

  lemma RecordLowers(s: Sequencer, sequence: nat, text: string)
    ensures Record(s, sequence, text).0.InFlight() <= s.InFlight()
  {
    ReleaseRun(s.(pending := Emplace(s.pending, sequence, text)));
  }

  lemma TurnCapped(c: Conn, cfg: Config, status: PushStatus)
    ensures var t := TurnOf(c, cfg, status);
            && (t.Enqueue? ==> t.conn.seqr.InFlight() <= cfg.maxInFlight)
            && (t.Reply? ==> t.delivery.conn.seqr.InFlight() <= cfg.maxInFlight)
  {
    hide Parse, Record, AppendAll;
    var t := TurnOf(c, cfg, status);
    if t.Reply? {
      RecordLowers(Assign(c.seqr), c.seqr.nextRequest, Text(t.event, t.fate));
    }
  }

  lemma DrainCapped(s: State, cfg: Config, flushed: nat)
    requires Capped(s, cfg) && Enabled(s, cfg, Drain(flushed))
    ensures Capped(ApplyDrain(s, cfg, flushed), cfg)
  {
    hide Record, AppendAll, HistOf, Delivered, Head;
    if s.completions.items != [] {
      var done := s.completions.items[0];
      if Current(s, done.fd, done.tag.generation) {
        RecordLowers(s.conns[done.fd].seqr, done.tag.sequence, done.response);
      }
    }
  }

  lemma StepCapped(s: State, cfg: Config, step: Step)
    requires Capped(s, cfg) && Enabled(s, cfg, step)
    ensures Capped(Apply(s, cfg, step), cfg)
  {
    hide TurnOf, ApplyDrain, HistOf, Numbered, Delivered, Head, Tail;
    if step.ParseTurn? {
      TurnCapped(s.conns[s.pc.fd], cfg, QueueStatus(s.work));
    } else if step.Drain? {
      DrainCapped(s, cfg, step.flushed);
    }
  }

  lemma {:induction false} RunCapped(s: State, cfg: Config, steps: seq<Step>, t: State)
    requires Capped(s, cfg) && Run(s, cfg, steps, t)
    ensures Capped(t, cfg)
    decreases |steps|
  {
    hide Capped, Enabled, Apply;
    if steps != [] {
      StepCapped(s, cfg, steps[0]);
      RunCapped(Apply(s, cfg, steps[0]), cfg, steps[1..], t);
    }
  }

  /** In every run each open connection keeps within its input, output and in-flight limits. */
  lemma EveryRunWithinLimits(workCapacity: nat, completionCapacity: nat, workers: nat, cfg: Config, steps: seq<Step>,
                             t: State, fd: int)
    requires Run(Init(workCapacity, completionCapacity, workers), cfg, steps, t) && fd in t.conns
    ensures |t.conns[fd].input| <= cfg.maxInput && |t.conns[fd].output| <= cfg.maxOutput
    ensures 0 <= t.conns[fd].seqr.InFlight() <= cfg.maxInFlight
  {
    hide Run, Inv;
    InitInv(workCapacity, completionCapacity, workers, cfg);
    RunInv(Init(workCapacity, completionCapacity, workers), cfg, steps, t);
    OutputFits(t, cfg, fd);
    RunCapped(Init(workCapacity, completionCapacity, workers), cfg, steps, t);
  }
}
