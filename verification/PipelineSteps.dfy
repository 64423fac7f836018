/** Step by step: each of the pipeline's steps keeps the invariant, hence every run does. */
module PipelineSteps {
  import opened Bytes
  import opened Parser
  import opened Framing
  import opened Queueing
  import opened Sequencing
  import opened Requests
  import opened Loop
  import opened Pipeline
  import opened PipelineSafety

  // The loop's steps on one connection -------------------------------------------------

  lemma HistSizes(h: Hist)
    requires HistOk(h)
    ensures |h.events| == |h.fates|
  {
  }

  lemma WriteInv(s: State, cfg: Config, n: nat)
    requires Inv(s, cfg) && Enabled(s, cfg, Flush(n))
    ensures Inv(Apply(s, cfg, Flush(n)), cfg)
  {
    hide HistOk, Consumes, Parse, Text, Tokens, Unique, RecordsOk, QueuesOk, WakeOk;
    var fd := s.pc.fd;
    assert OpenOk(s, cfg, fd);
    var c := s.conns[fd];
    SentHead(s.hist[c.generation], c.output, n);
    HistSizes(s.hist[c.generation]);
    UpdateInv(s, Apply(s, cfg, Flush(n)), cfg, fd);
  }

  lemma CloseInv(s: State, cfg: Config, fd: int, flushed: nat, pc: Pc)
    requires Inv(s, cfg) && fd in s.conns
    requires Moves(s, fd, pc) && (pc.Rest? || pc.Draining?)
    ensures Inv(Closed(s, fd, flushed).(pc := pc), cfg)
  {
    hide HistOk, Consumes, Parse, Text, Tokens, Unique, RecordsOk, QueuesOk, WakeOk, NoneStuck;
    assert OpenOk(s, cfg, fd);
    var c := s.conns[fd];
    SentHead(s.hist[c.generation], c.output, flushed);
    HistSizes(s.hist[c.generation]);
    RemoveInv(s, Closed(s, fd, flushed).(pc := pc), cfg, fd);
  }

  lemma WriteFailInv(s: State, cfg: Config, n: nat, flushed: nat)
    requires Inv(s, cfg) && Enabled(s, cfg, FlushFailed(n, flushed))
    ensures Inv(Apply(s, cfg, FlushFailed(n, flushed)), cfg)
  {
    hide Inv;
    WriteInv(s, cfg, n);
    var s1 := Apply(s, cfg, Flush(n));
    CloseInv(s1, cfg, s.pc.fd, flushed, s1.pc);
  }

  lemma ReceiveInv(s: State, cfg: Config, bytes: string)
    requires Inv(s, cfg) && Enabled(s, cfg, Receive(bytes))
    ensures Inv(Apply(s, cfg, Receive(bytes)), cfg)
  {
    hide Consumes, Frames, Parse, Text, ReplyBytes, FateFits, Tokens, Unique, RecordsOk, QueuesOk, WakeOk, NoneStuck,
         Settled;
    var fd := s.pc.fd;
    assert OpenOk(s, cfg, fd);
    var c := s.conns[fd];
    var h := s.hist[c.generation];
    ConsumesFrames(h.consumed, h.events, c.input + bytes);
    assert h.received + bytes == h.consumed + (c.input + bytes);
    UpdateInv(s, Apply(s, cfg, Receive(bytes)), cfg, fd);
  }

  /** The connection and its history once a command is numbered and queued. */
  lemma EnqueueParts(s: State, cfg: Config)
    requires Inv(s, cfg) && s.pc.Parsing? && s.pc.fd in s.conns
    requires TurnOf(s.conns[s.pc.fd], cfg, QueueStatus(s.work)).Enqueue?
    ensures QueueStatus(s.work) == PushOk
    ensures var c := s.conns[s.pc.fd]; var t := TurnOf(c, cfg, QueueStatus(s.work));
            && c.generation in s.hist && s.hist[c.generation].fd == s.pc.fd
            && t.conn.generation == c.generation && t.sequence == c.seqr.nextRequest == |s.hist[c.generation].events|
            && Consumed(Parse(c.input)) <= |c.input|
            && var h' := Numbered(s.hist[c.generation], Request(t.command), Waiting,
                                  c.input[..Consumed(Parse(c.input))]);
            && ConnOk(t.conn, h', cfg) && Extends(s.hist[c.generation], h')
            && var tag := Tag(c.generation, t.sequence);
            && Tokens(s)[tag] == 0
            && Conserved(t.conn, Tokens(s) + multiset{tag})
            && Unique(Tokens(s) + multiset{tag})
  {
    hide Consumes, Frames, Parse, Text, ReplyBytes, FateFits, ConnBase, RecordsOk, NoneStuck, WakeOk, HistsOk, HistOk,
         Tokens;
    var c := s.conns[s.pc.fd];
    assert OpenOk(s, cfg, s.pc.fd);
    var h := s.hist[c.generation];
    var r := Parse(c.input);
    WaitingFits(r);
    BaseFacts(c, h, cfg);
    NumberedConn(c, h, cfg, Waiting);
    AssignConserved(c, c.input[Consumed(r)..], Tokens(s));
    UniqueAdd(Tokens(s), Tag(c.generation, c.seqr.nextRequest));
  }

  lemma EnqueueInv(s: State, cfg: Config, flushed: nat)
    requires Inv(s, cfg) && Enabled(s, cfg, ParseTurn(flushed))
    requires TurnOf(s.conns[s.pc.fd], cfg, QueueStatus(s.work)).Enqueue?
    ensures Inv(Apply(s, cfg, ParseTurn(flushed)), cfg)
  {
    hide TurnOf, Consumes, ConnBase, CompletionOk, Settled, HistOk, Tokens, Unique, Conserved, Extends, Consumed,
         RecordsOk, NoneStuck;
    EnqueueParts(s, cfg);
    var fd := s.pc.fd;
    var c := s.conns[fd];
    var t := TurnOf(c, cfg, QueueStatus(s.work));
    var s' := Apply(s, cfg, ParseTurn(flushed));
    var item := WorkItem(fd, Tag(c.generation, t.sequence), t.command);
    EnqueueTokens(s, s', item);
    BaseFacts(t.conn, s'.hist[c.generation], cfg);
    assert s.popped + (s.work.items + [item]) == (s.popped + s.work.items) + [item];
    EnqueueTouches(s, s', cfg, fd, item);
    Assemble(s, s', cfg, fd);
  }

  lemma EnqueueTouches(s: State, s': State, cfg: Config, fd: int, item: WorkItem)
    requires fd in s.conns && item.tag.generation == s.conns[fd].generation
    requires fd in s'.conns && s'.conns == s.conns[fd := s'.conns[fd]]
    requires s'.nextGeneration == s.nextGeneration
    requires item.tag.generation in s'.hist && s'.hist == s.hist[item.tag.generation := s'.hist[item.tag.generation]]
    requires s'.hist[item.tag.generation].fd == fd && HistOk(s'.hist[item.tag.generation])
    requires Tokens(s') == Tokens(s) + multiset{item.tag}
    ensures Touches(s, s', fd)
  {
    hide HistOk, Tokens;
  }

  lemma WaitingFits(r: ParseResult)
    requires r.Parsed?
    ensures FateFits(EventOf(r), Waiting)
  {
  }

  lemma BaseFacts(c: Conn, h: Hist, cfg: Config)
    requires ConnBase(c, h, cfg)
    ensures HistOk(h) && c.seqr.Valid() && |h.events| == |h.fates| == c.seqr.nextRequest
    ensures c.seqr.nextExpected == h.released && h.sent + c.output == h.appended
  {
  }

  // Immediate replies ------------------------------------------------------------------

  lemma ReplyFits(r: ParseResult, status: PushStatus)
    requires !r.NeedMoreData? && !(r.Parsed? && status == PushOk)
    ensures var fate := if r.Parsed? then Refusal(status) else ProtocolFailure;
            FateFits(EventOf(r), fate) && !fate.Waiting?
  {
  }

  /** A frame that is answered on the spot: the connection and its history right before the
      reply is recorded. */
  lemma ReplyReady(c: Conn, h: Hist, cfg: Config, status: PushStatus)
    requires ConnOk(c, h, cfg) && TurnOf(c, cfg, status).Reply?
    ensures var r := Parse(c.input);
            var taken := Consumed(r);
            var fate := if r.Parsed? then Refusal(status) else ProtocolFailure;
            var c1 := c.(input := c.input[taken..], seqr := Assign(c.seqr));
            && !r.NeedMoreData? && taken <= |c.input| && FateFits(EventOf(r), fate)
            && var h1 := Numbered(h, EventOf(r), fate, Head(c.input, taken));
            && Deliverable(c1, h1, cfg, c.seqr.nextRequest, Text(EventOf(r), fate))
            && Extends(h, h1)
            && (Complete(r) ==> ConnOk(c1, h1, cfg))
  {
    hide Consumes, Frames, Parse, Text, ReplyBytes, FateFits, Settled;
    var r := Parse(c.input);
    var taken := Consumed(r);
    var fate := if r.Parsed? then Refusal(status) else ProtocolFailure;
    ReplyFits(r, status);
    NumberedFrames(c, h, cfg);
    NumberedBase(c, h, cfg, EventOf(r), fate, Head(c.input, taken), c.input[taken..]);
    AssignOutstanding(c.seqr, c.seqr.nextRequest);
    if Complete(r) {
      NumberedConn(c, h, cfg, fate);
    }
  }

  lemma ReplyConserved(c: Conn, h1: Hist, cfg: Config, input: string, text: string, tokens: multiset<Tag>)
    requires c.seqr.Valid() && Conserved(c, tokens)
    requires Deliverable(c.(input := input, seqr := Assign(c.seqr)), h1, cfg, c.seqr.nextRequest, text)
    ensures Conserved(Deliver(c.(input := input, seqr := Assign(c.seqr)), c.seqr.nextRequest, text,
                              cfg.maxOutput).conn, tokens)
  {
    hide Outstanding, Deliverable;
    var c1 := c.(input := input, seqr := Assign(c.seqr));
    forall i: nat
      ensures tokens[Tag(c.generation, i)] == if Outstanding(c1.seqr, i) && i != c.seqr.nextRequest then 1 else 0
    {
      AssignOutstanding(c.seqr, i);
      assert tokens[Tag(c.generation, i)] == if Outstanding(c.seqr, i) then 1 else 0;
    }
    DeliverConserved(c1, h1, cfg, c.seqr.nextRequest, text, tokens);
  }

  /** The input side of a delivery: nothing it touches. */
  lemma DeliverKeepsInput(c: Conn, h: Hist, cfg: Config, sequence: nat, text: string)
    requires Deliverable(c, h, cfg, sequence, text) && ConnOk(c, h, cfg)
    requires Fitted(Deliver(c, sequence, text, cfg.maxOutput))
    ensures var d := Deliver(c, sequence, text, cfg.maxOutput);
            ConnOk(d.conn, Delivered(h, d), cfg)
  {
    hide Consumes, Text, Deliverable, ConnBase;
    DeliverConn(c, h, cfg, sequence, text);
  }

  lemma ExtendsDelivered(h: Hist, h1: Hist, d: Delivery, sent: string)
    requires Extends(h, h1) && d.appended <= |d.ready|
    ensures Extends(h, Delivered(h1, d)) && Extends(h, Delivered(h1, d).(sent := sent))
  {
  }

  lemma ReplyInv(s: State, cfg: Config, flushed: nat)
    requires Inv(s, cfg) && Enabled(s, cfg, ParseTurn(flushed))
    requires TurnOf(s.conns[s.pc.fd], cfg, QueueStatus(s.work)).Reply?
    ensures Inv(Apply(s, cfg, ParseTurn(flushed)), cfg)
  {
    hide Inv, TurnOf, Closed, Delivered, Numbered;
    if KeepsGoing(TurnOf(s.conns[s.pc.fd], cfg, QueueStatus(s.work))) {
      ReplyStaysInv(s, cfg, flushed);
    } else {
      ReplyClosesInv(s, cfg, flushed);
    }
  }

  /** The connection and its history just before an immediate reply is recorded. */
  lemma ReplyParts(s: State, cfg: Config) returns (c1: Conn, h1: Hist, text: string)
    requires Inv(s, cfg) && s.pc.Parsing? && s.pc.fd in s.conns
    requires TurnOf(s.conns[s.pc.fd], cfg, QueueStatus(s.work)).Reply?
    ensures var c := s.conns[s.pc.fd]; var t := TurnOf(c, cfg, QueueStatus(s.work));
            && c.generation in s.hist && s.hist[c.generation].fd == s.pc.fd
            && h1 == Numbered(s.hist[c.generation], t.event, t.fate, Head(c.input, t.taken))
            && c1.generation == c.generation
            && t.delivery == Deliver(c1, c.seqr.nextRequest, text, cfg.maxOutput)
            && Deliverable(c1, h1, cfg, c.seqr.nextRequest, text)
            && Extends(s.hist[c.generation], h1)
            && (!t.event.Fatal? ==> ConnOk(c1, h1, cfg))
            && Conserved(t.delivery.conn, Tokens(s))
  {
    hide Consumes, Frames, Parse, Text, ReplyBytes, FateFits, Deliver, Extends, Deliverable, ConnBase, Tokens, Unique,
         RecordsOk, QueuesOk, WakeOk, NoneStuck, HistsOk;
    var c := s.conns[s.pc.fd];
    assert OpenOk(s, cfg, s.pc.fd);
    var h := s.hist[c.generation];
    var status := QueueStatus(s.work);
    var t := TurnOf(c, cfg, status);
    var r := Parse(c.input);
    ReplyReady(c, h, cfg, status);
    BaseFacts(c, h, cfg);
    c1 := c.(input := c.input[Consumed(r)..], seqr := Assign(c.seqr));
    h1 := Numbered(h, t.event, t.fate, Head(c.input, t.taken));
    text := Text(t.event, t.fate);
    ReplyConserved(c, h1, cfg, c.input[Consumed(r)..], text, Tokens(s));
  }

  lemma ReplyStaysInv(s: State, cfg: Config, flushed: nat)
    requires Inv(s, cfg) && Enabled(s, cfg, ParseTurn(flushed))
    requires TurnOf(s.conns[s.pc.fd], cfg, QueueStatus(s.work)).Reply?
    requires KeepsGoing(TurnOf(s.conns[s.pc.fd], cfg, QueueStatus(s.work)))
    ensures Inv(Apply(s, cfg, ParseTurn(flushed)), cfg)
  {
    hide Inv, TurnOf, Closed, Deliver, Extends, Deliverable, ConnOk, Tokens, Conserved, Numbered, Settled;
    var c1, h1, text := ReplyParts(s, cfg);
    var c := s.conns[s.pc.fd];
    var d := TurnOf(c, cfg, QueueStatus(s.work)).delivery;
    DeliverKeepsInput(c1, h1, cfg, c.seqr.nextRequest, text);
    NumberedFd(s.hist[c.generation], h1);
    ExtendsDelivered(s.hist[c.generation], h1, d, "");
    UpdateInv(s, Apply(s, cfg, ParseTurn(flushed)), cfg, s.pc.fd);
  }

  lemma NumberedFd(h: Hist, h1: Hist)
    requires Extends(h, h1)
    ensures h1.fd == h.fd
  {
  }

  lemma ReplyClosesInv(s: State, cfg: Config, flushed: nat)
    requires Inv(s, cfg) && Enabled(s, cfg, ParseTurn(flushed))
    requires TurnOf(s.conns[s.pc.fd], cfg, QueueStatus(s.work)).Reply?
    requires !KeepsGoing(TurnOf(s.conns[s.pc.fd], cfg, QueueStatus(s.work)))
    ensures Inv(Apply(s, cfg, ParseTurn(flushed)), cfg)
  {
    hide Inv, TurnOf, Deliver, Extends, Deliverable, ConnOk, Tokens, Conserved, Numbered, Settled, HistOk;
    var c1, h1, text := ReplyParts(s, cfg);
    var c := s.conns[s.pc.fd];
    var d := TurnOf(c, cfg, QueueStatus(s.work)).delivery;
    DeliverHist(c1, h1, cfg, c.seqr.nextRequest, text);
    NumberedFd(s.hist[c.generation], h1);
    SentHead(Delivered(h1, d), d.conn.output, flushed);
    ExtendsDelivered(s.hist[c.generation], h1, d, h1.sent + Head(d.conn.output, flushed));
    var s' := Apply(s, cfg, ParseTurn(flushed));
    assert s'.conns == s.conns - {s.pc.fd};
    RemoveInv(s, s', cfg, s.pc.fd);
  }

  lemma PauseInv(s: State, cfg: Config, flushed: nat)
    requires Inv(s, cfg) && Enabled(s, cfg, ParseTurn(flushed))
    requires TurnOf(s.conns[s.pc.fd], cfg, QueueStatus(s.work)).Pause?
    ensures Inv(Apply(s, cfg, ParseTurn(flushed)), cfg)
  {
    hide HistOk, ConnOk, Parse, Text, ItemOk, CompletionOk, Deliver;
    OnlyPc(s, Apply(s, cfg, ParseTurn(flushed)), cfg);
  }

  /** Steps that move only the loop's position or the signal. */
  lemma OnlyPc(s: State, s': State, cfg: Config)
    requires Inv(s, cfg)
    requires s' == s.(pc := s'.pc, signalled := s'.signalled, stopping := s'.stopping, work := s'.work)
    requires s'.work == s.work.(closed := s'.work.closed)
    requires PcOk(s') && WakeOk(s') && NoneStuck(s', cfg)
    ensures Inv(s', cfg)
  {
    hide HistOk, ConnOk, ItemOk, CompletionOk, Conserved, Unique, NoneStuck, WakeOk;
    assert Tokens(s') == Tokens(s);
    forall fd | fd in s'.conns
      ensures OpenOk(s', cfg, fd)
    {
      assert OpenOk(s, cfg, fd);
    }
  }

  // Draining ---------------------------------------------------------------------------

  lemma StaleInv(s: State, cfg: Config, flushed: nat)
    requires Inv(s, cfg) && Enabled(s, cfg, Drain(flushed)) && s.completions.items != []
    requires !Current(s, s.completions.items[0].fd, s.completions.items[0].tag.generation)
    ensures Inv(Apply(s, cfg, Drain(flushed)), cfg)
  {
    hide HistOk, ConnOk, ItemOk, CompletionOk, Settled, Tokens, Unique;
    var done := s.completions.items[0];
    var s' := Apply(s, cfg, Drain(flushed));
    DrainTokens(s, s');
    UniqueLess(Tokens(s), Tokens(s'));
    forall fd | fd in s'.conns
      ensures OpenOk(s', cfg, fd)
    {
      assert OpenOk(s, cfg, fd);
      var c := s.conns[fd];
      StaleElsewhere(s, fd, done);
      forall i: nat
        ensures Tokens(s')[Tag(c.generation, i)] == if Outstanding(c.seqr, i) then 1 else 0
      {
        assert Tokens(s)[Tag(c.generation, i)] == if Outstanding(c.seqr, i) then 1 else 0;
      }
    }
  }

  /** A stale completion does not carry the generation of any open connection. */
  lemma StaleElsewhere(s: State, fd: int, done: Completion)
    requires fd in s.conns && s.conns[fd].generation in s.hist && s.hist[s.conns[fd].generation].fd == fd
    requires CompletionOk(s.hist, done) && !Current(s, done.fd, done.tag.generation)
    ensures done.tag.generation != s.conns[fd].generation
  {
  }

  lemma DrainReady(s: State, cfg: Config)
    requires Inv(s, cfg) && s.completions.items != []
    requires Current(s, s.completions.items[0].fd, s.completions.items[0].tag.generation)
    ensures var done := s.completions.items[0];
            && done.tag.generation in s.hist
            && Deliverable(s.conns[done.fd], s.hist[done.tag.generation], cfg, done.tag.sequence, done.response)
  {
    hide HistOk, Consumes, ItemOk, Settled, Sum;
    var done := s.completions.items[0];
    assert OpenOk(s, cfg, done.fd);
    assert CompletionOk(s.hist, done);
    SumMember(s.completions.items, CompletionToken, 0);
    assert Tokens(s)[done.tag] >= 1;
    assert Tokens(s)[Tag(done.tag.generation, done.tag.sequence)]
      == if Outstanding(s.conns[done.fd].seqr, done.tag.sequence) then 1 else 0;
  }

  lemma DrainConserved(c: Conn, h: Hist, cfg: Config, sequence: nat, text: string, tokens: multiset<Tag>,
                       tokens': multiset<Tag>)
    requires Conserved(c, tokens) && Deliverable(c, h, cfg, sequence, text)
    requires tokens == tokens' + multiset{Tag(c.generation, sequence)}
    ensures Conserved(Deliver(c, sequence, text, cfg.maxOutput).conn, tokens')
  {
    hide Deliver, ConnBase;
    forall i: nat
      ensures tokens'[Tag(c.generation, i)] == if Outstanding(c.seqr, i) && i != sequence then 1 else 0
    {
      assert tokens[Tag(c.generation, i)] == if Outstanding(c.seqr, i) then 1 else 0;
    }
    DeliverConserved(c, h, cfg, sequence, text, tokens');
  }

  lemma DrainParts(s: State, cfg: Config)
    requires Inv(s, cfg) && s.completions.items != []
    requires Current(s, s.completions.items[0].fd, s.completions.items[0].tag.generation)
    ensures var done := s.completions.items[0];
            var c := s.conns[done.fd];
            var left := Sum(s.work.items, ItemToken) + Sum(s.workers, WorkerToken)
                + Sum(s.completions.items[1..], CompletionToken);
            && c.generation in s.hist && s.hist[c.generation].fd == done.fd
            && ConnOk(c, s.hist[c.generation], cfg)
            && Deliverable(c, s.hist[c.generation], cfg, done.tag.sequence, done.response)
            && Tokens(s) == left + multiset{done.tag}
            && Unique(left)
            && Conserved(Deliver(c, done.tag.sequence, done.response, cfg.maxOutput).conn, left)
  {
    hide ConnOk, HistOk, Deliverable, Deliver, RecordsOk, QueuesOk, WakeOk, NoneStuck, Conserved, Unique;
    var done := s.completions.items[0];
    var s' := s.(completions := Take(s.completions).0);
    assert OpenOk(s, cfg, done.fd);
    DrainReady(s, cfg);
    DrainTokens(s, s');
    UniqueLess(Tokens(s), Tokens(s'));
    DrainConserved(s.conns[done.fd], s.hist[done.tag.generation], cfg, done.tag.sequence, done.response, Tokens(s),
                   Tokens(s'));
  }

  lemma DrainInv(s: State, cfg: Config, flushed: nat)
    requires Inv(s, cfg) && Enabled(s, cfg, Drain(flushed)) && s.completions.items != []
    requires Current(s, s.completions.items[0].fd, s.completions.items[0].tag.generation)
    ensures Inv(Apply(s, cfg, Drain(flushed)), cfg)
  {
    hide Inv, Deliver, Closed, Delivered;
    var done := s.completions.items[0];
    if Fitted(Deliver(s.conns[done.fd], done.tag.sequence, done.response, cfg.maxOutput)) {
      DrainStaysInv(s, cfg, flushed);
    } else {
      DrainClosesInv(s, cfg, flushed);
    }
  }

  lemma DrainStaysInv(s: State, cfg: Config, flushed: nat)
    requires Inv(s, cfg) && Enabled(s, cfg, Drain(flushed)) && s.completions.items != []
    requires Current(s, s.completions.items[0].fd, s.completions.items[0].tag.generation)
    requires Fitted(Deliver(s.conns[s.completions.items[0].fd], s.completions.items[0].tag.sequence,
                            s.completions.items[0].response, cfg.maxOutput))
    ensures Inv(Apply(s, cfg, Drain(flushed)), cfg)
  {
    hide HistOk, Consumes, Text, CompletionOk, ItemOk, Settled, Deliver, Extends, Deliverable, ConnBase, Unique, Sum,
         Conserved, RecordsOk, HistsOk;
    var done := s.completions.items[0];
    var c := s.conns[done.fd];
    var h := s.hist[c.generation];
    var d := Deliver(c, done.tag.sequence, done.response, cfg.maxOutput);
    DrainParts(s, cfg);
    BaseFacts(c, h, cfg);
    DeliverKeepsInput(c, h, cfg, done.tag.sequence, done.response);
    BaseFacts(d.conn, Delivered(h, d), cfg);
    SelfExtends(h);
    ExtendsDelivered(h, h, d, "");
    Assemble(s, Apply(s, cfg, Drain(flushed)), cfg, done.fd);
  }

  lemma DrainClosesInv(s: State, cfg: Config, flushed: nat)
    requires Inv(s, cfg) && Enabled(s, cfg, Drain(flushed)) && s.completions.items != []
    requires Current(s, s.completions.items[0].fd, s.completions.items[0].tag.generation)
    requires !Fitted(Deliver(s.conns[s.completions.items[0].fd], s.completions.items[0].tag.sequence,
                             s.completions.items[0].response, cfg.maxOutput))
    ensures Inv(Apply(s, cfg, Drain(flushed)), cfg)
  {
    hide HistOk, Consumes, Text, CompletionOk, ItemOk, Settled, Deliver, Extends, Deliverable, ConnBase, Unique, Sum,
         Conserved, RecordsOk, HistsOk;
    var done := s.completions.items[0];
    var c := s.conns[done.fd];
    var h := s.hist[c.generation];
    var d := Deliver(c, done.tag.sequence, done.response, cfg.maxOutput);
    DrainParts(s, cfg);
    BaseFacts(c, h, cfg);
    DeliverHist(c, h, cfg, done.tag.sequence, done.response);
    SentHead(Delivered(h, d), d.conn.output, flushed);
    SelfExtends(h);
    ExtendsDelivered(h, h, d, h.sent + Head(d.conn.output, flushed));
    var s' := Apply(s, cfg, Drain(flushed));
    assert s'.conns == s.conns - {done.fd};
    Assemble(s, s', cfg, done.fd);
  }

  lemma SelfExtends(h: Hist)
    requires HistOk(h)
    ensures Extends(h, h)
  {
  }

  // Worker steps -----------------------------------------------------------------------

  /** A step that leaves connections, histories and the set of tokens alone. */
  lemma QueueStepInv(s: State, s': State, cfg: Config)
    requires Inv(s, cfg)
    requires s'.conns == s.conns && s'.hist == s.hist && s'.nextGeneration == s.nextGeneration && s'.pc == s.pc
    requires Tokens(s') == Tokens(s)
    requires RecordsOk(s') && QueuesOk(s') && WakeOk(s')
    ensures Inv(s', cfg)
  {
    hide HistOk, ConnOk, Tokens, RecordsOk, QueuesOk, WakeOk, Settled, Conserved;
    forall fd | fd in s'.conns
      ensures OpenOk(s', cfg, fd)
    {
      assert OpenOk(s, cfg, fd);
    }
  }

  /** Replacing one worker changes the tokens held by workers by the difference of the two. */
  lemma WorkerTokens(workers: seq<Worker>, i: nat, w: Worker)
    requires i < |workers|
    ensures Sum(workers[i := w], WorkerToken) + WorkerToken(workers[i]) == Sum(workers, WorkerToken) + WorkerToken(w)
  {
    SumUpdate(workers, WorkerToken, i, w);
  }

  lemma PopTokens(s: State, s': State, i: nat)
    requires i < |s.workers| && s.workers[i].Idle? && s.work.items != []
    requires s'.workers == s.workers[i := Holding(s.work.items[0])]
    requires s'.work.items == s.work.items[1..] && s'.completions == s.completions
    ensures Tokens(s') == Tokens(s)
  {
    var item := s.work.items[0];
    WorkerTokens(s.workers, i, Holding(item));
    hide Sum;
    assert Sum(s'.workers, WorkerToken) == Sum(s.workers, WorkerToken) + multiset{item.tag};
    assert Sum(s.work.items, ItemToken) == multiset{item.tag} + Sum(s'.work.items, ItemToken) by {
      SumHead(s.work.items);
    }
  }

  lemma SumHead(items: seq<WorkItem>)
    requires items != []
    ensures Sum(items, ItemToken) == multiset{items[0].tag} + Sum(items[1..], ItemToken)
  {
  }

  lemma PushTokens(s: State, s': State, i: nat)
    requires i < |s.workers| && s.workers[i].Ready?
    requires s'.workers == s.workers[i := Notifying]
    requires s'.completions.items == s.completions.items + [s.workers[i].completion] && s'.work == s.work
    ensures Tokens(s') == Tokens(s)
  {
    var done := s.workers[i].completion;
    WorkerTokens(s.workers, i, Notifying);
    SumSnoc(s.completions.items, CompletionToken, done);
    hide Sum;
    assert Sum(s'.workers, WorkerToken) + multiset{done.tag} == Sum(s.workers, WorkerToken);
  }

  /** A worker that keeps its token. */
  lemma KeepTokens(s: State, s': State, i: nat, w: Worker)
    requires i < |s.workers| && WorkerToken(w) == WorkerToken(s.workers[i])
    requires s'.workers == s.workers[i := w] && s'.work == s.work && s'.completions == s.completions
    ensures Tokens(s') == Tokens(s)
  {
    WorkerTokens(s.workers, i, w);
    hide Sum;
    var a, b, t := Sum(s'.workers, WorkerToken), Sum(s.workers, WorkerToken), WorkerToken(w);
    assert a == (a + t) - t && b == (b + t) - t;
  }

  lemma PopInv(s: State, cfg: Config, i: nat)
    requires Inv(s, cfg) && Enabled(s, cfg, Pop(i))
    ensures Inv(Apply(s, cfg, Pop(i)), cfg)
  {
    hide HistOk, ConnOk, ConnsOk, HistsOk, ItemOk, CompletionOk, NoneStuck, Unique, Tokens;
    var s' := Apply(s, cfg, Pop(i));
    PopTokens(s, s', i);
    assert s'.popped + s'.work.items == s.popped + s.work.items;
    WakeElsewhere(s, s', i);
    QueueStepInv(s, s', cfg);
  }

  /** Replacing a worker that was not about to notify keeps the wake-up promise. */
  lemma WakeElsewhere(s: State, s': State, i: nat)
    requires WakeOk(s) && i < |s.workers| && !s.workers[i].Notifying?
    requires |s'.workers| == |s.workers| && forall j | 0 <= j < |s.workers| && j != i :: s'.workers[j] == s.workers[j]
    requires s'.completions == s.completions && s'.signalled == s.signalled && s'.pc == s.pc
    ensures WakeOk(s')
  {
    if j :| 0 <= j < |s.workers| && s.workers[j].Notifying? {
      assert s'.workers[j].Notifying?;
    }
  }

  lemma PushInv(s: State, cfg: Config, i: nat)
    requires Inv(s, cfg) && Enabled(s, cfg, PushCompletion(i))
    ensures Inv(Apply(s, cfg, PushCompletion(i)), cfg)
  {
    hide HistOk, ConnOk, ConnsOk, HistsOk, ItemOk, CompletionOk, NoneStuck, Unique, Tokens;
    var s' := Apply(s, cfg, PushCompletion(i));
    PushTokens(s, s', i);
    assert WorkerOk(s.hist, s.workers[i]);
    assert s'.workers[i].Notifying?;
    QueueStepInv(s, s', cfg);
  }

  lemma NotifyExitInv(s: State, cfg: Config, step: Step)
    requires Inv(s, cfg) && Enabled(s, cfg, step) && (step.Notify? || step.Exit?)
    ensures Inv(Apply(s, cfg, step), cfg)
  {
    hide HistOk, ConnOk, ConnsOk, HistsOk, ItemOk, CompletionOk, NoneStuck, Unique, Tokens;
    var s' := Apply(s, cfg, step);
    KeepTokens(s, s', step.i, s'.workers[step.i]);
    if step.Exit? {
      WakeElsewhere(s, s', step.i);
    }
    QueueStepInv(s, s', cfg);
  }

  // Dispatch ---------------------------------------------------------------------------

  /** Settling a waiting number in a history. */
  lemma SettleHist(h: Hist, k: nat, response: string)
    requires HistOk(h) && k < |h.events| && h.events[k].Request? && h.fates[k].Waiting?
    ensures HistOk(WithFate(h, k, Replied(response)))
  {
    hide Text, Frames;
    ReplyBytesExtend(h.events, h.fates, h.events, h.fates[k := Replied(response)], h.released);
  }

  lemma SettleConn(c: Conn, h: Hist, cfg: Config, k: nat, response: string)
    requires ConnOk(c, h, cfg) && k < |h.events| && h.events[k].Request? && h.fates[k].Waiting?
    ensures ConnOk(c, WithFate(h, k, Replied(response)), cfg)
  {
    hide Text, Frames, Consumes, ReplyBytes;
    SettleHist(h, k, response);
  }

  lemma SettleItem(hist: map<nat, Hist>, tag: Tag, response: string, item: WorkItem)
    requires tag.generation in hist && ItemOk(hist, item) && item.tag != tag
    ensures ItemOk(hist[tag.generation := WithFate(hist[tag.generation], tag.sequence, Replied(response))], item)
  {
  }

  lemma SettleCompletion(hist: map<nat, Hist>, tag: Tag, response: string, c: Completion)
    requires tag.generation in hist && CompletionOk(hist, c)
    requires tag.sequence < |hist[tag.generation].fates| && hist[tag.generation].fates[tag.sequence].Waiting?
    ensures CompletionOk(hist[tag.generation := WithFate(hist[tag.generation], tag.sequence, Replied(response))], c)
  {
  }

  /** The worker that holds a request is the only place it is in. */
  lemma SoleHolder(s: State, i: nat)
    requires Unique(Tokens(s)) && i < |s.workers| && s.workers[i].Holding?
    ensures forall j | 0 <= j < |s.work.items| :: s.work.items[j].tag != s.workers[i].item.tag
    ensures forall j | 0 <= j < |s.workers| && j != i && s.workers[j].Holding? ::
            s.workers[j].item.tag != s.workers[i].item.tag
  {
    var tag := s.workers[i].item.tag;
    SumMember(s.workers, WorkerToken, i);
    assert Tokens(s)[tag] <= 1;
    forall j | 0 <= j < |s.work.items|
      ensures s.work.items[j].tag != tag
    {
      SumMember(s.work.items, ItemToken, j);
    }
    forall j | 0 <= j < |s.workers| && j != i && s.workers[j].Holding?
      ensures s.workers[j].item.tag != tag
    {
      if j < i {
        SumTwice(s.workers, WorkerToken, j, i);
      } else {
        SumTwice(s.workers, WorkerToken, i, j);
      }
    }
  }

  lemma DispatchRecords(s: State, cfg: Config, i: nat, response: string)
    requires Inv(s, cfg) && Enabled(s, cfg, Dispatch(i, response))
    ensures RecordsOk(Apply(s, cfg, Dispatch(i, response)))
  {
    hide HistOk, ConnsOk, HistsOk, NoneStuck, Tokens, WakeOk, QueuesOk;
    var s' := Apply(s, cfg, Dispatch(i, response));
    var item := s.workers[i].item;
    assert WorkerOk(s.hist, s.workers[i]);
    SoleHolder(s, i);
    hide ItemOk, CompletionOk, WithFate;
    forall j | 0 <= j < |s'.work.items|
      ensures ItemOk(s'.hist, s'.work.items[j])
    {
      SettleItem(s.hist, item.tag, response, s.work.items[j]);
    }
    forall j | 0 <= j < |s'.completions.items|
      ensures CompletionOk(s'.hist, s'.completions.items[j])
    {
      SettleCompletion(s.hist, item.tag, response, s.completions.items[j]);
    }
    forall j | 0 <= j < |s'.workers|
      ensures WorkerOk(s'.hist, s'.workers[j])
    {
      if j == i {
        SettledHere(s.hist, item, response);
      } else {
        assert WorkerOk(s.hist, s.workers[j]);
        match s.workers[j] {
          case Holding(other) => SettleItem(s.hist, item.tag, response, other);
          case Ready(c) => SettleCompletion(s.hist, item.tag, response, c);
          case _ =>
        }
      }
    }
  }

  lemma SettledHere(hist: map<nat, Hist>, item: WorkItem, response: string)
    requires ItemOk(hist, item)
    ensures CompletionOk(hist[item.tag.generation := WithFate(hist[item.tag.generation], item.tag.sequence,
                                                              Replied(response))],
                         Completion(item.fd, item.tag, response))
  {
  }

  lemma DispatchInv(s: State, cfg: Config, i: nat, response: string)
    requires Inv(s, cfg) && Enabled(s, cfg, Dispatch(i, response))
    ensures Inv(Apply(s, cfg, Dispatch(i, response)), cfg)
  {
    hide HistOk, ConnOk, CompletionOk, Settled, Tokens, WithFate, RecordsOk;
    var s' := Apply(s, cfg, Dispatch(i, response));
    DispatchRecords(s, cfg, i, response);
    var item := s.workers[i].item;
    HoldsOk(s, i);
    KeepTokens(s, s', i, s'.workers[i]);
    WakeElsewhere(s, s', i);
    forall g | g in s'.hist
      ensures g < s'.nextGeneration && HistOk(s'.hist[g])
    {
      if g == item.tag.generation {
        SettleHist(s.hist[g], item.tag.sequence, response);
      }
    }
    forall fd | fd in s'.conns
      ensures OpenOk(s', cfg, fd)
    {
      assert OpenOk(s, cfg, fd);
      if s.conns[fd].generation == item.tag.generation {
        SettleConn(s.conns[fd], s.hist[item.tag.generation], cfg, item.tag.sequence, response);
        WithFateFd(s.hist[item.tag.generation], item.tag.sequence, Replied(response));
      }
    }
  }

  lemma HoldsOk(s: State, i: nat)
    requires RecordsOk(s) && i < |s.workers| && s.workers[i].Holding?
    ensures ItemOk(s.hist, s.workers[i].item)
  {
    assert WorkerOk(s.hist, s.workers[i]);
  }

  lemma WithFateFd(h: Hist, k: nat, fate: Fate)
    ensures WithFate(h, k, fate).fd == h.fd
  {
  }

  // Accepting --------------------------------------------------------------------------

  lemma AcceptInv(s: State, cfg: Config, fd: int)
    requires Inv(s, cfg) && Enabled(s, cfg, Accept(fd))
    ensures Inv(Apply(s, cfg, Accept(fd)), cfg)
  {
    hide HistOk, ConnOk, Settled, Sum, ItemOk, CompletionOk, Unique;
    var s' := Apply(s, cfg, Accept(fd));
    var g := s.nextGeneration;
    assert Tokens(s') == Tokens(s);
    FreshOk(g, fd, cfg);
    RecordsOld(s, s', fd);
    forall o | o in s'.conns
      ensures OpenOk(s', cfg, o)
    {
      if o != fd {
        assert OpenOk(s, cfg, o);
      } else {
        FreshConserved(s);
      }
    }
  }

  lemma FreshOk(g: nat, fd: int, cfg: Config)
    ensures HistOk(Hist(fd, "", "", [], [], 0, "", ""))
    ensures ConnOk(NewConn(g), Hist(fd, "", "", [], [], 0, "", ""), cfg)
    ensures Settled(NewConn(g), cfg)
  {
    EmptyWaits();
  }

  lemma RecordsOld(s: State, s': State, fd: int)
    requires RecordsOk(s) && HistsOk(s)
    requires s'.work == s.work && s'.workers == s.workers && s'.completions == s.completions
    requires s.nextGeneration in s'.hist && s'.hist == s.hist[s.nextGeneration := s'.hist[s.nextGeneration]]
    ensures RecordsOk(s')
  {
    hide HistOk;
    assert s.nextGeneration !in s.hist;
    forall i | 0 <= i < |s'.workers|
      ensures WorkerOk(s'.hist, s'.workers[i])
    {
      assert WorkerOk(s.hist, s.workers[i]);
    }
    forall i | 0 <= i < |s'.work.items|
      ensures ItemOk(s'.hist, s'.work.items[i])
    {
      assert ItemOk(s.hist, s.work.items[i]);
    }
    forall i | 0 <= i < |s'.completions.items|
      ensures CompletionOk(s'.hist, s'.completions.items[i])
    {
      assert CompletionOk(s.hist, s.completions.items[i]);
    }
  }

  /** No token names a generation that does not exist. */
  lemma {:induction false} NoToken<T>(items: seq<T>, f: T -> multiset<Tag>, g: nat)
    requires forall i | 0 <= i < |items| :: forall t | t in f(items[i]) :: t.generation != g
    ensures forall t | t in Sum(items, f) :: t.generation != g
  {
    if items != [] {
      assert forall i | 0 <= i < |items[1..]| :: items[1..][i] == items[i + 1];
      NoToken(items[1..], f, g);
      assert forall t | t in f(items[0]) :: t.generation != g;
    }
  }

  lemma FreshConserved(s: State)
    requires RecordsOk(s) && HistsOk(s)
    ensures Conserved(NewConn(s.nextGeneration), Tokens(s))
  {
    hide HistOk, Sum;
    var g := s.nextGeneration;
    assert g !in s.hist;
    forall i | 0 <= i < |s.workers|
      ensures forall t | t in WorkerToken(s.workers[i]) :: t.generation != g
    {
      assert WorkerOk(s.hist, s.workers[i]);
    }
    forall i | 0 <= i < |s.work.items|
      ensures forall t | t in ItemToken(s.work.items[i]) :: t.generation != g
    {
      assert ItemOk(s.hist, s.work.items[i]);
    }
    forall i | 0 <= i < |s.completions.items|
      ensures forall t | t in CompletionToken(s.completions.items[i]) :: t.generation != g
    {
      assert CompletionOk(s.hist, s.completions.items[i]);
    }
    NoToken(s.work.items, ItemToken, g);
    NoToken(s.workers, WorkerToken, g);
    NoToken(s.completions.items, CompletionToken, g);
  }

  // All steps --------------------------------------------------------------------------

  lemma ParseTurnInv(s: State, cfg: Config, flushed: nat)
    requires Inv(s, cfg) && Enabled(s, cfg, ParseTurn(flushed))
    ensures Inv(Apply(s, cfg, ParseTurn(flushed)), cfg)
  {
    hide Inv, TurnOf, ApplyParse;
    match TurnOf(s.conns[s.pc.fd], cfg, QueueStatus(s.work))
    case Pause => PauseInv(s, cfg, flushed);
    case Enqueue(_, _, _) => EnqueueInv(s, cfg, flushed);
    case Reply(_, _, _, _) => ReplyInv(s, cfg, flushed);
  }

  lemma DrainStepInv(s: State, cfg: Config, flushed: nat)
    requires Inv(s, cfg) && Enabled(s, cfg, Drain(flushed))
    ensures Inv(Apply(s, cfg, Drain(flushed)), cfg)
  {
    hide Inv, ApplyDrain;
    if s.completions.items == [] {
      DrainEmptyInv(s, cfg, flushed);
    } else if Current(s, s.completions.items[0].fd, s.completions.items[0].tag.generation) {
      DrainInv(s, cfg, flushed);
    } else {
      StaleInv(s, cfg, flushed);
    }
  }

  lemma DrainEmptyInv(s: State, cfg: Config, flushed: nat)
    requires Inv(s, cfg) && Enabled(s, cfg, Drain(flushed)) && s.completions.items == []
    ensures Inv(Apply(s, cfg, Drain(flushed)), cfg)
  {
    hide HistOk, ConnOk, Tokens, ItemOk, CompletionOk, Settled;
    OnlyPc(s, Apply(s, cfg, Drain(flushed)), cfg);
  }

  lemma PcStepInv(s: State, cfg: Config, step: Step)
    requires Inv(s, cfg) && Enabled(s, cfg, step)
    requires step.StartRead? || step.ReadBlocked? || step.StartWrite? || step.Wake? || step.Stop? || step.CloseWork?
             || step.StopWorkers?
    ensures Inv(Apply(s, cfg, step), cfg)
  {
    hide HistOk, ConnOk, Tokens, ItemOk, CompletionOk, Settled;
    OnlyPc(s, Apply(s, cfg, step), cfg);
  }

  lemma PcFacts(s: State, cfg: Config)
    requires Inv(s, cfg)
    ensures PcOk(s)
  {
  }

  lemma StepInv(s: State, cfg: Config, step: Step)
    requires Inv(s, cfg) && Enabled(s, cfg, step)
    ensures Inv(Apply(s, cfg, step), cfg)
  {
    hide Inv, Closed, Written, ApplyParse, ApplyDrain;
    PcFacts(s, cfg);
    match step
    case Accept(fd) => AcceptInv(s, cfg, fd);
    case Receive(bytes) => ReceiveInv(s, cfg, bytes);
    case ReadFailed(flushed) => CloseInv(s, cfg, s.pc.fd, flushed, Rest);
    case ParseTurn(flushed) => ParseTurnInv(s, cfg, flushed);
    case Flush(n) => WriteInv(s, cfg, n);
    case FlushFailed(n, flushed) => WriteFailInv(s, cfg, n, flushed);
    case HangUp(fd, flushed) => CloseInv(s, cfg, fd, flushed, Rest); SamePc(s, fd, flushed);
    case Drain(flushed) => DrainStepInv(s, cfg, flushed);
    case Pop(i) => PopInv(s, cfg, i);
    case Dispatch(i, response) => DispatchInv(s, cfg, i, response);
    case PushCompletion(i) => PushInv(s, cfg, i);
    case Notify(_) => NotifyExitInv(s, cfg, step);
    case Exit(_) => NotifyExitInv(s, cfg, step);
    case _ => PcStepInv(s, cfg, step);
  }

  lemma SamePc(s: State, fd: int, flushed: nat)
    requires fd in s.conns && s.pc.Rest?
    ensures Closed(s, fd, flushed).(pc := Rest) == Closed(s, fd, flushed)
  {
  }
}
