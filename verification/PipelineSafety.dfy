/** Every step of the pipeline keeps its invariant, and what that means for clients. */
module PipelineSafety {
  import opened Bytes
  import opened Parser
  import opened Framing
  import opened Queueing
  import opened Sequencing
  import opened Requests
  import opened Loop
  import opened Pipeline

  // Histories grow ---------------------------------------------------------------------

  predicate Extends(h: Hist, h': Hist) {
    h'.fd == h.fd && h.events <= h'.events && h.fates <= h'.fates && |h'.events| == |h'.fates|
  }

  lemma ItemKept(hist: map<nat, Hist>, g: nat, h': Hist, item: WorkItem)
    requires g in hist && Extends(hist[g], h') && ItemOk(hist, item)
    ensures ItemOk(hist[g := h'], item)
  {
  }

  lemma CompletionKept(hist: map<nat, Hist>, g: nat, h': Hist, c: Completion)
    requires g in hist && Extends(hist[g], h') && CompletionOk(hist, c)
    ensures CompletionOk(hist[g := h'], c)
  {
  }

  /** Extending one history leaves every queued, held and finished record valid. */
  lemma RecordsKept(s: State, s': State, g: nat)
    requires RecordsOk(s) && g in s.hist && g in s'.hist && s'.hist == s.hist[g := s'.hist[g]]
    requires Extends(s.hist[g], s'.hist[g])
    requires s'.workers == s.workers
    requires forall i | 0 <= i < |s'.work.items| ::
               s'.work.items[i] in s.work.items || ItemOk(s'.hist, s'.work.items[i])
    requires forall i | 0 <= i < |s'.completions.items| :: s'.completions.items[i] in s.completions.items
    ensures RecordsOk(s')
  {
    hide ItemOk, CompletionOk, Extends;
    var h' := s'.hist[g];
    forall i | 0 <= i < |s'.work.items|
      ensures ItemOk(s'.hist, s'.work.items[i])
    {
      if s'.work.items[i] in s.work.items {
        ItemKept(s.hist, g, h', s'.work.items[i]);
      }
    }
    forall i | 0 <= i < |s'.workers|
      ensures WorkerOk(s'.hist, s'.workers[i])
    {
      assert WorkerOk(s.hist, s.workers[i]);
      match s.workers[i] {
        case Holding(item) => ItemKept(s.hist, g, h', item);
        case Ready(c) => CompletionKept(s.hist, g, h', c);
        case _ =>
      }
    }
    forall i | 0 <= i < |s'.completions.items|
      ensures CompletionOk(s'.hist, s'.completions.items[i])
    {
      CompletionKept(s.hist, g, h', s'.completions.items[i]);
    }
  }

  // Framing a step on one connection ---------------------------------------------------

  /** A step that touches only connection `fd` (updating or closing it), its history, and tokens
      of its own generation. */
  ghost predicate Touches(s: State, s': State, fd: int) {
    && fd in s.conns
    && var g := s.conns[fd].generation;
    && s'.nextGeneration == s.nextGeneration
    && g in s'.hist && s'.hist == s.hist[g := s'.hist[g]]
    && s'.hist[g].fd == fd
    && HistOk(s'.hist[g])
    && (forall o | o != fd :: o in s'.conns <==> o in s.conns)
    && (forall o | o != fd && o in s.conns :: s'.conns[o] == s.conns[o])
    && (forall t: Tag | t.generation != g :: Tokens(s')[t] == Tokens(s)[t])
  }

  lemma OthersKept(s: State, s': State, cfg: Config, fd: int)
    requires ConnsOk(s, cfg) && Touches(s, s', fd)
    requires fd in s'.conns ==> OpenOk(s', cfg, fd)
    ensures ConnsOk(s', cfg)
  {
    hide ConnOk, HistOk, Tokens;
    var g := s.conns[fd].generation;
    assert OpenOk(s, cfg, fd);
    forall o | o in s'.conns
      ensures OpenOk(s', cfg, o)
    {
      if o != fd {
        assert OpenOk(s, cfg, o);
        var c := s.conns[o];
        assert c.generation != g;
        forall i: nat
          ensures Tokens(s')[Tag(c.generation, i)] == Tokens(s)[Tag(c.generation, i)]
        {
        }
      }
    }
  }

  lemma HistsKept(s: State, s': State, fd: int)
    requires HistsOk(s) && Touches(s, s', fd) && s.conns[fd].generation in s.hist
    ensures HistsOk(s')
  {
    hide HistOk, Tokens;
  }

  // Delivery ---------------------------------------------------------------------------

  lemma {:induction false} ReplyBytesExtend(events: seq<Event>, fates: seq<Fate>, events': seq<Event>,
                                            fates': seq<Fate>, n: nat)
    requires n <= |events| == |fates| && events <= events' && |events'| == |fates'|
    requires forall i | 0 <= i < |events| :: FateFits(events[i], fates[i])
    requires forall i | 0 <= i < |events'| :: FateFits(events'[i], fates'[i])
    requires forall i | 0 <= i < n :: fates[i] == fates'[i]
    ensures ReplyBytes(events, fates, n) == ReplyBytes(events', fates', n)
  {
    if n > 0 {
      ReplyBytesExtend(events, fates, events', fates', n - 1);
    }
  }

  /** Appending the next responses one by one is appending the next replies. */
  lemma {:induction false} ReplyBytesRun(events: seq<Event>, fates: seq<Fate>, from: nat, ready: seq<string>, n: nat)
    requires |events| == |fates| && from + |ready| <= |events| && n <= |ready|
    requires forall i | 0 <= i < |events| :: FateFits(events[i], fates[i])
    requires forall k | from <= k < from + |ready| :: ready[k - from] == Text(events[k], fates[k])
    ensures ReplyBytes(events, fates, from + n) == ReplyBytes(events, fates, from) + Concat(ready[..n])
  {
    hide Text;
    if n > 0 {
      ReplyBytesRun(events, fates, from, ready, n - 1);
      assert ready[..n] == ready[..n - 1] + [ready[n - 1]];
      ConcatSnoc(ready[..n - 1], ready[n - 1]);
      assert ready[(from + n - 1) - from] == Text(events[from + n - 1], fates[from + n - 1]);
    } else {
      assert ready[..0] == [];
    }
  }

  /** A connection whose number `sequence` has just been settled in its history but is still
      outstanding in its sequencer. */
  predicate Deliverable(c: Conn, h: Hist, cfg: Config, sequence: nat, text: string) {
    && ConnBase(c, h, cfg)
    && Outstanding(c.seqr, sequence)
    && !h.fates[sequence].Waiting?
    && text == Text(h.events[sequence], h.fates[sequence])
  }

  /** Responses settled in the history at consecutive numbers. */
  predicate SettledRun(h: Hist, from: nat, ready: seq<string>)
    requires HistOk(h)
  {
    from + |ready| <= |h.events| &&
    forall k | from <= k < from + |ready| :: !h.fates[k].Waiting? && ready[k - from] == Text(h.events[k], h.fates[k])
  }

  predicate SettledPending(h: Hist, pending: map<nat, string>)
    requires HistOk(h)
  {
    forall k | k in pending :: k < |h.events| && !h.fates[k].Waiting? && pending[k] == Text(h.events[k], h.fates[k])
  }

  /** What recording a settled response releases: settled replies, in order, from the next
      expected one on. */
  lemma DeliverRun(c: Conn, h: Hist, cfg: Config, sequence: nat, text: string)
    requires Deliverable(c, h, cfg, sequence, text)
    ensures var (t, ready) := Record(c.seqr, sequence, text);
            && t.Valid() && t.nextRequest == c.seqr.nextRequest
            && t.nextExpected == c.seqr.nextExpected + |ready|
            && SettledRun(h, c.seqr.nextExpected, ready)
            && SettledPending(h, t.pending)
  {
    hide Text, Consumes, Frames, ReplyBytes, Record;
    RecordRun(c.seqr, sequence, text);
    var (t, ready) := Record(c.seqr, sequence, text);
    var placed := c.seqr.(pending := c.seqr.pending[sequence := text]);
    assert IsRun(placed, t, ready);
    forall k | c.seqr.nextExpected <= k < c.seqr.nextExpected + |ready|
      ensures !h.fates[k].Waiting? && ready[k - c.seqr.nextExpected] == Text(h.events[k], h.fates[k])
    {
      assert k in placed.pending && ready[k - placed.nextExpected] == placed.pending[k];
    }
  }

  /** Appending a run of settled replies keeps the history in order. */
  lemma AppendHist(h: Hist, ready: seq<string>, n: nat)
    requires HistOk(h) && SettledRun(h, h.released, ready) && n <= |ready|
    ensures HistOk(h.(released := h.released + n, appended := h.appended + Concat(ready[..n])))
  {
    hide Text, Frames, FateFits;
    ReplyBytesRun(h.events, h.fates, h.released, ready, n);
  }

  lemma DeliverHist(c: Conn, h: Hist, cfg: Config, sequence: nat, text: string)
    requires Deliverable(c, h, cfg, sequence, text)
    ensures var d := Deliver(c, sequence, text, cfg.maxOutput);
            && HistOk(Delivered(h, d))
            && h.sent + d.conn.output == Delivered(h, d).appended
            && |d.conn.output| <= cfg.maxOutput
  {
    hide Text, Consumes, Frames, ReplyBytes, Record, SettledRun, SettledPending, HistOk;
    DeliverRun(c, h, cfg, sequence, text);
    var ready := Record(c.seqr, sequence, text).1;
    var (output, n) := AppendAll(c.output, ready, cfg.maxOutput);
    AppendHist(h, ready, n);
    assert h.sent + (c.output + Concat(ready[..n])) == (h.sent + c.output) + Concat(ready[..n]);
  }

  lemma DeliverConn(c: Conn, h: Hist, cfg: Config, sequence: nat, text: string)
    requires Deliverable(c, h, cfg, sequence, text)
    requires Fitted(Deliver(c, sequence, text, cfg.maxOutput))
    ensures var d := Deliver(c, sequence, text, cfg.maxOutput);
            ConnBase(d.conn, Delivered(h, d), cfg)
  {
    hide Text, Consumes, Frames, ReplyBytes, AppendAll, Record, HistOk;
    DeliverRun(c, h, cfg, sequence, text);
    DeliverHist(c, h, cfg, sequence, text);
  }

  lemma DeliverConserved(c: Conn, h: Hist, cfg: Config, sequence: nat, text: string, tokens: multiset<Tag>)
    requires Deliverable(c, h, cfg, sequence, text)
    requires forall i: nat :: tokens[Tag(c.generation, i)] == if Outstanding(c.seqr, i) && i != sequence then 1 else 0
    ensures Conserved(Deliver(c, sequence, text, cfg.maxOutput).conn, tokens)
  {
    hide Text, Consumes, Frames, ReplyBytes, AppendAll, Record, HistOk, Outstanding;
    RecordRun(c.seqr, sequence, text);
    var t := Record(c.seqr, sequence, text).0;
    forall i: nat
      ensures tokens[Tag(c.generation, i)] == if Outstanding(t, i) then 1 else 0
    {
    }
  }

  // Numbering a frame ------------------------------------------------------------------

  lemma NumberedFrames(c: Conn, h: Hist, cfg: Config)
    requires ConnOk(c, h, cfg) && !Parse(c.input).NeedMoreData?
    ensures h.events + [EventOf(Parse(c.input))] <= Frames(h.received)
  {
    hide Parse, HistOk, Consumes;
    ConsumesFrames(h.consumed, h.events, c.input);
  }

  lemma NumberedBase(c: Conn, h: Hist, cfg: Config, event: Event, fate: Fate, bytes: string, input: string)
    requires ConnBase(c, h, cfg) && FateFits(event, fate)
    requires h.events + [event] <= Frames(h.received)
    ensures ConnBase(c.(input := input, seqr := Assign(c.seqr)), Numbered(h, event, fate, bytes), cfg)
    ensures Extends(h, Numbered(h, event, fate, bytes))
  {
    hide Text, Frames;
    ReplyBytesExtend(h.events, h.fates, h.events + [event], h.fates + [fate], h.released);
  }

  lemma NumberedConn(c: Conn, h: Hist, cfg: Config, fate: Fate)
    requires ConnOk(c, h, cfg) && Complete(Parse(c.input)) && FateFits(EventOf(Parse(c.input)), fate)
    ensures var r := Parse(c.input); var n := Taken(r);
            ConnOk(c.(input := c.input[n..], seqr := Assign(c.seqr)), Numbered(h, EventOf(r), fate, c.input[..n]), cfg)
  {
    hide Parse, ConnBase, Frames;
    var r := Parse(c.input);
    var n := Taken(r);
    NumberedFrames(c, h, cfg);
    NumberedBase(c, h, cfg, EventOf(r), fate, c.input[..n], c.input[n..]);
    ConsumesSnoc(h.consumed, h.events, c.input);
    assert (h.consumed + c.input[..n]) + c.input[n..] == h.consumed + c.input;
  }

  // Sending ----------------------------------------------------------------------------

  lemma SentHead(h: Hist, output: string, n: nat)
    requires HistOk(h) && h.sent + output == h.appended
    ensures HistOk(h.(sent := h.sent + Head(output, n)))
    ensures (h.sent + Head(output, n)) + Tail(output, n) == h.appended
  {
    hide ReplyBytes, Frames, FateFits;
    assert output == Head(output, n) + Tail(output, n);
  }

  // Token bookkeeping ------------------------------------------------------------------

  lemma AssignConserved(c: Conn, input: string, tokens: multiset<Tag>)
    requires c.seqr.Valid() && Conserved(c, tokens)
    ensures tokens[Tag(c.generation, c.seqr.nextRequest)] == 0
    ensures Conserved(c.(input := input, seqr := Assign(c.seqr)),
                      tokens + multiset{Tag(c.generation, c.seqr.nextRequest)})
  {
    var n := c.seqr.nextRequest;
    assert n !in c.seqr.pending;
    assert tokens[Tag(c.generation, n)] == if Outstanding(c.seqr, n) then 1 else 0;
    forall i: nat
      ensures (tokens + multiset{Tag(c.generation, n)})[Tag(c.generation, i)]
              == if Outstanding(Assign(c.seqr), i) then 1 else 0
    {
      assert tokens[Tag(c.generation, i)] == if Outstanding(c.seqr, i) then 1 else 0;
    }
  }

  lemma AssignOutstanding(s: Sequencer, i: nat)
    requires s.Valid()
    ensures Outstanding(Assign(s), s.nextRequest)
    ensures Outstanding(s, i) <==> Outstanding(Assign(s), i) && i != s.nextRequest
  {
    assert s.nextRequest !in s.pending;
  }

  lemma UniqueAdd(tokens: multiset<Tag>, t: Tag)
    requires Unique(tokens) && tokens[t] == 0
    ensures Unique(tokens + multiset{t})
  {
  }

  lemma UniqueLess(tokens: multiset<Tag>, tokens': multiset<Tag>)
    requires Unique(tokens) && tokens' <= tokens
    ensures Unique(tokens')
  {
  }

  lemma EnqueueTokens(s: State, s': State, item: WorkItem)
    requires s'.work.items == s.work.items + [item]
    requires s'.workers == s.workers && s'.completions == s.completions
    ensures Tokens(s') == Tokens(s) + multiset{item.tag}
  {
    SumSnoc(s.work.items, ItemToken, item);
  }

  lemma DrainTokens(s: State, s': State)
    requires s.completions.items != [] && s'.completions.items == s.completions.items[1..]
    requires s'.workers == s.workers && s'.work == s.work
    ensures Tokens(s) == Tokens(s') + multiset{s.completions.items[0].tag}
  {
  }

  // Assembly ---------------------------------------------------------------------------

  /** What is left to check of a step on one connection. */
  lemma Assemble(s: State, s': State, cfg: Config, fd: int)
    requires Inv(s, cfg) && Touches(s, s', fd)
    requires fd in s'.conns ==> OpenOk(s', cfg, fd)
    requires s.conns[fd].generation in s.hist ==> Extends(s.hist[s.conns[fd].generation],
                                                          s'.hist[s.conns[fd].generation])
    requires s'.workers == s.workers
    requires forall i | 0 <= i < |s'.work.items| ::
               s'.work.items[i] in s.work.items || ItemOk(s'.hist, s'.work.items[i])
    requires forall i | 0 <= i < |s'.completions.items| :: s'.completions.items[i] in s.completions.items
    requires Unique(Tokens(s'))
    requires PcOk(s') && QueuesOk(s') && WakeOk(s')
    requires fd in s'.conns ==> Settled(s'.conns[fd], cfg) || (s'.pc.Parsing? && s'.pc.fd == fd)
    requires forall o | o in s.conns && o != fd :: s.pc.Parsing? && s.pc.fd == o ==> s'.pc == s.pc
    ensures Inv(s', cfg)
  {
    hide ConnOk, HistOk, Tokens, Unique, Settled, WakeOk, QueuesOk, RecordsOk, ItemOk, CompletionOk, Extends;
    assert OpenOk(s, cfg, fd);
    OthersKept(s, s', cfg, fd);
    HistsKept(s, s', fd);
    RecordsKept(s, s', s.conns[fd].generation);
  }

  /** The loop may move from where it is to `pc` after working on `fd`. */
  predicate Moves(s: State, fd: int, pc: Pc) {
    && !s.pc.Stopped? && !pc.Stopped?
    && (s.pc.Parsing? ==> s.pc.fd == fd)
    && ((s.pc.Draining? || ((s.pc.Parsing? || s.pc.Flushing?) && s.pc.origin.FromDrain?)) ==>
          pc.Draining? || ((pc.Parsing? || pc.Flushing?) && pc.origin.FromDrain?))
    && ((pc.Reading? || pc.Parsing? || pc.Flushing?) ==> pc.fd == fd)
  }

  /** A step that replaces one connection and its history and leaves the queues alone. */
  lemma UpdateInv(s: State, s': State, cfg: Config, fd: int)
    requires Inv(s, cfg) && fd in s.conns && fd in s'.conns
    requires s' == s.(conns := s'.conns, hist := s'.hist, pc := s'.pc)
    requires s'.conns == s.conns[fd := s'.conns[fd]]
    requires var g := s.conns[fd].generation;
             && s'.conns[fd].generation == g
             && g in s'.hist && s'.hist == s.hist[g := s'.hist[g]] && s'.hist[g].fd == fd
             && ConnOk(s'.conns[fd], s'.hist[g], cfg)
             && (g in s.hist ==> Extends(s.hist[g], s'.hist[g]))
    requires Conserved(s'.conns[fd], Tokens(s))
    requires Moves(s, fd, s'.pc)
    requires Settled(s'.conns[fd], cfg) || (s'.pc.Parsing? && s'.pc.fd == fd)
    ensures Inv(s', cfg)
  {
    hide Consumes, HistOk, Tokens, Settled, ItemOk, CompletionOk, Extends, Conserved, Unique;
    TokensSame(s, s');
    assert HistOk(s'.hist[s.conns[fd].generation]);
    Assemble(s, s', cfg, fd);
  }

  /** A step that closes one connection and leaves the queues alone. */
  lemma RemoveInv(s: State, s': State, cfg: Config, fd: int)
    requires Inv(s, cfg) && fd in s.conns
    requires s' == s.(conns := s.conns - {fd}, hist := s'.hist, pc := s'.pc)
    requires var g := s.conns[fd].generation;
             && g in s'.hist && s'.hist == s.hist[g := s'.hist[g]] && s'.hist[g].fd == fd
             && HistOk(s'.hist[g])
             && (g in s.hist ==> Extends(s.hist[g], s'.hist[g]))
    requires Moves(s, fd, s'.pc) && (s'.pc.Rest? || s'.pc.Draining?)
    ensures Inv(s', cfg)
  {
    hide Consumes, HistOk, Tokens, Settled, ItemOk, CompletionOk, Extends, Conserved, Unique;
    TokensSame(s, s');
    Assemble(s, s', cfg, fd);
  }

  lemma TokensSame(s: State, s': State)
    requires s'.work.items == s.work.items && s'.workers == s.workers && s'.completions.items == s.completions.items
    ensures Tokens(s') == Tokens(s)
  {
  }
}
