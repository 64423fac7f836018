/** The request pipeline as a step machine: clients send bytes, the loop parses and enqueues,
    workers pop, dispatch and push completions, the loop drains them in order, bytes are
    written, connections close, descriptors are reused. Each step touches each shared queue at
    most once, so every interleaving of the real threads is a sequence of steps. */
module Pipeline {
  import opened Bytes
  import opened Parser
  import opened Framing
  import opened Queueing
  import opened Sequencing
  import opened Requests
  import opened Loop

  datatype WorkItem = WorkItem(fd: int, tag: Tag, command: Command)

  datatype Completion = Completion(fd: int, tag: Tag, response: string)

  /** A worker waits for work, executes an item, waits to push its completion, is about to run
      the wake-up callback, or has left its loop. */
  datatype Worker =
    | Idle
    | Holding(item: WorkItem)
    | Ready(completion: Completion)
    | Notifying
    | Exited

  datatype Origin = FromRead | FromDrain

  /** Where the event loop is. */
  datatype Pc =
    | Rest
    | Reading(fd: int)
    | Parsing(fd: int, origin: Origin)
    | Flushing(fd: int, origin: Origin)
    | Draining
    | Stopped

  /** Everything that ever happened on one connection, kept after it closes. */
  datatype Hist = Hist(
    fd: int,
    received: string,
    consumed: string,
    events: seq<Event>,
    fates: seq<Fate>,
    released: nat,
    appended: string,
    sent: string)

  datatype State = State(
    conns: map<int, Conn>,
    nextGeneration: nat,
    work: Queue<WorkItem>,
    completions: Queue<Completion>,
    workers: seq<Worker>,
    stopping: bool,
    signalled: bool,
    pc: Pc,
    accepted: seq<WorkItem>,
    popped: seq<WorkItem>,
    dispatched: seq<Completion>,
    hist: map<nat, Hist>)

  datatype Step =
    | Accept(fd: int)
    | StartRead(fd: int)
    | Receive(bytes: string)
    | ReadBlocked
    | ReadFailed(flushed: nat)
    | ParseTurn(flushed: nat)
    | StartWrite(fd: int)
    | Flush(written: nat)
    | FlushFailed(written: nat, flushed: nat)
    | HangUp(fd: int, flushed: nat)
    | Wake
    | Drain(flushed: nat)
    | Stop
    | CloseWork
    | StopWorkers
    | Pop(i: nat)
    | Dispatch(i: nat, response: string)
    | PushCompletion(i: nat)
    | Notify(i: nat)
    | Exit(i: nat)

  predicate Enabled(s: State, cfg: Config, step: Step) {
    match step
    case Accept(_) => s.pc.Rest?
    case StartRead(fd) => s.pc.Rest? && fd in s.conns
    case Receive(bytes) =>
      s.pc.Reading? && s.pc.fd in s.conns && bytes != "" && |s.conns[s.pc.fd].input| + |bytes| <= cfg.maxInput
    case ReadBlocked => s.pc.Reading?
    case ReadFailed(_) => s.pc.Reading? && s.pc.fd in s.conns
    case ParseTurn(_) => s.pc.Parsing? && s.pc.fd in s.conns
    case StartWrite(fd) => s.pc.Rest? && fd in s.conns
    case Flush(_) => s.pc.Flushing? && s.pc.fd in s.conns
    case FlushFailed(_, _) => s.pc.Flushing? && s.pc.fd in s.conns && s.conns[s.pc.fd].output != ""
    case HangUp(fd, _) => s.pc.Rest? && fd in s.conns
    case Wake => s.pc.Rest? && s.signalled
    case Drain(_) => s.pc.Draining?
    case Stop => s.pc.Rest?
    case CloseWork => true
    case StopWorkers => true
    case Pop(i) => i < |s.workers| && s.workers[i].Idle? && s.work.items != []
    case Dispatch(i, _) => i < |s.workers| && s.workers[i].Holding?
    case PushCompletion(i) => i < |s.workers| && s.workers[i].Ready? && |s.completions.items| < s.completions.capacity
    case Notify(i) => i < |s.workers| && s.workers[i].Notifying?
    case Exit(i) => i < |s.workers| && s.workers[i].Idle? && s.work.items == [] && (s.work.closed || s.stopping)
  }

  // Loop steps -------------------------------------------------------------------------

  function Head(s: string, n: nat): string {
    if n <= |s| then s[..n] else s
  }

  function Tail(s: string, n: nat): string {
    if n <= |s| then s[n..] else ""
  }

  function HistOf(s: State, g: nat): Hist {
    if g in s.hist then s.hist[g] else Hist(0, "", "", [], [], 0, "", "")
  }

  function Back(origin: Origin): Pc {
    if origin.FromRead? then Rest else Draining
  }

  /** Close a connection after a best-effort flush of its output. */
  function Closed(s: State, fd: int, flushed: nat): State
    requires fd in s.conns
  {
    var c := s.conns[fd];
    var h := HistOf(s, c.generation);
    s.(conns := s.conns - {fd},
       hist := s.hist[c.generation := h.(sent := h.sent + Head(c.output, flushed))])
  }

  /** Bytes leave the output buffer for the socket. */
  function Written(s: State, fd: int, n: nat): State
    requires fd in s.conns
  {
    var c := s.conns[fd];
    var h := HistOf(s, c.generation);
    s.(conns := s.conns[fd := c.(output := Tail(c.output, n))],
       hist := s.hist[c.generation := h.(sent := h.sent + Head(c.output, n))])
  }

  /** The history after one more frame was numbered. */
  function Numbered(h: Hist, event: Event, fate: Fate, bytes: string): Hist {
    h.(events := h.events + [event], fates := h.fates + [fate], consumed := h.consumed + bytes)
  }

  /** The history after a delivery appended responses to the output. */
  function Delivered(h: Hist, d: Delivery): Hist
    requires d.appended <= |d.ready|
  {
    h.(released := h.released + d.appended, appended := h.appended + Concat(d.ready[..d.appended]))
  }

  /** What the work queue says to a push now. */
  function QueueStatus(q: Queue<WorkItem>): PushStatus {
    if q.closed then PushClosed else if |q.items| >= q.capacity then PushFull else PushOk
  }

  function ApplyParse(s: State, cfg: Config, flushed: nat): State
    requires s.pc.Parsing? && s.pc.fd in s.conns
  {
    var fd := s.pc.fd;
    var c := s.conns[fd];
    var h := HistOf(s, c.generation);
    match TurnOf(c, cfg, QueueStatus(s.work))
    case Pause => s.(pc := if s.pc.origin.FromRead? then Reading(fd) else Flushing(fd, FromDrain))
    case Enqueue(c', n, command) =>
      var item := WorkItem(fd, Tag(c.generation, n), command);
      s.(conns := s.conns[fd := c'],
         work := Offer(s.work, item).0,
         accepted := s.accepted + [item],
         hist := s.hist[c.generation := Numbered(h, Request(command), Waiting, c.input[..Consumed(Parse(c.input))])])
    case Reply(d, event, fate, taken) =>
      var s' := s.(conns := s.conns[fd := d.conn],
                   hist := s.hist[c.generation := Delivered(Numbered(h, event, fate, Head(c.input, taken)), d)]);
      if Fitted(d) && !event.Fatal? then s' else Closed(s', fd, flushed).(pc := Back(s.pc.origin))
  }

  predicate Current(s: State, fd: int, generation: nat) {
    fd in s.conns && s.conns[fd].generation == generation
  }

  function ApplyDrain(s: State, cfg: Config, flushed: nat): State {
    if s.completions.items == [] then s.(pc := Rest)
    else
      var done := s.completions.items[0];
      var s1 := s.(completions := Take(s.completions).0);
      if !Current(s, done.fd, done.tag.generation) then s1
      else
        var c := s.conns[done.fd];
        var d := Deliver(c, done.tag.sequence, done.response, cfg.maxOutput);
        var s2 := s1.(conns := s.conns[done.fd := d.conn],
                      hist := s.hist[c.generation := Delivered(HistOf(s, c.generation), d)]);
        if Fitted(d) then s2.(pc := Parsing(done.fd, FromDrain)) else Closed(s2, done.fd, flushed)
  }

  function WithFate(h: Hist, sequence: nat, fate: Fate): Hist {
    if sequence < |h.fates| then h.(fates := h.fates[sequence := fate]) else h
  }

  function Apply(s: State, cfg: Config, step: Step): State
    requires Enabled(s, cfg, step)
  {
    match step
    case Accept(fd) =>
      s.(conns := s.conns[fd := NewConn(s.nextGeneration)],
         nextGeneration := s.nextGeneration + 1,
         hist := s.hist[s.nextGeneration := Hist(fd, "", "", [], [], 0, "", "")])
    case StartRead(fd) => s.(pc := Reading(fd))
    case Receive(bytes) =>
      var c := s.conns[s.pc.fd];
      var h := HistOf(s, c.generation);
      s.(conns := s.conns[s.pc.fd := c.(input := c.input + bytes)],
         hist := s.hist[c.generation := h.(received := h.received + bytes)],
         pc := Parsing(s.pc.fd, FromRead))
    case ReadBlocked => s.(pc := Flushing(s.pc.fd, FromRead))
    case ReadFailed(flushed) => Closed(s, s.pc.fd, flushed).(pc := Rest)
    case ParseTurn(flushed) => ApplyParse(s, cfg, flushed)
    case StartWrite(fd) => s.(pc := Flushing(fd, FromRead))
    case Flush(n) => Written(s, s.pc.fd, n).(pc := Back(s.pc.origin))
    case FlushFailed(n, flushed) => Closed(Written(s, s.pc.fd, n), s.pc.fd, flushed).(pc := Back(s.pc.origin))
    case HangUp(fd, flushed) => Closed(s, fd, flushed)
    case Wake => s.(signalled := false, pc := Draining)
    case Drain(flushed) => ApplyDrain(s, cfg, flushed)
    case Stop => s.(pc := Stopped)
    case CloseWork => s.(work := s.work.(closed := true))
    case StopWorkers => s.(stopping := true)
    case Pop(i) =>
      var item := s.work.items[0];
      s.(work := Take(s.work).0, popped := s.popped + [item], workers := s.workers[i := Holding(item)])
    case Dispatch(i, response) =>
      var item := s.workers[i].item;
      var done := Completion(item.fd, item.tag, response);
      s.(workers := s.workers[i := Ready(done)],
         dispatched := s.dispatched + [done],
         hist := s.hist[item.tag.generation :=
                        WithFate(HistOf(s, item.tag.generation), item.tag.sequence, Replied(response))])
    case PushCompletion(i) =>
      s.(workers := s.workers[i := Notifying], completions := Offer(s.completions, s.workers[i].completion).0)
    case Notify(i) => s.(workers := s.workers[i := Idle], signalled := true)
    case Exit(i) => s.(workers := s.workers[i := Exited])
  }

  // Tokens: which request is where -----------------------------------------------------

  function ItemToken(item: WorkItem): multiset<Tag> { multiset{item.tag} }

  function CompletionToken(c: Completion): multiset<Tag> { multiset{c.tag} }

  function WorkerToken(w: Worker): multiset<Tag> {
    match w
    case Holding(item) => multiset{item.tag}
    case Ready(c) => multiset{c.tag}
    case _ => multiset{}
  }

  function Sum<T>(s: seq<T>, f: T -> multiset<Tag>): multiset<Tag> {
    if s == [] then multiset{} else f(s[0]) + Sum(s[1..], f)
  }

  lemma {:induction false} SumSnoc<T>(s: seq<T>, f: T -> multiset<Tag>, x: T)
    ensures Sum(s + [x], f) == Sum(s, f) + f(x)
  {
    if s == [] {
      assert (s + [x])[1..] == [];
    } else {
      assert (s + [x])[1..] == s[1..] + [x];
      SumSnoc(s[1..], f, x);
    }
  }

  lemma {:induction false} SumUpdate<T>(s: seq<T>, f: T -> multiset<Tag>, i: nat, x: T)
    requires i < |s|
    ensures Sum(s[i := x], f) + f(s[i]) == Sum(s, f) + f(x)
  {
    if i == 0 {
      assert s[i := x][1..] == s[1..];
    } else {
      assert s[i := x][1..] == s[1..][i - 1 := x];
      SumUpdate(s[1..], f, i - 1, x);
      assert s[1..][i - 1] == s[i];
      var before, after := Sum(s[1..], f), Sum(s[1..][i - 1 := x], f);
      assert (f(s[0]) + after) + f(s[i]) == f(s[0]) + (after + f(s[i]));
      assert (f(s[0]) + before) + f(x) == f(s[0]) + (before + f(x));
    }
  }

  lemma {:induction false} SumNone<T>(s: seq<T>, f: T -> multiset<Tag>)
    requires forall i | 0 <= i < |s| :: f(s[i]) == multiset{}
    ensures Sum(s, f) == multiset{}
  {
    if s != [] {
      assert forall i | 0 <= i < |s[1..]| :: s[1..][i] == s[i + 1];
      SumNone(s[1..], f);
    }
  }

  lemma {:induction false} SumMember<T>(s: seq<T>, f: T -> multiset<Tag>, i: nat)
    requires i < |s|
    ensures f(s[i]) <= Sum(s, f)
  {
    if i > 0 {
      SumMember(s[1..], f, i - 1);
    }
  }

  /** Two holders of one token count twice. */
  lemma {:induction false} SumTwice<T>(s: seq<T>, f: T -> multiset<Tag>, i: nat, j: nat)
    requires i < j < |s|
    ensures f(s[i]) + f(s[j]) <= Sum(s, f)
  {
    if i == 0 {
      SumMember(s[1..], f, j - 1);
    } else {
      SumTwice(s[1..], f, i - 1, j - 1);
    }
  }

  /** Every request that is queued, held by a worker, or finished but not yet drained. */
  /** A number added up over the workers. */
  function Total(workers: seq<Worker>, f: Worker -> nat): nat {
    if workers == [] then 0 else f(workers[0]) + Total(workers[1..], f)
  }

  lemma {:induction false} TotalUpdate(workers: seq<Worker>, f: Worker -> nat, i: nat, w: Worker)
    requires i < |workers|
    ensures Total(workers[i := w], f) + f(workers[i]) == Total(workers, f) + f(w)
  {
    if i == 0 {
      assert workers[i := w][1..] == workers[1..];
    } else {
      assert workers[i := w][1..] == workers[1..][i - 1 := w];
      TotalUpdate(workers[1..], f, i - 1, w);
    }
  }

  lemma {:induction false} TotalSome(workers: seq<Worker>, f: Worker -> nat, i: nat)
    requires i < |workers|
    ensures Total(workers, f) >= f(workers[i])
  {
    if i > 0 {
      TotalSome(workers[1..], f, i - 1);
    }
  }

  lemma {:induction false} TotalNone(workers: seq<Worker>, f: Worker -> nat)
    requires forall i | 0 <= i < |workers| :: f(workers[i]) == 0
    ensures Total(workers, f) == 0
  {
    if workers != [] {
      assert forall i | 0 <= i < |workers[1..]| :: workers[1..][i] == workers[i + 1];
      TotalNone(workers[1..], f);
    }
  }

  function Tokens(s: State): multiset<Tag> {
    Sum(s.work.items, ItemToken) + Sum(s.workers, WorkerToken) + Sum(s.completions.items, CompletionToken)
  }

  // Invariant --------------------------------------------------------------------------

  /** The first n replies of a connection, in request order. */
  function ReplyBytes(events: seq<Event>, fates: seq<Fate>, n: nat): string
    requires n <= |events| == |fates|
    requires forall i | 0 <= i < |events| :: FateFits(events[i], fates[i])
  {
    if n == 0 then "" else ReplyBytes(events, fates, n - 1) + Text(events[n - 1], fates[n - 1])
  }

  /** What was ever appended to a connection's output is the in-order concatenation of exactly
      one settled reply for each of its first frames; what was sent is a prefix of that; and
      the frames are those of the bytes it received. */
  predicate HistOk(h: Hist) {
    && |h.fates| == |h.events|
    && (forall i | 0 <= i < |h.events| :: FateFits(h.events[i], h.fates[i]))
    && h.released <= |h.events|
    && (forall i | 0 <= i < h.released :: !h.fates[i].Waiting?)
    && h.appended == ReplyBytes(h.events, h.fates, h.released)
    && h.sent <= h.appended
    && h.events <= Frames(h.received)
  }

  /** A connection's sequencer and output buffer against its history. */
  predicate ConnBase(c: Conn, h: Hist, cfg: Config) {
    && HistOk(h)
    && c.seqr.Valid()
    && c.seqr.nextRequest == |h.events|
    && c.seqr.nextExpected == h.released
    && h.sent + c.output == h.appended
    && |c.output| <= cfg.maxOutput
    && (forall k | k in c.seqr.pending :: !h.fates[k].Waiting? && c.seqr.pending[k] == Text(h.events[k], h.fates[k]))
  }

  /** An open connection against its history: in addition, the bytes received are the frames
      numbered so far followed by the input buffer. */
  predicate ConnOk(c: Conn, h: Hist, cfg: Config) {
    && ConnBase(c, h, cfg)
    && h.received == h.consumed + c.input
    && Consumes(h.consumed, h.events)
    && |c.input| <= cfg.maxInput
  }

  /** Conservation: each number from the next expected up to the next to assign is in exactly
      one of the queues, a worker's hands and the pending map; no other number is anywhere. */
  ghost predicate Conserved(c: Conn, tokens: multiset<Tag>) {
    forall i: nat :: tokens[Tag(c.generation, i)] == if Outstanding(c.seqr, i) then 1 else 0
  }

  predicate ItemOk(hist: map<nat, Hist>, item: WorkItem) {
    && item.tag.generation in hist
    && var h := hist[item.tag.generation];
    && h.fd == item.fd
    && item.tag.sequence < |h.events| == |h.fates|
    && h.events[item.tag.sequence] == Request(item.command)
    && h.fates[item.tag.sequence].Waiting?
  }

  predicate CompletionOk(hist: map<nat, Hist>, c: Completion) {
    && c.tag.generation in hist
    && var h := hist[c.tag.generation];
    && h.fd == c.fd
    && c.tag.sequence < |h.events| == |h.fates|
    && h.events[c.tag.sequence].Request?
    && h.fates[c.tag.sequence] == Replied(c.response)
  }

  predicate WorkerOk(hist: map<nat, Hist>, w: Worker) {
    (w.Holding? ==> ItemOk(hist, w.item)) && (w.Ready? ==> CompletionOk(hist, w.completion))
  }

  predicate RecordsOk(s: State) {
    && (forall i | 0 <= i < |s.work.items| :: ItemOk(s.hist, s.work.items[i]))
    && (forall i | 0 <= i < |s.workers| :: WorkerOk(s.hist, s.workers[i]))
    && (forall i | 0 <= i < |s.completions.items| :: CompletionOk(s.hist, s.completions.items[i]))
  }

  ghost predicate OpenOk(s: State, cfg: Config, fd: int)
    requires fd in s.conns
  {
    var c := s.conns[fd];
    && c.generation in s.hist
    && s.hist[c.generation].fd == fd
    && ConnOk(c, s.hist[c.generation], cfg)
    && Conserved(c, Tokens(s))
  }

  ghost predicate ConnsOk(s: State, cfg: Config) {
    forall fd | fd in s.conns :: OpenOk(s, cfg, fd)
  }

  predicate HistsOk(s: State) {
    forall g | g in s.hist :: g < s.nextGeneration && HistOk(s.hist[g])
  }

  ghost predicate Unique(tokens: multiset<Tag>) {
    forall t: Tag :: tokens[t] <= 1
  }

  predicate PcOk(s: State) {
    (s.pc.Reading? || s.pc.Parsing? || s.pc.Flushing?) ==> s.pc.fd in s.conns
  }

  predicate QueuesOk(s: State) {
    && |s.work.items| <= s.work.capacity
    && |s.completions.items| <= s.completions.capacity
    && !s.completions.closed
    && s.popped + s.work.items == s.accepted
  }

  /** No lost wakeup: while completions wait, the eventfd is signalled, or the loop is in its
      drain, or a pusher is between its push and its callback. */
  ghost predicate WakeOk(s: State) {
    s.completions.items != [] ==>
      || s.signalled
      || s.pc.Draining?
      || ((s.pc.Parsing? || s.pc.Flushing?) && s.pc.origin.FromDrain?)
      || s.pc.Stopped?
      || exists i | 0 <= i < |s.workers| :: s.workers[i].Notifying?
  }

  /** No stuck frame: away from the connection being parsed, buffered input is either waiting
      for bytes or held back by the in-flight cap. */
  predicate Settled(c: Conn, cfg: Config) {
    c.seqr.InFlight() >= cfg.maxInFlight || Parse(c.input).NeedMoreData?
  }

  predicate NoneStuck(s: State, cfg: Config) {
    forall fd | fd in s.conns :: Settled(s.conns[fd], cfg) || (s.pc.Parsing? && s.pc.fd == fd)
  }

  ghost predicate Inv(s: State, cfg: Config) {
    && ConnsOk(s, cfg)
    && HistsOk(s)
    && RecordsOk(s)
    && Unique(Tokens(s))
    && PcOk(s)
    && QueuesOk(s)
    && WakeOk(s)
    && NoneStuck(s, cfg)
  }
}
