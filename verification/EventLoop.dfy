/** The event loop's objects: capped buffers, connections, the registry, and the loop methods
    that update them in place, proved against the functions the pipeline is built from. */
module EventLoop {
  import opened Bytes
  import opened Parser
  import opened Framing
  import opened Queueing
  import opened Sequencing
  import opened Requests
  import opened Loop
  import opened Pipeline
  import Replies

  class BoundedBuffer {
    var data: string
    const capacity: nat

    ghost predicate Valid()
      reads this
    {
      0 < capacity && |data| <= capacity
    }

    constructor (capacity: nat)
      requires capacity > 0
      ensures Valid() && data == "" && this.capacity == capacity
    {
      this.capacity := capacity;
      data := "";
    }

    /** All or nothing. */
    method Append(bytes: string) returns (ok: bool)
      requires Valid()
      modifies this
      ensures Valid()
      ensures ok == (|old(data)| + |bytes| <= capacity)
      ensures data == if ok then old(data) + bytes else old(data)
    {
      if |bytes| > capacity - |data| {
        return false;
      }
      data := data + bytes;
      return true;
    }

    /** Consuming more than there is clears the buffer. */
    method Consume(count: nat)
      requires Valid()
      modifies this
      ensures Valid() && data == Tail(old(data), count)
    {
      if count >= |data| {
        data := "";
        return;
      }
      data := data[count..];
    }
  }

  class Connection {
    const id: int
    const generation: nat
    const input: BoundedBuffer
    const output: BoundedBuffer
    const sequencer: ResponseSequencer

    ghost function Parts(): set<object> {
      {input, output, sequencer}
    }

    ghost predicate Valid(cfg: Config)
      reads input, output, sequencer
    {
      && input != output
      && input.Valid() && input.capacity == cfg.maxInput
      && output.Valid() && output.capacity == cfg.maxOutput
      && sequencer.Model().Valid()
    }

    function Model(): Conn
      reads input, output, sequencer
    {
      Conn(generation, input.data, output.data, sequencer.Model())
    }

    constructor (id: int, generation: nat, cfg: Config)
      requires cfg.maxInput > 0 && cfg.maxOutput > 0
      ensures Valid(cfg) && fresh(Parts())
      ensures this.id == id && Model() == NewConn(generation)
    {
      this.id := id;
      this.generation := generation;
      input := new BoundedBuffer(cfg.maxInput);
      output := new BoundedBuffer(cfg.maxOutput);
      sequencer := new ResponseSequencer();
    }
  }

  class ConnectionRegistry {
    const cfg: Config
    var connections: map<int, Connection>
    var nextGeneration: nat

    ghost var repr: set<object>

    /** The parts of the open connections, and perhaps of closed ones, are the registry's own. */
    ghost predicate Owned()
      reads this
    {
      this !in repr && forall id | id in connections :: connections[id].Parts() <= repr
    }

    /** Connections are filed under their descriptor, carry generations already handed out, and
        share no parts. */
    ghost predicate Valid()
      reads this, repr
    {
      && Owned()
      && (forall id | id in connections ::
            connections[id].id == id && connections[id].generation < nextGeneration && connections[id].Valid(cfg))
      && (forall i, j | i in connections && j in connections && i != j ::
          connections[i].Parts() !! connections[j].Parts())
    }

    function Model(): map<int, Conn>
      requires Owned()
      reads this, repr
    {
      map id | id in connections :: connections[id].Model()
    }

    lemma ModelAt(fd: int)
      requires Owned()
      ensures fd in Model() <==> fd in connections
      ensures fd in connections ==> Model()[fd] == connections[fd].Model()
    {
    }

    /** Working on the parts of one connection leaves every other one as it was. */
    twostate lemma OnlyChanged(fd: int)
      requires old(Valid()) && unchanged(this) && fd in connections && connections[fd].Valid(cfg)
      requires forall o: object | o in repr && o !in connections[fd].Parts() :: unchanged(o)
      ensures Valid() && Model() == old(Model())[fd := connections[fd].Model()]
    {
      forall id | id in connections && id != fd
        ensures connections[id].Valid(cfg) && connections[id].Model() == old(connections[id].Model())
      {
        assert connections[id].Parts() !! connections[fd].Parts();
        assert unchanged(connections[id].input) && unchanged(connections[id].output)
               && unchanged(connections[id].sequencer);
      }
    }

    constructor (cfg: Config)
      requires cfg.maxInput > 0 && cfg.maxOutput > 0
      ensures this.cfg == cfg && Valid() && Model() == map[] && nextGeneration == 1 && repr == {}
    {
      this.cfg := cfg;
      connections := map[];
      nextGeneration := 1;
      repr := {};
    }

    /** A new connection takes its descriptor over and gets a generation never used before. */
    method Add(fd: int) returns (connection: Connection)
      requires Valid() && cfg.maxInput > 0 && cfg.maxOutput > 0
      modifies this
      ensures Valid() && fresh(connection.Parts()) && repr == old(repr) + connection.Parts()
      ensures connection.generation == old(nextGeneration) && nextGeneration == old(nextGeneration) + 1
      ensures connections == old(connections)[fd := connection]
      ensures Model() == old(Model())[fd := NewConn(old(nextGeneration))]
    {
      var generation := nextGeneration;
      nextGeneration := nextGeneration + 1;
      connections := connections - {fd};
      connection := new Connection(fd, generation, cfg);
      connections := connections[fd := connection];
      repr := repr + connection.Parts();
      Added(fd, connection);
    }

    twostate lemma Added(fd: int, new connection: Connection)
      requires old(Valid()) && connections == old(connections)[fd := connection]
               && repr == old(repr) + connection.Parts()
      requires nextGeneration == old(nextGeneration) + 1 && connection.generation == old(nextGeneration)
      requires connection.id == fd && connection.Valid(cfg) && fresh(connection.Parts())
      requires forall o: object | o in old(repr) :: unchanged(o)
      ensures Valid() && Model() == old(Model())[fd := connection.Model()]
    {
      forall id | id in connections && id != fd
        ensures connections[id].Valid(cfg) && connections[id].Model() == old(connections[id].Model())
        ensures connections[id].Parts() !! connection.Parts()
      {
        var c := connections[id];
        assert c == old(connections)[id];
        assert c.input in old(repr) && c.output in old(repr) && c.sequencer in old(repr);
        assert unchanged(c.input) && unchanged(c.output) && unchanged(c.sequencer);
      }
      AddedApart(fd, connection);
    }

    twostate lemma AddedApart(fd: int, new connection: Connection)
      requires old(Valid()) && connections == old(connections)[fd := connection]
      requires forall id | id in connections && id != fd :: connections[id].Parts() !! connection.Parts()
      ensures forall i, j | i in connections && j in connections && i != j ::
              connections[i].Parts() !! connections[j].Parts()
    {
      forall i, j | i in connections && j in connections && i != j
        ensures connections[i].Parts() !! connections[j].Parts()
      {
        if i != fd && j != fd {
          assert old(connections)[i] == connections[i] && old(connections)[j] == connections[j];
        }
      }
    }

    /** Only the connection that still has that generation is removed. */
    method Close(fd: int, generation: nat) returns (removed: bool)
      requires Valid()
      modifies this
      ensures Valid() && nextGeneration == old(nextGeneration) && repr == old(repr)
      ensures removed == (fd in old(connections) && old(connections)[fd].generation == generation)
      ensures connections == if removed then old(connections) - {fd} else old(connections)
      ensures Model() == if removed then old(Model()) - {fd} else old(Model())
    {
      if fd !in connections || connections[fd].generation != generation {
        return false;
      }
      connections := connections - {fd};
      return true;
    }

    /** The strict lookup: the right descriptor with the wrong generation finds nothing. */
    method Find(fd: int, generation: nat) returns (connection: Connection?)
      ensures connection != null <==> fd in connections && connections[fd].generation == generation
      ensures connection != null ==> connection == connections[fd]
    {
      if fd !in connections || connections[fd].generation != generation {
        return null;
      }
      return connections[fd];
    }

    method FindCurrent(fd: int) returns (connection: Connection?)
      ensures connection != null <==> fd in connections
      ensures connection != null ==> connection == connections[fd]
    {
      if fd !in connections {
        return null;
      }
      return connections[fd];
    }
  }

  // The parse loop ---------------------------------------------------------------------

  datatype Stage = Going | Kept | Dropped

  datatype Progress = Progress(conn: Conn, queued: seq<(nat, Command)>, stage: Stage)

  /** Successive turns of the parse loop, each with what the work queue said to it. */
  function Turns(c: Conn, cfg: Config, statuses: seq<PushStatus>): Progress
    decreases |statuses|
  {
    if statuses == [] then Progress(c, [], Going)
    else
      var n := |statuses| - 1;
      var p := Turns(c, cfg, statuses[..n]);
      if p.stage != Going then p else NextTurn(p, cfg, statuses[n])
  }

  function NextTurn(p: Progress, cfg: Config, status: PushStatus): Progress {
    match TurnOf(p.conn, cfg, status)
    case Pause => p.(stage := Kept)
    case Enqueue(c, sequence, command) => Progress(c, p.queued + [(sequence, command)], Going)
    case Reply(d, event, fate, taken) =>
      Progress(d.conn, p.queued, if Fitted(d) && !event.Fatal? then Going else Dropped)
  }

  lemma TurnsSnoc(c: Conn, cfg: Config, statuses: seq<PushStatus>, status: PushStatus)
    requires Turns(c, cfg, statuses).stage == Going
    ensures Turns(c, cfg, statuses + [status]) == NextTurn(Turns(c, cfg, statuses), cfg, status)
  {
    assert (statuses + [status])[..|statuses|] == statuses;
  }

  /** A sequencer stays valid through a recorded reply to the number just assigned. */
  lemma AssignRecordValid(s: Sequencer, text: string)
    requires s.Valid()
    ensures Record(Assign(s), s.nextRequest, text).0.Valid()
  {
    assert s.nextRequest !in s.pending;
    RecordRun(Assign(s), s.nextRequest, text);
  }

  /** Append responses in order; stop at the first that does not fit. */
  method PushResponses(connection: Connection, cfg: Config, ready: seq<string>) returns (ok: bool, ghost n: nat)
    requires connection.Valid(cfg)
    modifies connection.output
    ensures connection.Valid(cfg)
    ensures ok <==> |old(connection.output.data)| + |Concat(ready)| <= cfg.maxOutput
    ensures n <= |ready| && connection.output.data == old(connection.output.data) + Concat(ready[..n])
    ensures if ok then n == |ready| else n < |ready| && |connection.output.data| + |ready[n]| > cfg.maxOutput
    ensures var (output, n) := AppendAll(old(connection.output.data), ready, cfg.maxOutput);
            connection.output.data == output && ok == (n == |ready|)
  {
    var i := 0;
    ghost var start := connection.output.data;
    AppendExactly(start, ready, cfg.maxOutput);
    n := AppendAll(start, ready, cfg.maxOutput).1;
    while i < |ready|
      invariant 0 <= i <= |ready| && connection.Valid(cfg)
      invariant AppendAll(start, ready, cfg.maxOutput)
                == (AppendAll(connection.output.data, ready[i..], cfg.maxOutput).0,
                    AppendAll(connection.output.data, ready[i..], cfg.maxOutput).1 + i)
    {
      assert ready[i..][1..] == ready[i + 1..];
      var fits := connection.output.Append(ready[i]);
      if !fits {
        return false, n;
      }
      i := i + 1;
    }
    return true, n;
  }

  /** Record one response and append what it releases. */
  method Respond(connection: Connection, cfg: Config, sequence: nat, text: string) returns (ok: bool)
    requires connection.Valid(cfg)
    requires Record(connection.sequencer.Model(), sequence, text).0.Valid()
    modifies connection.output, connection.sequencer
    ensures connection.Valid(cfg)
    ensures var d := Deliver(old(connection.Model()), sequence, text, cfg.maxOutput);
            connection.Model() == d.conn && ok == Fitted(d)
  {
    var ready := connection.sequencer.RecordResponse(sequence, text);
    ghost var n;
    ok, n := PushResponses(connection, cfg, ready);
  }

  /** The work items of the commands queued in some turns. */
  function Items(fd: int, generation: nat, queued: seq<(nat, Command)>): seq<WorkItem> {
    seq(|queued|, i requires 0 <= i < |queued| => WorkItem(fd, Tag(generation, queued[i].0), queued[i].1))
  }

  /** A complete command: number it and try to queue it, or refuse it on the spot. */
  method Submit(connection: Connection, cfg: Config, queue: BoundedQueue<WorkItem>, command: Command, consumed: nat)
      returns (stage: Stage, ghost queued: seq<(nat, Command)>)
    requires connection.Valid(cfg) && queue.Valid()
    requires connection.Model().seqr.InFlight() < cfg.maxInFlight
    requires Parse(connection.input.data) == Parsed(command, consumed)
    modifies connection.input, connection.output, connection.sequencer, queue
    ensures connection.Valid(cfg) && queue.Valid()
    ensures Progress(connection.Model(), queued, stage)
            == NextTurn(Progress(old(connection.Model()), [], Going), cfg, QueueStatus(old(queue.Model())))
    ensures var items := Items(connection.id, connection.generation, queued);
            && queue.Model() == old(queue.Model()).(items := old(queue.items) + items)
            && queue.accepted == old(queue.accepted) + items
    ensures stage == Going ==> |connection.input.data| < |old(connection.input.data)|
  {
    hide Parse, Deliver;
    ghost var c := connection.Model();
    queued := [];
    assert queue.items + Items(connection.id, connection.generation, queued) == queue.items;
    assert queue.accepted + Items(connection.id, connection.generation, queued) == queue.accepted;
    connection.input.Consume(consumed);
    var sequence := connection.sequencer.NextRequestSequence();
    var pushed, notify := queue.TryPush(WorkItem(connection.id, Tag(connection.generation, sequence), command));
    if pushed == PushOk {
      queued := [(sequence, command)];
      return Going, queued;
    }
    var busy := Replies.EncodeError(if pushed == PushClosed then CLOSING_TEXT else BUSY_TEXT);
    AssignRecordValid(c.seqr, busy);
    var ok := Respond(connection, cfg, sequence, busy);
    return if ok then Going else Dropped, queued;
  }

  /** A protocol error: answer it in sequence; go on only if the frame could be skipped. */
  method Reject(connection: Connection, cfg: Config, error: ProtocolError, ghost status: PushStatus)
      returns (stage: Stage)
    requires connection.Valid(cfg)
    requires connection.Model().seqr.InFlight() < cfg.maxInFlight
    requires Parse(connection.input.data) == Failed(error)
    modifies connection.input, connection.output, connection.sequencer
    ensures connection.Valid(cfg)
    ensures Progress(connection.Model(), [], stage)
            == NextTurn(Progress(old(connection.Model()), [], Going), cfg, status)
    ensures stage == Going ==> |connection.input.data| < |old(connection.input.data)|
  {
    hide Parse, Deliver;
    ghost var c := connection.Model();
    assert c.input[0..] == c.input;
    if error.recoverable {
      connection.input.Consume(error.consumed);
    }
    var sequence := connection.sequencer.NextRequestSequence();
    AssignRecordValid(c.seqr, Replies.EncodeError(error.message));
    var ok := Respond(connection, cfg, sequence, Replies.EncodeError(error.message));
    return if ok && error.recoverable then Going else Dropped;
  }

  /** One iteration of the parse loop: one turn, with the work queue as found at that moment. */
  method Iterate(connection: Connection, cfg: Config, queue: BoundedQueue<WorkItem>)
      returns (stage: Stage, ghost queued: seq<(nat, Command)>)
    requires connection.Valid(cfg) && queue.Valid()
    modifies connection.input, connection.output, connection.sequencer, queue
    ensures connection.Valid(cfg) && queue.Valid()
    ensures Progress(connection.Model(), queued, stage)
            == NextTurn(Progress(old(connection.Model()), [], Going), cfg, QueueStatus(old(queue.Model())))
    ensures var items := Items(connection.id, connection.generation, queued);
            && queue.Model() == old(queue.Model()).(items := old(queue.items) + items)
            && queue.accepted == old(queue.accepted) + items
    ensures stage == Going ==> |connection.input.data| < |old(connection.input.data)|
  {
    hide Parse, Deliver;
    queued := [];
    assert queue.items + Items(connection.id, connection.generation, queued) == queue.items;
    assert queue.accepted + Items(connection.id, connection.generation, queued) == queue.accepted;
    var inFlight := connection.sequencer.InFlightCount();
    if inFlight >= cfg.maxInFlight {
      return Kept, queued;
    }
    var result := Parse(connection.input.data);
    match result {
      case NeedMoreData => return Kept, queued;
      case Parsed(command, consumed) => stage, queued := Submit(connection, cfg, queue, command, consumed);
      case Failed(error) => stage := Reject(connection, cfg, error, QueueStatus(queue.Model()));
    }
  }

  /** Anything the workers may do to the queue between two of the loop's pushes. */
  method WorkersRun(queue: BoundedQueue<WorkItem>)
    requires queue.Valid()
    modifies queue
    ensures queue.Valid() && queue.accepted == old(queue.accepted)
  {
    var n: nat :| n <= |queue.items|;
    queue.items := queue.items[n..];
    var close: bool := *;
    queue.closed := queue.closed || close;
  }

  /** The items that some turns of the parse loop queue. */
  function TurnItems(c: Conn, cfg: Config, fd: int, statuses: seq<PushStatus>): seq<WorkItem> {
    Items(fd, c.generation, Turns(c, cfg, statuses).queued)
  }

  /** The parse loop: it ends, and it does what its turns do, whatever the workers do meanwhile. */
  method ProcessInput(connection: Connection, cfg: Config, queue: BoundedQueue<WorkItem>)
      returns (keep: bool, ghost statuses: seq<PushStatus>)
    requires connection.Valid(cfg) && queue.Valid()
    modifies connection.input, connection.output, connection.sequencer, queue
    ensures connection.Valid(cfg) && queue.Valid()
    ensures Turns(old(connection.Model()), cfg, statuses).conn == connection.Model()
    ensures Turns(old(connection.Model()), cfg, statuses).stage == if keep then Kept else Dropped
    ensures queue.accepted == old(queue.accepted) + TurnItems(old(connection.Model()), cfg, connection.id, statuses)
    ensures keep ==> Settled(connection.Model(), cfg)
  {
    hide TurnOf;
    ghost var start := connection.Model();
    statuses := [];
    var stage := Going;
    assert queue.accepted + Items(connection.id, connection.generation, []) == queue.accepted;
    while stage == Going
      invariant connection.Valid(cfg) && queue.Valid()
      invariant Turns(start, cfg, statuses).conn == connection.Model() && Turns(start, cfg, statuses).stage == stage
      invariant queue.accepted == old(queue.accepted) + TurnItems(start, cfg, connection.id, statuses)
      invariant stage == Kept ==> Settled(connection.Model(), cfg)
      decreases stage == Going, |connection.input.data|
    {
      WorkersRun(queue);
      ghost var before := Turns(start, cfg, statuses);
      ghost var status := QueueStatus(queue.Model());
      ghost var queued;
      stage, queued := Iterate(connection, cfg, queue);
      TurnsSnoc(start, cfg, statuses, status);
      KeptIsSettled(before.conn, cfg, status);
      statuses := statuses + [status];
      assert Turns(start, cfg, statuses).queued == before.queued + queued;
      ItemsAppend(connection.id, connection.generation, before.queued, queued);
    }
    keep := stage == Kept;
  }

  lemma ItemsAppend(fd: int, generation: nat, a: seq<(nat, Command)>, b: seq<(nat, Command)>)
    ensures Items(fd, generation, a + b) == Items(fd, generation, a) + Items(fd, generation, b)
  {
  }

  lemma KeptIsSettled(c: Conn, cfg: Config, status: PushStatus)
    ensures TurnOf(c, cfg, status).Pause? ==> Settled(c, cfg)
  {
    hide Parse, Deliver;
  }

  // Writing and closing ----------------------------------------------------------------

  datatype WriteStatus = WroteSome | WouldBlock | WriteError

  /** What the socket does with writes: it takes `room` bytes, in pieces of any size, and then blocks,
      or fails if it is broken. */
  datatype Socket = Socket(room: nat, broken: bool)

  method WriteFrom(buffer: BoundedBuffer, socket: Socket) returns (status: WriteStatus, n: nat)
    requires buffer.Valid() && buffer.data != ""
    modifies buffer
    ensures buffer.Valid() && n <= socket.room && n <= |old(buffer.data)| && buffer.data == Tail(old(buffer.data), n)
    ensures n > 0 <==> socket.room > 0
    ensures status == if socket.room > 0 then WroteSome else if socket.broken then WriteError else WouldBlock
  {
    if socket.room == 0 {
      assert Tail(buffer.data, 0) == buffer.data;
      return if socket.broken then WriteError else WouldBlock, 0;
    }
    n :| 1 <= n <= socket.room && n <= |buffer.data|;
    buffer.Consume(n);
    return WroteSome, n;
  }

  lemma TailTail(s: string, n: nat, m: nat)
    requires n <= |s| && m <= |Tail(s, n)|
    ensures Tail(Tail(s, n), m) == Tail(s, n + m) && n + m <= |s|
  {
  }

  /** A write fails if the socket is broken and does not take everything. */
  predicate WriteFails(output: string, socket: Socket) {
    socket.broken && |output| > socket.room
  }

  /** Write until the buffer is empty or the socket takes no more; an error closes. */
  method HandleWritable(connection: Connection, cfg: Config, socket: Socket) returns (open: bool)
    requires connection.Valid(cfg)
    modifies connection.output
    ensures connection.Valid(cfg)
    ensures connection.output.data == Tail(old(connection.output.data), socket.room)
    ensures open <==> !WriteFails(old(connection.output.data), socket)
  {
    var written: nat := 0;
    open := true;
    ghost var start := connection.output.data;
    assert Tail(start, 0) == start;
    while connection.output.data != ""
      invariant connection.Valid(cfg) && open
      invariant written <= |start| && written <= socket.room && connection.output.data == Tail(start, written)
      decreases |connection.output.data|
    {
      var status, n := WriteFrom(connection.output, Socket(socket.room - written, socket.broken));
      TailTail(start, written, n);
      written := written + n;
      if status == WouldBlock {
        break;
      }
      if status == WriteError {
        open := false;
        break;
      }
    }
    assert connection.output.data == "" ==> Tail(start, socket.room) == "";
    assert connection.output.data != "" ==> written == socket.room < |start|;
  }

  lemma PutNone(m: map<int, Conn>, fd: int, c: Conn)
    ensures m[fd := c] - {fd} == m - {fd}
  {
  }

  /** Close whatever still has that generation, after one best-effort write of its output. */
  method CloseConnection(registry: ConnectionRegistry, fd: int, generation: nat, socket: Socket)
      returns (ghost flushed: nat)
    requires registry.Valid()
    modifies registry, registry.repr
    ensures registry.Valid() && registry.nextGeneration == old(registry.nextGeneration)
            && registry.repr == old(registry.repr)
    ensures var current := fd in old(registry.connections) && old(registry.connections)[fd].generation == generation;
            && registry.connections == (if current then old(registry.connections) - {fd} else old(registry.connections))
            && registry.Model() == (if current then old(registry.Model()) - {fd} else old(registry.Model()))
            && (current ==>
                  var output := old(registry.connections)[fd].output;
                  && output.data == Tail(old(output.data), flushed) && flushed <= socket.room
                  && (flushed > 0 <==> socket.room > 0 && old(output.data) != ""))
  {
    hide ConnectionRegistry.Model;
    flushed := 0;
    var connection := registry.Find(fd, generation);
    if connection == null {
      return;
    }
    assert Tail(connection.output.data, 0) == connection.output.data;
    if connection.output.data != "" {
      var status, n := WriteFrom(connection.output, socket);
      flushed := n;
    }
    registry.OnlyChanged(fd);
    PutNone(old(registry.Model()), fd, connection.Model());
    var removed := registry.Close(fd, generation);
  }

  // Reading ----------------------------------------------------------------------------

  datatype ReadStatus = ReadSome | ReadBlocks | BufferFull | ReadEnds

  const READ_CHUNK: nat := 65536

  /** One read: nothing if the buffer is full, some of the bytes that are there if any are, and
      otherwise it would block, or the peer hung up or the socket failed. */
  method ReadInto(buffer: BoundedBuffer, arriving: string, ends: bool) returns (status: ReadStatus, n: nat)
    requires buffer.Valid()
    modifies buffer
    ensures buffer.Valid() && n <= |arriving| && buffer.data == old(buffer.data) + arriving[..n]
    ensures status == ReadSome <==> n > 0
    ensures status == if |old(buffer.data)| == buffer.capacity then BufferFull else if arriving != "" then ReadSome
                      else if ends then ReadEnds else ReadBlocks
  {
    assert buffer.data + arriving[..0] == buffer.data;
    var available := buffer.capacity - |buffer.data|;
    if available == 0 {
      return BufferFull, 0;
    }
    if arriving == "" {
      return if ends then ReadEnds else ReadBlocks, 0;
    }
    var attempt := if available < READ_CHUNK then available else READ_CHUNK;
    n :| 1 <= n <= attempt && n <= |arriving|;
    var appended := buffer.Append(arriving[..n]);
    status := ReadSome;
  }

  /** Bytes read, and what the work queue said while they were parsed. */
  datatype Chunk = Chunk(bytes: string, statuses: seq<PushStatus>)

  /** A connection after one reading: nothing if parsing it closes the connection. */
  function ReadOne(c: Conn, cfg: Config, chunk: Chunk): Option<Conn> {
    var p := Turns(c.(input := c.input + chunk.bytes), cfg, chunk.statuses);
    if p.stage == Kept then Some(p.conn) else None
  }

  function ReadAll(c: Conn, cfg: Config, chunks: seq<Chunk>): Option<Conn>
    decreases |chunks|
  {
    if chunks == [] then Some(c)
    else
      var n := |chunks| - 1;
      var before := ReadAll(c, cfg, chunks[..n]);
      if before.None? then None else ReadOne(before.value, cfg, chunks[n])
  }

  /** The items queued while those chunks were parsed. */
  function ReadItems(c: Conn, cfg: Config, fd: int, chunks: seq<Chunk>): seq<WorkItem>
    decreases |chunks|
  {
    if chunks == [] then []
    else
      var n := |chunks| - 1;
      var before := ReadAll(c, cfg, chunks[..n]);
      ReadItems(c, cfg, fd, chunks[..n])
      + (if before.None? then [] else ChunkItems(before.value, cfg, fd, chunks[n]))
  }

  function ChunkItems(c: Conn, cfg: Config, fd: int, chunk: Chunk): seq<WorkItem> {
    TurnItems(c.(input := c.input + chunk.bytes), cfg, fd, chunk.statuses)
  }

  function BytesOf(chunks: seq<Chunk>): string {
    if chunks == [] then "" else BytesOf(chunks[..|chunks| - 1]) + chunks[|chunks| - 1].bytes
  }

  lemma ReadAllSnoc(c: Conn, cfg: Config, fd: int, chunks: seq<Chunk>, chunk: Chunk)
    requires ReadAll(c, cfg, chunks).Some?
    ensures ReadAll(c, cfg, chunks + [chunk]) == ReadOne(ReadAll(c, cfg, chunks).value, cfg, chunk)
    ensures ReadItems(c, cfg, fd, chunks + [chunk])
            == ReadItems(c, cfg, fd, chunks) + ChunkItems(ReadAll(c, cfg, chunks).value, cfg, fd, chunk)
    ensures BytesOf(chunks + [chunk]) == BytesOf(chunks) + chunk.bytes
  {
    hide ReadOne, ChunkItems;
    assert (chunks + [chunk])[..|chunks|] == chunks;
  }

  /** Read and parse until a read would block. `arriving` is everything that can be read until then,
      and `ends` says that the socket then reports its end or an error. All of it is parsed, in the
      order sent, unless parsing closes the connection or the input buffer is full; a connection
      that was settled is left settled. */
  method ReadLoop(connection: Connection, cfg: Config, queue: BoundedQueue<WorkItem>, arriving: string, ends: bool)
      returns (open: bool, ghost chunks: seq<Chunk>, ghost broken: bool)
    requires connection.Valid(cfg) && queue.Valid()
    modifies connection.input, connection.output, connection.sequencer, queue
    ensures connection.Valid(cfg) && queue.Valid()
    ensures BytesOf(chunks) <= arriving
    ensures var after := ReadAll(old(connection.Model()), cfg, chunks);
            if open then after == Some(connection.Model()) && !broken else after == None || broken
    ensures open ==> BytesOf(chunks) == arriving && !ends
    ensures broken ==> |connection.input.data| == connection.input.capacity || (BytesOf(chunks) == arriving && ends)
    ensures queue.accepted == old(queue.accepted) + ReadItems(old(connection.Model()), cfg, connection.id, chunks)
    ensures open && old(Settled(connection.Model(), cfg)) ==> Settled(connection.Model(), cfg)
  {
    hide ReadAll, ReadOne, BytesOf, Turns, Settled, TurnItems, ReadItems;
    ghost var start := connection.Model();
    chunks, broken := [], false;
    ReadNothing(start, cfg, connection.id);
    var taken := 0;
    while true
      invariant connection.Valid(cfg) && queue.Valid() && !broken
      invariant taken <= |arriving| && BytesOf(chunks) == arriving[..taken]
      invariant ReadAll(start, cfg, chunks) == Some(connection.Model())
      invariant queue.accepted == old(queue.accepted) + ReadItems(start, cfg, connection.id, chunks)
      invariant old(Settled(connection.Model(), cfg)) ==> Settled(connection.Model(), cfg)
      decreases |arriving| - taken
    {
      ghost var before := connection.Model();
      var status, n := ReadInto(connection.input, arriving[taken..], ends);
      if status == ReadBlocks {
        assert connection.Model() == before;
        return true, chunks, false;
      }
      if status != ReadSome {
        return false, chunks, true;
      }
      ghost var bytes := arriving[taken..][..n];
      assert arriving[..taken] + bytes == arriving[..taken + n];
      assert connection.Model() == before.(input := before.input + bytes);
      ghost var statuses;
      open, statuses := ProcessInput(connection, cfg, queue);
      ReadOneOf(before, cfg, Chunk(bytes, statuses));
      ReadAllSnoc(start, cfg, connection.id, chunks, Chunk(bytes, statuses));
      chunks := chunks + [Chunk(bytes, statuses)];
      taken := taken + n;
      if !open {
        return false, chunks, false;
      }
    }
  }

  lemma ReadNothing(c: Conn, cfg: Config, fd: int)
    ensures ReadAll(c, cfg, []) == Some(c) && BytesOf([]) == "" && ReadItems(c, cfg, fd, []) == []
  {
  }

  lemma ReadOneOf(c: Conn, cfg: Config, chunk: Chunk)
    ensures var p := Turns(c.(input := c.input + chunk.bytes), cfg, chunk.statuses);
            ReadOne(c, cfg, chunk) == if p.stage == Kept then Some(p.conn) else None
  {
  }

  function Put(m: map<int, Conn>, fd: int, c: Option<Conn>): map<int, Conn> {
    if c.Some? then m[fd := c.value] else m - {fd}
  }

  /** A readable connection: the bytes are read and parsed, then its output is written. */
  function Readable(c: Conn, cfg: Config, chunks: seq<Chunk>, broken: bool, socket: Socket): Option<Conn> {
    var after := ReadAll(c, cfg, chunks);
    if broken || after.None? || WriteFails(after.value.output, socket) then None
    else Some(after.value.(output := Tail(after.value.output, socket.room)))
  }

  /** A readability event: an unknown descriptor changes nothing; otherwise no other connection is
      touched, and exactly the items parsed from what was read are queued. */
  method HandleReadable(registry: ConnectionRegistry, queue: BoundedQueue<WorkItem>, fd: int, arriving: string,
                        ends: bool, socket: Socket)
      returns (ghost chunks: seq<Chunk>, ghost broken: bool)
    requires registry.Valid() && queue.Valid() && queue !in registry.repr
    modifies registry, registry.repr, queue
    ensures registry.Valid() && queue.Valid()
    ensures registry.nextGeneration == old(registry.nextGeneration) && registry.repr == old(registry.repr)
    ensures BytesOf(chunks) <= arriving
    ensures var m := old(registry.Model());
            if fd !in m then registry.Model() == m && queue.accepted == old(queue.accepted)
            else
              && registry.Model() == Put(m, fd, Readable(m[fd], registry.cfg, chunks, broken, socket))
              && (fd in registry.Model() ==> BytesOf(chunks) == arriving && !ends)
              && queue.accepted == old(queue.accepted) + ReadItems(m[fd], registry.cfg, fd, chunks)
  {
    hide ReadAll, BytesOf, Settled, ReadItems, ConnectionRegistry.Model, WriteFails;
    chunks, broken := [], false;
    ReadNothing(NewConn(0), registry.cfg, fd);
    registry.ModelAt(fd);
    var connection := registry.FindCurrent(fd);
    if connection == null {
      return;
    }
    var open;
    open, chunks, broken := ReadLoop(connection, registry.cfg, queue, arriving, ends);
    var rest := socket;
    if open {
      open := HandleWritable(connection, registry.cfg, socket);
      rest := Socket(0, socket.broken);
    }
    registry.OnlyChanged(fd);
    PutNone(old(registry.Model()), fd, connection.Model());
    if !open {
      ghost var flushed := CloseConnection(registry, fd, connection.generation, rest);
    }
  }

  // Draining ---------------------------------------------------------------------------

  /** What the environment decides while one completion is handled: the work queue's answers,
      and what the socket does with writes. */
  datatype Choice = Choice(statuses: seq<PushStatus>, socket: Socket)

  /** A connection after parsing resumed and its output was written: nothing if a framing error,
      an overflow or a failed write closes it. */
  function Resumed(c: Conn, cfg: Config, choice: Choice): Option<Conn> {
    var p := Turns(c, cfg, choice.statuses);
    if p.stage != Kept || WriteFails(p.conn.output, choice.socket) then None
    else Some(p.conn.(output := Tail(p.conn.output, choice.socket.room)))
  }

  /** A connection after one completion: the response is delivered, and parsing resumes unless
      the output overflowed. */
  function Served(c: Conn, cfg: Config, done: Completion, choice: Choice): Option<Conn> {
    var d := Deliver(c, done.tag.sequence, done.response, cfg.maxOutput);
    if Fitted(d) then Resumed(d.conn, cfg, choice) else None
  }

  /** The connections after one completion; a stale one changes nothing. */
  function DrainOne(m: map<int, Conn>, cfg: Config, done: Completion, choice: Choice): map<int, Conn> {
    if done.fd !in m || m[done.fd].generation != done.tag.generation then m
    else Put(m, done.fd, Served(m[done.fd], cfg, done, choice))
  }

  /** The items queued while one completion is handled. */
  function DrainItems(m: map<int, Conn>, cfg: Config, done: Completion, choice: Choice): seq<WorkItem> {
    if done.fd !in m || m[done.fd].generation != done.tag.generation then []
    else ServedItems(m[done.fd], cfg, done, choice)
  }

  function ServedItems(c: Conn, cfg: Config, done: Completion, choice: Choice): seq<WorkItem> {
    var d := Deliver(c, done.tag.sequence, done.response, cfg.maxOutput);
    if Fitted(d) then TurnItems(d.conn, cfg, done.fd, choice.statuses) else []
  }

  function DrainAllItems(m: map<int, Conn>, cfg: Config, items: seq<Completion>, choices: seq<Choice>): seq<WorkItem>
    requires |items| == |choices|
  {
    if items == [] then []
    else
      var n := |items| - 1;
      DrainAllItems(m, cfg, items[..n], choices[..n])
      + DrainItems(DrainAll(m, cfg, items[..n], choices[..n]), cfg, items[n], choices[n])
  }

  function DrainAll(m: map<int, Conn>, cfg: Config, items: seq<Completion>, choices: seq<Choice>): map<int, Conn>
    requires |items| == |choices|
  {
    if items == [] then m
    else
      var n := |items| - 1;
      DrainOne(DrainAll(m, cfg, items[..n], choices[..n]), cfg, items[n], choices[n])
  }

  /** A completion that is not stale answers an outstanding request. */
  predicate Awaited(m: map<int, Conn>, done: Completion) {
    done.fd in m && m[done.fd].generation == done.tag.generation ==>
      m[done.fd].seqr.Valid() && Outstanding(m[done.fd].seqr, done.tag.sequence)
  }

  lemma NextTurnOutstanding(p: Progress, cfg: Config, status: PushStatus, k: nat)
    requires p.conn.seqr.Valid() && Outstanding(p.conn.seqr, k)
    ensures NextTurn(p, cfg, status).conn.seqr.Valid() && Outstanding(NextTurn(p, cfg, status).conn.seqr, k)
  {
    hide Parse, AppendAll, Record;
    var s := p.conn.seqr;
    var t := TurnOf(p.conn, cfg, status);
    assert s.nextRequest !in s.pending;
    if t.Reply? {
      RecordRun(Assign(s), s.nextRequest, Text(t.event, t.fate));
      assert Outstanding(Assign(s), k) && k != s.nextRequest;
    }
  }

  lemma {:induction false} TurnsOutstanding(c: Conn, cfg: Config, statuses: seq<PushStatus>, k: nat)
    requires c.seqr.Valid() && Outstanding(c.seqr, k)
    ensures Turns(c, cfg, statuses).conn.seqr.Valid() && Outstanding(Turns(c, cfg, statuses).conn.seqr, k)
    decreases |statuses|
  {
    hide NextTurn;
    if statuses != [] {
      var n := |statuses| - 1;
      TurnsOutstanding(c, cfg, statuses[..n], k);
      NextTurnOutstanding(Turns(c, cfg, statuses[..n]), cfg, statuses[n], k);
    }
  }

  lemma NextTurnGeneration(p: Progress, cfg: Config, status: PushStatus)
    ensures NextTurn(p, cfg, status).conn.generation == p.conn.generation
  {
    hide Parse, Deliver;
  }

  lemma {:induction false} TurnsGeneration(c: Conn, cfg: Config, statuses: seq<PushStatus>)
    ensures Turns(c, cfg, statuses).conn.generation == c.generation
    decreases |statuses|
  {
    hide NextTurn;
    if statuses != [] {
      var n := |statuses| - 1;
      TurnsGeneration(c, cfg, statuses[..n]);
      NextTurnGeneration(Turns(c, cfg, statuses[..n]), cfg, statuses[n]);
    }
  }

  /** Handling one completion leaves every other awaited one awaited. */
  lemma StillAwaited(m: map<int, Conn>, cfg: Config, done: Completion, choice: Choice, other: Completion)
    requires Awaited(m, done) && Awaited(m, other) && other.tag != done.tag
    ensures Awaited(DrainOne(m, cfg, done, choice), other)
  {
    hide Turns, Record, AppendAll, Outstanding;
    var m' := DrainOne(m, cfg, done, choice);
    if other.fd in m' && m'[other.fd].generation == other.tag.generation && m' != m && other.fd == done.fd {
      var c := m[done.fd];
      var d := Deliver(c, done.tag.sequence, done.response, cfg.maxOutput);
      TurnsGeneration(d.conn, cfg, choice.statuses);
      RecordRun(c.seqr, done.tag.sequence, done.response);
      assert Outstanding(c.seqr, other.tag.sequence);
      TurnsOutstanding(d.conn, cfg, choice.statuses, other.tag.sequence);
    }
  }

  /** Every waiting completion is awaited, and no two answer the same request. */
  predicate Expected(m: map<int, Conn>, items: seq<Completion>) {
    && (forall j | 0 <= j < |items| :: Awaited(m, items[j]))
    && (forall j, k | 0 <= j < k < |items| :: items[j].tag != items[k].tag)
  }

  lemma StillExpected(m: map<int, Conn>, cfg: Config, items: seq<Completion>, choice: Choice)
    requires items != [] && Expected(m, items)
    ensures Expected(DrainOne(m, cfg, items[0], choice), items[1..])
  {
    hide DrainOne, Awaited;
    forall j | 0 <= j < |items[1..]|
      ensures Awaited(DrainOne(m, cfg, items[0], choice), items[1..][j])
    {
      StillAwaited(m, cfg, items[0], choice, items[j + 1]);
    }
  }

  lemma FirstAwaited(m: map<int, Conn>, items: seq<Completion>)
    requires items != [] && Expected(m, items)
    ensures Awaited(m, items[0])
  {
  }

  /** Parse on, then write: what follows a delivery. */
  method Resume(connection: Connection, cfg: Config, queue: BoundedQueue<WorkItem>, socket: Socket)
      returns (open: bool, rest: Socket, ghost choice: Choice)
    requires connection.Valid(cfg) && queue.Valid()
    modifies connection.Parts(), queue
    ensures connection.Valid(cfg) && queue.Valid() && choice.socket == socket
    ensures var after := Resumed(old(connection.Model()), cfg, choice);
            if open then after == Some(connection.Model()) else after == None
    ensures queue.accepted
            == old(queue.accepted) + TurnItems(old(connection.Model()), cfg, connection.id, choice.statuses)
  {
    hide Turns, TurnItems, WriteFails;
    var keep;
    ghost var statuses;
    keep, statuses := ProcessInput(connection, cfg, queue);
    choice := Choice(statuses, socket);
    if !keep {
      return false, socket, choice;
    }
    open := HandleWritable(connection, cfg, socket);
    rest := Socket(0, socket.broken);
  }

  /** Deliver one response, then resume. */
  method Serve(connection: Connection, cfg: Config, queue: BoundedQueue<WorkItem>, done: Completion, socket: Socket)
      returns (open: bool, rest: Socket, ghost choice: Choice)
    requires connection.Valid(cfg) && queue.Valid() && Outstanding(connection.Model().seqr, done.tag.sequence)
    requires connection.id == done.fd
    modifies connection.Parts(), queue
    ensures connection.Valid(cfg) && queue.Valid() && choice.socket == socket
    ensures var after := Served(old(connection.Model()), cfg, done, choice);
            if open then after == Some(connection.Model()) else after == None
    ensures queue.accepted == old(queue.accepted) + ServedItems(old(connection.Model()), cfg, done, choice)
  {
    hide Resumed, Deliver, Record, TurnItems;
    choice, rest := Choice([], socket), socket;
    RecordRun(connection.Model().seqr, done.tag.sequence, done.response);
    open := Respond(connection, cfg, done.tag.sequence, done.response);
    if open {
      open, rest, choice := Resume(connection, cfg, queue, socket);
    }
  }

  /** The body of the drain loop. */
  method HandleCompletion(registry: ConnectionRegistry, queue: BoundedQueue<WorkItem>, done: Completion, socket: Socket)
      returns (ghost choice: Choice)
    requires registry.Valid() && queue.Valid() && queue !in registry.repr
    requires Awaited(registry.Model(), done)
    modifies registry, registry.repr, queue
    ensures registry.Valid() && queue.Valid() && choice.socket == socket
    ensures registry.nextGeneration == old(registry.nextGeneration) && registry.repr == old(registry.repr)
    ensures registry.Model() == DrainOne(old(registry.Model()), registry.cfg, done, choice)
    ensures queue.accepted == old(queue.accepted) + DrainItems(old(registry.Model()), registry.cfg, done, choice)
  {
    hide Served, ServedItems, Outstanding, ConnectionRegistry.Model;
    choice := Choice([], socket);
    registry.ModelAt(done.fd);
    var connection := registry.Find(done.fd, done.tag.generation);
    if connection == null {
      return;
    }
    var open, rest;
    open, rest, choice := Serve(connection, registry.cfg, queue, done, socket);
    registry.OnlyChanged(done.fd);
    PutNone(old(registry.Model()), done.fd, connection.Model());
    if !open {
      ghost var flushed := CloseConnection(registry, done.fd, done.tag.generation, rest);
    }
  }

  /** Workers push some more completions, all of them awaited, as far as they fit. */
  method WorkersComplete(registry: ConnectionRegistry, completions: BoundedQueue<Completion>)
    requires registry.Valid() && completions.Valid() && Expected(registry.Model(), completions.items)
    requires completions !in registry.repr
    modifies completions
    ensures completions.Valid() && Expected(registry.Model(), completions.items)
    ensures old(completions.accepted) <= completions.accepted && old(completions.items) <= completions.items
    ensures |completions.accepted| - |completions.items| == old(|completions.accepted| - |completions.items|)
  {
    assert completions.items + [] == completions.items;
    var more: seq<Completion> :|
      Expected(registry.Model(), completions.items + more) && |completions.items| + |more| <= completions.capacity;
    completions.items := completions.items + more;
    completions.accepted := completions.accepted + more;
  }

  /** One turn of the drain loop. */
  method DrainTurn(registry: ConnectionRegistry, queue: BoundedQueue<WorkItem>, completions: BoundedQueue<Completion>,
                   socket: Socket)
      returns (more: bool, ghost choice: Choice)
    requires registry.Valid() && queue.Valid() && completions.Valid()
    requires {queue as object, completions, registry} !! registry.repr
    requires Expected(registry.Model(), completions.items)
    modifies registry, registry.repr, queue, completions
    ensures registry.Valid() && queue.Valid() && completions.Valid() && registry.repr == old(registry.repr)
    ensures completions.accepted == old(completions.accepted) && more == (old(completions.items) != [])
    ensures choice.socket == socket
    ensures !more ==>
              && completions.items == [] && registry.Model() == old(registry.Model())
              && queue.accepted == old(queue.accepted)
    ensures more ==>
              && completions.items == old(completions.items)[1..]
              && registry.Model() == DrainOne(old(registry.Model()), registry.cfg, old(completions.items)[0], choice)
              && queue.accepted == old(queue.accepted)
                                   + DrainItems(old(registry.Model()), registry.cfg, old(completions.items)[0], choice)
    ensures Expected(registry.Model(), completions.items)
  {
    hide DrainOne, DrainItems, Awaited, Expected, ConnectionRegistry.Model;
    ghost var model := registry.Model();
    ghost var waiting := completions.items;
    choice := Choice([], socket);
    var popped := completions.TryPop();
    if popped.None? {
      return false, choice;
    }
    FirstAwaited(model, waiting);
    choice := HandleCompletion(registry, queue, popped.value, socket);
    StillExpected(model, registry.cfg, waiting, choice);
    more := true;
  }

  /** The connections and queued items after the completions handled so far. */
  ghost predicate Drained(start: map<int, Conn>, cfg: Config, handled: seq<Completion>, choices: seq<Choice>,
                          model: map<int, Conn>, queued: seq<WorkItem>) {
    && |handled| == |choices|
    && model == DrainAll(start, cfg, handled, choices)
    && queued == DrainAllItems(start, cfg, handled, choices)
  }

  lemma DrainedNext(start: map<int, Conn>, cfg: Config, handled: seq<Completion>, choices: seq<Choice>,
                    model: map<int, Conn>, queued: seq<WorkItem>, done: Completion, choice: Choice)
    requires Drained(start, cfg, handled, choices, model, queued)
    ensures Drained(start, cfg, handled + [done], choices + [choice],
                    DrainOne(model, cfg, done, choice), queued + DrainItems(model, cfg, done, choice))
  {
    hide DrainOne, DrainItems;
    assert (handled + [done])[..|handled|] == handled && (choices + [choice])[..|choices|] == choices;
  }

  /** Of everything accepted from position `base` on, `handled` is done and `items` still waits. */
  ghost predicate Progressed(accepted: seq<Completion>, base: nat, handled: seq<Completion>, items: seq<Completion>) {
    base <= |accepted| && accepted[base..] == handled + items
  }

  lemma ProgressedPush(accepted: seq<Completion>, base: nat, handled: seq<Completion>, items: seq<Completion>,
                       accepted': seq<Completion>, items': seq<Completion>)
    requires Progressed(accepted, base, handled, items) && accepted <= accepted' && items <= items'
    requires |items| <= |accepted| && items == accepted[|accepted| - |items|..]
    requires |items'| <= |accepted'| && items' == accepted'[|accepted'| - |items'|..]
    requires |accepted'| - |items'| == |accepted| - |items|
    ensures Progressed(accepted', base, handled, items')
  {
    assert |handled| == |accepted| - |items| - base;
    assert accepted'[base..base + |handled|] == accepted[base..][..|handled|];
  }

  lemma ProgressedPop(accepted: seq<Completion>, base: nat, handled: seq<Completion>, items: seq<Completion>)
    requires Progressed(accepted, base, handled, items) && items != []
    ensures Progressed(accepted, base, handled + [items[0]], items[1..])
  {
  }

  lemma ProgressedEnds(accepted: seq<Completion>, base: nat, handled: seq<Completion>,
                       before: seq<Completion>, waiting: seq<Completion>)
    requires Progressed(accepted, base, handled, []) && before <= accepted
    requires |waiting| <= |before| && waiting == before[|before| - |waiting|..] && base == |before| - |waiting|
    ensures handled == accepted[base..] && waiting <= handled
  {
  }

  /** The drain loop. Workers may push completions up to `rounds` times while it runs. It handles, in
      order, everything that was queued or was pushed meanwhile, and leaves the queue empty;
      `sockets(k)` is what the socket does while the k-th is handled. */
  method DrainCompletions(registry: ConnectionRegistry, queue: BoundedQueue<WorkItem>,
                          completions: BoundedQueue<Completion>, rounds: nat, sockets: nat -> Socket)
      returns (ghost handled: seq<Completion>, ghost choices: seq<Choice>)
    requires registry.Valid() && queue.Valid() && completions.Valid()
    requires {queue as object, completions, registry} !! registry.repr
    requires Expected(registry.Model(), completions.items)
    modifies registry, registry.repr, queue, completions
    ensures registry.Valid() && queue.Valid() && completions.Valid() && completions.items == []
    ensures old(completions.accepted) <= completions.accepted
    ensures handled == completions.accepted[old(|completions.accepted| - |completions.items|)..]
    ensures old(completions.items) <= handled && |handled| == |choices|
    ensures forall k | 0 <= k < |choices| :: choices[k].socket == sockets(k)
    ensures registry.Model() == DrainAll(old(registry.Model()), registry.cfg, handled, choices)
    ensures queue.accepted == old(queue.accepted) + DrainAllItems(old(registry.Model()), registry.cfg, handled, choices)
  {
    hide DrainOne, DrainItems, Awaited, Expected, Drained, DrainAll, DrainAllItems, Progressed,
         ConnectionRegistry.Model;
    handled, choices := [], [];
    ghost var start := registry.Model();
    ghost var base := |completions.accepted| - |completions.items|;
    ghost var queued: seq<WorkItem> := [];
    DrainedNone(start, registry.cfg);
    assert Progressed(completions.accepted, base, [], completions.items) by {
      ProgressedStart(completions.accepted, base, completions.items);
    }
    var left, count := rounds, 0;
    while true
      invariant registry.Valid() && queue.Valid() && completions.Valid() && registry.repr == old(registry.repr)
      invariant Progressed(completions.accepted, base, handled, completions.items)
      invariant old(completions.accepted) <= completions.accepted
      invariant Expected(registry.Model(), completions.items)
      invariant Drained(start, registry.cfg, handled, choices, registry.Model(), queued)
      invariant queue.accepted == old(queue.accepted) + queued
      invariant |choices| == count && forall k | 0 <= k < count :: choices[k].socket == sockets(k)
      decreases left, |completions.items|
    {
      if left > 0 {
        ghost var accepted, items := completions.accepted, completions.items;
        WorkersComplete(registry, completions);
        ProgressedPush(accepted, base, handled, items, completions.accepted, completions.items);
        left := left - 1;
      }
      ghost var model := registry.Model();
      ghost var waiting := completions.items;
      var more;
      ghost var choice;
      more, choice := DrainTurn(registry, queue, completions, sockets(count));
      if !more {
        break;
      }
      ProgressedPop(completions.accepted, base, handled, waiting);
      DrainedNext(start, registry.cfg, handled, choices, model, queued, waiting[0], choice);
      queued := queued + DrainItems(model, registry.cfg, waiting[0], choice);
      handled, choices := handled + [waiting[0]], choices + [choice];
      count := count + 1;
    }
    DrainedAll(start, registry.cfg, handled, choices, registry.Model(), queued);
    ProgressedEnds(completions.accepted, base, handled, old(completions.accepted), old(completions.items));
  }

  lemma ProgressedStart(accepted: seq<Completion>, base: nat, items: seq<Completion>)
    requires |items| <= |accepted| && base == |accepted| - |items| && items == accepted[base..]
    ensures Progressed(accepted, base, [], items)
  {
  }

  lemma DrainedNone(start: map<int, Conn>, cfg: Config)
    ensures Drained(start, cfg, [], [], start, [])
  {
  }

  lemma DrainedAll(start: map<int, Conn>, cfg: Config, handled: seq<Completion>, choices: seq<Choice>,
                   model: map<int, Conn>, queued: seq<WorkItem>)
    requires Drained(start, cfg, handled, choices, model, queued)
    ensures |handled| == |choices| && model == DrainAll(start, cfg, handled, choices)
    ensures queued == DrainAllItems(start, cfg, handled, choices)
  {
  }
}
