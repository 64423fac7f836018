/** How a request is named across threads. */
module Requests {
  /** The generation of the connection a request arrived on, and its number there. */
  datatype Tag = Tag(generation: nat, sequence: nat)
}

/** The event loop's work on one connection, as functions of the connection's state: one turn of
    the parse loop and the delivery of one response. */
module Loop {
  import opened Bytes
  import opened Parser
  import opened Framing
  import opened Queueing
  import opened Sequencing
  import Replies

  datatype Config = Config(maxInput: nat, maxOutput: nat, maxInFlight: nat)

  datatype Conn = Conn(generation: nat, input: string, output: string, seqr: Sequencer)

  function NewConn(generation: nat): Conn {
    Conn(generation, "", "", FRESH)
  }

  // Replies ----------------------------------------------------------------------------

  /** How a frame gets its answer: not yet, from a worker, refused because the work queue is full
      or closed, or as a protocol error. */
  datatype Fate = Waiting | Replied(text: string) | Busy | ShuttingDown | ProtocolFailure

  const BUSY_TEXT: string := "ERR server busy, try again"
  const CLOSING_TEXT: string := "ERR server shutting down"

  predicate FateFits(event: Event, fate: Fate) {
    event.Request? <==> !fate.ProtocolFailure?
  }

  /** The bytes that answer a frame. */
  function Text(event: Event, fate: Fate): string
    requires FateFits(event, fate)
  {
    match fate
    case Waiting => ""
    case Replied(text) => text
    case Busy => Replies.EncodeError(BUSY_TEXT)
    case ShuttingDown => Replies.EncodeError(CLOSING_TEXT)
    case ProtocolFailure => Replies.EncodeError(event.error.message)
  }

  // Delivery ---------------------------------------------------------------------------

  /** Append responses one by one until one does not fit; the count says how many did. */
  function AppendAll(output: string, ready: seq<string>, capacity: nat): (r: (string, nat))
    ensures r.1 <= |ready|
    ensures r.0 == output + Concat(ready[..r.1])
    ensures |output| <= capacity ==> |r.0| <= capacity
    decreases |ready|
  {
    if ready == [] || |output| + |ready[0]| > capacity then
      assert output + "" == output;
      (output, 0)
    else
      var (out, n) := AppendAll(output + ready[0], ready[1..], capacity);
      assert ready[..n + 1] == [ready[0]] + ready[1..][..n];
      assert out == output + (ready[0] + Concat(ready[1..][..n]));
      (out, n + 1)
  }

  /** Everything is appended if and only if it fits all together; otherwise the first response left
      out is one that would not fit. */
  lemma {:induction false} AppendExactly(output: string, ready: seq<string>, capacity: nat)
    requires |output| <= capacity
    ensures var (out, n) := AppendAll(output, ready, capacity);
            && (n == |ready| <==> |output| + |Concat(ready)| <= capacity)
            && (n < |ready| ==> |out| + |ready[n]| > capacity)
    decreases |ready|
  {
    if ready != [] && |output| + |ready[0]| <= capacity {
      AppendExactly(output + ready[0], ready[1..], capacity);
    }
  }

  datatype Delivery = Delivery(conn: Conn, ready: seq<string>, appended: nat)

  /** Record a response and append the run it releases. */
  function Deliver(c: Conn, sequence: nat, text: string, maxOutput: nat): (d: Delivery)
    ensures d.appended <= |d.ready|
    ensures d.conn.generation == c.generation && d.conn.input == c.input
  {
    var (seqr, ready) := Record(c.seqr, sequence, text);
    var (output, n) := AppendAll(c.output, ready, maxOutput);
    Delivery(c.(seqr := seqr, output := output), ready, n)
  }

  /** All released responses fitted the output buffer. */
  predicate Fitted(d: Delivery) {
    d.appended == |d.ready|
  }

  // One turn of the parse loop ---------------------------------------------------------

  datatype Turn =
    | Pause
    | Enqueue(conn: Conn, sequence: nat, command: Command)
    | Reply(delivery: Delivery, event: Event, fate: Fate, taken: nat)

  /** Bytes consumed by a frame; a framing error consumes nothing. */
  function Consumed(r: ParseResult): nat {
    if Complete(r) then Taken(r) else 0
  }

  function Refusal(status: PushStatus): Fate {
    if status == PushClosed then ShuttingDown else Busy
  }

  /** What one iteration does, given what the work queue would say to a push. */
  function TurnOf(c: Conn, cfg: Config, status: PushStatus): (t: Turn)
    ensures t.Reply? ==> t.delivery.appended <= |t.delivery.ready| && t.delivery.conn.generation == c.generation
  {
    if c.seqr.InFlight() >= cfg.maxInFlight then Pause
    else
      var r := Parse(c.input);
      if r.NeedMoreData? then Pause
      else
        var taken := Consumed(r);
        var c' := c.(input := c.input[taken..], seqr := Assign(c.seqr));
        if r.Parsed? && status == PushOk then Enqueue(c', c.seqr.nextRequest, r.command)
        else
          var fate := if r.Parsed? then Refusal(status) else ProtocolFailure;
          var event := EventOf(r);
          Reply(Deliver(c', c.seqr.nextRequest, Text(event, fate), cfg.maxOutput), event, fate, taken)
  }

  /** The loop goes on after a reply unless the framing broke or the output overflowed. */
  predicate KeepsGoing(t: Turn)
    requires t.Reply?
  {
    Fitted(t.delivery) && !t.event.Fatal?
  }
}
