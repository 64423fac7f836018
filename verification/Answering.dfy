/** A whole conversation: a client sends a command to a server that accepts commands, and the reply
    arrives at its socket. */
module Answering {
  import opened Bytes
  import opened Parser
  import opened Framing
  import opened CommandMeaning
  import opened Queueing
  import opened Sequencing
  import opened Requests
  import opened Dispatcher
  import opened Loop
  import opened LoopLaws
  import opened System
  import opened ProgramOrder
  import P = Pipeline
  import G = PipelineGuarantees
  import L = Linearization
  import C = Scenarios
  import Replies
  import Sharding

  /** The loop is reading connection 0, whose only request worker 0 has just answered. */
  predicate JustAnswered(s: P.State, response: string) {
    && |s.workers| > 0 && s.workers[0] == P.Ready(P.Completion(0, Tag(1, 0), response))
    && s.completions.items == [] && s.completions.capacity > 0 && !s.completions.closed
    && s.pc == P.Reading(0) && 0 in s.conns && s.conns[0] == NewConn(1).(seqr := Assign(FRESH))
  }

  lemma Completed(s: P.State, cfg: Config, response: string) returns (t: P.State)
    requires JustAnswered(s, response)
    ensures G.Run(s, cfg, [P.PushCompletion(0), P.Notify(0)], t)
    ensures t.completions.items == [P.Completion(0, Tag(1, 0), response)] && t.signalled
    ensures t.pc == s.pc && t.conns == s.conns && t.dispatched == s.dispatched
  {
    hide G.Run;
    t := P.Apply(P.Apply(s, cfg, P.PushCompletion(0)), cfg, P.Notify(0));
    C.RunTwo(s, cfg, P.PushCompletion(0), P.Notify(0));
  }

  lemma Woken(s: P.State, cfg: Config) returns (t: P.State)
    requires s.pc == P.Reading(0) && 0 in s.conns && s.signalled
    ensures G.Run(s, cfg, [P.ReadBlocked, P.Flush(0), P.Wake], t)
    ensures t.pc == P.Draining && t.conns == s.conns && t.completions == s.completions && t.dispatched == s.dispatched
  {
    hide G.Run;
    var v := P.Apply(P.Apply(s, cfg, P.ReadBlocked), cfg, P.Flush(0));
    C.RunTwo(s, cfg, P.ReadBlocked, P.Flush(0));
    t := P.Apply(v, cfg, P.Wake);
    C.RunOne(v, cfg, P.Wake);
    C.RunConcat(s, cfg, [P.ReadBlocked, P.Flush(0)], v, [P.Wake], t);
    assert [P.ReadBlocked, P.Flush(0)] + [P.Wake] == [P.ReadBlocked, P.Flush(0), P.Wake];
  }

  /** The only outstanding response is released at once. */
  lemma FirstRecorded(response: string)
    ensures Record(Assign(FRESH), 0, response) == (Sequencer(1, 1, map[]), [response])
  {
    var placed := Assign(FRESH).(pending := map[0 := response]);
    RecordRun(Assign(FRESH), 0, response);
    var (t, ready) := Record(Assign(FRESH), 0, response);
    assert 0 in placed.pending && 1 !in placed.pending;
    assert ready == [response];
    assert t.pending == map[];
  }

  lemma FirstReleased(c: Conn, response: string, maxOutput: nat)
    requires c.output == "" && c.seqr == Assign(FRESH) && |response| <= maxOutput
    ensures var d := Deliver(c, 0, response, maxOutput);
            && Fitted(d) && d.ready == [response]
            && d.conn == c.(output := response, seqr := Sequencer(1, 1, map[]))
  {
    hide Record;
    FirstRecorded(response);
    DeliverExactly(c, 0, response, maxOutput);
    assert Concat([response]) == response + Concat([response][1..]);
    assert "" + response == response;
  }

  lemma DeliveredAndSent(s: P.State, cfg: Config, response: string) returns (t: P.State)
    requires s.pc == P.Draining && s.completions.items == [P.Completion(0, Tag(1, 0), response)]
    requires 0 in s.conns && s.conns[0] == NewConn(1).(seqr := Assign(FRESH)) && |response| <= cfg.maxOutput
    ensures G.Run(s, cfg, [P.Drain(0), P.ParseTurn(0), P.Flush(|response|)], t)
    ensures 0 in t.conns && t.conns[0] == Conn(1, "", "", Sequencer(1, 1, map[])) && t.dispatched == s.dispatched
  {
    hide G.Run, P.HistOf, P.Delivered, Deliver, TurnOf;
    FirstReleased(s.conns[0], response, cfg.maxOutput);
    var u := P.Apply(s, cfg, P.Drain(0));
    C.EmptyTurn(u.conns[0], cfg, P.QueueStatus(u.work));
    var v := P.Apply(u, cfg, P.ParseTurn(0));
    t := P.Apply(v, cfg, P.Flush(|response|));
    C.RunTwo(s, cfg, P.Drain(0), P.ParseTurn(0));
    C.RunOne(v, cfg, P.Flush(|response|));
    C.RunConcat(s, cfg, [P.Drain(0), P.ParseTurn(0)], v, [P.Flush(|response|)], t);
    assert [P.Drain(0), P.ParseTurn(0)] + [P.Flush(|response|)] == [P.Drain(0), P.ParseTurn(0), P.Flush(|response|)];
  }

  function Sending(response: string): seq<P.Step> {
    [P.PushCompletion(0), P.Notify(0)] + [P.ReadBlocked, P.Flush(0), P.Wake]
    + [P.Drain(0), P.ParseTurn(0), P.Flush(|response|)]
  }

  lemma Sent(s: P.State, cfg: Config, response: string) returns (t: P.State)
    requires JustAnswered(s, response) && |response| <= cfg.maxOutput
    ensures G.Run(s, cfg, Sending(response), t)
    ensures 0 in t.conns && t.conns[0] == Conn(1, "", "", Sequencer(1, 1, map[])) && t.dispatched == s.dispatched
  {
    hide G.Run;
    var a, b := [P.PushCompletion(0), P.Notify(0)], [P.ReadBlocked, P.Flush(0), P.Wake];
    var c := [P.Drain(0), P.ParseTurn(0), P.Flush(|response|)];
    var u := Completed(s, cfg, response);
    var v := Woken(u, cfg);
    t := DeliveredAndSent(v, cfg, response);
    C.RunConcat(s, cfg, a, u, b, v);
    C.RunConcat(s, cfg, a + b, v, c, t);
  }

  /** Everything appended to an open connection whose output is empty and whose only request was
      released has reached the client. */
  lemma AllSent(hash: string -> nat, t: State, cfg: Config)
    requires Inv(hash, t, cfg) && 0 in t.pipe.conns && t.pipe.conns[0] == Conn(1, "", "", Sequencer(1, 1, map[]))
    ensures 1 in t.pipe.hist && P.HistOk(t.pipe.hist[1]) && |t.pipe.hist[1].events| == 1
    ensures t.pipe.hist[1].sent == t.pipe.hist[1].appended == Text(t.pipe.hist[1].events[0], t.pipe.hist[1].fates[0])
  {
    hide P.HistsOk, P.RecordsOk, P.Unique, P.WakeOk, P.NoneStuck, P.Tokens, P.Conserved, Consumes, Text, L.Inv,
         G.Logged,
         AcceptedOk, Linked, Answered, Frames;
    assert P.OpenOk(t.pipe, cfg, 0);
    var h := t.pipe.hist[1];
    assert P.ReplyBytes(h.events, h.fates, 1) == "" + Text(h.events[0], h.fates[0]);
    assert h.sent + "" == h.sent;
  }

  lemma DispatchedIsText(hash: string -> nat, t: State, cfg: Config, response: string)
    requires Inv(hash, t, cfg) && t.pipe.dispatched == [P.Completion(0, Tag(1, 0), response)] && |t.store.log| == 1
    ensures 1 in t.pipe.hist && |t.pipe.hist[1].events| == |t.pipe.hist[1].fates| > 0
    ensures t.pipe.hist[1].events[0] == Request(t.store.log[0].command) && t.pipe.hist[1].fates[0] == Replied(response)
  {
    hide P.Inv, L.Inv, AcceptedOk, Linked;
    assert P.CompletionOk(t.pipe.hist, t.pipe.dispatched[0]);
    assert HasEntry(t.store.log, t.pipe.dispatched[0], t.pipe);
  }

  lemma FirstAnswer(hash: string -> nat, workCapacity: nat, completionCapacity: nat, workers: nat, shardCount: nat,
                    clock: int, cfg: Config, steps: seq<Step>, t: State, command: Command)
    requires shardCount > 0 && Sharding.IsPow2(shardCount)
    requires Run(hash, Init(workCapacity, completionCapacity, workers, shardCount, clock), cfg, steps, t)
    requires |t.store.log| == 1 && t.store.log[0].command == command
    ensures t.store.log[0].answer == L.Exec(map[], command, t.store.log[0].time).1
  {
    hide Run, Inv, L.Inv, L.Exec;
    InitInv(hash, workCapacity, completionCapacity, workers, shardCount, clock, cfg);
    RunInv(hash, Init(workCapacity, completionCapacity, workers, shardCount, clock), cfg, steps, t);
    Parts(hash, t, cfg);
    LogExplained(hash, t.store);
    assert t.store.log[0].answer == L.AnswerAt(t.store.log, 0);
  }

  /** A configuration in which a command can be accepted, executed and answered. */
  predicate Serves(workCapacity: nat, completionCapacity: nat, workers: nat, cfg: Config) {
    workers > 0 && workCapacity > 0 && completionCapacity > 0 && cfg.maxInFlight > 0
  }

  /** A client connects, sends one command that fits, and reads the reply that the simple map gives to
      it; the connection stays open. */
  lemma CommandIsAnswered(hash: string -> nat, workCapacity: nat, completionCapacity: nat, workers: nat,
                          shardCount: nat,
                          clock: int, cfg: Config, command: Command) returns (steps: seq<Step>, t: State, time: int)
    requires shardCount > 0 && Sharding.IsPow2(shardCount)
    requires Serves(workCapacity, completionCapacity, workers, cfg) && C.Fits(command, cfg)
    requires forall at :: |Replies.Encode(ReplyOf(L.Exec(map[], command, at).1))| <= cfg.maxOutput
    ensures Run(hash, Init(workCapacity, completionCapacity, workers, shardCount, clock), cfg, steps, t)
    ensures 0 in t.pipe.conns && 1 in t.pipe.hist && t.pipe.hist[1].events == [Request(command)]
    ensures t.pipe.hist[1].sent == t.pipe.hist[1].appended == Replies.Encode(ReplyOf(L.Exec(map[], command, time).1))
  {
    hide Run, Apply, Enabled, Inv, C.Fits, Replies.Encode, ReplyOf, L.Exec;
    var s := Init(workCapacity, completionCapacity, workers, shardCount, clock);
    var s0, s1, s2, more;
    steps, s0 := TakeFirst(hash, workCapacity, completionCapacity, workers, shardCount, clock, cfg, command);
    more, s1 := Execute(hash, s0, cfg, 0);
    RunConcat(hash, s, cfg, steps, s0, more, s1);
    steps := steps + more;
    s2 := FinishOne(hash, s1, cfg, 0);
    RunSnoc(hash, s, cfg, steps, s1, Finish(0));
    steps := steps + [Finish(0)];
    var response := Response(s1, 0);
    time := s2.store.log[0].time;
    FirstAnswer(hash, workCapacity, completionCapacity, workers, shardCount, clock, cfg, steps, s2, command);
    var p := Sent(s2.pipe, cfg, response);
    LiftRun(hash, s2, cfg, Sending(response), p);
    t := State(p, s2.store);
    RunConcat(hash, s, cfg, steps, s2, Lifted(Sending(response)), t);
    steps := steps + Lifted(Sending(response));
    InitInv(hash, workCapacity, completionCapacity, workers, shardCount, clock, cfg);
    RunInv(hash, s, cfg, steps, t);
    AllSent(hash, t, cfg);
    DispatchedIsText(hash, t, cfg, response);
  }

  /** In particular a PING is answered with PONG. */
  lemma PingIsAnswered(hash: string -> nat, workCapacity: nat, completionCapacity: nat, workers: nat, shardCount: nat,
                       clock: int, cfg: Config) returns (steps: seq<Step>, t: State)
    requires shardCount > 0 && Sharding.IsPow2(shardCount) && Serves(workCapacity, completionCapacity, workers, cfg)
    requires cfg.maxInput >= SMALLEST_COMMAND && cfg.maxOutput >= 7
    ensures Run(hash, Init(workCapacity, completionCapacity, workers, shardCount, clock), cfg, steps, t)
    ensures 0 in t.pipe.conns && 1 in t.pipe.hist && t.pipe.hist[1].events == [Request(Ping)]
    ensures t.pipe.hist[1].sent == t.pipe.hist[1].appended == "+PONG\r\n"
  {
    hide Run, Init, C.Fits;
    C.PingFits(cfg);
    var time;
    steps, t, time := CommandIsAnswered(hash, workCapacity, completionCapacity, workers, shardCount, clock, cfg, Ping);
  }

  // Broken input -----------------------------------------------------------------------

  const NOT_AN_ARRAY: string := "-expected RESP array ('*')\r\n"

  lemma BrokenVerdict(input: string)
    requires input != "" && input[0] != '*'
    ensures Parse(input) == Failed(Malformed("expected RESP array ('*')"))
  {
  }

  lemma BrokenText()
    ensures Replies.EncodeError("expected RESP array ('*')") == NOT_AN_ARRAY
  {
  }

  lemma BrokenTurn(c: Conn, cfg: Config, status: PushStatus)
    requires c == NewConn(1).(input := "x") && cfg.maxInFlight > 0 && |NOT_AN_ARRAY| <= cfg.maxOutput
    ensures var t := TurnOf(c, cfg, status);
            && t.Reply? && t.event.Fatal? && Fitted(t.delivery)
            && t.delivery.conn.output == NOT_AN_ARRAY && t.delivery.ready == [NOT_AN_ARRAY]
  {
    hide Parse, Deliver, NOT_AN_ARRAY, Replies.EncodeError;
    BrokenVerdict(c.input);
    BrokenText();
    assert c.input[0..] == c.input;
    FirstReleased(c.(seqr := Assign(FRESH)), NOT_AN_ARRAY, cfg.maxOutput);
  }

  /** A client that sends something that is no request is told so and disconnected. */
  lemma BrokenInputIsTold(workCapacity: nat, completionCapacity: nat, workers: nat, cfg: Config)
      returns (steps: seq<P.Step>, t: P.State)
    requires cfg.maxInput > 0 && cfg.maxInFlight > 0 && |NOT_AN_ARRAY| <= cfg.maxOutput
    ensures G.Run(G.Init(workCapacity, completionCapacity, workers), cfg, steps, t)
    ensures 0 !in t.conns && 1 in t.hist && t.hist[1].received == "x" && t.hist[1].sent == NOT_AN_ARRAY
  {
    hide G.Run, TurnOf, NOT_AN_ARRAY;
    var s := G.Init(workCapacity, completionCapacity, workers);
    var n := |NOT_AN_ARRAY|;
    var u := P.Apply(P.Apply(s, cfg, P.Accept(0)), cfg, P.StartRead(0));
    C.RunTwo(s, cfg, P.Accept(0), P.StartRead(0));
    var v := P.Apply(u, cfg, P.Receive("x"));
    assert "" + "x" == "x";
    BrokenTurn(v.conns[0], cfg, P.QueueStatus(v.work));
    t := P.Apply(v, cfg, P.ParseTurn(n));
    C.RunTwo(u, cfg, P.Receive("x"), P.ParseTurn(n));
    C.RunConcat(s, cfg, [P.Accept(0), P.StartRead(0)], u, [P.Receive("x"), P.ParseTurn(n)], t);
    steps := [P.Accept(0), P.StartRead(0)] + [P.Receive("x"), P.ParseTurn(n)];
    assert NOT_AN_ARRAY[..n] == NOT_AN_ARRAY;
  }
}
