/** Per-connection response ordering: sequence numbers go out in request order, responses come
    back in any order, and the sequencer releases the longest run it can. */
module Sequencing {
  import opened Bytes

  datatype Sequencer = Sequencer(nextRequest: nat, nextExpected: nat, pending: map<nat, string>) {
    /** Requests assigned but not yet released. */
    function InFlight(): int {
      nextRequest - nextExpected
    }

    /** Pending responses wait strictly between the next one to release and the next to assign. */
    predicate Valid() {
      && nextExpected <= nextRequest
      && forall k | k in pending :: nextExpected < k < nextRequest
    }
  }

  const FRESH: Sequencer := Sequencer(0, 0, map[])

  function Assign(s: Sequencer): Sequencer {
    s.(nextRequest := s.nextRequest + 1)
  }

  /** The sequencer after the expected response was taken out. */
  function Advance(s: Sequencer): Sequencer {
    Sequencer(s.nextRequest, s.nextExpected + 1, s.pending - {s.nextExpected})
  }

  lemma AdvanceShrinks(s: Sequencer)
    requires s.nextExpected in s.pending
    ensures |Advance(s).pending| < |s.pending|
  {
    assert Advance(s).pending.Keys == s.pending.Keys - {s.nextExpected};
  }

  /** Take responses out while the expected one is there. */
  function Release(s: Sequencer): (Sequencer, seq<string>)
    decreases |s.pending|
  {
    if s.nextExpected in s.pending then
      AdvanceShrinks(s);
      var r := Release(Advance(s));
      (r.0, [s.pending[s.nextExpected]] + r.1)
    else (s, [])
  }

  /** What a release does: it hands out the consecutive run of pending responses that starts at
      the expected number, in order, and keeps the others. */
  predicate IsRun(s: Sequencer, t: Sequencer, ready: seq<string>) {
    && t.nextRequest == s.nextRequest
    && t.nextExpected == s.nextExpected + |ready|
    && t.nextExpected !in s.pending
    && (forall k | s.nextExpected <= k < t.nextExpected :: k in s.pending && ready[k - s.nextExpected] == s.pending[k])
    && (forall k | k in t.pending ::
          k in s.pending && t.pending[k] == s.pending[k] && !(s.nextExpected <= k < t.nextExpected))
    && (forall k | k in s.pending && !(s.nextExpected <= k < t.nextExpected) :: k in t.pending)
  }

  lemma {:induction false} ReleaseRun(s: Sequencer)
    ensures IsRun(s, Release(s).0, Release(s).1)
    decreases |s.pending|
  {
    if s.nextExpected in s.pending {
      AdvanceShrinks(s);
      ReleaseRun(Advance(s));
      RunStep(s, Release(Advance(s)).0, Release(Advance(s)).1);
    }
  }

  lemma RunStep(s: Sequencer, t: Sequencer, tail: seq<string>)
    requires s.nextExpected in s.pending && IsRun(Advance(s), t, tail)
    ensures IsRun(s, t, [s.pending[s.nextExpected]] + tail)
  {
    var u := Advance(s);
    var ready := [s.pending[s.nextExpected]] + tail;
    forall k | s.nextExpected <= k < t.nextExpected
      ensures k in s.pending && ready[k - s.nextExpected] == s.pending[k]
    {
      if k > s.nextExpected {
        assert k in u.pending && tail[k - u.nextExpected] == u.pending[k];
      }
    }
  }

  /** `emplace` keeps an existing entry. */
  function Emplace(pending: map<nat, string>, sequence: nat, response: string): map<nat, string> {
    if sequence in pending then pending else pending[sequence := response]
  }

  function Record(s: Sequencer, sequence: nat, response: string): (Sequencer, seq<string>) {
    Release(s.(pending := Emplace(s.pending, sequence, response)))
  }

  /** A number that is issued but neither released nor answered. */
  predicate Outstanding(s: Sequencer, k: nat) {
    s.nextExpected <= k < s.nextRequest && k !in s.pending
  }

  /** Recording an outstanding response keeps the sequencer valid, releases the run it completes,
      and settles that number and no other. */
  lemma RecordRun(s: Sequencer, sequence: nat, response: string)
    requires s.Valid() && Outstanding(s, sequence)
    ensures var (t, ready) := Record(s, sequence, response);
            && IsRun(s.(pending := s.pending[sequence := response]), t, ready)
            && t.Valid()
            && forall k: nat :: Outstanding(t, k) <==> Outstanding(s, k) && k != sequence
  {
    var placed := s.(pending := s.pending[sequence := response]);
    ReleaseRun(placed);
    var (t, ready) := Record(s, sequence, response);
    assert IsRun(placed, t, ready);
    if t.nextExpected > s.nextExpected {
      assert t.nextExpected - 1 in placed.pending;
    }
    forall k: nat
      ensures Outstanding(t, k) <==> Outstanding(s, k) && k != sequence
    {
      if s.nextExpected <= k < t.nextExpected {
        assert k in placed.pending;
      }
    }
  }

  class ResponseSequencer {
    var nextRequest: nat
    var nextExpected: nat
    var pending: map<nat, string>

    function Model(): Sequencer
      reads this
    {
      Sequencer(nextRequest, nextExpected, pending)
    }

    constructor ()
      ensures Model() == FRESH
    {
      nextRequest, nextExpected, pending := 0, 0, map[];
    }

    method NextRequestSequence() returns (sequence: nat)
      modifies this
      ensures sequence == old(nextRequest)
      ensures Model() == Assign(old(Model()))
    {
      sequence := nextRequest;
      nextRequest := nextRequest + 1;
    }

    method InFlightCount() returns (n: nat)
      requires Model().Valid()
      ensures n == Model().InFlight()
    {
      n := nextRequest - nextExpected;
    }

    /** The releasing loop. */
    method RecordResponse(sequence: nat, response: string) returns (ready: seq<string>)
      modifies this
      ensures (Model(), ready) == Record(old(Model()), sequence, response)
    {
      if sequence !in pending {
        pending := pending[sequence := response];
      }
      ready := [];
      ghost var start := Model();
      assert ready + Release(start).1 == Release(start).1;
      while nextExpected in pending
        invariant Release(start) == (Release(Model()).0, ready + Release(Model()).1)
        decreases |pending|
      {
        ghost var before := Model();
        ghost var tail := Release(Advance(before)).1;
        assert ready + ([pending[nextExpected]] + tail) == (ready + [pending[nextExpected]]) + tail;
        AdvanceShrinks(before);
        ready := ready + [pending[nextExpected]];
        pending := pending - {nextExpected};
        nextExpected := nextExpected + 1;
        assert Model() == Advance(before);
      }
      assert ready + [] == ready;
    }
  }

  // Any order --------------------------------------------------------------------------

  datatype Action = Issue | Answer(sequence: nat, response: string)

  /** A sequencer with everything it ever released and every answer it was ever given. */
  datatype Trace = Trace(s: Sequencer, released: seq<string>, answers: map<nat, string>)

  /** An answer is given once, to a number that was issued. */
  predicate Allowed(t: Trace, a: Action) {
    a.Answer? ==> a.sequence < t.s.nextRequest && a.sequence !in t.answers
  }

  function Perform(t: Trace, a: Action): Trace {
    match a
    case Issue => t.(s := Assign(t.s))
    case Answer(k, response) =>
      var r := Record(t.s, k, response);
      Trace(r.0, t.released + r.1, t.answers[k := response])
  }

  function PerformAll(t: Trace, actions: seq<Action>): Trace
    decreases |actions|
  {
    if actions == [] then t else PerformAll(Perform(t, actions[0]), actions[1..])
  }

  predicate AllAllowed(t: Trace, actions: seq<Action>)
    decreases |actions|
  {
    actions == [] || (Allowed(t, actions[0]) && AllAllowed(Perform(t, actions[0]), actions[1..]))
  }

  /** The released responses are exactly the answers to the first requests, in request order;
      the later answers wait; and the next expected one has not come yet. */
  predicate InOrder(t: Trace) {
    && t.s.Valid()
    && |t.released| == t.s.nextExpected
    && (forall i | 0 <= i < |t.released| :: i in t.answers && t.released[i] == t.answers[i])
    && t.s.nextExpected !in t.answers
    && (forall k | k in t.answers :: k < t.s.nextRequest)
    && (forall k | k in t.answers && k >= t.s.nextExpected :: k in t.s.pending)
    && (forall k | k in t.s.pending :: k in t.answers && t.s.pending[k] == t.answers[k])
  }

  lemma PerformInOrder(t: Trace, a: Action)
    requires InOrder(t) && Allowed(t, a)
    ensures InOrder(Perform(t, a))
  {
    if a.Answer? {
      assert a.sequence !in t.s.pending;
      RecordRun(t.s, a.sequence, a.response);
      var t' := Perform(t, a);
      var placed := t.s.(pending := t.s.pending[a.sequence := a.response]);
      var ready := Record(t.s, a.sequence, a.response).1;
      forall i | 0 <= i < |t'.released|
        ensures i in t'.answers && t'.released[i] == t'.answers[i]
      {
        if i >= |t.released| {
          assert i in placed.pending && ready[i - t.s.nextExpected] == placed.pending[i];
        }
      }
    }
  }

  /** Whatever the order of answers, the released stream is the request-order stream, and once
      every request is answered everything is released. */
  lemma {:induction false} AnyOrder(t: Trace, actions: seq<Action>)
    requires InOrder(t) && AllAllowed(t, actions)
    ensures InOrder(PerformAll(t, actions))
    ensures var e := PerformAll(t, actions);
            (forall k | 0 <= k < e.s.nextRequest :: k in e.answers) ==>
                |e.released| == e.s.nextRequest && e.s.pending == map[]
    decreases |actions|
  {
    if actions != [] {
      PerformInOrder(t, actions[0]);
      AnyOrder(Perform(t, actions[0]), actions[1..]);
    }
    var e := PerformAll(t, actions);
    if forall k | 0 <= k < e.s.nextRequest :: k in e.answers {
      assert e.s.nextExpected == e.s.nextRequest;
      assert forall k :: k !in e.s.pending;
    }
  }
}
