/** The parse-and-consume loop over a byte stream, and what splitting the stream into reads
    can and cannot change. */
module Framing {
  import opened Bytes
  import opened Parser
  import opened ParserStability

  /** What the server does with one frame: run a command, answer a recoverable error, or
      answer a framing error and hang up. */
  datatype Event = Request(command: Command) | Rejected(error: ProtocolError) | Fatal(error: ProtocolError)

  /** The frame was delimited, so its bytes can be consumed and parsing goes on. */
  predicate Complete(r: ParseResult) {
    r.Parsed? || (r.Failed? && r.error.recoverable)
  }

  function EventOf(r: ParseResult): Event
    requires !r.NeedMoreData?
  {
    match r
    case Parsed(command, _) => Request(command)
    case Failed(e) => if e.recoverable then Rejected(e) else Fatal(e)
  }

  function Taken(r: ParseResult): nat
    requires Complete(r)
  {
    if r.Parsed? then r.consumed else r.error.consumed
  }

  lemma CompleteIsDone(s: string)
    ensures Complete(Parse(s)) <==> ReadFrame(s).Done?
    ensures ReadFrame(s).Done? ==> Taken(Parse(s)) == ReadFrame(s).consumed
  {
    hide ReadFrame, BuildCommand;
  }

  /** Every event in a byte string, in order. */
  function Frames(s: string): seq<Event>
    decreases |s|
  {
    var r := Parse(s);
    if r.NeedMoreData? then []
    else if Complete(r) then [EventOf(r)] + Frames(s[Taken(r)..])
    else [EventOf(r)]
  }

  /** What stays in the buffer: an unfinished frame, or the frame that broke the framing. */
  function Leftover(s: string): string
    decreases |s|
  {
    var r := Parse(s);
    if Complete(r) then Leftover(s[Taken(r)..]) else s
  }

  predicate Dead(events: seq<Event>) {
    events != [] && events[|events| - 1].Fatal?
  }

  /** The loop run after each read: parse all it can, keep the rest, stop for good when the
      framing breaks. */
  function Feed(buffer: string, chunks: seq<string>): seq<Event>
    decreases |chunks|
  {
    if chunks == [] then []
    else
      var s := buffer + chunks[0];
      if Dead(Frames(s)) then Frames(s)
      else Frames(s) + Feed(Leftover(s), chunks[1..])
  }

  // Consumed prefixes ------------------------------------------------------------------

  /** `s` is exactly the frames of `events`, none of them fatal. */
  predicate Consumes(s: string, events: seq<Event>)
    decreases |events|
  {
    if events == [] then s == ""
    else
      var r := Parse(s);
      Complete(r) && EventOf(r) == events[0] && Consumes(s[Taken(r)..], events[1..])
  }

  lemma CompleteStable(s: string, q: string)
    requires Complete(Parse(s))
    ensures Parse(s + q) == Parse(s)
    ensures (s + q)[Taken(Parse(s))..] == s[Taken(Parse(s))..] + q
  {
    CompleteIsDone(s);
    DoneStable(s, q);
  }

  lemma CompleteExact(s: string)
    requires Complete(Parse(s))
    ensures Parse(s[..Taken(Parse(s))]) == Parse(s)
  {
    CompleteIsDone(s);
    FrameExact(s);
  }

  /** Frames already consumed keep their meaning whatever arrives behind them. */
  lemma {:induction false} ConsumesFrames(s: string, events: seq<Event>, q: string)
    requires Consumes(s, events)
    ensures Frames(s + q) == events + Frames(q)
    decreases |events|
  {
    hide Parse;
    if events == [] {
      assert s + q == q;
    } else {
      CompleteStable(s, q);
      ConsumesFrames(s[Taken(Parse(s))..], events[1..], q);
      assert events == [events[0]] + events[1..];
    }
  }

  lemma {:induction false} ConsumesSnoc(s: string, events: seq<Event>, t: string)
    requires Consumes(s, events) && Complete(Parse(t))
    ensures Consumes(s + t[..Taken(Parse(t))], events + [EventOf(Parse(t))])
    decreases |events|
  {
    hide Parse;
    var f := t[..Taken(Parse(t))];
    if events == [] {
      CompleteExact(t);
      assert s + f == f;
      assert f[Taken(Parse(f))..] == "";
    } else {
      CompleteStable(s, f);
      ConsumesSnoc(s[Taken(Parse(s))..], events[1..], t);
      assert (events + [EventOf(Parse(t))])[1..] == events[1..] + [EventOf(Parse(t))];
    }
  }

  // Chunk independence -----------------------------------------------------------------

  /** The first frame's outcome hinges on a 20-character header arriving with its LF: its array
      header has 20 characters, or a bulk header does and no later one is even longer. */
  predicate Exposed(s: string) {
    WideArray(s) || (Wide(s) && !LongFrame(s))
  }

  /** Some frame of the stream is exposed. */
  predicate StreamExposed(s: string)
    decreases |s|
  {
    Exposed(s) || (Complete(Parse(s)) && StreamExposed(s[Taken(Parse(s))..]))
  }

  lemma FatalStable(s: string, q: string)
    requires ReadFrame(s).Bad? && !Exposed(s + q)
    ensures ReadFrame(s + q) == ReadFrame(s)
  {
    hide ReadFrame, LongFrame;
    LongFrameIsTooLong(s + q);
    if AtCut(s) && StartsWithLf(q) {
      CutHeals(s, q);
    } else {
      FrameStable(s, q);
    }
  }

  lemma ParseFatalStable(s: string, q: string)
    requires !Parse(s).NeedMoreData? && !Complete(Parse(s)) && !Exposed(s + q)
    ensures Parse(s + q) == Parse(s)
  {
    hide ReadFrame, BuildCommand, Exposed;
    CompleteIsDone(s);
    FatalStable(s, q);
  }

  /** Unfolding one complete frame at the front of `s`, with or without bytes behind it. */
  lemma FramesStep(s: string, q: string)
    requires Complete(Parse(s))
    ensures var t := s[Taken(Parse(s))..];
            && Frames(s + q) == [EventOf(Parse(s))] + Frames(t + q)
            && Frames(s) == [EventOf(Parse(s))] + Frames(t)
            && Leftover(s) == Leftover(t)
            && (Dead(Frames(s)) <==> Dead(Frames(t)))
            && (StreamExposed(t + q) ==> StreamExposed(s + q))
  {
    hide Parse, Exposed;
    CompleteStable(s, q);
  }

  lemma FramesSplitBase(s: string, q: string)
    requires !Complete(Parse(s)) && !StreamExposed(s + q)
    ensures Leftover(s) == s
    ensures if Parse(s).NeedMoreData? then Frames(s) == []
            else Dead(Frames(s)) && Frames(s + q) == Frames(s)
  {
    hide Parse, Exposed;
    if !Parse(s).NeedMoreData? {
      ParseFatalStable(s, q);
    }
  }

  /** Splitting an unexposed stream at any point changes nothing. */
  lemma {:induction false} FramesSplit(s: string, q: string)
    requires !StreamExposed(s + q)
    ensures Dead(Frames(s)) ==> Frames(s + q) == Frames(s)
    ensures !Dead(Frames(s)) ==>
              Frames(s + q) == Frames(s) + Frames(Leftover(s) + q) && !StreamExposed(Leftover(s) + q)
    decreases |s|
  {
    hide Parse, Exposed, StreamExposed, Frames, Leftover;
    if Complete(Parse(s)) {
      var t := s[Taken(Parse(s))..];
      FramesStep(s, q);
      FramesSplit(t, q);
      if !Dead(Frames(t)) {
        assert Frames(s + q) == Frames(s) + Frames(Leftover(t) + q);
      }
    } else {
      FramesSplitBase(s, q);
    }
  }

  lemma {:induction false} FeedWhole(buffer: string, chunks: seq<string>)
    requires Parse(buffer).NeedMoreData?
    requires !StreamExposed(buffer + Concat(chunks))
    ensures Feed(buffer, chunks) == Frames(buffer + Concat(chunks))
    decreases |chunks|
  {
    hide Parse, StreamExposed;
    if chunks == [] {
      assert buffer + Concat(chunks) == buffer;
    } else {
      var s := buffer + chunks[0];
      var q := Concat(chunks[1..]);
      assert buffer + Concat(chunks) == s + q;
      FramesSplit(s, q);
      LeftoverWaits(s);
      if !Dead(Frames(s)) {
        FeedWhole(Leftover(s), chunks[1..]);
      }
    }
  }

  lemma {:induction false} LeftoverWaits(s: string)
    ensures Dead(Frames(s)) || Parse(Leftover(s)).NeedMoreData?
    decreases |s|
  {
    hide Parse;
    var r := Parse(s);
    if Complete(r) {
      LeftoverWaits(s[Taken(r)..]);
    }
  }

  /** An exposed stream has a split that makes the server hang up on a frame that, seen whole,
      it treats differently. */
  lemma {:induction false} ExposedSplit(s: string) returns (c: nat)
    requires StreamExposed(s)
    ensures c <= |s| && Dead(Frames(s[..c])) && Frames(s[..c]) != Frames(s)
    decreases |s|
  {
    hide Parse, Exposed;
    if Exposed(s) {
      c := ExposedFrameSplit(s);
      assert Frames(s[..c]) == [EventOf(Parse(s[..c]))];
    } else {
      var r := Parse(s);
      var n := Taken(r);
      var d := ExposedSplit(s[n..]);
      c := n + d;
      CompleteExact(s);
      assert s[..c] == s[..n] + s[n..][..d];
      CompleteStable(s[..n], s[n..][..d]);
      assert s[..n][n..] + s[n..][..d] == s[n..][..d];
      assert Frames(s[..c]) == [EventOf(r)] + Frames(s[n..][..d]);
      assert Frames(s) == [EventOf(r)] + Frames(s[n..]);
      assert Frames(s[..c])[1..] == Frames(s[n..][..d]) && Frames(s)[1..] == Frames(s[n..]);
    }
  }

  lemma ExposedFrameSplit(s: string) returns (c: nat)
    requires Exposed(s)
    ensures c <= |s| && Parse(s[..c]).Failed? && !Parse(s[..c]).error.recoverable
    ensures Parse(s) != Parse(s[..c])
  {
    hide ReadFrame, BuildCommand, LongFrame;
    LongFrameIsTooLong(s);
    c := WideCut(s);
    assert s == s[..c] + s[c..];
    CutHeals(s[..c], s[c..]);
    if CutArray(s[..c]) {
      ArrayTooLongOnlyThere(s);
    }
    FatalDiffers(s[..c], s);
  }

  lemma TwoReads(a: string, b: string)
    requires Dead(Frames(a))
    ensures Concat([a, b]) == a + b && Feed("", [a, b]) == Frames(a)
  {
    hide Frames;
    assert [a, b][1..] == [b];
    assert Concat([b]) == b + Concat([b][1..]);
    assert "" + [a, b][0] == a;
  }

  lemma EmptyWaits()
    ensures Parse("").NeedMoreData?
  {
  }

  /** Chunk independence, exactly: every way of cutting the stream into reads gives the events
      of the whole stream if and only if no frame is exposed. */
  lemma ChunkIndependence(stream: string)
    ensures (forall chunks: seq<string> | Concat(chunks) == stream :: Feed("", chunks) == Frames(stream))
            <==> !StreamExposed(stream)
  {
    hide Frames, Feed, StreamExposed, Parse, Concat;
    if StreamExposed(stream) {
      var c := ExposedSplit(stream);
      TwoReads(stream[..c], stream[c..]);
      var chunks := [stream[..c], stream[c..]];
      assert stream[..c] + stream[c..] == stream;
      assert Concat(chunks) == stream && Feed("", chunks) != Frames(stream);
    } else {
      EmptyWaits();
      forall chunks: seq<string> | Concat(chunks) == stream
        ensures Feed("", chunks) == Frames(stream)
      {
        assert "" + stream == stream;
        FeedWhole("", chunks);
      }
    }
  }

  /** In particular, a stream without 20-character headers may be split anywhere. */
  lemma {:induction false} NarrowStream(stream: string)
    requires !StreamWide(stream)
    ensures !StreamExposed(stream)
    decreases |stream|
  {
    hide Parse, Wide;
    if Complete(Parse(stream)) {
      NarrowStream(stream[Taken(Parse(stream))..]);
    }
    NarrowFrame(stream);
  }

  predicate StreamWide(s: string)
    decreases |s|
  {
    Wide(s) || (Complete(Parse(s)) && StreamWide(s[Taken(Parse(s))..]))
  }

  lemma NarrowFrame(s: string)
    requires !Wide(s)
    ensures !Exposed(s)
  {
  }
}
