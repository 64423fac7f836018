/** Command dispatch: the reply each store answer becomes. */
module Dispatcher {
  import opened Bytes
  import opened Linearization
  import Parser
  import Replies

  function ReplyOf(answer: Answer): Replies.Reply {
    match answer
    case Pong => Replies.Simple("PONG")
    case Stored => Replies.Simple("OK")
    case Value(v) => if v.Some? then Replies.Bulk(v.value) else Replies.Null
    case Flag(flag) => Replies.Integer(if flag then 1 else 0)
    case TtlMissing => Replies.Integer(-2)
    case TtlNone => Replies.Integer(-1)
    case TtlLeft(seconds) => Replies.Integer(seconds)
  }

  /** Replies built from store answers never break the framing. */
  lemma ReplyFramed(answer: Answer)
    ensures Replies.Framed(ReplyOf(answer))
  {
  }

  /** Different answers to one command never look the same on the wire. */
  lemma ReplyDistinguishes(m: SimpleMap, m': SimpleMap, command: Parser.Command, time: int, time': int)
    requires Replies.Encode(ReplyOf(Exec(m, command, time).1)) == Replies.Encode(ReplyOf(Exec(m', command, time').1))
    ensures Exec(m, command, time).1 == Exec(m', command, time').1
  {
    var a, a' := Exec(m, command, time).1, Exec(m', command, time').1;
    ReplyFramed(a);
    ReplyFramed(a');
    Replies.DecodeEncode(ReplyOf(a), "");
    Replies.DecodeEncode(ReplyOf(a'), "");
    LiveTtlIsNonnegative(m, command, time);
    LiveTtlIsNonnegative(m', command, time');
  }

  lemma LiveTtlIsNonnegative(m: SimpleMap, command: Parser.Command, time: int)
    ensures var a := Exec(m, command, time).1; a.TtlLeft? ==> a.seconds >= 0
  {
  }
}
