/** What the seven commands do, as laws of the simple map and as bytes on the wire. */
module MapLaws {
  import opened Bytes
  import opened Parser
  import opened Storage
  import opened Linearization
  import opened Dispatcher
  import Replies

  /** No command touches another key. */
  lemma OtherKeysKept(m: SimpleMap, command: Command, time: int, other: string)
    requires command.Ping? || other != command.key
    ensures other in Exec(m, command, time).0 <==> other in m
    ensures other in m ==> Exec(m, command, time).0[other] == m[other]
  {
  }

  /** SET makes the value visible for ever, whatever was there before. */
  lemma SetLaw(m: SimpleMap, key: string, value: string, time: int, later: int)
    ensures var m' := Exec(m, Set(key, value), time).0;
            Visible(m', key, later) && m'[key].value == value && m'[key].deadline == None
  {
  }

  /** DEL makes the key invisible from then on. */
  lemma DelLaw(m: SimpleMap, key: string, time: int, later: int)
    requires time <= later
    ensures !Visible(Exec(m, Del(key), time).0, key, later)
  {
  }

  /** EXPIRE on a visible key keeps the value and lets it be seen for exactly that many seconds; on
      any other key it changes nothing that can be seen. */
  lemma ExpireLaw(m: SimpleMap, key: string, seconds: nat, time: int, later: int)
    requires time <= later
    ensures var m' := Exec(m, Expire(key, seconds), time).0;
            && (Visible(m', key, later) <==> Visible(m, key, time) && later < time + seconds * TICKS_PER_SECOND)
            && (Visible(m', key, later) ==> m'[key].value == m[key].value)
  {
  }

  /** Reading changes nothing. */
  lemma ReadLaw(m: SimpleMap, key: string, time: int)
    ensures Exec(m, Get(key), time).0 == m && Exec(m, Exists(key), time).0 == m
    ensures Exec(m, Ttl(key), time).0 == m && Exec(m, Ping, time).0 == m
  {
  }

  // Seconds left -----------------------------------------------------------------------

  /** n is the number of whole seconds in `ticks`. */
  predicate WholeSeconds(n: int, ticks: int) {
    n * TICKS_PER_SECOND <= ticks < (n + 1) * TICKS_PER_SECOND
  }

  /** A visible key with a deadline is answered with the whole seconds left. */
  lemma TtlLaw(m: SimpleMap, key: string, time: int)
    ensures var answer := Exec(m, Ttl(key), time).1;
            if !Visible(m, key, time) then answer == TtlMissing
            else if m[key].deadline.None? then answer == TtlNone
            else answer.TtlLeft? && answer.seconds >= 0 && WholeSeconds(answer.seconds, m[key].deadline.value - time)
  {
  }

  /** After EXPIRE of s seconds, TTL counts down from s, and says missing once they are over. */
  lemma TtlCountsDown(m: SimpleMap, key: string, seconds: nat, time: int, later: int)
    requires Visible(m, key, time) && time <= later
    ensures var left := seconds * TICKS_PER_SECOND - (later - time);
            var answer := Exec(Exec(m, Expire(key, seconds), time).0, Ttl(key), later).1;
            && (left > 0 ==> answer.TtlLeft? && WholeSeconds(answer.seconds, left))
            && (left <= 0 ==> answer == TtlMissing)
            && (later == time && seconds > 0 ==> answer == TtlLeft(seconds))
  {
    TtlLaw(Exec(m, Expire(key, seconds), time).0, key, later);
  }

  // On the wire ------------------------------------------------------------------------

  lemma SmallNumbers()
    ensures Replies.EncodeInteger(0) == ":0\r\n" && Replies.EncodeInteger(1) == ":1\r\n"
    ensures Replies.EncodeInteger(-1) == ":-1\r\n" && Replies.EncodeInteger(-2) == ":-2\r\n"
  {
    assert Decimal(0) == "0" && Decimal(1) == "1" && Decimal(2) == "2";
  }

  /** The bytes that answer each command, from what can be seen of its key: the item if it is
      visible, nothing otherwise. */
  ghost predicate AnsweredWith(command: Command, item: Option<Item>, time: int, bytes: string) {
    match command
    case Ping => bytes == "+PONG\r\n"
    case Set(_, _) => bytes == "+OK\r\n"
    case Get(_) =>
      bytes == if item.None? then "$-1\r\n"
               else "$" + Decimal(|item.value.value|) + "\r\n" + item.value.value + "\r\n"
    case Del(_) => bytes == if item.Some? then ":1\r\n" else ":0\r\n"
    case Exists(_) => bytes == if item.Some? then ":1\r\n" else ":0\r\n"
    case Expire(_, _) => bytes == if item.Some? then ":1\r\n" else ":0\r\n"
    case Ttl(_) =>
      if item.None? then bytes == ":-2\r\n"
      else if item.value.deadline.None? then bytes == ":-1\r\n"
      else
        var left := item.value.deadline.value - time;
        left > 0 && exists n: nat :: WholeSeconds(n, left) && bytes == ":" + Decimal(n) + "\r\n"
  }

  function Seen(m: SimpleMap, key: string, time: int): Option<Item> {
    if Visible(m, key, time) then Some(m[key]) else None
  }

  lemma TtlBytes(deadline: int, time: int)
    requires time < deadline
    ensures exists n: nat :: WholeSeconds(n, deadline - time)
              && Replies.Encode(ReplyOf(Remaining(Some(deadline), time))) == ":" + Decimal(n) + "\r\n"
  {
    hide Decimal;
    var n: nat := (deadline - time) / TICKS_PER_SECOND;
    assert WholeSeconds(n, deadline - time);
    assert Replies.Encode(ReplyOf(Remaining(Some(deadline), time))) == ":" + Decimal(n) + "\r\n";
  }

  /** Every command, on every map, at every instant: the bytes sent back. */
  lemma WireBytes(m: SimpleMap, command: Command, time: int)
    ensures AnsweredWith(command, if command.Ping? then None else Seen(m, command.key, time), time,
                         Replies.Encode(ReplyOf(Exec(m, command, time).1)))
  {
    hide Decimal, WholeSeconds;
    SmallNumbers();
    if command.Ttl? && Visible(m, command.key, time) && m[command.key].deadline.Some? {
      TtlBytes(m[command.key].deadline.value, time);
    }
  }

  /** The live entry of a shard, as an item. */
  function SeenIn(s: Shard, key: string, now: int): Option<Item> {
    if Live(s, key, now) then Some(Item(s.entries[key].value, s.entries[key].deadline)) else None
  }

  /** The same for the locked section that decides the answer. */
  lemma SectionBytes(s: Shard, command: Command, now: int)
    requires !command.Ping?
    ensures AnsweredWith(command, SeenIn(s, command.key, now), now,
                         Replies.Encode(ReplyOf(FirstSection(s, command, now).answer)))
  {
    hide Decimal, WholeSeconds;
    SmallNumbers();
    if command.Ttl? && Live(s, command.key, now) && s.entries[command.key].deadline.Some? {
      TtlBytes(s.entries[command.key].deadline.value, now);
    }
  }

  // Lazy erase -------------------------------------------------------------------------

  /** Whichever command meets an expired entry, once it is done the entry is no longer stored: DEL,
      EXPIRE and SET in their only section, the reads in their second one if it is still expired. */
  lemma ExpiredIsErased(s: Shard, command: Command, now: int, gap: Option<Shard>)
    requires !command.Ping? && command.key in s.entries && Expired(s.entries[command.key], now)
    ensures var section := FirstSection(s, command, now);
            var after := if section.clean then CleanIn(Between(section.shard, gap), command.key, now)
                         else section.shard;
            && (section.clean <==> command.Get? || command.Exists? || command.Ttl?)
            && (command.key in after.entries ==> !Expired(after.entries[command.key], now))
            && (!command.Set? && gap.None? ==> command.key !in after.entries)
  {
  }

  /** And nothing that is live is ever erased by a read. */
  lemma LiveIsKept(s: Shard, key: string, now: int)
    ensures forall k | k in s.entries && (k != key || !Expired(s.entries[k], now)) ::
              k in CleanIn(s, key, now).entries && CleanIn(s, key, now).entries[k] == s.entries[k]
  {
  }
}
