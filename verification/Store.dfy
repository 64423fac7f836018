/** The store object and the command dispatcher that calls it. Each operation works on the one
    shard its key belongs to; a sweep takes the shard locks one after another. */
module Store {
  import opened Bytes
  import opened Parser
  import opened Sharding
  import opened Storage
  import opened Linearization
  import opened Dispatcher
  import opened MapLaws
  import Replies

  /** Entries held by some shards together. */
  function Entries(shards: seq<Shard>): nat {
    if shards == [] then 0 else Entries(shards[..|shards| - 1]) + |shards[|shards| - 1].entries|
  }

  lemma EntriesSnoc(shards: seq<Shard>, s: Shard)
    ensures Entries(shards + [s]) == Entries(shards) + |s.entries|
  {
    assert (shards + [s])[..|shards|] == shards;
  }

  class Store {
    const hash: string -> nat
    const shards: seq<ShardCell>
    var activeExpirations: nat

    ghost predicate Valid() {
      && |shards| > 0
      && IsPow2(|shards|)
      && forall i, j | 0 <= i < j < |shards| :: shards[i] != shards[j]
    }

    constructor (hash: string -> nat, cells: seq<ShardCell>)
      ensures this.hash == hash && shards == cells && activeExpirations == 0
    {
      this.hash := hash;
      shards := cells;
      activeExpirations := 0;
    }

    /** A store has the least power of two of shards not below the request, all empty; a request
        for none is refused. */
    static method Open(hash: string -> nat, requested: nat) returns (store: Store?)
      ensures store == null <==> requested == 0
      ensures store != null ==>
                && store.Valid() && store.hash == hash && fresh(store) && fresh(set c | c in store.shards)
                && |store.shards| >= requested
                && (forall k: nat | Pow2(k) >= requested :: |store.shards| <= Pow2(k))
                && (forall j | 0 <= j < |store.shards| :: store.shards[j].Model() == EMPTY_SHARD)
    {
      var count := NormalizeShardCount(requested);
      if count.None? {
        return null;
      }
      BitCeilIsLeast(requested);
      var cells: seq<ShardCell> := [];
      while |cells| < count.value
        invariant |cells| <= count.value
        invariant forall i | 0 <= i < |cells| :: fresh(cells[i]) && cells[i].Model() == EMPTY_SHARD
        invariant forall i, j | 0 <= i < j < |cells| :: cells[i] != cells[j]
      {
        var cell := new ShardCell();
        cells := cells + [cell];
      }
      store := new Store(hash, cells);
    }

    function Index(key: string): (j: nat)
      requires Valid()
      ensures j < |shards|
    {
      ShardFor(hash, |shards|, key)
    }

    /** The shard of the command's key goes through the command's locked sections, with what other
        threads do before the second one; no other shard is touched. */
    twostate predicate Sectioned(command: Command, now: int, new gap: Option<Shard>)
      requires Valid() && !command.Ping?
      reads shards
    {
      var home := shards[Index(command.key)];
      var section := FirstSection(old(home.Model()), command, now);
      && home.Model() == (if section.clean then CleanIn(Between(section.shard, gap), command.key, now)
                          else section.shard)
      && forall c | c in shards && c != home :: unchanged(c)
    }

    method Set(key: string, value: string)
      requires Valid()
      modifies shards
      ensures forall now: int, gap: Option<Shard> :: Sectioned(Command.Set(key, value), now, gap)
    {
      shards[Index(key)].Set(key, value);
    }

    method Get(key: string, now: int, gap: Option<Shard>) returns (result: Option<string>)
      requires Valid()
      modifies shards
      ensures Sectioned(Command.Get(key), now, gap)
      ensures Value(result) == FirstSection(old(shards[Index(key)].Model()), Command.Get(key), now).answer
      ensures var item := SeenIn(old(shards[Index(key)].Model()), key, now);
              result == if item.Some? then Some(item.value.value) else None
    {
      var found := shards[Index(key)].ReadLive(key, now, gap);
      return if found.Some? then Some(found.value.value) else None;
    }

    method Exists(key: string, now: int, gap: Option<Shard>) returns (found: bool)
      requires Valid()
      modifies shards
      ensures Sectioned(Command.Exists(key), now, gap)
      ensures Flag(found) == FirstSection(old(shards[Index(key)].Model()), Command.Exists(key), now).answer
      ensures found == SeenIn(old(shards[Index(key)].Model()), key, now).Some?
    {
      var entry := shards[Index(key)].ReadLive(key, now, gap);
      return entry.Some?;
    }

    method Ttl(key: string, now: int, gap: Option<Shard>) returns (result: Answer)
      requires Valid()
      modifies shards
      ensures Sectioned(Command.Ttl(key), now, gap)
      ensures result == FirstSection(old(shards[Index(key)].Model()), Command.Ttl(key), now).answer
      ensures var item := SeenIn(old(shards[Index(key)].Model()), key, now);
              if item.None? then result == TtlMissing
              else if item.value.deadline.None? then result == TtlNone
              else result.TtlLeft? && WholeSeconds(result.seconds, item.value.deadline.value - now)
    {
      var entry := shards[Index(key)].ReadLive(key, now, gap);
      if entry.None? {
        return TtlMissing;
      }
      if entry.value.deadline.None? {
        return TtlNone;
      }
      return TtlLeft((entry.value.deadline.value - now) / TICKS_PER_SECOND);
    }

    method Del(key: string, now: int) returns (removed: bool)
      requires Valid()
      modifies shards
      ensures forall gap: Option<Shard> :: Sectioned(Command.Del(key), now, gap)
      ensures Flag(removed) == FirstSection(old(shards[Index(key)].Model()), Command.Del(key), now).answer
      ensures removed == SeenIn(old(shards[Index(key)].Model()), key, now).Some?
    {
      removed := shards[Index(key)].Del(key, now);
    }

    method Expire(key: string, seconds: nat, now: int) returns (ok: bool)
      requires Valid()
      modifies shards
      ensures forall gap: Option<Shard> :: Sectioned(Command.Expire(key, seconds), now, gap)
      ensures Flag(ok) == FirstSection(old(shards[Index(key)].Model()), Command.Expire(key, seconds), now).answer
      ensures ok == SeenIn(old(shards[Index(key)].Model()), key, now).Some?
    {
      ok := shards[Index(key)].Expire(key, seconds * TICKS_PER_SECOND, now);
    }

    /** The active sweep. Shard j, as `gaps[j]` says other threads left it when its lock was taken,
        gets one bounded sweep, all at the same clock reading; the count returned is the number of
        entries erased. */
    method SweepExpired(now: int, budget: nat, gaps: seq<Option<Shard>>)
        returns (removed: nat, ghost found: seq<Shard>, ghost left: seq<Shard>, ghost pops: seq<multiset<Candidate>>)
      requires Valid() && |gaps| == |shards|
      modifies this, shards
      ensures |found| == |left| == |pops| == |shards|
      ensures forall j | 0 <= j < |shards| :: found[j] == Between(old(shards[j].Model()), gaps[j])
      ensures forall j | 0 <= j < |shards| :: left[j] == shards[j].Model()
      ensures forall j | 0 <= j < |shards| :: Swept(found[j], left[j], now, budget, pops[j])
      ensures removed + Entries(left) == Entries(found)
      ensures activeExpirations == old(activeExpirations) + removed
    {
      hide Swept, Between, Entries;
      removed, found, left, pops := 0, [], [], [];
      var j := 0;
      while j < |shards|
        invariant j <= |shards| && |found| == |left| == |pops| == j
        invariant forall i | 0 <= i < j :: found[i] == Between(old(shards[i].Model()), gaps[i])
        invariant forall i | 0 <= i < j :: left[i] == shards[i].Model()
        invariant forall i | 0 <= i < j :: Swept(found[i], left[i], now, budget, pops[i])
        invariant forall i | j <= i < |shards| :: shards[i].Model() == old(shards[i].Model())
        invariant removed + Entries(left) == Entries(found)
        invariant activeExpirations == old(activeExpirations)
      {
        ghost var before := Between(shards[j].Model(), gaps[j]);
        ghost var popped;
        var hit;
        hit, popped := SweepLocked(shards[j], now, budget, gaps[j]);
        EntriesSnoc(found, before);
        EntriesSnoc(left, shards[j].Model());
        found, left, pops := found + [before], left + [shards[j].Model()], pops + [popped];
        removed := removed + hit;
        j := j + 1;
      }
      if removed > 0 {
        activeExpirations := activeExpirations + removed;
      }
    }
  }

  /** One shard's part of a sweep, under its lock. */
  method SweepLocked(cell: ShardCell, now: int, budget: nat, gap: Option<Shard>)
      returns (removed: nat, ghost popped: multiset<Candidate>)
    modifies cell
    ensures Swept(Between(old(cell.Model()), gap), cell.Model(), now, budget, popped)
    ensures removed + |cell.entries| == |Between(old(cell.Model()), gap).entries|
  {
    hide Swept;
    cell.OtherThreads(gap);
    removed, popped := cell.Sweep(now, budget);
  }

  lemma SetAnswer(s: Shard, key: string, value: string, now: int)
    ensures FirstSection(s, Command.Set(key, value), now).answer == Stored
  {
  }

  /** Dispatch: the reply is the encoded answer of the command's deciding section, that is, the bytes
      that what is live in the key's own shard calls for. */
  method Dispatch(store: Store, command: Command, now: int, gap: Option<Shard>) returns (response: string)
    requires store.Valid()
    modifies store.shards
    ensures command.Ping? ==> response == Replies.Encode(ReplyOf(Pong)) && forall c | c in store.shards :: unchanged(c)
    ensures command.Ping? ==> AnsweredWith(command, None, now, response)
    ensures !command.Ping? ==>
              AnsweredWith(command, SeenIn(old(store.shards[store.Index(command.key)].Model()), command.key, now), now,
                           response)
    ensures !command.Ping? ==>
              && store.Sectioned(command, now, gap)
              && response == Replies.Encode(ReplyOf(FirstSection(old(store.shards[store.Index(command.key)].Model()),
                                                                 command, now).answer))
  {
    hide Store.Index, Store.Sectioned, FirstSection, AnsweredWith, SeenIn, WholeSeconds;
    if command.Ping? {
      WireBytes(map[], command, now);
    } else {
      SectionBytes(store.shards[store.Index(command.key)].Model(), command, now);
    }
    match command {
      case Ping =>
        response := Replies.EncodeSimpleString("PONG");
      case Set(key, value) =>
        SetAnswer(store.shards[store.Index(key)].Model(), key, value, now);
        store.Set(key, value);
        response := Replies.EncodeSimpleString("OK");
      case Get(key) =>
        var value := store.Get(key, now, gap);
        response := if value.None? then Replies.EncodeNullBulkString() else Replies.EncodeBulkString(value.value);
      case Del(key) =>
        var removed := store.Del(key, now);
        response := Replies.EncodeInteger(if removed then 1 else 0);
      case Exists(key) =>
        var found := store.Exists(key, now, gap);
        response := Replies.EncodeInteger(if found then 1 else 0);
      case Expire(key, seconds) =>
        var ok := store.Expire(key, seconds, now);
        response := Replies.EncodeInteger(if ok then 1 else 0);
      case Ttl(key) =>
        var result := store.Ttl(key, now, gap);
        match result {
          case TtlMissing => response := Replies.EncodeInteger(-2);
          case TtlNone => response := Replies.EncodeInteger(-1);
          case TtlLeft(seconds) => response := Replies.EncodeInteger(seconds);
          case _ => response := Replies.EncodeError("ERR internal error: unhandled TTL status");
        }
    }
  }
}
