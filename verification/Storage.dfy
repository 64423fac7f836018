/** One shard of the store: its map, its generation counter, and its lazily cleaned heap of
    expiration candidates. Time is counted in clock ticks. */
module Storage {
  import opened Bytes

  const TICKS_PER_SECOND: int := 1_000_000_000

  datatype Entry = Entry(value: string, deadline: Option<int>, generation: nat)

  datatype Candidate = Candidate(deadline: int, generation: nat, key: string)

  datatype Shard = Shard(entries: map<string, Entry>, nextGeneration: nat, heap: multiset<Candidate>)

  const EMPTY_SHARD: Shard := Shard(map[], 0, multiset{})

  predicate Expired(e: Entry, now: int) {
    e.deadline.Some? && e.deadline.value <= now
  }

  predicate Live(s: Shard, key: string, now: int) {
    key in s.entries && !Expired(s.entries[key], now)
  }

  // What each locked section does ------------------------------------------------------

  function SetIn(s: Shard, key: string, value: string): Shard {
    var g := s.nextGeneration + 1;
    s.(entries := s.entries[key := Entry(value, None, g)], nextGeneration := g)
  }

  function EraseIn(s: Shard, key: string): Shard {
    s.(entries := s.entries - {key})
  }

  /** DEL: whatever entry is there goes; the answer says whether it was live. */
  function DelIn(s: Shard, key: string, now: int): (Shard, bool) {
    (EraseIn(s, key), Live(s, key, now))
  }

  /** EXPIRE: a live entry gets a new deadline, a new generation and a heap candidate; an
      expired one is removed. */
  function ExpireIn(s: Shard, key: string, ticks: int, now: int): (Shard, bool) {
    if Live(s, key, now) then
      var g := s.nextGeneration + 1;
      var e := s.entries[key].(deadline := Some(now + ticks), generation := g);
      (Shard(s.entries[key := e], g, s.heap + multiset{Candidate(now + ticks, g, key)}), true)
    else (EraseIn(s, key), false)
  }

  /** The second, exclusive section of a read that met an expired entry: it is looked up again
      and erased only if it is still expired. */
  function CleanIn(s: Shard, key: string, now: int): Shard {
    if key in s.entries && Expired(s.entries[key], now) then EraseIn(s, key) else s
  }

  /** The shard after a moment without the lock: as some other thread left it, or as it was. */
  function Between(s: Shard, gap: Option<Shard>): Shard {
    if gap.Some? then gap.value else s
  }

  // Sweeping ---------------------------------------------------------------------------

  /** The candidate still describes the entry it was pushed for. */
  predicate Matches(entries: map<string, Entry>, c: Candidate) {
    && c.key in entries
    && entries[c.key].generation == c.generation
    && entries[c.key].deadline == Some(c.deadline)
  }

  ghost function Hit(entries: map<string, Entry>, popped: multiset<Candidate>): set<string> {
    set c | c in popped && Matches(entries, c) :: c.key
  }

  /** A bounded sweep pops due candidates, soonest first, until the budget or the due ones run
      out, and erases exactly the entries that a popped candidate matches. */
  ghost predicate Swept(s: Shard, t: Shard, now: int, budget: nat, popped: multiset<Candidate>) {
    && popped <= s.heap
    && t.heap == s.heap - popped
    && t.nextGeneration == s.nextGeneration
    && t.entries == s.entries - Hit(s.entries, popped)
    && |popped| <= budget
    && (forall c | c in popped :: c.deadline <= now)
    && (forall c, d | c in popped && d in t.heap :: c.deadline <= d.deadline)
    && (|popped| < budget ==> forall d | d in t.heap :: d.deadline > now)
  }

  predicate Soonest(heap: multiset<Candidate>, c: Candidate) {
    c in heap && forall d | d in heap :: c.deadline <= d.deadline
  }

  lemma {:induction false} SoonestExists(heap: multiset<Candidate>)
    requires heap != multiset{}
    ensures exists c :: Soonest(heap, c)
    decreases |heap|
  {
    var c :| c in heap;
    var rest := heap - multiset{c};
    if rest == multiset{} {
      assert heap == multiset{c};
      assert Soonest(heap, c);
    } else {
      SoonestExists(rest);
      var m :| Soonest(rest, m);
      SoonerOfTwo(heap, c, m);
    }
  }

  lemma SoonerOfTwo(heap: multiset<Candidate>, c: Candidate, m: Candidate)
    requires c in heap && Soonest(heap - multiset{c}, m)
    ensures Soonest(heap, if c.deadline <= m.deadline then c else m)
  {
    forall d | d in heap
      ensures d.deadline >= c.deadline || d.deadline >= m.deadline
    {
      assert d == c || d in heap - multiset{c};
    }
  }

  lemma SweptNothing(s: Shard, now: int)
    ensures Swept(s, s, now, 0, multiset{})
  {
    assert Hit(s.entries, multiset{}) == {};
  }

  predicate NoneDue(heap: multiset<Candidate>, now: int) {
    forall d | d in heap :: d.deadline > now
  }

  lemma SoonestLater(heap: multiset<Candidate>, c: Candidate, now: int)
    requires Soonest(heap, c) && c.deadline > now
    ensures NoneDue(heap, now)
  {
  }

  /** The sweep may stop early only when nothing due is left. */
  lemma SweptEnough(s: Shard, t: Shard, now: int, done: nat, budget: nat, popped: multiset<Candidate>)
    requires Swept(s, t, now, done, popped) && |popped| == done <= budget
    requires done == budget || NoneDue(t.heap, now)
    ensures Swept(s, t, now, budget, popped)
  {
  }

  /** The shard after one more candidate was popped. */
  function PopOne(t: Shard, c: Candidate): Shard {
    Shard(if Matches(t.entries, c) then t.entries - {c.key} else t.entries,
          t.nextGeneration, t.heap - multiset{c})
  }

  lemma HitMore(entries: map<string, Entry>, popped: multiset<Candidate>, c: Candidate)
    ensures Hit(entries, popped + multiset{c})
            == Hit(entries, popped) + (if Matches(entries, c) then {c.key} else {})
  {
  }

  lemma PopEntries(entries: map<string, Entry>, popped: multiset<Candidate>, c: Candidate)
    ensures var left := entries - Hit(entries, popped);
            entries - Hit(entries, popped + multiset{c}) == if Matches(left, c) then left - {c.key} else left
  {
    HitMore(entries, popped, c);
    var left := entries - Hit(entries, popped);
    assert Matches(left, c) ==> Matches(entries, c);
    assert Matches(entries, c) && !Matches(left, c) ==> c.key in Hit(entries, popped);
  }

  lemma PopHeap(heap: multiset<Candidate>, popped: multiset<Candidate>, c: Candidate)
    requires popped <= heap && c in heap - popped
    ensures popped + multiset{c} <= heap
    ensures heap - (popped + multiset{c}) == heap - popped - multiset{c}
    ensures forall d | d in heap - popped - multiset{c} :: d in heap - popped
  {
  }

  lemma SweptOne(s: Shard, t: Shard, now: int, done: nat, popped: multiset<Candidate>, c: Candidate)
    requires Swept(s, t, now, done, popped) && |popped| == done
    requires Soonest(t.heap, c) && c.deadline <= now
    ensures Swept(s, PopOne(t, c), now, done + 1, popped + multiset{c}) && |popped + multiset{c}| == done + 1
  {
    hide Hit, Matches;
    PopEntries(s.entries, popped, c);
    PopHeap(s.heap, popped, c);
  }

  class ShardCell {
    var entries: map<string, Entry>
    var nextGeneration: nat
    var heap: multiset<Candidate>

    function Model(): Shard
      reads this
    {
      Shard(entries, nextGeneration, heap)
    }

    constructor ()
      ensures Model() == EMPTY_SHARD
    {
      entries, nextGeneration, heap := map[], 0, multiset{};
    }

    /** Other threads run while this one does not hold the lock. */
    method OtherThreads(gap: Option<Shard>)
      modifies this
      ensures Model() == Between(old(Model()), gap)
    {
      if gap.Some? {
        entries, nextGeneration, heap := gap.value.entries, gap.value.nextGeneration, gap.value.heap;
      }
    }

    method Set(key: string, value: string)
      modifies this
      ensures Model() == SetIn(old(Model()), key, value)
    {
      nextGeneration := nextGeneration + 1;
      entries := entries[key := Entry(value, None, nextGeneration)];
    }

    method Del(key: string, now: int) returns (removed: bool)
      modifies this
      ensures (Model(), removed) == DelIn(old(Model()), key, now)
    {
      if key !in entries {
        assert entries - {key} == entries;
        return false;
      }
      removed := !Expired(entries[key], now);
      entries := entries - {key};
    }

    method Expire(key: string, ticks: int, now: int) returns (ok: bool)
      modifies this
      ensures (Model(), ok) == ExpireIn(old(Model()), key, ticks, now)
    {
      if key !in entries {
        assert entries - {key} == entries;
        return false;
      }
      if Expired(entries[key], now) {
        entries := entries - {key};
        return false;
      }
      var deadline := now + ticks;
      nextGeneration := nextGeneration + 1;
      entries := entries[key := entries[key].(deadline := Some(deadline), generation := nextGeneration)];
      heap := heap + multiset{Candidate(deadline, nextGeneration, key)};
      return true;
    }

    /** The two-phase read. The answer is fixed in the first, shared section; `gap` says how other
        threads left the shard before the second, exclusive section. */
    method ReadLive(key: string, now: int, gap: Option<Shard>) returns (found: Option<Entry>)
      modifies this
      ensures found == if Live(old(Model()), key, now) then Some(old(entries)[key]) else None
      ensures Model() == if key in old(entries) && Expired(old(entries)[key], now)
                         then CleanIn(Between(old(Model()), gap), key, now) else old(Model())
    {
      if key in entries && !Expired(entries[key], now) {
        return Some(entries[key]);
      }
      if key !in entries {
        return None;
      }
      OtherThreads(gap);
      if key in entries && Expired(entries[key], now) {
        entries := entries - {key};
      }
      return None;
    }

    method Top() returns (c: Candidate)
      requires heap != multiset{}
      ensures Soonest(heap, c)
    {
      SoonestExists(heap);
      c :| Soonest(heap, c);
    }

    method PopTop(c: Candidate) returns (removed: nat)
      modifies this
      ensures Model() == PopOne(old(Model()), c)
      ensures removed + |entries| == |old(entries)|
    {
      removed := 0;
      if c.key in entries && entries[c.key].generation == c.generation
         && entries[c.key].deadline.Some? && entries[c.key].deadline.value == c.deadline {
        assert (entries - {c.key}).Keys == entries.Keys - {c.key};
        entries := entries - {c.key};
        removed := 1;
      }
      heap := heap - multiset{c};
    }

    /** The sweep loop on one shard. */
    method Sweep(now: int, budget: nat) returns (removed: nat, ghost popped: multiset<Candidate>)
      modifies this
      ensures Swept(old(Model()), Model(), now, budget, popped)
      ensures removed + |entries| == |old(entries)|
    {
      hide Swept, Soonest, PopOne;
      ghost var start := Model();
      removed := 0;
      popped := multiset{};
      var processed := 0;
      SweptNothing(start, now);
      while processed < budget && heap != multiset{}
        invariant processed <= budget && |popped| == processed
        invariant Swept(start, Model(), now, processed, popped)
        invariant removed + |entries| == |start.entries|
      {
        var c := Top();
        if c.deadline > now {
          SoonestLater(heap, c, now);
          break;
        }
        SweptOne(start, Model(), now, processed, popped, c);
        var hit := PopTop(c);
        removed := removed + hit;
        popped := popped + multiset{c};
        processed := processed + 1;
      }
      SweptEnough(start, Model(), now, processed, budget, popped);
    }
  }
}
