/** Facts about the shards of a running store: keys stay in their own shard, so the shards are
    disjoint parts of one map, and every shard keeps its heap complete. */
module ShardedStore {
  import opened Bytes
  import opened Parser
  import opened Sharding
  import opened Storage
  import opened Expiration
  import L = Linearization

  // Partition --------------------------------------------------------------------------

  /** Every key in the map or in the heap of shard j hashes to j. */
  ghost predicate OwnKeys(hash: string -> nat, count: nat, s: Shard, j: nat)
    requires count > 0 && IsPow2(count)
  {
    && (forall k | k in s.entries :: ShardFor(hash, count, k) == j)
    && (forall c | c in s.heap :: ShardFor(hash, count, c.key) == j)
  }

  ghost predicate Partitioned(hash: string -> nat, shards: seq<Shard>)
    requires |shards| > 0 && IsPow2(|shards|)
  {
    forall j | 0 <= j < |shards| :: OwnKeys(hash, |shards|, shards[j], j)
  }

  lemma SectionOwnKeys(hash: string -> nat, count: nat, s: Shard, command: Command, now: int)
    requires count > 0 && IsPow2(count) && !command.Ping?
    requires OwnKeys(hash, count, s, ShardFor(hash, count, command.key))
    ensures OwnKeys(hash, count, L.FirstSection(s, command, now).shard, ShardFor(hash, count, command.key))
  {
    hide ShardFor;
  }

  lemma SweptOwnKeys(hash: string -> nat, count: nat, s: Shard, j: nat, t: Shard, now: int, budget: nat,
                     popped: multiset<Candidate>)
    requires count > 0 && IsPow2(count) && OwnKeys(hash, count, s, j) && Swept(s, t, now, budget, popped)
    ensures OwnKeys(hash, count, t, j)
  {
    hide ShardFor;
    assert forall c | c in t.heap :: c in s.heap;
  }

  lemma StepPartitioned(hash: string -> nat, s: L.State, step: L.Step)
    requires L.Shape(s) && L.Enabled(s, step) && Partitioned(hash, s.shards)
    ensures L.Shape(L.Apply(hash, s, step)) && Partitioned(hash, L.Apply(hash, s, step).shards)
  {
    hide ShardFor, L.FirstSection, OwnKeys, Swept, L.AnswerTime;
    if step.Lock? && !s.threads[step.i].command.Ping? {
      var t := s.threads[step.i];
      SectionOwnKeys(hash, |s.shards|, s.shards[ShardFor(hash, |s.shards|, t.command.key)], t.command, t.now);
    } else if step.Clean? {
      CleanOwnKeys(hash, |s.shards|, L.Home(hash, s.shards, s.threads[step.i].command.key),
                   ShardFor(hash, |s.shards|, s.threads[step.i].command.key),
                   s.threads[step.i].command.key, s.threads[step.i].now);
    } else if step.SweepShard? {
      SweptOwnKeys(hash, |s.shards|, s.shards[s.sweeper.next], s.sweeper.next, step.after, s.sweeper.now,
                   s.sweeper.budget, step.popped);
    }
  }

  lemma CleanOwnKeys(hash: string -> nat, count: nat, s: Shard, j: nat, key: string, now: int)
    requires count > 0 && IsPow2(count) && OwnKeys(hash, count, s, j)
    ensures OwnKeys(hash, count, CleanIn(s, key, now), j)
  {
    hide ShardFor;
  }

  /** The shards are disjoint, and looking a key up in its own shard is looking it up in their
      union. */
  lemma DisjointUnion(hash: string -> nat, shards: seq<Shard>, i: nat, key: string)
    requires |shards| > 0 && IsPow2(|shards|) && Partitioned(hash, shards)
    requires i < |shards| && key in shards[i].entries
    ensures forall j | 0 <= j < |shards| :: key in shards[j].entries <==> j == i
    ensures L.Home(hash, shards, key) == shards[i]
  {
    hide ShardFor;
    forall j | 0 <= j < |shards| && key in shards[j].entries
      ensures j == i
    {
      assert OwnKeys(hash, |shards|, shards[j], j) && OwnKeys(hash, |shards|, shards[i], i);
    }
    assert OwnKeys(hash, |shards|, shards[i], i);
  }

  // Heap coverage under concurrency ----------------------------------------------------

  /** Some history of writes explains the shard. */
  ghost predicate Covered(s: Shard) {
    exists writes: seq<Write> :: Sound(Traced(s, writes))
  }

  lemma StepCovered(s: Shard, step: Step)
    requires Covered(s) && Enabled(Traced(s, []), step)
    ensures Covered(Apply(Traced(s, []), step).s)
  {
    hide Sound;
    var writes :| Sound(Traced(s, writes));
    StepSound(Traced(s, writes), step);
    var t := Apply(Traced(s, writes), step);
    assert Sound(Traced(t.s, t.writes));
  }

  lemma SectionCovered(s: Shard, command: Command, now: int)
    requires Covered(s) && !command.Ping?
    ensures Covered(L.FirstSection(s, command, now).shard)
  {
    hide Covered;
    match command
    case Set(k, v) => StepCovered(s, SetStep(k, v));
    case Del(k) => StepCovered(s, DelStep(k, now));
    case Expire(k, seconds) => StepCovered(s, ExpireStep(k, seconds * TICKS_PER_SECOND, now));
    case Get(_) =>
    case Exists(_) =>
    case Ttl(_) =>
  }

  ghost predicate AllCovered(shards: seq<Shard>) {
    forall j | 0 <= j < |shards| :: Covered(shards[j])
  }

  lemma MachineStepCovered(hash: string -> nat, s: L.State, step: L.Step)
    requires L.Shape(s) && L.Enabled(s, step) && AllCovered(s.shards)
    ensures L.Shape(L.Apply(hash, s, step)) && AllCovered(L.Apply(hash, s, step).shards)
  {
    hide ShardFor, L.FirstSection, Covered, Swept, L.AnswerTime;
    if step.Lock? && !s.threads[step.i].command.Ping? {
      var t := s.threads[step.i];
      SectionCovered(s.shards[ShardFor(hash, |s.shards|, t.command.key)], t.command, t.now);
    } else if step.Clean? {
      var t := s.threads[step.i];
      StepCovered(L.Home(hash, s.shards, t.command.key), CleanStep(t.command.key, t.now));
    } else if step.SweepShard? {
      StepCovered(s.shards[s.sweeper.next], SweepStep(s.sweeper.now, s.sweeper.budget, step.popped, step.after));
    }
  }

  lemma {:induction false} RunPartitionedAndCovered(hash: string -> nat, s: L.State, steps: seq<L.Step>, t: L.State)
    requires L.Shape(s) && L.Run(hash, s, steps, t)
    requires Partitioned(hash, s.shards) && AllCovered(s.shards)
    ensures L.Shape(t) && Partitioned(hash, t.shards) && AllCovered(t.shards)
    decreases |steps|
  {
    hide Partitioned, AllCovered, L.Enabled, L.Apply, L.Shape;
    if steps != [] {
      StepPartitioned(hash, s, steps[0]);
      MachineStepCovered(hash, s, steps[0]);
      RunPartitionedAndCovered(hash, L.Apply(hash, s, steps[0]), steps[1..], t);
    }
  }

  /** In every run of the concurrent store, from empty shards, the shards partition the keys and
      keep their heaps complete. */
  lemma EveryRunPartitionedAndCovered(hash: string -> nat, shardCount: nat, threads: nat, clock: int,
                                      steps: seq<L.Step>, t: L.State)
    requires shardCount > 0 && IsPow2(shardCount)
    requires L.Run(hash, L.Init(shardCount, threads, clock), steps, t)
    ensures L.Shape(t) && Partitioned(hash, t.shards) && AllCovered(t.shards)
  {
    hide ShardFor, L.Run;
    assert Sound(Traced(EMPTY_SHARD, []));
    assert Covered(EMPTY_SHARD);
    RunPartitionedAndCovered(hash, L.Init(shardCount, threads, clock), steps, t);
  }
}
