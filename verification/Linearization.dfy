/** Concurrent use of the sharded store. Threads read the clock, take one shard lock, and may
    come back for a second exclusive section; a sweeper runs at any time. Every answer is the
    one a single sequential map gives, in lock order, at a clock value between the operation's
    own clock reading and its lock. */
module Linearization {
  import opened Bytes
  import opened Parser
  import opened Requests
  import opened Sharding
  import opened Storage

  // The simple map ---------------------------------------------------------------------

  datatype Item = Item(value: string, deadline: Option<int>)

  type SimpleMap = map<string, Item>

  datatype Answer =
    | Pong
    | Stored
    | Value(value: Option<string>)
    | Flag(flag: bool)
    | TtlMissing
    | TtlNone
    | TtlLeft(seconds: int)

  /** Present and not expired: expired means missing. */
  predicate Visible(m: SimpleMap, key: string, time: int) {
    key in m && !(m[key].deadline.Some? && m[key].deadline.value <= time)
  }

  function Remaining(deadline: Option<int>, time: int): Answer {
    if deadline.None? then TtlNone else TtlLeft((deadline.value - time) / TICKS_PER_SECOND)
  }

  /** One command on the simple map at one instant. */
  function Exec(m: SimpleMap, command: Command, time: int): (SimpleMap, Answer) {
    match command
    case Ping => (m, Pong)
    case Set(k, v) => (m[k := Item(v, None)], Stored)
    case Get(k) => (m, Value(if Visible(m, k, time) then Some(m[k].value) else None))
    case Exists(k) => (m, Flag(Visible(m, k, time)))
    case Del(k) => (if Visible(m, k, time) then m - {k} else m, Flag(Visible(m, k, time)))
    case Expire(k, seconds) =>
      if Visible(m, k, time)
      then (m[k := Item(m[k].value, Some(time + seconds * TICKS_PER_SECOND))], Flag(true))
      else (m, Flag(false))
    case Ttl(k) => (m, if Visible(m, k, time) then Remaining(m[k].deadline, time) else TtlMissing)
  }

  // The store's locked sections --------------------------------------------------------

  datatype Section = Section(shard: Shard, answer: Answer, clean: bool)

  /** What a read concludes in its shared section: the live entry if there is one, and whether
      an expired entry has to be cleaned up afterwards. */
  function ReadSection(s: Shard, key: string, now: int, onLive: Entry -> Answer, onMissing: Answer): Section {
    if Live(s, key, now) then Section(s, onLive(s.entries[key]), false)
    else Section(s, onMissing, key in s.entries)
  }

  /** The section of a command in which its answer is decided. */
  function FirstSection(s: Shard, command: Command, now: int): Section
    requires !command.Ping?
  {
    match command
    case Set(k, v) => Section(SetIn(s, k, v), Stored, false)
    case Get(k) => ReadSection(s, k, now, (e: Entry) => Value(Some(e.value)), Value(None))
    case Exists(k) => ReadSection(s, k, now, (e: Entry) => Flag(true), Flag(false))
    case Ttl(k) => ReadSection(s, k, now, (e: Entry) => Remaining(e.deadline, now), TtlMissing)
    case Del(k) => var (t, live) := DelIn(s, k, now); Section(t, Flag(live), false)
    case Expire(k, seconds) =>
      var (t, ok) := ExpireIn(s, k, seconds * TICKS_PER_SECOND, now); Section(t, Flag(ok), false)
  }

  // The machine ------------------------------------------------------------------------

  datatype Thread =
    | Idle
    | Called(command: Command, tag: Tag)
    | Clocked(command: Command, tag: Tag, now: int)
    | Cleaning(command: Command, tag: Tag, now: int, at: nat)
    | Returned(command: Command, tag: Tag, at: nat)

  datatype Sweeper = Resting | Sweeping(now: int, budget: nat, next: nat)

  /** One linearized operation: its own clock reading, the clock at its lock, and the instant in
      between at which the simple map answers for it. */
  datatype LogEntry = LogEntry(tag: Tag, command: Command, from: int, time: int, upto: int, answer: Answer)

  datatype State = State(
    shards: seq<Shard>,
    clock: int,
    threads: seq<Thread>,
    sweeper: Sweeper,
    used: set<Tag>,
    log: seq<LogEntry>)

  datatype Step =
    | Tick(ticks: nat)
    | Call(i: nat, command: Command, tag: Tag)
    | ReadClock(i: nat)
    | Lock(i: nat)
    | Clean(i: nat)
    | Take(i: nat)
    | SweepBegin(budget: nat)
    | SweepShard(popped: multiset<Candidate>, after: Shard)
    | SweepEnd

  ghost predicate Shape(s: State) {
    |s.shards| > 0 && IsPow2(|s.shards|)
  }

  ghost predicate Enabled(s: State, step: Step) {
    match step
    case Tick(_) => true
    case Call(i, _, tag) => i < |s.threads| && s.threads[i].Idle? && tag !in s.used
    case ReadClock(i) => i < |s.threads| && s.threads[i].Called?
    case Lock(i) => i < |s.threads| && s.threads[i].Clocked?
    case Clean(i) => i < |s.threads| && s.threads[i].Cleaning? && !s.threads[i].command.Ping?
    case Take(i) => i < |s.threads| && s.threads[i].Returned?
    case SweepBegin(_) => s.sweeper.Resting?
    case SweepShard(popped, after) =>
      && s.sweeper.Sweeping?
      && s.sweeper.next < |s.shards|
      && Swept(s.shards[s.sweeper.next], after, s.sweeper.now, s.sweeper.budget, popped)
    case SweepEnd => s.sweeper.Sweeping? && s.sweeper.next == |s.shards|
  }

  /** The instant the simple map answers at: the operation's own reading when the entry is
      physically there, the present otherwise. */
  function AnswerTime(s: Shard, command: Command, now: int, clock: int): int {
    if !command.Ping? && command.key in s.entries then now else clock
  }

  ghost function ApplyLock(hash: string -> nat, s: State, i: nat): State
    requires Shape(s) && Enabled(s, Lock(i))
  {
    var Clocked(command, tag, now) := s.threads[i];
    var at := |s.log|;
    if command.Ping? then
      s.(threads := s.threads[i := Returned(command, tag, at)],
         log := s.log + [LogEntry(tag, command, now, s.clock, s.clock, Pong)])
    else
      var j := ShardFor(hash, |s.shards|, command.key);
      var section := FirstSection(s.shards[j], command, now);
      var time := AnswerTime(s.shards[j], command, now, s.clock);
      s.(shards := s.shards[j := section.shard],
         threads := s.threads[i := if section.clean then Cleaning(command, tag, now, at)
                                   else Returned(command, tag, at)],
         log := s.log + [LogEntry(tag, command, now, time, s.clock, section.answer)])
  }

  ghost function Apply(hash: string -> nat, s: State, step: Step): State
    requires Shape(s) && Enabled(s, step)
  {
    match step
    case Tick(ticks) => s.(clock := s.clock + ticks)
    case Call(i, command, tag) => s.(threads := s.threads[i := Called(command, tag)], used := s.used + {tag})
    case ReadClock(i) => s.(threads := s.threads[i := Clocked(s.threads[i].command, s.threads[i].tag, s.clock)])
    case Lock(i) => ApplyLock(hash, s, i)
    case Clean(i) =>
      var Cleaning(command, tag, now, at) := s.threads[i];
      var j := ShardFor(hash, |s.shards|, command.key);
      s.(shards := s.shards[j := CleanIn(s.shards[j], command.key, now)],
         threads := s.threads[i := Returned(command, tag, at)])
    case Take(i) => s.(threads := s.threads[i := Idle])
    case SweepBegin(budget) => s.(sweeper := Sweeping(s.clock, budget, 0))
    case SweepShard(_, after) =>
      s.(shards := s.shards[s.sweeper.next := after], sweeper := s.sweeper.(next := s.sweeper.next + 1))
    case SweepEnd => s.(sweeper := Resting)
  }

  // The refinement ---------------------------------------------------------------------

  /** The simple map after the logged operations. */
  function Replay(log: seq<LogEntry>): SimpleMap {
    if log == [] then map[]
    else
      var e := log[|log| - 1];
      Exec(Replay(log[..|log| - 1]), e.command, e.time).0
  }

  /** The simple map's answer to the operation at position i. */
  function AnswerAt(log: seq<LogEntry>, i: nat): Answer
    requires i < |log|
  {
    Exec(Replay(log[..i]), log[i].command, log[i].time).1
  }

  /** Every logged answer is the simple map's, at an instant within the operation. */
  predicate Explained(log: seq<LogEntry>) {
    forall i | 0 <= i < |log| :: log[i].answer == AnswerAt(log, i) && log[i].from <= log[i].time <= log[i].upto
  }

  /** One key: what is stored is what the simple map holds, and what only the simple map holds
      has already expired. */
  predicate Agree(entries: map<string, Entry>, m: SimpleMap, key: string, clock: int) {
    if key in entries then key in m && m[key] == Item(entries[key].value, entries[key].deadline)
    else key in m ==> m[key].deadline.Some? && m[key].deadline.value <= clock
  }

  function Home(hash: string -> nat, shards: seq<Shard>, key: string): Shard
    requires |shards| > 0 && IsPow2(|shards|)
  {
    shards[ShardFor(hash, |shards|, key)]
  }

  ghost predicate Refines(hash: string -> nat, shards: seq<Shard>, m: SimpleMap, clock: int)
    requires |shards| > 0 && IsPow2(|shards|)
  {
    forall key: string :: Agree(Home(hash, shards, key).entries, m, key, clock)
  }

  predicate ThreadOk(t: Thread, clock: int, log: seq<LogEntry>) {
    match t
    case Idle => true
    case Called(_, tag) => forall i | 0 <= i < |log| :: log[i].tag != tag
    case Clocked(_, tag, now) => now <= clock && forall i | 0 <= i < |log| :: log[i].tag != tag
    case Cleaning(c, tag, now, at) =>
      now <= clock && at < |log| && log[at].tag == tag && log[at].command == c && !c.Ping?
    case Returned(c, tag, at) => at < |log| && log[at].tag == tag && log[at].command == c
  }

  /** Operation names: each is logged at most once and belongs to at most one thread. */
  ghost predicate Named(s: State) {
    && (forall i | 0 <= i < |s.log| :: s.log[i].tag in s.used && s.log[i].upto <= s.clock)
    && (forall i, j | 0 <= i < j < |s.log| :: s.log[i].tag != s.log[j].tag && s.log[i].upto <= s.log[j].upto)
    && (forall i | 0 <= i < |s.threads| && !s.threads[i].Idle? :: s.threads[i].tag in s.used)
    && (forall i, j | 0 <= i < j < |s.threads| && !s.threads[i].Idle? && !s.threads[j].Idle? ::
          s.threads[i].tag != s.threads[j].tag)
  }

  ghost predicate Inv(hash: string -> nat, s: State) {
    && Shape(s)
    && Explained(s.log)
    && Refines(hash, s.shards, Replay(s.log), s.clock)
    && (forall i | 0 <= i < |s.threads| :: ThreadOk(s.threads[i], s.clock, s.log))
    && (s.sweeper.Sweeping? ==> s.sweeper.now <= s.clock)
    && Named(s)
  }

  // Key-level lemmas -------------------------------------------------------------------

  lemma SectionAgrees(s: Shard, m: SimpleMap, command: Command, now: int, clock: int)
    requires !command.Ping? && now <= clock && Agree(s.entries, m, command.key, clock)
    ensures var section := FirstSection(s, command, now);
            var time := AnswerTime(s, command, now, clock);
            var (m', answer) := Exec(m, command, time);
            && section.answer == answer
            && now <= time <= clock
            && Agree(section.shard.entries, m', command.key, clock)
  {
  }

  lemma SectionTouchesOneKey(s: Shard, m: SimpleMap, command: Command, now: int, time: int, clock: int, key: string)
    requires !command.Ping? && key != command.key && Agree(s.entries, m, key, clock)
    ensures Agree(FirstSection(s, command, now).shard.entries, Exec(m, command, time).0, key, clock)
  {
  }

  lemma AgreeElsewhere(entries: map<string, Entry>, m: SimpleMap, command: Command, time: int, clock: int, key: string)
    requires !command.Ping? && key != command.key && Agree(entries, m, key, clock)
    ensures Agree(entries, Exec(m, command, time).0, key, clock)
  {
  }

  /** Erasing entries that have expired is invisible to the simple map. */
  lemma SilentErase(before: map<string, Entry>, after: map<string, Entry>, m: SimpleMap, key: string, clock: int)
    requires Agree(before, m, key, clock)
    requires key in after ==> key in before && after[key] == before[key]
    requires key in before && key !in after ==> Expired(before[key], clock)
    ensures Agree(after, m, key, clock)
    ensures forall time | clock <= time ::
              (key in after && !Expired(after[key], time)) <==> (key in before && !Expired(before[key], time))
  {
  }

  lemma SweptKey(s: Shard, t: Shard, now: int, budget: nat, popped: multiset<Candidate>, key: string, clock: int)
    requires Swept(s, t, now, budget, popped) && now <= clock
    ensures key in t.entries ==> key in s.entries && t.entries[key] == s.entries[key]
    ensures key in s.entries && key !in t.entries ==> Expired(s.entries[key], clock)
  {
    if key in s.entries && key !in t.entries {
      assert key in Hit(s.entries, popped);
      var c :| c in popped && Matches(s.entries, c) && c.key == key;
    }
  }

  // Shard-level lemmas -----------------------------------------------------------------

  lemma LockRefines(hash: string -> nat, shards: seq<Shard>, m: SimpleMap, command: Command, now: int, clock: int)
    requires |shards| > 0 && IsPow2(|shards|) && Refines(hash, shards, m, clock)
    requires !command.Ping? && now <= clock
    ensures var j := ShardFor(hash, |shards|, command.key);
            var section := FirstSection(shards[j], command, now);
            var time := AnswerTime(shards[j], command, now, clock);
            var (m', answer) := Exec(m, command, time);
            && section.answer == answer
            && now <= time <= clock
            && Refines(hash, shards[j := section.shard], m', clock)
  {
    hide ShardFor, FirstSection, Exec, Agree, AnswerTime;
    var j := ShardFor(hash, |shards|, command.key);
    var section := FirstSection(shards[j], command, now);
    var time := AnswerTime(shards[j], command, now, clock);
    var m' := Exec(m, command, time).0;
    var shards' := shards[j := section.shard];
    assert Agree(Home(hash, shards, command.key).entries, m, command.key, clock);
    SectionAgrees(shards[j], m, command, now, clock);
    forall key: string
      ensures Agree(Home(hash, shards', key).entries, m', key, clock)
    {
      assert Agree(Home(hash, shards, key).entries, m, key, clock);
      if key != command.key {
        if ShardFor(hash, |shards|, key) == j {
          SectionTouchesOneKey(shards[j], m, command, now, time, clock, key);
        } else {
          AgreeElsewhere(Home(hash, shards, key).entries, m, command, time, clock, key);
        }
      }
    }
  }

  /** Replacing a shard by one in which only expired entries are gone. */
  lemma SilentShard(hash: string -> nat, shards: seq<Shard>, m: SimpleMap, clock: int, j: nat, t: Shard)
    requires |shards| > 0 && IsPow2(|shards|) && Refines(hash, shards, m, clock) && j < |shards|
    requires forall key | key in t.entries :: key in shards[j].entries && t.entries[key] == shards[j].entries[key]
    requires forall key | key in shards[j].entries && key !in t.entries :: Expired(shards[j].entries[key], clock)
    ensures Refines(hash, shards[j := t], m, clock)
  {
    hide ShardFor, Agree, Expired;
    var shards' := shards[j := t];
    forall key: string
      ensures Agree(Home(hash, shards', key).entries, m, key, clock)
    {
      assert Agree(Home(hash, shards, key).entries, m, key, clock);
      if ShardFor(hash, |shards|, key) == j {
        SilentErase(shards[j].entries, t.entries, m, key, clock);
      }
    }
  }

  lemma TickRefines(hash: string -> nat, shards: seq<Shard>, m: SimpleMap, clock: int, later: int)
    requires |shards| > 0 && IsPow2(|shards|) && Refines(hash, shards, m, clock) && clock <= later
    ensures Refines(hash, shards, m, later)
  {
    hide ShardFor;
    forall key: string
      ensures Agree(Home(hash, shards, key).entries, m, key, later)
    {
      assert Agree(Home(hash, shards, key).entries, m, key, clock);
    }
  }

  lemma ExplainedSnoc(log: seq<LogEntry>, e: LogEntry)
    requires Explained(log)
    requires e.answer == Exec(Replay(log), e.command, e.time).1 && e.from <= e.time <= e.upto
    ensures Explained(log + [e])
    ensures Replay(log + [e]) == Exec(Replay(log), e.command, e.time).0
  {
    hide Exec;
    var log' := log + [e];
    assert log'[..|log|] == log;
    forall i | 0 <= i < |log'|
      ensures log'[i].answer == AnswerAt(log', i) && log'[i].from <= log'[i].time <= log'[i].upto
    {
      if i < |log| {
        assert log'[..i] == log[..i];
        assert log[i].answer == AnswerAt(log, i);
      }
    }
  }

  // Steps ------------------------------------------------------------------------------

  lemma ThreadOkLater(t: Thread, clock: int, log: seq<LogEntry>, later: int, log': seq<LogEntry>)
    requires ThreadOk(t, clock, log) && clock <= later && log <= log'
    requires t.Called? || t.Clocked? ==> forall i | |log| <= i < |log'| :: log'[i].tag != t.tag
    ensures ThreadOk(t, later, log')
  {
    assert forall i | 0 <= i < |log| :: log'[i] == log[i];
  }

  lemma PingSection(hash: string -> nat, s: State, i: nat)
    requires Inv(hash, s) && Enabled(s, Lock(i)) && s.threads[i].command.Ping?
    ensures var s' := ApplyLock(hash, s, i);
            Explained(s'.log) && Refines(hash, s'.shards, Replay(s'.log), s'.clock)
  {
    hide ShardFor, Refines;
    var t := s.threads[i];
    ExplainedSnoc(s.log, LogEntry(t.tag, t.command, t.now, s.clock, s.clock, Pong));
  }

  lemma KeySection(hash: string -> nat, s: State, i: nat)
    requires Inv(hash, s) && Enabled(s, Lock(i)) && !s.threads[i].command.Ping?
    ensures var s' := ApplyLock(hash, s, i);
            Explained(s'.log) && Refines(hash, s'.shards, Replay(s'.log), s'.clock)
  {
    hide ShardFor, Refines, FirstSection, Exec, AnswerTime, Explained;
    var t := s.threads[i];
    var j := ShardFor(hash, |s.shards|, t.command.key);
    LockRefines(hash, s.shards, Replay(s.log), t.command, t.now, s.clock);
    ExplainedSnoc(s.log, LogEntry(t.tag, t.command, t.now, AnswerTime(s.shards[j], t.command, t.now, s.clock), s.clock,
                                  FirstSection(s.shards[j], t.command, t.now).answer));
  }

  lemma LockBookkeeping(hash: string -> nat, s: State, i: nat)
    requires Inv(hash, s) && Enabled(s, Lock(i))
    ensures var s' := ApplyLock(hash, s, i);
            && Named(s')
            && forall j | 0 <= j < |s'.threads| :: ThreadOk(s'.threads[j], s'.clock, s'.log)
  {
    hide ShardFor, Refines, FirstSection, Exec, AnswerTime, Explained, Replay;
    var s' := ApplyLock(hash, s, i);
    var tag := s.threads[i].tag;
    assert s'.log[|s.log|].tag == tag;
    forall j | 0 <= j < |s'.threads|
      ensures ThreadOk(s'.threads[j], s'.clock, s'.log)
    {
      if j != i {
        assert ThreadOk(s.threads[j], s.clock, s.log);
        ThreadOkLater(s.threads[j], s.clock, s.log, s'.clock, s'.log);
      }
    }
    assert ThreadOk(s.threads[i], s.clock, s.log);
  }

  lemma LockInv(hash: string -> nat, s: State, i: nat)
    requires Inv(hash, s) && Enabled(s, Lock(i))
    ensures Inv(hash, ApplyLock(hash, s, i))
  {
    hide ShardFor, Refines, FirstSection, Exec, AnswerTime, Explained, Replay, Named, ThreadOk;
    LockBookkeeping(hash, s, i);
    if s.threads[i].command.Ping? {
      PingSection(hash, s, i);
    } else {
      KeySection(hash, s, i);
    }
  }

  lemma CleanInv(hash: string -> nat, s: State, i: nat)
    requires Inv(hash, s) && Enabled(s, Clean(i))
    ensures Inv(hash, Apply(hash, s, Clean(i)))
  {
    hide ShardFor, Refines, Explained, Replay;
    var t := s.threads[i];
    var j := ShardFor(hash, |s.shards|, t.command.key);
    assert ThreadOk(t, s.clock, s.log);
    SilentShard(hash, s.shards, Replay(s.log), s.clock, j, CleanIn(s.shards[j], t.command.key, t.now));
  }

  lemma SweepInv(hash: string -> nat, s: State, popped: multiset<Candidate>, after: Shard)
    requires Inv(hash, s) && Enabled(s, SweepShard(popped, after))
    ensures Inv(hash, Apply(hash, s, SweepShard(popped, after)))
  {
    hide ShardFor, Refines, Explained, Replay, Swept, ThreadOk, Named;
    NamedShards(s, Apply(hash, s, SweepShard(popped, after)));
    var j := s.sweeper.next;
    forall key: string
      ensures key in after.entries ==> key in s.shards[j].entries && after.entries[key] == s.shards[j].entries[key]
      ensures key in s.shards[j].entries && key !in after.entries ==> Expired(s.shards[j].entries[key], s.clock)
    {
      SweptKey(s.shards[j], after, s.sweeper.now, s.sweeper.budget, popped, key, s.clock);
    }
    SilentShard(hash, s.shards, Replay(s.log), s.clock, j, after);
  }

  lemma NamedShards(s: State, t: State)
    requires Named(s) && t.threads == s.threads && t.log == s.log && t.used == s.used && t.clock == s.clock
    ensures Named(t)
  {
  }

  lemma TickInv(hash: string -> nat, s: State, ticks: nat)
    requires Inv(hash, s)
    ensures Inv(hash, Apply(hash, s, Tick(ticks)))
  {
    hide ShardFor, Refines, Explained, Replay;
    TickRefines(hash, s.shards, Replay(s.log), s.clock, s.clock + ticks);
    forall i | 0 <= i < |s.threads|
      ensures ThreadOk(s.threads[i], s.clock + ticks, s.log)
    {
      assert ThreadOk(s.threads[i], s.clock, s.log);
    }
  }

  lemma ThreadStepInv(hash: string -> nat, s: State, step: Step)
    requires Inv(hash, s) && Enabled(s, step)
    requires step.Call? || step.ReadClock? || step.Take?
    ensures Inv(hash, Apply(hash, s, step))
  {
    hide ShardFor, Refines, Explained, Replay;
    var s' := Apply(hash, s, step);
    forall j | 0 <= j < |s'.threads|
      ensures ThreadOk(s'.threads[j], s'.clock, s'.log)
    {
      assert ThreadOk(s.threads[j], s.clock, s.log);
    }
  }

  lemma StepInv(hash: string -> nat, s: State, step: Step)
    requires Inv(hash, s) && Enabled(s, step)
    ensures Inv(hash, Apply(hash, s, step))
  {
    match step
    case Tick(ticks) => TickInv(hash, s, ticks);
    case Call(_, _, _) => ThreadStepInv(hash, s, step);
    case ReadClock(_) => ThreadStepInv(hash, s, step);
    case Take(_) => ThreadStepInv(hash, s, step);
    case Lock(i) => LockInv(hash, s, i);
    case Clean(i) => CleanInv(hash, s, i);
    case SweepShard(popped, after) => SweepInv(hash, s, popped, after);
    case SweepBegin(_) => SweeperInv(hash, s, step);
    case SweepEnd => SweeperInv(hash, s, step);
  }

  lemma SweeperInv(hash: string -> nat, s: State, step: Step)
    requires Inv(hash, s) && Enabled(s, step) && (step.SweepBegin? || step.SweepEnd?)
    ensures Inv(hash, Apply(hash, s, step))
  {
    hide ShardFor, Refines, Explained, Replay, ThreadOk, Named;
    NamedShards(s, Apply(hash, s, step));
  }

  // Runs -------------------------------------------------------------------------------

  ghost predicate Run(hash: string -> nat, s: State, steps: seq<Step>, t: State)
    requires Shape(s)
    decreases |steps|
  {
    if steps == [] then s == t
    else
      && Enabled(s, steps[0])
      && Shape(Apply(hash, s, steps[0]))
      && Run(hash, Apply(hash, s, steps[0]), steps[1..], t)
  }

  function Init(shardCount: nat, threads: nat, clock: int): State {
    State(seq(shardCount, _ => EMPTY_SHARD), clock, seq(threads, _ => Idle), Resting, {}, [])
  }

  lemma InitInv(hash: string -> nat, shardCount: nat, threads: nat, clock: int)
    requires shardCount > 0 && IsPow2(shardCount)
    ensures Inv(hash, Init(shardCount, threads, clock))
  {
  }

  lemma {:induction false} RunInv(hash: string -> nat, s: State, steps: seq<Step>, t: State)
    requires Inv(hash, s) && Run(hash, s, steps, t)
    ensures Inv(hash, t)
    ensures s.log <= t.log
    decreases |steps|
  {
    hide Inv, Enabled;
    if steps != [] {
      ShapeOf(hash, s);
      StepInv(hash, s, steps[0]);
      LogGrows(hash, s, steps[0]);
      RunInv(hash, Apply(hash, s, steps[0]), steps[1..], t);
    }
  }

  lemma ShapeOf(hash: string -> nat, s: State)
    requires Inv(hash, s)
    ensures Shape(s)
  {
  }

  lemma LogGrows(hash: string -> nat, s: State, step: Step)
    requires Shape(s) && Enabled(s, step)
    ensures s.log <= Apply(hash, s, step).log
  {
    hide FirstSection, AnswerTime, ShardFor, CleanIn;
  }

  /** Linearizability: in every run of any number of threads, sweeps and clock ticks over any
      number of shards, every answer handed out is the simple map's answer, in one order that
      all operations share, at an instant between the operation's clock reading and its lock. */
  lemma EveryRunLinearizes(hash: string -> nat, shardCount: nat, threads: nat, clock: int, steps: seq<Step>, t: State)
    requires shardCount > 0 && IsPow2(shardCount)
    requires Run(hash, Init(shardCount, threads, clock), steps, t)
    ensures Explained(t.log)
    ensures forall i | 0 <= i < |t.threads| && t.threads[i].Returned? ::
              t.threads[i].at < |t.log| && t.log[t.threads[i].at].command == t.threads[i].command
              && t.log[t.threads[i].at].tag == t.threads[i].tag
    ensures forall i, j | 0 <= i < j < |t.log| :: t.log[i].tag != t.log[j].tag && t.log[i].upto <= t.log[j].upto
    ensures Shape(t) && Refines(hash, t.shards, Replay(t.log), t.clock)
  {
    InitInv(hash, shardCount, threads, clock);
    RunInv(hash, Init(shardCount, threads, clock), steps, t);
    assert forall i | 0 <= i < |t.threads| :: ThreadOk(t.threads[i], t.clock, t.log);
  }

  /** Real-time order: an operation that had its answer before another one was called comes before
      it in the order that explains all answers. */
  lemma RealTimeOrder(hash: string -> nat, shardCount: nat, threads: nat, clock: int,
                      before: seq<Step>, s: State, after: seq<Step>, t: State, i: nat, j: nat)
    requires shardCount > 0 && IsPow2(shardCount)
    requires Run(hash, Init(shardCount, threads, clock), before, s) && Shape(s) && Run(hash, s, after, t)
    requires i < |s.log| && j < |t.log| && t.log[j].tag !in s.used
    ensures s.log <= t.log && i < j
  {
    hide Run, Refines, Explained;
    InitInv(hash, shardCount, threads, clock);
    RunInv(hash, Init(shardCount, threads, clock), before, s);
    RunInv(hash, s, after, t);
  }

  /** What a client can see now or at any later time is the simple map, although the store may
      already have dropped expired entries. */
  lemma VisibleNowAndLater(hash: string -> nat, s: State, key: string, time: int)
    requires Inv(hash, s) && s.clock <= time
    ensures Live(Home(hash, s.shards, key), key, time) <==> Visible(Replay(s.log), key, time)
    ensures Visible(Replay(s.log), key, time) ==>
              Home(hash, s.shards, key).entries[key].value == Replay(s.log)[key].value
  {
    hide ShardFor, Replay;
    assert Agree(Home(hash, s.shards, key).entries, Replay(s.log), key, s.clock);
  }

  /** Cleanup steps, lazy or swept, never change what is visible now or later. */
  lemma CleanupIsInvisible(hash: string -> nat, s: State, step: Step, key: string, time: int)
    requires Inv(hash, s) && Enabled(s, step) && (step.Clean? || step.SweepShard?) && s.clock <= time
    ensures Shape(Apply(hash, s, step))
    ensures Live(Home(hash, Apply(hash, s, step).shards, key), key, time)
            <==> Live(Home(hash, s.shards, key), key, time)
  {
    hide ShardFor, Replay, Inv, Home, Live;
    ShapeOf(hash, s);
    var s' := Apply(hash, s, step);
    StepInv(hash, s, step);
    ShapeOf(hash, s');
    assert s'.log == s.log && s'.clock == s.clock;
    VisibleNowAndLater(hash, s, key, time);
    VisibleNowAndLater(hash, s', key, time);
  }

  // One thread -------------------------------------------------------------------------

  /** With a single thread the instants never go backwards. */
  ghost predicate Orderly(s: State) {
    && |s.threads| == 1
    && (forall i | 0 <= i < |s.log| :: s.log[i].from <= s.log[i].upto <= s.clock)
    && (forall i, j | 0 <= i < j < |s.log| :: s.log[i].upto <= s.log[j].from)
    && (s.threads[0].Clocked? ==> s.threads[0].now <= s.clock && forall i | 0 <= i < |s.log| ::
        s.log[i].upto <= s.threads[0].now)
  }

  lemma OrderlyStep(hash: string -> nat, s: State, step: Step)
    requires Shape(s) && Enabled(s, step) && Orderly(s)
    ensures Orderly(Apply(hash, s, step))
  {
    hide FirstSection, AnswerTime, ShardFor, CleanIn, Swept;
  }

  lemma {:induction false} OrderlyRun(hash: string -> nat, s: State, steps: seq<Step>, t: State)
    requires Shape(s) && Orderly(s) && Run(hash, s, steps, t)
    ensures Orderly(t)
    decreases |steps|
  {
    hide Orderly, Enabled;
    if steps != [] {
      OrderlyStep(hash, s, steps[0]);
      OrderlyRun(hash, Apply(hash, s, steps[0]), steps[1..], t);
    }
  }

  lemma SingleThreadTimesSorted(hash: string -> nat, s: State, i: nat, j: nat)
    requires Inv(hash, s) && Orderly(s) && i < j < |s.log|
    ensures s.log[i].time <= s.log[j].time
  {
  }
}
