/** What every reachable shard satisfies: each deadline has exactly one heap candidate, and a
    generation number identifies the write that issued it. */
module Expiration {
  import opened Bytes
  import opened Storage

  /** The writes that issue generations, oldest first: the one with generation g is at g - 1. */
  datatype Write = SetWrite(key: string, value: string) | ExpireWrite(key: string, deadline: int)

  datatype Traced = Traced(s: Shard, writes: seq<Write>)

  predicate Issued(t: Traced, g: nat) {
    1 <= g <= |t.writes|
  }

  predicate EntryTraced(t: Traced, key: string)
    requires key in t.s.entries
  {
    var e := t.s.entries[key];
    && Issued(t, e.generation)
    && t.writes[e.generation - 1]
       == (if e.deadline.Some? then ExpireWrite(key, e.deadline.value) else SetWrite(key, e.value))
  }

  predicate CandidateTraced(t: Traced, c: Candidate) {
    Issued(t, c.generation) && t.writes[c.generation - 1] == ExpireWrite(c.key, c.deadline)
  }

  function CandidateOf(key: string, e: Entry): Candidate
    requires e.deadline.Some?
  {
    Candidate(e.deadline.value, e.generation, key)
  }

  /** The shard invariant. Coverage is the last conjunct: an entry with a deadline has a
      candidate, and no candidate is in the heap twice. */
  ghost predicate Sound(t: Traced) {
    && |t.writes| == t.s.nextGeneration
    && (forall k | k in t.s.entries :: EntryTraced(t, k))
    && (forall c | c in t.s.heap :: CandidateTraced(t, c))
    && (forall c | c in t.s.heap :: t.s.heap[c] == 1)
    && (forall k | k in t.s.entries && t.s.entries[k].deadline.Some? :: CandidateOf(k, t.s.entries[k]) in t.s.heap)
  }

  // Steps ------------------------------------------------------------------------------

  datatype Step =
    | SetStep(key: string, value: string)
    | DelStep(key: string, now: int)
    | ExpireStep(key: string, ticks: int, now: int)
    | CleanStep(key: string, now: int)
    | SweepStep(now: int, budget: nat, popped: multiset<Candidate>, after: Shard)

  ghost predicate Enabled(t: Traced, step: Step) {
    step.SweepStep? ==> Swept(t.s, step.after, step.now, step.budget, step.popped)
  }

  function Apply(t: Traced, step: Step): Traced {
    match step
    case SetStep(key, value) => Traced(SetIn(t.s, key, value), t.writes + [SetWrite(key, value)])
    case DelStep(key, now) => t.(s := DelIn(t.s, key, now).0)
    case ExpireStep(key, ticks, now) =>
      var (s, ok) := ExpireIn(t.s, key, ticks, now);
      Traced(s, if ok then t.writes + [ExpireWrite(key, now + ticks)] else t.writes)
    case CleanStep(key, now) => t.(s := CleanIn(t.s, key, now))
    case SweepStep(_, _, _, after) => t.(s := after)
  }

  function ApplyAll(t: Traced, steps: seq<Step>): Traced
    decreases |steps|
  {
    if steps == [] then t else ApplyAll(Apply(t, steps[0]), steps[1..])
  }

  ghost predicate AllEnabled(t: Traced, steps: seq<Step>)
    decreases |steps|
  {
    steps == [] || (Enabled(t, steps[0]) && AllEnabled(Apply(t, steps[0]), steps[1..]))
  }

  lemma SetSound(t: Traced, key: string, value: string)
    requires Sound(t)
    ensures Sound(Apply(t, SetStep(key, value)))
  {
    var u := Apply(t, SetStep(key, value));
    forall k | k in u.s.entries
      ensures EntryTraced(u, k)
    {
      assert k != key ==> EntryTraced(t, k);
    }
    assert forall c | c in u.s.heap :: CandidateTraced(t, c);
  }

  lemma EraseSound(t: Traced, keys: set<string>)
    requires Sound(t)
    ensures Sound(t.(s := t.s.(entries := t.s.entries - keys)))
  {
    var u := t.(s := t.s.(entries := t.s.entries - keys));
    forall k | k in u.s.entries
      ensures EntryTraced(u, k)
    {
      assert EntryTraced(t, k);
    }
    assert forall c | c in u.s.heap :: CandidateTraced(t, c);
  }

  lemma ExpireSound(t: Traced, key: string, ticks: int, now: int)
    requires Sound(t)
    ensures Sound(Apply(t, ExpireStep(key, ticks, now)))
  {
    var u := Apply(t, ExpireStep(key, ticks, now));
    if Live(t.s, key, now) {
      var c := Candidate(now + ticks, t.s.nextGeneration + 1, key);
      assert c in t.s.heap ==> CandidateTraced(t, c);
      assert c !in t.s.heap;
      forall k | k in u.s.entries
        ensures EntryTraced(u, k)
      {
        assert k != key ==> EntryTraced(t, k);
      }
      forall d | d in u.s.heap
        ensures CandidateTraced(u, d)
      {
        assert d != c ==> CandidateTraced(t, d);
      }
    } else {
      EraseSound(t, {key});
    }
  }

  /** Two records with one generation come from one write; so equal generations alone already
      give equal keys and equal deadlines. */
  lemma GenerationIdentifiesWrite(t: Traced, key: string, c: Candidate)
    requires Sound(t) && key in t.s.entries && c in t.s.heap
    requires t.s.entries[key].generation == c.generation
    ensures key == c.key && t.s.entries[key].deadline == Some(c.deadline)
    ensures t.writes[c.generation - 1] == ExpireWrite(c.key, c.deadline)
  {
    assert EntryTraced(t, key) && CandidateTraced(t, c);
  }

  lemma SweepSound(t: Traced, u: Shard, now: int, budget: nat, popped: multiset<Candidate>)
    requires Sound(t) && Swept(t.s, u, now, budget, popped)
    ensures Sound(t.(s := u))
  {
    var v := t.(s := u);
    forall k | k in u.entries
      ensures EntryTraced(v, k)
      ensures u.entries[k].deadline.Some? ==> CandidateOf(k, u.entries[k]) in u.heap
    {
      assert EntryTraced(t, k);
      if u.entries[k].deadline.Some? {
        var c := CandidateOf(k, u.entries[k]);
        assert c in t.s.heap;
        assert Matches(t.s.entries, c);
        assert c in popped ==> k in Hit(t.s.entries, popped);
      }
    }
    forall c | c in u.heap
      ensures CandidateTraced(v, c) && u.heap[c] == 1
    {
      assert c in t.s.heap && CandidateTraced(t, c);
    }
  }

  lemma StepSound(t: Traced, step: Step)
    requires Sound(t) && Enabled(t, step)
    ensures Sound(Apply(t, step))
  {
    match step
    case SetStep(key, value) => SetSound(t, key, value);
    case DelStep(key, now) => EraseSound(t, {key});
    case ExpireStep(key, ticks, now) => ExpireSound(t, key, ticks, now);
    case CleanStep(key, now) => EraseSound(t, {key});
    case SweepStep(now, budget, popped, after) => SweepSound(t, after, now, budget, popped);
  }

  /** Heap coverage holds after any sequence of locked sections. */
  lemma {:induction false} EveryRunSound(t: Traced, steps: seq<Step>)
    requires Sound(t) && AllEnabled(t, steps)
    ensures Sound(ApplyAll(t, steps))
    decreases |steps|
  {
    if steps != [] {
      StepSound(t, steps[0]);
      EveryRunSound(Apply(t, steps[0]), steps[1..]);
    }
  }

  // What a sweep achieves --------------------------------------------------------------

  ghost function Due(s: Shard, now: int): set<Candidate> {
    set c | c in s.heap && c.deadline <= now
  }

  /** Stale candidates are harmless: what a sweep erases is due, and was last written by the
      very EXPIRE that pushed the popped candidate. */
  lemma SweepErasesOnlyItsOwn(t: Traced, u: Shard, now: int, budget: nat, popped: multiset<Candidate>, key: string)
    requires Sound(t) && Swept(t.s, u, now, budget, popped)
    requires key in t.s.entries && key !in u.entries
    ensures Expired(t.s.entries[key], now)
    ensures CandidateOf(key, t.s.entries[key]) in popped
    ensures t.writes[t.s.entries[key].generation - 1] == ExpireWrite(key, t.s.entries[key].deadline.value)
  {
    assert key in Hit(t.s.entries, popped);
    var c :| c in popped && Matches(t.s.entries, c) && c.key == key;
    assert c in t.s.heap;
    GenerationIdentifiesWrite(t, key, c);
    assert c == CandidateOf(key, t.s.entries[key]);
  }

  lemma ExpiredIsDue(t: Traced, key: string, now: int)
    requires Sound(t) && key in t.s.entries && Expired(t.s.entries[key], now)
    ensures CandidateOf(key, t.s.entries[key]) in Due(t.s, now)
  {
  }

  lemma PoppedAsSet(t: Traced, popped: multiset<Candidate>)
    requires Sound(t) && popped <= t.s.heap
    ensures popped == multiset(set c | c in popped)
  {
    var p := set c | c in popped;
    forall c
      ensures popped[c] == multiset(p)[c]
    {
      if c in popped {
        assert t.s.heap[c] == 1;
      }
    }
  }

  /** A sweep of budget m pops min(m, due) candidates, so that many fewer are due. */
  lemma SweepProgress(t: Traced, u: Shard, now: int, budget: nat, popped: multiset<Candidate>)
    requires Sound(t) && Swept(t.s, u, now, budget, popped)
    ensures |Due(u, now)| == if |Due(t.s, now)| <= budget then 0 else |Due(t.s, now)| - budget
  {
    var p := set c | c in popped;
    PoppedAsSet(t, popped);
    assert |p| == |popped|;
    assert p <= Due(t.s, now);
    assert Due(u, now) == Due(t.s, now) - p by {
      forall c
        ensures c in Due(u, now) <==> c in Due(t.s, now) && c !in p
      {
        if c in t.s.heap {
          assert t.s.heap[c] == 1;
          assert c in u.heap <==> c !in popped;
        }
      }
    }
    assert |Due(u, now)| == |Due(t.s, now)| - |p|;
    if |popped| < budget {
      assert Due(u, now) == {};
    }
  }

  datatype Pass = Pass(popped: multiset<Candidate>, after: Shard)

  /** A chain of sweeps at one clock reading with nothing in between. */
  ghost predicate Sweeps(s: Shard, passes: seq<Pass>, now: int, budget: nat)
    decreases |passes|
  {
    passes == [] || (Swept(s, passes[0].after, now, budget, passes[0].popped)
                     && Sweeps(passes[0].after, passes[1..], now, budget))
  }

  function Final(s: Shard, passes: seq<Pass>): Shard {
    if passes == [] then s else passes[|passes| - 1].after
  }

  lemma {:induction false} SweepsProgress(t: Traced, passes: seq<Pass>, now: int, budget: nat)
    requires Sound(t) && Sweeps(t.s, passes, now, budget)
    ensures Sound(t.(s := Final(t.s, passes)))
    ensures var due := |Due(t.s, now)|; var room := |passes| * budget;
            |Due(Final(t.s, passes), now)| == if due <= room then 0 else due - room
    decreases |passes|
  {
    hide Sound, Swept, Due;
    if passes != [] {
      var p := passes[0];
      SweepSound(t, p.after, now, budget, p.popped);
      SweepProgress(t, p.after, now, budget, p.popped);
      SweepsProgress(t.(s := p.after), passes[1..], now, budget);
      assert Final(t.s, passes) == Final(p.after, passes[1..]);
      assert |passes| * budget == |passes[1..]| * budget + budget;
    }
  }

  /** Repeated sweeps finish in exactly ceil(due / m) calls: none is due after k calls if and
      only if k * m covers the candidates that were due, and then no entry is expired. */
  lemma SweepsFinish(t: Traced, passes: seq<Pass>, now: int, budget: nat)
    requires Sound(t) && Sweeps(t.s, passes, now, budget)
    ensures var last := Final(t.s, passes);
            && (Due(last, now) == {} <==> |Due(t.s, now)| <= |passes| * budget)
            && (Due(last, now) == {} ==> forall k | k in last.entries :: !Expired(last.entries[k], now))
  {
    hide Sound, Sweeps, Due;
    SweepsProgress(t, passes, now, budget);
    var last := Final(t.s, passes);
    if Due(last, now) == {} {
      forall k | k in last.entries
        ensures !Expired(last.entries[k], now)
      {
        if Expired(last.entries[k], now) {
          ExpiredIsDue(t.(s := last), k, now);
          assert false;
        }
      }
    }
  }
}
