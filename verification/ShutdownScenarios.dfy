/** Which servers can be shut down at any moment, and a shutdown that never ends. */
module ShutdownScenarios {
  import opened Bytes
  import opened Parser
  import opened CommandMeaning
  import opened Queueing
  import opened Sequencing
  import opened Requests
  import opened Loop
  import opened Pipeline
  import opened PipelineSteps
  import opened PipelineGuarantees
  import opened Scenarios
  import opened Shutdown

  /** The loop is at rest with k completions waiting for it and every worker idle. */
  predicate Piled(s: State, k: nat) {
    && s.pc.Rest?
    && (forall fd | fd in s.conns :: fd < k)
    && |s.workers| > 0 && (forall i | 0 <= i < |s.workers| :: s.workers[i].Idle?)
    && s.work.items == [] && !s.work.closed && s.work.capacity > 0
    && |s.completions.items| == k <= s.completions.capacity && !s.completions.closed
  }

  /** A configuration in which a command can be accepted. */
  predicate Accepts(workCapacity: nat, cfg: Config) {
    workCapacity > 0 && cfg.maxInFlight > 0 && cfg.maxInput >= SMALLEST_COMMAND
  }

  /** A client connects under descriptor k and sends a PING. */
  lemma PingQueued(s: State, cfg: Config, k: nat) returns (steps: seq<Step>, t: State)
    requires Piled(s, k) && Accepts(s.work.capacity, cfg)
    ensures Run(s, cfg, steps, t) && NoShutdown(steps)
    ensures t.pc.Rest? && (forall fd | fd in t.conns :: fd < k + 1)
    ensures t.workers == s.workers && t.completions == s.completions
    ensures |t.work.items| == 1 && t.work.capacity == s.work.capacity && !t.work.closed
  {
    hide Run, Wire;
    assert Fits(Ping, cfg) by {
      PingFits(cfg);
    }
    var s1 := Connect(s, cfg, k);
    var s2 := Send(s1, cfg, k, Ping);
    t := Leave(s2, cfg);
    var a, b, c := [Accept(k), StartRead(k)], [Receive(Wire(Ping)), ParseTurn(0), ParseTurn(0)],
        [ReadBlocked, Flush(0)];
    RunConcat(s, cfg, a, s1, b, s2);
    RunConcat(s, cfg, a + b, s2, c, t);
    steps := a + b + c;
  }

  lemma PileOne(s: State, cfg: Config, k: nat) returns (steps: seq<Step>, t: State)
    requires Piled(s, k) && Accepts(s.work.capacity, cfg) && k < s.completions.capacity
    ensures Run(s, cfg, steps, t) && NoShutdown(steps) && Piled(t, k + 1)
    ensures t.work.capacity == s.work.capacity && t.completions.capacity == s.completions.capacity
  {
    hide Run;
    var s1, more;
    more, s1 := PingQueued(s, cfg, k);
    t := Serve(s1, cfg, "");
    var b := [Pop(0), Dispatch(0, ""), PushCompletion(0), Notify(0)];
    RunConcat(s, cfg, more, s1, b, t);
    steps := more + b;
  }

  lemma {:induction false} PileUp(s: State, cfg: Config, k: nat, n: nat) returns (steps: seq<Step>, t: State)
    requires Piled(s, k) && Accepts(s.work.capacity, cfg) && k <= n <= s.completions.capacity
    ensures Run(s, cfg, steps, t) && NoShutdown(steps) && Piled(t, n)
    ensures t.work.capacity == s.work.capacity && t.completions.capacity == s.completions.capacity
    decreases n - k
  {
    hide Piled, Accepts, Apply, Enabled;
    if k == n {
      steps, t := [], s;
      assert Run(s, cfg, [], s);
    } else {
      var first, rest, u;
      first, u := PileOne(s, cfg, k);
      rest, t := PileUp(u, cfg, k + 1, n);
      RunConcat(s, cfg, first, u, rest, t);
      steps := first + rest;
    }
  }

  /** In every configuration that accepts commands there is a shutdown that leaves some worker
      waiting for room for ever. */
  lemma SomeShutdownSticks(workCapacity: nat, completionCapacity: nat, workers: nat, cfg: Config)
      returns (before: seq<Step>, s: State, steps: seq<Step>, t: State)
    requires workers > 0 && Accepts(workCapacity, cfg)
    ensures IsShutdown(workCapacity, completionCapacity, workers, cfg, before, s, steps, t)
    ensures Load(s) > completionCapacity && !AllExited(t)
  {
    hide Run, Finished, AllExited, ShutdownStep, Apply;
    var start := Init(workCapacity, completionCapacity, workers);
    var first, u := PileUp(start, cfg, 0, completionCapacity);
    var last;
    last, s := PingQueued(u, cfg, completionCapacity);
    RunConcat(start, cfg, first, u, last, s);
    before := first + last;
    BeforeShutdown(workCapacity, completionCapacity, workers, cfg, before, s);
    ClosedNow(s, cfg);
    steps, t := RunToTheEnd(Apply(s, cfg, CloseWork), cfg);
    EveryShutdownDrains(workCapacity, completionCapacity, workers, cfg, before, s, steps, t);
  }

  lemma NothingToDrain(workCapacity: nat, completionCapacity: nat, workers: nat, cfg: Config,
                       before: seq<Step>, s: State, steps: seq<Step>, t: State)
    requires IsShutdown(workCapacity, completionCapacity, workers, cfg, before, s, steps, t)
    requires workers > 0 && !Accepts(workCapacity, cfg)
    ensures AllExited(t)
  {
    hide Run, Finished, AllExited, ShutdownStep, Apply, Inv;
    var start := Init(workCapacity, completionCapacity, workers);
    InitInv(workCapacity, completionCapacity, workers, cfg);
    ShutRun(start, cfg, before, s);
    TotalNone(s.workers, Carries);
    EveryShutdownDrains(workCapacity, completionCapacity, workers, cfg, before, s, steps, t);
  }

  /** Every shutdown ends with all workers gone if and only if the configuration accepts no command
      at all. */
  lemma ShutdownsEndExactly(workCapacity: nat, completionCapacity: nat, workers: nat, cfg: Config)
    requires workers > 0
    ensures (forall before: seq<Step>, s: State, steps: seq<Step>, t: State |
               IsShutdown(workCapacity, completionCapacity, workers, cfg, before, s, steps, t) :: AllExited(t))
            <==> !Accepts(workCapacity, cfg)
  {
    hide IsShutdown, AllExited, Accepts;
    if Accepts(workCapacity, cfg) {
      var before, s, steps, t := SomeShutdownSticks(workCapacity, completionCapacity, workers, cfg);
    } else {
      forall before: seq<Step>, s: State, steps: seq<Step>, t: State |
        IsShutdown(workCapacity, completionCapacity, workers, cfg, before, s, steps, t)
        ensures AllExited(t)
      {
        NothingToDrain(workCapacity, completionCapacity, workers, cfg, before, s, steps, t);
      }
    }
  }
}
