/** What the lease protocol guarantees over whole runs. */
module JobTheorems {
  import opened Prelude
  import opened Jobs
  import opened JobProtocol

  lemma Extend(cfg: Config, run: seq<Timed>, e: Timed)
    ensures State(cfg, run + [e]) == Next(cfg, State(cfg, run), e)
    ensures Timely(cfg, run + [e]) <==>
            Timely(cfg, run) && Enabled(State(cfg, run), e) && OnTime(cfg, State(cfg, run), e.time)
  {
    assert (run + [e])[..|run + [e]| - 1] == run;
  }

  // ---------- no lost update ----------

  // The claims counted for job j after step e, given those counted before it.
  function Counted(s: System, e: Timed, j: nat, before: nat): nat {
    if j >= |s.jobs| then 0
    else
      match e.step
      case ClaimUpdate(w, _) =>
        before + if w in s.workers && s.workers[w].Claiming? && s.workers[w].job == j && Wins(s, w) then 1 else 0
      case Retry(id) => if id == j && Terminal(s.jobs[j]) then 0 else before
      case _ => before
  }

  // Successful claims of job j since it was created or last retried by an operator.
  function ClaimsSince(cfg: Config, run: seq<Timed>, j: nat): nat {
    if run == [] then 0
    else
      var before := run[..|run| - 1];
      Counted(State(cfg, before), run[|run| - 1], j, ClaimsSince(cfg, before, j))
  }

  lemma ClaimedStep(cfg: Config, s: System, e: Timed, j: nat)
    requires Inv(s) && Enabled(s, e) && j < |JobsAfter(cfg, s, e)|
    ensures j < |s.jobs| ==> s.jobs[j].attempts >= 0
    ensures JobsAfter(cfg, s, e)[j].attempts == Counted(s, e, j, if j < |s.jobs| then s.jobs[j].attempts else 0)
  {
  }

  // For every interleaving, with no timing assumption beyond the clock: although the UPDATE writes
  // a value computed from a stale read, the stored count is the number of successful claims.
  lemma {:induction false} AttemptCountIsClaims(cfg: Config, run: seq<Timed>, j: nat)
    requires Legal(cfg, run) && j < |State(cfg, run).jobs|
    ensures State(cfg, run).jobs[j].attempts == ClaimsSince(cfg, run, j)
  {
    if run != [] {
      var before := run[..|run| - 1];
      Reachable(cfg, before);
      ClaimedStep(cfg, State(cfg, before), run[|run| - 1], j);
      if j < |State(cfg, before).jobs| { AttemptCountIsClaims(cfg, before, j); }
    }
  }

  lemma {:induction false} MaxAttemptsFixed(cfg: Config, run: seq<Timed>, k: nat, j: nat)
    requires k <= |run| && j < |State(cfg, run[..k]).jobs|
    ensures j < |State(cfg, run).jobs|
    ensures State(cfg, run).jobs[j].maxAttempts == State(cfg, run[..k]).jobs[j].maxAttempts
    decreases |run|
  {
    if k == |run| {
      assert run[..k] == run;
    } else {
      var before := run[..|run| - 1];
      assert before[..k] == run[..k];
      MaxAttemptsFixed(cfg, before, k, j);
    }
  }

  lemma JobStateMachine(cfg: Config, run: seq<Timed>, j: nat)
    requires Legal(cfg, run) && j < |State(cfg, run).jobs|
    ensures var job := State(cfg, run).jobs[j];
      && (job.status == Queued ==> ClaimsSince(cfg, run, j) == 0)
      && (job.status == Retrying || job.status == Failed ==> ClaimsSince(cfg, run, j) < job.maxAttempts)
      && (job.status == DeadLettered ==> ClaimsSince(cfg, run, j) == job.maxAttempts)
      && (job.status == Running ==> ClaimsSince(cfg, run, j) >= 1)
      && ClaimsSince(cfg, run, j) <= job.maxAttempts <= 10
      && (job.workerId.Some? <==> job.status == Running)
      && (job.lease.Some? <==> job.status == Running)
  {
    Reachable(cfg, run);
    AttemptCountIsClaims(cfg, run, j);
  }

  // ---------- idempotent creation ----------

  lemma KeysStep(cfg: Config, s: System, e: Timed)
    requires UniqueKeys(s.jobs) && Enabled(s, e)
    ensures UniqueKeys(JobsAfter(cfg, s, e))
  {
    var after := JobsAfter(cfg, s, e);
    forall i | 0 <= i < |s.jobs| ensures after[i].merchant == s.jobs[i].merchant && after[i].key == s.jobs[i].key { }
  }

  // In every run a merchant's idempotency key names at most one job.
  lemma {:induction false} OneJobPerKey(cfg: Config, run: seq<Timed>)
    requires Legal(cfg, run)
    ensures UniqueKeys(State(cfg, run).jobs)
  {
    if run != [] {
      OneJobPerKey(cfg, run[..|run| - 1]);
      KeysStep(cfg, State(cfg, run[..|run| - 1]), run[|run| - 1]);
    }
  }

  // ---------- exclusivity ----------

  ghost predicate OneExecutorPerJob(s: System) {
    forall v, w :: Executes(s, v) && Executes(s, w) && s.workers[v].job == s.workers[w].job ==> v == w
  }

  // Every live executor still owns its row, under a lease that outlives its last beat.
  ghost predicate ExecutorsOwn(s: System) {
    forall w :: Executes(s, w) ==>
      var j := s.workers[w].job;
      j < |s.jobs| && OwnedRunning(s.jobs[j], w) && s.jobs[j].lease.Some? && s.workers[w].beat < s.jobs[j].lease.value
  }

  lemma RecoverySparesExecutor(cfg: Config, s: System, e: Timed, w: nat)
    requires cfg.leaseSeconds >= 5
    requires ExecutorsOwn(s) && Enabled(s, e) && OnTime(cfg, s, e.time) && e.step.Recover? && Executes(s, w)
    ensures JobsAfter(cfg, s, e)[s.workers[w].job] == s.jobs[s.workers[w].job]
  {
    var row := s.jobs[s.workers[w].job];
    assert e.time - s.workers[w].beat <= cfg.Lease();
    assert !Stale(row, e.step.recoverFrom - cfg.Lease());
  }

  lemma ExecutorStep(cfg: Config, s: System, e: Timed)
    requires cfg.leaseSeconds >= 5
    requires Inv(s) && ExecutorsOwn(s) && Enabled(s, e) && OnTime(cfg, s, e.time)
    ensures ExecutorsOwn(Next(cfg, s, e))
  {
    var t := Next(cfg, s, e);
    forall w | Executes(t, w)
      ensures var j := t.workers[w].job;
        j < |t.jobs| && OwnedRunning(t.jobs[j], w) && t.jobs[j].lease.Some? && t.workers[w].beat < t.jobs[j].lease.value
    {
      if Executes(s, w) && e.step.Recover? { RecoverySparesExecutor(cfg, s, e, w); }
    }
  }

  lemma {:induction false} LeaseExclusivity(cfg: Config, run: seq<Timed>)
    requires cfg.leaseSeconds >= 5 && Timely(cfg, run)
    ensures ExecutorsOwn(State(cfg, run)) && OneExecutorPerJob(State(cfg, run))
  {
    TimelyIsLegal(cfg, run);
    Reachable(cfg, run);
    if run != [] {
      var before := run[..|run| - 1];
      LeaseExclusivity(cfg, before);
      TimelyIsLegal(cfg, before);
      Reachable(cfg, before);
      ExecutorStep(cfg, State(cfg, before), run[|run| - 1]);
    }
  }

  // No timely run recovers a job whose executor is live.
  lemma NoLiveJobRecovered(cfg: Config, run: seq<Timed>, e: Timed, w: nat)
    requires cfg.leaseSeconds >= 5 && Timely(cfg, run + [e]) && e.step.Recover?
    requires Executes(State(cfg, run), w)
    ensures var j := State(cfg, run).workers[w].job;
      j < |State(cfg, run).jobs| && State(cfg, run + [e]).jobs[j] == State(cfg, run).jobs[j]
  {
    Extend(cfg, run, e);
    LeaseExclusivity(cfg, run);
    RecoverySparesExecutor(cfg, State(cfg, run), e, w);
  }

  lemma SucceededStep(cfg: Config, s: System, e: Timed, j: nat)
    requires ExecutorsOwn(s) && Enabled(s, e) && Inv(s) && j < |s.jobs| && s.jobs[j].status == Succeeded
    ensures j < |JobsAfter(cfg, s, e)| && JobsAfter(cfg, s, e)[j] == s.jobs[j]
  {
  }

  // A row that reached SUCCEEDED is never written again.
  lemma {:induction false} SucceededIsFinal(cfg: Config, run: seq<Timed>, k: nat, j: nat)
    requires cfg.leaseSeconds >= 5 && Timely(cfg, run) && k <= |run|
    requires j < |State(cfg, run[..k]).jobs| && State(cfg, run[..k]).jobs[j].status == Succeeded
    ensures j < |State(cfg, run).jobs| && State(cfg, run).jobs[j] == State(cfg, run[..k]).jobs[j]
    decreases |run|
  {
    if k == |run| {
      assert run[..k] == run;
    } else {
      var before := run[..|run| - 1];
      assert before[..k] == run[..k];
      SucceededIsFinal(cfg, before, k, j);
      LeaseExclusivity(cfg, before);
      TimelyIsLegal(cfg, before);
      Reachable(cfg, before);
      SucceededStep(cfg, State(cfg, before), run[|run| - 1], j);
    }
  }

  // ---------- exactly when the lease is long enough ----------

  // A lease that is not positive is over before any start check: nothing ever executes.
  ghost predicate NothingRuns(s: System) {
    && (forall w :: w in s.workers ==> !s.workers[w].Executing? && !s.workers[w].Finished?)
    && (forall i :: 0 <= i < |s.jobs| && s.jobs[i].status == Running ==>
        s.jobs[i].lease.Some? && s.jobs[i].lease.value <= s.now)
  }

  lemma NothingStarts(cfg: Config, s: System, e: Timed)
    requires cfg.leaseSeconds <= 0 && Inv(s) && Enabled(s, e) && NothingRuns(s)
    ensures NothingRuns(Next(cfg, s, e))
  {
    var t := Next(cfg, s, e);
    forall i | 0 <= i < |t.jobs| && t.jobs[i].status == Running
      ensures t.jobs[i].lease.Some? && t.jobs[i].lease.value <= t.now
    {
    }
    forall w | w in t.workers ensures !t.workers[w].Executing? && !t.workers[w].Finished? { }
  }

  lemma {:induction false} ExpiredLeaseRunsNothing(cfg: Config, run: seq<Timed>)
    requires cfg.leaseSeconds <= 0 && Legal(cfg, run)
    ensures NothingRuns(State(cfg, run))
  {
    if run != [] {
      var before := run[..|run| - 1];
      ExpiredLeaseRunsNothing(cfg, before);
      Reachable(cfg, before);
      NothingStarts(cfg, State(cfg, before), run[|run| - 1]);
    }
  }

  // A job is created, read and claimed, and its executor starts just before the lease ends.
  lemma FirstExecutor(cfg: Config) returns (run: seq<Timed>)
    requires 0 < cfg.leaseSeconds < 5
    ensures Timely(cfg, run)
    ensures var s, lease := State(cfg, run), cfg.Lease();
      && s.now == lease + 2 && s.workers == map[1 := Executing(0, lease + 2)]
      && |s.jobs| == 1 && s.jobs[0].status == Running && s.jobs[0].workerId == Some(1)
      && s.jobs[0].lease == Some(lease + 3) && s.jobs[0].attempts == 1 && s.jobs[0].maxAttempts == 3
  {
    var lease := cfg.Lease();
    run := [];
    Extend(cfg, run, At(1, Create("m", "k", 3)));
    run := run + [At(1, Create("m", "k", 3))];
    Text.OneLetter('k');
    assert State(cfg, run).jobs == [NewJob("m", "k", 3, 1)];

    Extend(cfg, run, At(2, ReadCandidate(1, 0)));
    run := run + [At(2, ReadCandidate(1, 0))];
    Extend(cfg, run, At(3, ClaimUpdate(1, 3)));
    run := run + [At(3, ClaimUpdate(1, 3))];
    Extend(cfg, run, At(lease + 2, Start(1)));
    run := run + [At(lease + 2, Start(1))];
  }

  // Recovery takes the job from its executor before the first heartbeat is due.
  lemma TakenFromExecutor(cfg: Config) returns (run: seq<Timed>)
    requires 0 < cfg.leaseSeconds < 5
    ensures Timely(cfg, run)
    ensures var s, lease := State(cfg, run), cfg.Lease();
      && s.now == 2 * lease + 4 && s.workers == map[1 := Executing(0, lease + 2)]
      && |s.jobs| == 1 && s.jobs[0].status == Retrying && s.jobs[0].nextRetryAt == Some(2 * lease + 4)
  {
    var lease := cfg.Lease();
    run := FirstExecutor(cfg);
    Extend(cfg, run, At(2 * lease + 4, Recover(2 * lease + 4)));
    run := run + [At(2 * lease + 4, Recover(2 * lease + 4))];
  }

  // A second worker claims it.
  lemma ClaimedAgain(cfg: Config) returns (run: seq<Timed>)
    requires 0 < cfg.leaseSeconds < 5
    ensures Timely(cfg, run)
    ensures var s, lease := State(cfg, run), cfg.Lease();
      && s.now == 2 * lease + 6 && s.workers == map[1 := Executing(0, lease + 2), 2 := Holding(0)]
      && |s.jobs| == 1 && MayStart(s.jobs[0], 2, 2 * lease + 7)
  {
    var lease := cfg.Lease();
    run := TakenFromExecutor(cfg);
    Extend(cfg, run, At(2 * lease + 5, ReadCandidate(2, 0)));
    run := run + [At(2 * lease + 5, ReadCandidate(2, 0))];
    Extend(cfg, run, At(2 * lease + 6, ClaimUpdate(2, 2 * lease + 6)));
    run := run + [At(2 * lease + 6, ClaimUpdate(2, 2 * lease + 6))];
  }

  // With a lease of 1 to 4 seconds the first heartbeat (never sooner than 5 s apart) comes too
  // late: the job is recovered under its live executor and a second executor starts.
  lemma ShortLeaseRun(cfg: Config) returns (run: seq<Timed>)
    requires 0 < cfg.leaseSeconds < 5
    ensures Timely(cfg, run) && !OneExecutorPerJob(State(cfg, run))
  {
    var lease := cfg.Lease();
    run := ClaimedAgain(cfg);
    Extend(cfg, run, At(2 * lease + 7, Start(2)));
    run := run + [At(2 * lease + 7, Start(2))];
    var s := State(cfg, run);
    assert Executes(s, 1) && Executes(s, 2);
  }

  lemma ExclusiveExactly(cfg: Config)
    ensures (forall run :: Timely(cfg, run) ==> OneExecutorPerJob(State(cfg, run)))
            <==> cfg.leaseSeconds <= 0 || cfg.leaseSeconds >= 5
  {
    forall run | Timely(cfg, run) && (cfg.leaseSeconds <= 0 || cfg.leaseSeconds >= 5)
      ensures OneExecutorPerJob(State(cfg, run))
    {
      if cfg.leaseSeconds >= 5 {
        LeaseExclusivity(cfg, run);
      } else {
        TimelyIsLegal(cfg, run);
        ExpiredLeaseRunsNothing(cfg, run);
      }
    }
    if 0 < cfg.leaseSeconds < 5 { var run := ShortLeaseRun(cfg); }
  }

  // ---------- back-off ----------

  function TotalBackoff(n: nat, base: nat, maximum: nat): int {
    if n == 0 then 0 else TotalBackoff(n - 1, base, maximum) + RetryDelay(n, base, maximum)
  }

  lemma {:induction false} Pow2Grows(a: nat, b: nat)
    requires a <= b
    ensures 1 <= Pow2(a) <= Pow2(b)
  {
    if a < b { Pow2Grows(a, b - 1); } else if a > 0 { Pow2Grows(a - 1, b - 1); }
  }

  lemma MulMonotone(x: nat, a: nat, b: nat)
    requires a <= b
    ensures x * a <= x * b
  {
  }

  lemma PeelOne(k: int, x: int)
    ensures k * x == (k - 1) * x + x
  {
  }

  lemma CappedDelay(n: nat, free: nat, base: nat, maximum: nat)
    requires free < n && maximum <= base * Pow2(free)
    ensures RetryDelay(n, base, maximum) == maximum
  {
    Pow2Grows(free, n - 1);
    MulMonotone(base, Pow2(free), Pow2(n - 1));
  }

  lemma DoubleStep(n: nat, base: nat)
    requires n > 0
    ensures base * (Pow2(n) - 1) == base * (Pow2(n - 1) - 1) + base * Pow2(n - 1)
  {
    assert Pow2(n) - 1 == (Pow2(n - 1) - 1) + Pow2(n - 1);
  }

  // While the doubled delay stays under the ceiling the total is a geometric sum.
  lemma {:induction false} UncappedTotal(n: nat, base: nat, maximum: nat)
    requires n > 0 ==> base * Pow2(n - 1) <= maximum
    ensures TotalBackoff(n, base, maximum) == base * (Pow2(n) - 1)
  {
    if n > 0 {
      if n > 1 {
        Pow2Grows(n - 2, n - 1);
        MulMonotone(base, Pow2(n - 2), Pow2(n - 1));
      }
      UncappedTotal(n - 1, base, maximum);
      DoubleStep(n, base);
    }
  }

  // The first `free` delays double, the rest sit at the ceiling: the total is exact.
  lemma {:induction false} BackoffTotal(n: nat, free: nat, base: nat, maximum: nat)
    requires free <= n
    requires free > 0 ==> base * Pow2(free - 1) <= maximum
    requires free < n ==> maximum <= base * Pow2(free)
    ensures TotalBackoff(n, base, maximum) == base * (Pow2(free) - 1) + (n - free) * maximum
  {
    if free == n {
      UncappedTotal(n, base, maximum);
    } else {
      BackoffTotal(n - 1, free, base, maximum);
      CappedDelay(n, free, base, maximum);
      PeelOne(n - free, maximum);
    }
  }

  lemma {:induction false} BackoffBounds(n: nat, base: nat, maximum: nat)
    ensures TotalBackoff(n, base, maximum) <= n * maximum
    ensures TotalBackoff(n, base, maximum) <= base * (Pow2(n) - 1)
  {
    if n > 0 {
      BackoffBounds(n - 1, base, maximum);
      PeelOne(n, maximum);
      DoubleStep(n, base);
    }
  }
}
