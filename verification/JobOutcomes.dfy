/** What one step does to the row it is about, read off the row's fields, and how long a failed job
    then stays away, over whole runs and for every interleaving. */
module JobOutcomes {
  import opened Prelude
  import opened Jobs
  import opened JobProtocol
  import opened JobTheorems

  // ---------- one step ----------

  // Step e is the failure of an executor working on job j.
  predicate FailsOn(s: System, e: Timed, j: nat) {
    e.step.Fail? && e.step.worker in s.workers && s.workers[e.step.worker].Executing?
        && s.workers[e.step.worker].job == j
  }

  // Step e claims job j.
  predicate Claims(s: System, e: Timed, j: nat) {
    && e.step.ClaimUpdate? && e.step.worker in s.workers && s.workers[e.step.worker].Claiming?
    && s.workers[e.step.worker].job == j && Wins(s, e.step.worker)
  }

  lemma FailureOutcome(cfg: Config, s: System, e: Timed, j: nat)
    requires Inv(s) && Enabled(s, e) && FailsOn(s, e, j)
    ensures j < |s.jobs| <= |JobsAfter(cfg, s, e)|
    ensures var was, row := s.jobs[j], JobsAfter(cfg, s, e)[j];
      && (row.status == Retrying <==> e.step.retryable && was.attempts < was.maxAttempts)
      && (row.status == Failed <==> !e.step.retryable && was.attempts < was.maxAttempts)
      && (row.status == DeadLettered <==> was.attempts >= was.maxAttempts)
      && (row.status == Retrying ==>
            row.nextRetryAt == Some(e.time + RetryDelay(was.attempts, cfg.backoffBase, cfg.backoffMax)))
      && (row.status != Retrying ==> row.completedAt == Some(e.time) && row.nextRetryAt == was.nextRetryAt)
      && row.attempts == was.attempts && row.lastError == Some(Category(e.step.category))
      && row.workerId.None? && row.lease.None?
  {
  }

  // Recovery at a cutoff: which rows it takes, and that they can be claimed again at once.
  lemma RecoveryOutcome(cfg: Config, s: System, e: Timed, j: nat)
    requires Inv(s) && Enabled(s, e) && e.step.Recover? && j < |s.jobs|
    ensures |JobsAfter(cfg, s, e)| == |s.jobs|
    ensures var was, row := s.jobs[j], JobsAfter(cfg, s, e)[j];
      && (row == was <==> was.status != Running || was.lease.value + cfg.leaseSeconds * SECOND >= e.step.recoverFrom)
      && (row != was ==>
            && row.attempts == was.attempts && row.workerId.None? && row.lease.None?
            && (was.attempts < was.maxAttempts ==>
                  Claimable(row, e.time) && row.status == Retrying && row.lastError == Some(WorkerCrashRecovered))
            && (was.attempts == was.maxAttempts ==>
                  row.status == DeadLettered && row.completedAt == Some(e.time)
                      && row.lastError == Some(WorkerCrashExhausted)))
  {
  }

  lemma ClaimOutcome(cfg: Config, s: System, e: Timed, j: nat)
    requires Inv(s) && Enabled(s, e) && Claims(s, e, j)
    ensures j < |s.jobs| == |JobsAfter(cfg, s, e)|
    ensures var was, row := s.jobs[j], JobsAfter(cfg, s, e)[j];
      && (was.status == Queued || was.status == Retrying)
      && row.status == Running && row.workerId == Some(e.step.worker) && row.attempts == was.attempts + 1
      && row.lease == Some(e.step.leaseFrom + cfg.leaseSeconds * SECOND)
      && row.startedAt == Some(s.workers[e.step.worker].since)
  {
  }

  lemma SuccessOutcome(cfg: Config, s: System, e: Timed)
    requires Inv(s) && Enabled(s, e) && e.step.Succeed?
    ensures var j := s.workers[e.step.worker].job;
      j < |s.jobs| == |JobsAfter(cfg, s, e)| &&
      var row := JobsAfter(cfg, s, e)[j];
      && row.status == Succeeded && row.result == Some(e.step.result) && row.completedAt == Some(e.time)
      && row.attempts == s.jobs[j].attempts && row.lastError.None? && row.workerId.None? && row.lease.None?
  {
  }

  // An operator retry puts a terminal job back as it was created.
  lemma RetryOutcome(cfg: Config, s: System, e: Timed)
    requires Inv(s) && Enabled(s, e) && e.step.Retry?
    ensures var was, row := s.jobs[e.step.id], JobsAfter(cfg, s, e)[e.step.id];
      && (row != was <==> was.status == Failed || was.status == DeadLettered)
      && (row != was ==> Claimable(row, e.time) && row == NewRow(was, was.maxAttempts, was.createdAt))
  {
  }

  // A fresh QUEUED row for this job's merchant and key.
  function NewRow(j: Job, maxAttempts: int, createdAt: int): Job {
    Job(j.merchant, j.key, Queued, 0, maxAttempts, createdAt, None, None, None, None, None, None, None)
  }

  // A new job may be tried as often as asked for, within 1 and 10.
  lemma CreateOutcome(cfg: Config, s: System, e: Timed)
    requires e.step.Create? && |JobsAfter(cfg, s, e)| > |s.jobs|
    ensures |JobsAfter(cfg, s, e)| == |s.jobs| + 1
    ensures var row, asked := JobsAfter(cfg, s, e)[|s.jobs|], e.step.maxAttempts;
      && row == NewRow(row, row.maxAttempts, e.time)
      && (1 <= asked <= 10 ==> row.maxAttempts == asked)
      && (asked < 1 ==> row.maxAttempts == 1) && (asked > 10 ==> row.maxAttempts == 10)
  {
  }

  // Rows no step is about stay as they are.
  lemma OtherRows(cfg: Config, s: System, e: Timed, j: nat)
    requires Inv(s) && Enabled(s, e) && j < |s.jobs| && j < |JobsAfter(cfg, s, e)|
        && JobsAfter(cfg, s, e)[j] != s.jobs[j]
    ensures e.step.Recover? || e.step == Retry(j) || Claims(s, e, j)
            || ((e.step.Heartbeat? || e.step.Succeed? || e.step.Fail?) && s.workers[e.step.worker].job == j)
  {
  }

  // ---------- whole runs, state by state ----------

  ghost predicate Follows(cfg: Config, s: System, e: Timed, t: System) {
    Inv(s) && Enabled(s, e) && t == Next(cfg, s, e)
  }

  // The states a legal run goes through.
  ghost predicate Trace(cfg: Config, run: seq<Timed>, states: seq<System>) {
    |states| == |run| + 1 && forall k :: 0 <= k < |run| ==> Follows(cfg, states[k], run[k], states[k + 1])
  }

  lemma {:induction false} TraceOf(cfg: Config, run: seq<Timed>) returns (states: seq<System>)
    requires Legal(cfg, run)
    ensures Trace(cfg, run, states) && forall k :: 0 <= k <= |run| ==> states[k] == State(cfg, run[..k])
  {
    if run == [] {
      states := [INITIAL];
    } else {
      var before, e := run[..|run| - 1], run[|run| - 1];
      var prior := TraceOf(cfg, before);
      Reachable(cfg, before);
      states := prior + [State(cfg, run)];
      forall k | 0 <= k < |run| ensures Follows(cfg, states[k], run[k], states[k + 1]) {
        if k < |before| {
          assert before[k] == run[k] && Follows(cfg, prior[k], before[k], prior[k + 1]);
        } else {
          assert before[..k] == before;
        }
      }
      forall k | 0 <= k <= |run| ensures states[k] == State(cfg, run[..k]) {
        if k <= |before| { assert before[..k] == run[..k]; } else { assert run[..k] == run; }
      }
    }
  }

  // ---------- waiting after a failure ----------

  predicate FailsAt(run: seq<Timed>, states: seq<System>, k: nat, j: nat) {
    k < |run| && k < |states| && FailsOn(states[k], run[k], j)
  }

  predicate ClaimsAt(run: seq<Timed>, states: seq<System>, k: nat, j: nat) {
    k < |run| && k < |states| && Claims(states[k], run[k], j)
  }

  // The clock reading of the SELECT behind claim k.
  function SinceAt(run: seq<Timed>, states: seq<System>, k: nat, j: nat): int {
    if ClaimsAt(run, states, k, j) then states[k].workers[run[k].step.worker].since else 0
  }

  // Between the failure at k and step l the job is neither claimed nor put back by an operator.
  ghost predicate Undisturbed(run: seq<Timed>, states: seq<System>, k: nat, l: nat, j: nat) {
    l <= |run| && forall m :: k < m < l ==> !ClaimsAt(run, states, m, j) && run[m].step != Retry(j)
  }

  // The job waits until `due` under this attempt count, or is done.
  predicate WaitsUntil(s: System, j: nat, due: int, attempts: int) {
    && j < |s.jobs| && s.jobs[j].attempts == attempts
    && s.jobs[j].status != Queued && s.jobs[j].status != Running
    && (s.jobs[j].status == Retrying ==> s.jobs[j].nextRetryAt.Some? && due <= s.jobs[j].nextRetryAt.value)
  }

  // Whatever another executor of the job, a recovery or a heartbeat does, the job keeps waiting.
  lemma WaitStep(cfg: Config, s: System, e: Timed, t: System, j: nat, due: int, attempts: int)
    requires Follows(cfg, s, e, t) && WaitsUntil(s, j, due, attempts)
    requires due <= e.time + RetryDelay(attempts, cfg.backoffBase, cfg.backoffMax)
    requires !Claims(s, e, j) && e.step != Retry(j)
    ensures WaitsUntil(t, j, due, attempts)
  {
    if JobsAfter(cfg, s, e)[j] != s.jobs[j] {
      OtherRows(cfg, s, e, j);
      if e.step.Recover? { RecoveryOutcome(cfg, s, e, j); }
      if e.step.Fail? { FailureOutcome(cfg, s, e, j); }
    }
  }

  lemma {:induction false} TimesGrow(cfg: Config, run: seq<Timed>, states: seq<System>, k: nat, l: nat)
    requires Trace(cfg, run, states) && k < l < |run|
    ensures run[k].time < run[l].time
    decreases l
  {
    assert Follows(cfg, states[l - 1], run[l - 1], states[l]) && Follows(cfg, states[l], run[l], states[l + 1]);
    if k < l - 1 { TimesGrow(cfg, run, states, k, l - 1); }
  }

  lemma StaysAway(cfg: Config, run: seq<Timed>, states: seq<System>, k: nat, l: nat, j: nat)
    requires Trace(cfg, run, states) && FailsAt(run, states, k, j) && k < l && Undisturbed(run, states, k, l, j)
    ensures j < |states[k].jobs|
    ensures var n := states[k].jobs[j].attempts;
      WaitsUntil(states[l], j, run[k].time + RetryDelay(n, cfg.backoffBase, cfg.backoffMax), n)
  {
    assert Follows(cfg, states[k], run[k], states[k + 1]);
    FailureOutcome(cfg, states[k], run[k], j);
    var n := states[k].jobs[j].attempts;
    var due := run[k].time + RetryDelay(n, cfg.backoffBase, cfg.backoffMax);
    for m := k + 1 to l
      invariant WaitsUntil(states[m], j, due, n)
    {
      assert Follows(cfg, states[m], run[m], states[m + 1]);
      assert !ClaimsAt(run, states, m, j);
      TimesGrow(cfg, run, states, k, m);
      WaitStep(cfg, states[m], run[m], states[m + 1], j, due, n);
    }
  }

  // After a failure with n attempts used, the next claim of the job read the clock no earlier than
  // one back-off later: in every run, unless an operator put the job back meanwhile.
  lemma BackoffIsKept(cfg: Config, run: seq<Timed>, states: seq<System>, k: nat, l: nat, j: nat)
    requires Trace(cfg, run, states) && FailsAt(run, states, k, j) && ClaimsAt(run, states, l, j)
    requires k < l && Undisturbed(run, states, k, l, j)
    ensures j < |states[k].jobs| && j < |states[l].jobs| && states[l].jobs[j].attempts == states[k].jobs[j].attempts
    ensures SinceAt(run, states, l, j)
            >= run[k].time + RetryDelay(states[k].jobs[j].attempts, cfg.backoffBase, cfg.backoffMax)
  {
    StaysAway(cfg, run, states, k, l, j);
    assert Follows(cfg, states[l], run[l], states[l + 1]);
    ClaimOutcome(cfg, states[l], run[l], j);
  }

  // Consecutive failures of a job and the claims after them: attempt q + 1 fails at fails[q] and the
  // job is claimed again at claims[q].
  ghost predicate Round(run: seq<Timed>, states: seq<System>, j: nat, fail: nat, claim: nat, attempt: int) {
    && fail < claim && FailsAt(run, states, fail, j) && ClaimsAt(run, states, claim, j)
    && Undisturbed(run, states, fail, claim, j)
    && j < |states[fail].jobs| && states[fail].jobs[j].attempts == attempt
  }

  ghost predicate Rounds(run: seq<Timed>, states: seq<System>, j: nat, fails: seq<nat>, claims: seq<nat>) {
    |fails| == |claims| && forall q :: 0 <= q < |fails| ==> Round(run, states, j, fails[q], claims[q], q + 1)
  }

  function TotalWait(run: seq<Timed>, states: seq<System>, j: nat, fails: seq<nat>, claims: seq<nat>): int {
    if fails == [] || |claims| != |fails| then 0
    else
      var n := |fails| - 1;
      TotalWait(run, states, j, fails[..n], claims[..n])
      + SinceAt(run, states, claims[n], j) - if fails[n] < |run| then run[fails[n]].time else 0
  }

  // The first n waits of a job total at least the n back-offs.
  lemma {:induction false} WaitsTotal(cfg: Config, run: seq<Timed>, states: seq<System>, j: nat, fails: seq<nat>,
      claims: seq<nat>)
    requires Trace(cfg, run, states) && Rounds(run, states, j, fails, claims)
    ensures TotalWait(run, states, j, fails, claims) >= TotalBackoff(|fails|, cfg.backoffBase, cfg.backoffMax)
  {
    if fails != [] {
      var n := |fails| - 1;
      WaitsTotal(cfg, run, states, j, fails[..n], claims[..n]);
      assert Round(run, states, j, fails[n], claims[n], n + 1);
      BackoffIsKept(cfg, run, states, fails[n], claims[n], j);
    }
  }
}
