/** One row of the background-job table, the writes the service and the worker make to it,
    and the table itself, whose methods are the atomic steps of the lease protocol. */
module Jobs {
  import opened Prelude
  import Text

  const MAX_KEY := 200

  datatype JobStatus = Queued | Running | Retrying | Succeeded | Failed | DeadLettered

  datatype ErrorCode = WorkerCrashRecovered | WorkerCrashExhausted | Category(name: string)

  datatype JobError = InvalidKey | NotTerminal

  datatype Job = Job(
    merchant: string, key: string, status: JobStatus, attempts: int, maxAttempts: int,
    createdAt: int, startedAt: Option<int>, completedAt: Option<int>, nextRetryAt: Option<int>,
    lastError: Option<ErrorCode>, result: Option<int>, workerId: Option<nat>, lease: Option<int>)

  // Lease length in whole seconds; back-off base and ceiling in clock ticks.
  datatype Config = Config(leaseSeconds: int, backoffBase: nat, backoffMax: nat) {
    function Lease(): int { leaseSeconds * SECOND }
  }

  function Pow2(n: nat): nat { if n == 0 then 1 else 2 * Pow2(n - 1) }

  function RetryDelay(attempt: int, base: nat, maximum: nat): int {
    Min(maximum, base * Pow2(Max(0, attempt - 1)))
  }

  // ---------- what each write does to a row ----------

  predicate Due(job: Job, now: int) { job.nextRetryAt.None? || job.nextRetryAt.value <= now }

  predicate Claimable(job: Job, now: int) {
    (job.status == Queued || job.status == Retrying) && Due(job, now)
  }

  function Claimed(job: Job, worker: nat, now: int, lease: int, attempts: int): Job {
    job.(status := Running, startedAt := Some(now), workerId := Some(worker), lease := Some(lease),
        attempts := attempts)
  }

  predicate Stale(job: Job, cutoff: int) { job.status == Running && job.lease.Some? && job.lease.value < cutoff }

  function Released(job: Job): Job { job.(workerId := None, lease := None) }

  function Recovered(job: Job, now: int): Job {
    Released(
      if job.attempts >= job.maxAttempts then
        job.(status := DeadLettered, completedAt := Some(now), lastError := Some(WorkerCrashExhausted))
      else
        job.(status := Retrying, nextRetryAt := Some(now), lastError := Some(WorkerCrashRecovered)))
  }

  function Completed(job: Job, result: int, now: int): Job {
    Released(job.(status := Succeeded, result := Some(result), completedAt := Some(now), lastError := None))
  }

  function Broken(cfg: Config, job: Job, retryable: bool, category: string, now: int): Job {
    var code := Some(Category(category));
    Released(
      if retryable && job.attempts < job.maxAttempts then
        job.(status := Retrying, lastError := code,
             nextRetryAt := Some(now + RetryDelay(job.attempts, cfg.backoffBase, cfg.backoffMax)))
      else
        job.(status := if job.attempts >= job.maxAttempts then DeadLettered else Failed,
             completedAt := Some(now), lastError := code))
  }

  predicate Terminal(job: Job) { job.status == Failed || job.status == DeadLettered }

  function Requeued(job: Job): Job {
    Released(job.(status := Queued, attempts := 0, result := None, startedAt := None, completedAt := None,
                  nextRetryAt := None, lastError := None))
  }

  function NewJob(merchant: string, key: string, maxAttempts: int, now: int): Job {
    Job(merchant, key, Queued, 0, Max(1, Min(maxAttempts, 10)), now, None, None, None, None, None, None, None)
  }

  predicate OwnedRunning(job: Job, worker: nat) { job.status == Running && job.workerId == Some(worker) }

  predicate MayStart(job: Job, worker: nat, now: int) {
    OwnedRunning(job, worker) && (job.lease.Some? ==> now < job.lease.value)
  }

  // ---------- the same writes over the whole table ----------

  predicate HasKey(jobs: seq<Job>, merchant: string, key: string) {
    exists i :: 0 <= i < |jobs| && jobs[i].merchant == merchant && jobs[i].key == key
  }

  predicate ValidKey(key: string) { 0 < |key| <= MAX_KEY }

  function TableAfterCreate(jobs: seq<Job>, merchant: string, key: string, maxAttempts: int, now: int): seq<Job> {
    var stripped := Text.Strip(key);
    if !ValidKey(stripped) || HasKey(jobs, merchant, stripped) then jobs
    else jobs + [NewJob(merchant, stripped, maxAttempts, now)]
  }

  function TableAfterRecovery(jobs: seq<Job>, cutoff: int, now: int): seq<Job> {
    seq(|jobs|, i requires 0 <= i < |jobs| => if Stale(jobs[i], cutoff) then Recovered(jobs[i], now) else jobs[i])
  }

  // The row the claim query returns: the oldest claimable one, lowest id first among equals.
  ghost predicate OldestClaimable(jobs: seq<Job>, now: int, id: nat) {
    && id < |jobs| && Claimable(jobs[id], now)
    && forall k :: 0 <= k < |jobs| && Claimable(jobs[k], now) ==>
         jobs[id].createdAt < jobs[k].createdAt || (jobs[id].createdAt == jobs[k].createdAt && id <= k)
  }

  ghost predicate UniqueKeys(jobs: seq<Job>) {
    forall i, k :: 0 <= i < k < |jobs| ==> jobs[i].merchant != jobs[k].merchant || jobs[i].key != jobs[k].key
  }

  class JobTable {
    var jobs: seq<Job>

    constructor ()
      ensures jobs == []
    {
      jobs := [];
    }

    method Create(merchant: string, key: string, maxAttempts: int, now: int) returns (r: Result<(nat, bool), JobError>)
      modifies this
      ensures jobs == TableAfterCreate(old(jobs), merchant, key, maxAttempts, now)
      ensures r.Err? <==> !ValidKey(Text.Strip(key))
      ensures r.Ok? ==> r.value.0 < |jobs|
      ensures r.Ok? ==> jobs[r.value.0].merchant == merchant && jobs[r.value.0].key == Text.Strip(key)
      ensures r.Ok? ==> (r.value.1 <==> !HasKey(old(jobs), merchant, Text.Strip(key)))
      ensures old(UniqueKeys(jobs)) ==> UniqueKeys(jobs)
    {
      var stripped := Text.Strip(key);
      if |stripped| == 0 || |stripped| > MAX_KEY { return Err(InvalidKey); }
      for i := 0 to |jobs|
        invariant forall k :: 0 <= k < i ==> !(jobs[k].merchant == merchant && jobs[k].key == stripped)
        invariant jobs == old(jobs)
      {
        if jobs[i].merchant == merchant && jobs[i].key == stripped { return Ok((i, false)); }
      }
      jobs := jobs + [NewJob(merchant, stripped, maxAttempts, now)];
      return Ok((|jobs| - 1, true));
    }

    // The claim's SELECT ... ORDER BY created_at, id LIMIT 1.
    method ReadCandidate(now: int) returns (candidate: Option<nat>)
      ensures candidate.Some? ==> OldestClaimable(jobs, now, candidate.value)
      ensures candidate.None? ==> forall k :: 0 <= k < |jobs| ==> !Claimable(jobs[k], now)
    {
      candidate := None;
      for i := 0 to |jobs|
        invariant candidate.None? ==> forall k :: 0 <= k < i ==> !Claimable(jobs[k], now)
        invariant candidate.Some? ==> candidate.value < i && OldestClaimable(jobs[..i], now, candidate.value)
      {
        if Claimable(jobs[i], now) && (candidate.None? || jobs[i].createdAt < jobs[candidate.value].createdAt) {
          candidate := Some(i);
        }
      }
      assert jobs[..|jobs|] == jobs;
    }

    // The claim's conditional UPDATE, guarded by the status and the clock the SELECT used.
    method ClaimUpdate(id: nat, seenStatus: JobStatus, seenAttempts: int, since: int, worker: nat, lease: int)
      returns (rowcount: nat)
      requires id < |jobs|
      modifies this
      ensures rowcount == if old(jobs[id].status == seenStatus && Due(jobs[id], since)) then 1 else 0
      ensures jobs == if rowcount == 1
                      then old(jobs)[id := Claimed(old(jobs[id]), worker, since, lease, seenAttempts + 1)]
                      else old(jobs)
    {
      rowcount := 0;
      var row := jobs[id];
      if row.status == seenStatus && Due(row, since) {
        row := row.(status := Running, startedAt := Some(since));
        row := row.(workerId := Some(worker), lease := Some(lease));
        row := row.(attempts := seenAttempts + 1);
        jobs := jobs[id := row];
        rowcount := 1;
      }
    }

    method StartCheck(id: nat, worker: nat, now: int) returns (ok: bool)
      ensures ok <==> id < |jobs| && MayStart(jobs[id], worker, now)
    {
      if id >= |jobs| || jobs[id].status != Running { return false; }
      if jobs[id].workerId != Some(worker) { return false; }
      if jobs[id].lease.Some? && jobs[id].lease.value <= now { return false; }
      return true;
    }

    method Heartbeat(id: nat, worker: nat, lease: int)
      requires id < |jobs|
      modifies this
      ensures jobs == if OwnedRunning(old(jobs)[id], worker)
          then old(jobs)[id := old(jobs)[id].(lease := Some(lease))] else old(jobs)
    {
      if jobs[id].status == Running && jobs[id].workerId == Some(worker) {
        jobs := jobs[id := jobs[id].(lease := Some(lease))];
      }
    }

    method FinishSuccess(id: nat, result: int, now: int)
      requires id < |jobs|
      modifies this
      ensures jobs == old(jobs)[id := Completed(old(jobs)[id], result, now)]
    {
      var job := jobs[id];
      job := job.(result := Some(result));
      job := job.(status := Succeeded);
      job := job.(completedAt := Some(now));
      job := job.(lastError := None);
      job := job.(workerId := None, lease := None);
      jobs := jobs[id := job];
    }

    method FinishFailure(cfg: Config, id: nat, retryable: bool, category: string, now: int)
      requires id < |jobs|
      modifies this
      ensures jobs == old(jobs)[id := Broken(cfg, old(jobs)[id], retryable, category, now)]
    {
      var job := jobs[id];
      if retryable && job.attempts < job.maxAttempts {
        job := job.(status := Retrying);
        job := job.(nextRetryAt := Some(now + RetryDelay(job.attempts, cfg.backoffBase, cfg.backoffMax)));
        job := job.(lastError := Some(Category(category)));
      } else {
        job := job.(status := if job.attempts >= job.maxAttempts then DeadLettered else Failed);
        job := job.(completedAt := Some(now));
        job := job.(lastError := Some(Category(category)));
      }
      job := job.(workerId := None, lease := None);
      jobs := jobs[id := job];
    }

    method RecoverStale(staleBefore: int, now: int) returns (recovered: nat)
      modifies this
      ensures jobs == TableAfterRecovery(old(jobs), staleBefore, now)
      ensures recovered == |Filter((j: Job) => Stale(j, staleBefore), old(jobs))|
    {
      recovered := 0;
      ghost var was := jobs;
      ghost var isStale := (j: Job) => Stale(j, staleBefore);
      for i := 0 to |jobs|
        invariant |jobs| == |was|
        invariant forall k :: 0 <= k < i ==> jobs[k] == TableAfterRecovery(was, staleBefore, now)[k]
        invariant forall k :: i <= k < |jobs| ==> jobs[k] == was[k]
        invariant recovered == |Filter(isStale, was[..i])|
      {
        FilterStep(isStale, was, i);
        var job := jobs[i];
        if job.status == Running && job.lease.Some? && job.lease.value < staleBefore {
          if job.attempts >= job.maxAttempts {
            job := job.(status := DeadLettered, completedAt := Some(now));
            job := job.(lastError := Some(WorkerCrashExhausted));
          } else {
            job := job.(status := Retrying, nextRetryAt := Some(now));
            job := job.(lastError := Some(WorkerCrashRecovered));
          }
          job := job.(workerId := None, lease := None);
          assert job == Recovered(was[i], now);
          jobs := jobs[i := job];
          recovered := recovered + 1;
        }
      }
      assert was[..|was|] == was;
    }

    method Retry(id: nat) returns (r: Result<Job, JobError>)
      requires id < |jobs|
      modifies this
      ensures jobs == if Terminal(old(jobs)[id]) then old(jobs)[id := Requeued(old(jobs)[id])] else old(jobs)
      ensures r == if Terminal(old(jobs)[id]) then Ok(Requeued(old(jobs)[id])) else Err(NotTerminal)
    {
      var job := jobs[id];
      if job.status != Failed && job.status != DeadLettered { return Err(NotTerminal); }
      job := job.(status := Queued);
      job := job.(attempts := 0);
      job := job.(result := None);
      job := job.(startedAt := None, completedAt := None, nextRetryAt := None);
      job := job.(lastError := None);
      job := job.(workerId := None, lease := None);
      jobs := jobs[id := job];
      return Ok(job);
    }
  }
}
