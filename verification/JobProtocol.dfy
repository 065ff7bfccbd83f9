/** The lease protocol as a state machine: any number of workers claim by a read followed by a
    conditional UPDATE, run behind a start check, renew their lease from a heartbeat, finish,
    fail or die, while recovery and operator retries interleave with all of them. A run is any
    sequence of timed steps; the clock strictly increases from step to step. */
module JobProtocol {
  import opened Prelude
  import opened Jobs

  // Where one call of run_once stands. A worker id is used by one call only.
  datatype Phase =
    | Claiming(job: nat, seenStatus: JobStatus, seenAttempts: int, since: int)
    | Holding(job: nat)
    | Executing(job: nat, beat: int) // beat: the start check or the latest heartbeat
    | Finished(job: nat)             // the heartbeat thread may still fire once
    | Stopped

  datatype System = System(jobs: seq<Job>, workers: map<nat, Phase>, now: int)

  datatype Step =
    | Create(merchant: string, key: string, maxAttempts: int)
    | ReadCandidate(worker: nat, id: nat)
    | ClaimUpdate(worker: nat, leaseFrom: int)
    | Start(worker: nat)
    | Heartbeat(worker: nat)
    | Succeed(worker: nat, result: int)
    | Fail(worker: nat, retryable: bool, category: string)
    | Crash(worker: nat)
    | Recover(recoverFrom: int)
    | Retry(id: nat)

  datatype Timed = At(time: int, step: Step)

  const INITIAL := System([], map[], 0)

  ghost predicate Executes(s: System, w: nat) { w in s.workers && s.workers[w].Executing? }

  predicate Wins(s: System, w: nat)
    requires w in s.workers && s.workers[w].Claiming?
  {
    var c := s.workers[w];
    c.job < |s.jobs| && s.jobs[c.job].status == c.seenStatus && Due(s.jobs[c.job], c.since)
  }

  ghost predicate Enabled(s: System, e: Timed) {
    && s.now < e.time
    && match e.step
       case Create(_, _, _) => true
       case ReadCandidate(w, id) => w !in s.workers && OldestClaimable(s.jobs, e.time, id)
       case ClaimUpdate(w, leaseFrom) =>
         w in s.workers && s.workers[w].Claiming? && s.workers[w].since <= leaseFrom <= e.time
       case Start(w) => w in s.workers && s.workers[w].Holding?
       case Heartbeat(w) => w in s.workers && (s.workers[w].Executing? || s.workers[w].Finished?)
       case Succeed(w, _) => Executes(s, w)
       case Fail(w, _, _) => Executes(s, w)
       case Crash(w) => w in s.workers
       case Recover(recoverFrom) => recoverFrom <= e.time
       case Retry(id) => id < |s.jobs|
  }

  function Put(jobs: seq<Job>, id: nat, job: Job): seq<Job> { if id < |jobs| then jobs[id := job] else jobs }

  // The rows after a step. `Perform` takes the step on a JobTable and ends with these rows.
  function JobsAfter(cfg: Config, s: System, e: Timed): seq<Job> {
    match e.step
    case Create(merchant, key, maxAttempts) => TableAfterCreate(s.jobs, merchant, key, maxAttempts, e.time)
    case ClaimUpdate(w, leaseFrom) =>
      if w in s.workers && s.workers[w].Claiming? && Wins(s, w) then
        var c := s.workers[w];
        s.jobs[c.job := Claimed(s.jobs[c.job], w, c.since, leaseFrom + cfg.Lease(), c.seenAttempts + 1)]
      else s.jobs
    case Heartbeat(w) =>
      if w in s.workers && (s.workers[w].Executing? || s.workers[w].Finished?) && s.workers[w].job < |s.jobs|
         && OwnedRunning(s.jobs[s.workers[w].job], w) then
        var j := s.workers[w].job;
        s.jobs[j := s.jobs[j].(lease := Some(e.time + cfg.Lease()))]
      else s.jobs
    case Succeed(w, result) =>
      if w in s.workers && s.workers[w].Executing? && s.workers[w].job < |s.jobs| then
        Put(s.jobs, s.workers[w].job, Completed(s.jobs[s.workers[w].job], result, e.time))
      else s.jobs
    case Fail(w, retryable, category) =>
      if w in s.workers && s.workers[w].Executing? && s.workers[w].job < |s.jobs| then
        Put(s.jobs, s.workers[w].job, Broken(cfg, s.jobs[s.workers[w].job], retryable, category, e.time))
      else s.jobs
    case Recover(recoverFrom) => TableAfterRecovery(s.jobs, recoverFrom - cfg.Lease(), e.time)
    case Retry(id) => if id < |s.jobs| && Terminal(s.jobs[id]) then s.jobs[id := Requeued(s.jobs[id])] else s.jobs
    case _ => s.jobs
  }

  function WorkersAfter(s: System, e: Timed): map<nat, Phase> {
    match e.step
    case ReadCandidate(w, id) =>
      if id < |s.jobs| then s.workers[w := Claiming(id, s.jobs[id].status, s.jobs[id].attempts, e.time)] else s.workers
    case ClaimUpdate(w, _) =>
      if w in s.workers && s.workers[w].Claiming? then
        s.workers[w := if Wins(s, w) then Holding(s.workers[w].job) else Stopped]
      else s.workers
    case Start(w) =>
      if w in s.workers && s.workers[w].Holding? then
        var j := s.workers[w].job;
        s.workers[w := if j < |s.jobs| && MayStart(s.jobs[j], w, e.time) then Executing(j, e.time) else Stopped]
      else s.workers
    case Heartbeat(w) =>
      if w in s.workers && s.workers[w].Executing? then s.workers[w := s.workers[w].(beat := e.time)] else s.workers
    case Succeed(w, _) =>
      if w in s.workers && s.workers[w].Executing? then s.workers[w := Finished(s.workers[w].job)] else s.workers
    case Fail(w, _, _) =>
      if w in s.workers && s.workers[w].Executing? then s.workers[w := Finished(s.workers[w].job)] else s.workers
    case Crash(w) => s.workers[w := Stopped]
    case _ => s.workers
  }

  function Next(cfg: Config, s: System, e: Timed): System {
    System(JobsAfter(cfg, s, e), WorkersAfter(s, e), e.time)
  }

  function State(cfg: Config, run: seq<Timed>): System {
    if run == [] then INITIAL else Next(cfg, State(cfg, run[..|run| - 1]), run[|run| - 1])
  }

  ghost predicate Legal(cfg: Config, run: seq<Timed>) {
    run != [] ==>
      var before := run[..|run| - 1];
      Legal(cfg, before) && Enabled(State(cfg, before), run[|run| - 1])
  }

  // Every live executor's heartbeat lands within max(5 s, lease / 3) of its start or previous beat.
  ghost predicate OnTime(cfg: Config, s: System, time: int) {
    forall w :: Executes(s, w) ==> 3 * (time - s.workers[w].beat) <= Max(15 * SECOND, cfg.Lease())
  }

  ghost predicate Timely(cfg: Config, run: seq<Timed>) {
    run != [] ==>
      var before := run[..|run| - 1];
      && Timely(cfg, before)
      && Enabled(State(cfg, before), run[|run| - 1])
      && OnTime(cfg, State(cfg, before), run[|run| - 1].time)
  }

  lemma {:induction false} TimelyIsLegal(cfg: Config, run: seq<Timed>)
    requires Timely(cfg, run)
    ensures Legal(cfg, run)
  {
    if run != [] { TimelyIsLegal(cfg, run[..|run| - 1]); }
  }

  // ---------- the job state machine, under every interleaving ----------

  predicate RowOk(j: Job) {
    && 1 <= j.maxAttempts <= 10
    && 0 <= j.attempts <= j.maxAttempts
    && (j.status == Queued ==> j.attempts == 0)
    && (j.status == Retrying ==> j.attempts < j.maxAttempts && j.nextRetryAt.Some?)
    && (j.status == Failed ==> j.attempts < j.maxAttempts)
    && (j.status == DeadLettered ==> j.attempts == j.maxAttempts)
    && (j.status == Running <==> j.workerId.Some?)
    && (j.status == Running <==> j.lease.Some?)
    && (j.status == Running ==> 1 <= j.attempts)
  }

  // A pending claim's snapshot: if the guard of its UPDATE still passes, the attempt count it
  // read is still the row's attempt count.
  predicate SnapshotOk(s: System, c: Phase)
    requires c.Claiming?
  {
    && c.job < |s.jobs| && c.since <= s.now
    && (c.seenStatus == Queued || c.seenStatus == Retrying)
    && (s.jobs[c.job].status == c.seenStatus && Due(s.jobs[c.job], c.since) ==>
        s.jobs[c.job].attempts == c.seenAttempts)
    && (c.seenStatus == Queued ==> c.seenAttempts == 0)
  }

  ghost predicate Inv(s: System) {
    && (forall i :: 0 <= i < |s.jobs| ==> RowOk(s.jobs[i]))
    && (forall w :: w in s.workers && s.workers[w].Claiming? ==> SnapshotOk(s, s.workers[w]))
    && (forall w :: w in s.workers && !s.workers[w].Stopped? ==> s.workers[w].job < |s.jobs|)
  }

  lemma RetryDelayBounds(attempt: int, base: nat, maximum: nat)
    ensures 0 <= RetryDelay(attempt, base, maximum) <= maximum
  {
  }

  lemma JobsStep(cfg: Config, s: System, e: Timed, i: nat)
    requires Inv(s) && Enabled(s, e) && i < |s.jobs|
    ensures |JobsAfter(cfg, s, e)| >= |s.jobs|
    ensures RowOk(JobsAfter(cfg, s, e)[i])
    ensures var was, after := s.jobs[i], JobsAfter(cfg, s, e)[i];
            || (after.status == was.status && after.attempts == was.attempts && after.nextRetryAt == was.nextRetryAt)
            || after.status == Queued
            || (after.status == Retrying && after.nextRetryAt.Some? && e.time <= after.nextRetryAt.value)
            || (after.status != Queued && after.status != Retrying)
  {
    RetryDelayBounds(s.jobs[i].attempts, cfg.backoffBase, cfg.backoffMax);
  }

  lemma InvStep(cfg: Config, s: System, e: Timed)
    requires Inv(s) && Enabled(s, e)
    ensures Inv(Next(cfg, s, e))
  {
    var t := Next(cfg, s, e);
    forall i | 0 <= i < |t.jobs| ensures RowOk(t.jobs[i]) {
      if i < |s.jobs| { JobsStep(cfg, s, e, i); }
    }
    forall w | w in t.workers && t.workers[w].Claiming? ensures SnapshotOk(t, t.workers[w]) {
      if w in s.workers && s.workers[w] == t.workers[w] { JobsStep(cfg, s, e, s.workers[w].job); }
    }
  }

  lemma {:induction false} Reachable(cfg: Config, run: seq<Timed>)
    requires Legal(cfg, run)
    ensures Inv(State(cfg, run))
  {
    if run != [] {
      Reachable(cfg, run[..|run| - 1]);
      InvStep(cfg, State(cfg, run[..|run| - 1]), run[|run| - 1]);
    }
  }

  // ---------- the same steps, taken on the table ----------

  lemma OneOldest(jobs: seq<Job>, now: int, a: nat, b: nat)
    requires OldestClaimable(jobs, now, a) && OldestClaimable(jobs, now, b)
    ensures a == b
  {
  }

  // The worker's own steps: each is one method of the table.
  method WorkerStep(cfg: Config, s: System, e: Timed, w: nat, table: JobTable) returns (phase: Phase)
    requires table.jobs == s.jobs && Inv(s) && Enabled(s, e) && w in s.workers && !s.workers[w].Stopped?
    requires e.step == Start(w) || e.step == Heartbeat(w) || e.step.Succeed? || e.step.Fail? || e.step.ClaimUpdate?
    requires e.step.Succeed? || e.step.Fail? || e.step.ClaimUpdate? ==> e.step.worker == w
    modifies table
    ensures table.jobs == JobsAfter(cfg, s, e) && s.workers[w := phase] == WorkersAfter(s, e)
  {
    phase := s.workers[w];
    var j := phase.job;
    match e.step
    case ClaimUpdate(_, leaseFrom) =>
      var lease := leaseFrom + cfg.Lease();
      var rowcount := table.ClaimUpdate(j, phase.seenStatus, phase.seenAttempts, phase.since, w, lease);
      phase := if rowcount == 1 then Holding(j) else Stopped;
    case Start(_) =>
      var ok := table.StartCheck(j, w, e.time);
      phase := if ok then Executing(j, e.time) else Stopped;
    case Heartbeat(_) =>
      table.Heartbeat(j, w, e.time + cfg.Lease());
      if phase.Executing? { phase := phase.(beat := e.time); }
    case Succeed(_, result) =>
      table.FinishSuccess(j, result, e.time);
      phase := Finished(j);
    case Fail(_, retryable, category) =>
      table.FinishFailure(cfg, j, retryable, category, e.time);
      phase := Finished(j);
  }

  // One step of the protocol, taken on the table: the rows and the workers end as `Next` says.
  method Perform(cfg: Config, s: System, e: Timed, table: JobTable) returns (workers: map<nat, Phase>)
    requires table.jobs == s.jobs && Inv(s) && Enabled(s, e)
    modifies table
    ensures System(table.jobs, workers, e.time) == Next(cfg, s, e)
  {
    workers := s.workers;
    match e.step
    case Create(merchant, key, maxAttempts) =>
      var _ := table.Create(merchant, key, maxAttempts, e.time);
    case ReadCandidate(w, id) =>
      var candidate := table.ReadCandidate(e.time);
      OneOldest(s.jobs, e.time, id, candidate.value);
      var job := table.jobs[candidate.value];
      workers := workers[w := Claiming(candidate.value, job.status, job.attempts, e.time)];
    case Crash(w) =>
      workers := workers[w := Stopped];
    case Recover(recoverFrom) =>
      var _ := table.RecoverStale(recoverFrom - cfg.Lease(), e.time);
    case Retry(id) =>
      var _ := table.Retry(id);
    case _ =>
      var phase := WorkerStep(cfg, s, e, e.step.worker, table);
      workers := workers[e.step.worker := phase];
  }
}
