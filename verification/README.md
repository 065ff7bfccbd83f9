# RCAA: verified models of the backend's protocols

RCAA reconciles payments, settlements, refunds and bank credits, and opens a case for whatever does
not agree. This project models the parts of its backend whose correctness spans many calls, and
proves what they promise, in Dafny 4.11. `dafny verify dfyconfig.toml` checks everything.

The code that updates rows in place is modelled by classes with the same fields and the same order
of assignments. Each method is proved against a function of the old state; the theorems speak of
those functions over every run: any sequence of calls, any interleaving of steps, any input. A run
is a sequence, and the state after it is a recursive function of it.

- **Job leases** (`Jobs`, `JobProtocol`, `JobTheorems`, `JobOutcomes`). A claim is two steps, a read and a
  conditional UPDATE. Workers then start, beat, finish, fail or die while recoveries and operator
  retries interleave. The clock strictly increases from step to step.
- **Reconciliation** (`Records`, `Matching`, `Matcher`, `CaseStore`, `Reconciler`,
  `ReconciliationRun`). The indexed matcher and the multi-pass engine are proved against
  `ReconciliationSpec`, which has no index and no table. `MatchingTiers`, `PaymentCases` and
  `RecordCases` say from the records' own fields what is matched and reported; `RunCounters`,
  `ReconciliationTheorems`, `ReconciliationCoverage`, `CaseCoverage`, `RefundCases` and
  `CandidateOrder` say what a run guarantees.
- **Audit chain** (`AuditChain`, `AuditTheorems`). The digest is a parameter and is taken to be
  injective where a theorem needs it.
- **Cases and recovery** (`CaseRecovery`, `CaseTheorems`, `CaseOutcomes`), **refresh tokens** (`RefreshSessions`),
  **rate limiting** (`RateLimit`), **subscription webhooks** (`Webhooks`), **ingestion**
  (`Ingestion`), **month arithmetic** (`Calendar`).

## What the code does differently from what one would expect

Each of these is stated as a lemma; the model keeps the code as it is.

- A lease excludes a second executor only when it is at least 5 seconds, because the heartbeat never
  beats faster than that (`JobTheorems.ExclusiveExactly`). `docs/reliability.md:35` says expired
  leases are recovered; the code waits for one further lease after expiry
  (`backend/app/jobs_worker.py:204`), and exclusivity rests on that.
- `docs/audit-logging.md:50` says the chain detects deletion. Removing the newest events is not
  detected; every other deletion is (`AuditTheorems.DeletionNoticed`). Appending behind an event with
  a later (timestamp, id) makes an honest log fail (`AuditTheorems.BuiltVerifiesExactlyInOrder`).
- The fingerprint of a case with a linked payment leaves the record out. An equal refund of the same
  payment, in the same run or a later one, gets no REFUND_WITHOUT_SETTLEMENT case of its own
  (`RefundCases.OwnCaseExactlyFirst`), nor an equal ambiguous payout a BANK_AMBIGUOUS_MATCH case
  (`CaseCoverage.AmbiguousCaseExactlyFirst`).
- A settlement's two references are tried in the order of a Python set, which may differ between
  processes. A second run is idempotent up to that order: only the candidate an ambiguity names, and
  so its fingerprint, depends on it (`CandidateOrder.OnlyAmbiguityDepends`,
  `CandidateOrder.RepeatedInOtherOrder`).
- The provider status converges under reordering, the billing status only sometimes: a captured
  charge sets it to ACTIVE even when it is older than what is known
  (`Webhooks.StatusConvergesExactly`). Customer, plan, period and payment have no ordering at all
  (`Webhooks.FieldConvergesExactly`).
- A debit is taken for a partial recovery of a negative amount (`CaseOutcomes.DebitIsPartialRecovery`),
  and initiating a smaller recovery leaves a larger recovered amount standing
  (`CaseTheorems.OvershootIsLowered`).
- Retry-After rounds the time left down, so a client that waits exactly that long can be refused
  again (`RateLimit.RetryAfterExactly`).
- The rate limiter lets 2 * limit - 1 calls through in one window's length, and no more
  (`RateLimit.RateBound`, `RateLimit.BoundIsReached`).
- A RESOLVED case can have its recovery started again (`CaseTheorems.ResolvedCanRestart`), which is
  why the closed loop is stated over the history.
- Adding a month raises in December 9999 (`Calendar.ComputeAddMonth`).

## Conventions

Amounts are integers in minor units and times are integers in microseconds on one clock. Ids and
tokens are opaque numbers. SHA-256 over canonical JSON is injective, so a fingerprint is its
payload. Python's sets are iterated in an arbitrary order, except that a settlement's own reference
is tried before its UTR when bank candidates are collected; `CandidateOrder` says what changes when
it is not. A datetime inside audited JSON is known by its ISO text in UTC.

## Model

The first 64 rows are the main results. The others follow component by component: the
operations, and the lemmas the main results rest on.

| member | source | states |
|---|---|---|
| `JobTheorems.AttemptCountIsClaims` | backend/app/jobs_service.py:121-130 | No lost update: in every interleaving the stored attempt count is the number of successful claims since creation or the last operator retry, though it is written from a stale read. |
| `JobTheorems.LeaseExclusivity` | backend/app/jobs_worker.py:118-143 | With lease >= 5 s, in every timely run each live executor still owns its row and each job has at most one live executor. |
| `JobTheorems.ExclusiveExactly` | backend/app/jobs_worker.py:118-143 | Every timely run is exclusive if and only if the lease is at most 0 or at least 5 seconds. |
| `JobTheorems.SucceededIsFinal` | backend/app/jobs_worker.py:145-154 | With lease >= 5 s, a row that reached SUCCEEDED is never written again in any continuation of the run. |
| `JobTheorems.JobStateMachine` | backend/app/jobs_worker.py:146-189 | QUEUED has no claims, RETRYING and FAILED fewer than the maximum, DEAD_LETTERED exactly the maximum; claims never exceed the maximum; owner and lease are set iff RUNNING. No lease assumption is needed. |
| `JobTheorems.BackoffTotal` | backend/app/jobs.py:75-76 | The exact total of n back-offs: the geometric part before the ceiling is reached plus the ceiling for each later one. |
| `JobProtocol.Perform` | backend/app/jobs_worker.py:110-206 | Taking a step of the protocol on the job table, method by method, ends with exactly the rows and workers of the state machine. |
| `JobOutcomes.BackoffIsKept` | backend/app/jobs_worker.py:171-173 | Over every run: after a failure with n attempts used, the next claim of the job read the clock at least the n-th back-off later, unless an operator put the job back meanwhile. |
| `JobOutcomes.WaitsTotal` | backend/app/jobs.py:75-76 | The first n waits of a job, from failure to next claim, total at least the sum of the n back-offs. |
| `Matcher.MatchPayment` | backend/app/reconciliation/matcher.py:125-204 | The indexed, binary-searching matcher decides what the plain tier-by-tier scan decides, up to the order of listed candidates. |
| `MatchingTiers.TierExactly` | backend/app/reconciliation/matcher.py:20-56 | A settlement satisfies a tier if and only if these fields agree: providers up to case, and the payment ids, or some pair of the order texts, or some pair of the bank texts but for blanks and case, or a time difference of at most the tolerance in minutes, the currency, and an amount within the tolerance. |
| `MatchingTiers.DecisionExactly` | backend/app/reconciliation/matcher.py:134-204 | The whole decision from the fields: no tier met, one settlement meeting the first tier met, or several; with method, confidence, record and the candidates' own figures. |
| `MatchingTiers.ScanIgnoresSpelling` | backend/app/reconciliation/matcher.py:13-56 | Blanks around references and the case of their letters, on either side, never change the decision. |
| `Matcher.MatchesExactlyUnique` | backend/app/reconciliation/matcher.py:139-204 | A payment matches a settlement if and only if some tier has it as its only hit and every earlier tier has none. |
| `Matcher.ScanIgnoresOrder` | backend/app/reconciliation/matcher.py:134-204 | The decision depends neither on the order of the settlements nor on other providers' rows. |
| `ReconciliationRuns.RunReconciliation` | backend/app/reconciliation/engine.py:51-420 | For every database and scope: the table afterwards is the specified drafts filed into the table before, `created` is its growth, and all counters are the tally of those drafts. |
| `ReconciliationTheorems.SilenceMeansReconciled` | backend/app/reconciliation/engine.py:106-255 | Read off the table: after any run on any table, no such case implies reconciled; and if there was none before, no such case if and only if reconciled. |
| `ReconciliationTheorems.Idempotent` | backend/app/reconciliation/engine.py:51-420 | On unchanged records a second run that tries references in the same order, in whatever year, leaves the case table exactly as it was. |
| `ReconciliationTheorems.RunKeepsTable` | backend/app/rca/service.py:33-82 | A run only appends; fingerprints and case numbers stay unique. |
| `PaymentCases.ReportedExactly` | backend/app/reconciliation/engine.py:106-255 | For each kind of case, a run reports it about a payment if and only if the fields call for it: a shared order, a status, a repeated refund name, an awaited refund, several or no settlements met, or the four ways to disagree with the settlement it is matched to. |
| `PaymentCases.EveryFigure` | backend/app/reconciliation/engine.py:110-255 | Every case about a payment carries the figures of its kind: record, expected and actual amount, method and matched record. |
| `RunCounters.CountersExactly` | backend/app/reconciliation/engine.py:174-189 | `ambiguous` is the number of payments that several settlements meet in the first tier met; `unmatched` those that none meets plus the refunds still awaited. |
| `ReconciliationCoverage.RunAccounting` | backend/app/reconciliation/engine.py:152-198 | matched + ambiguous + unmatched = payments + payments flagged for an expected refund that has not come. |
| `RecordCases.PayoutOutcome` | backend/app/reconciliation/engine.py:334-389 | Reported ambiguous if and only if in scope with two possible bank rows; mismatching if and only if in scope with exactly one, which differs in amount or currency. |
| `RecordCases.TwinsExactly` | backend/app/reconciliation/engine.py:86-104 | Identical settlements are reported once, under the first of them, with its net amount and what they add up to, and nothing else is. |
| `RecordCases.RefundExactly` | backend/app/reconciliation/engine.py:277-303 | What becomes of a refund, from the fields: carried by its payment's settlement, reported without payment, reported without settlement, or accounted for. |
| `ReconciliationCoverage.CandidatesArePlainScan` | backend/app/reconciliation/engine.py:337-357 | All candidates: the rows referred to, and only if there are none, the rows that fit currency, date and amount; each once. |
| `ReconciliationCoverage.BankOutcome` | backend/app/reconciliation/engine.py:334-389 | Every in-scope settlement is exactly one of: reported ambiguous (several candidates), reported mismatching (one, disagreeing), or neither (none, or one that agrees). |
| `CaseCoverage.SettlementCaseExactly` | backend/app/reconciliation/engine.py:258-275 | Read off the table: a run files a settlement's case if and only if it is unmatched and unexplained. |
| `CaseCoverage.CreditCaseExactly` | backend/app/reconciliation/engine.py:391-405 | Read off the table: a run files a positive credit's case if and only if it is nobody's sole candidate. |
| `CaseCoverage.MismatchCaseExactly` | backend/app/reconciliation/engine.py:371-387 | Read off the table: an in-scope settlement gets a mismatch case if and only if it has one candidate and disagrees with it. |
| `CaseCoverage.AmbiguousCaseExactlyFirst` | backend/app/rca/service.py:33-47 | From any table without a case of its own, a settlement with several candidates gets one if and only if its fingerprint is not on file and no earlier settlement has the same known payment, net amount and first candidate: the fingerprint leaves the settlement out. |
| `RefundCases.OwnCaseExactlyFirst` | backend/app/reconciliation/engine.py:277-303 | From any table without a case of its own, a refund without a settlement gets one if and only if its fingerprint is not on file and no earlier refund has the same linked payment and amount. |
| `RefundCases.RefundCoverage` | backend/app/reconciliation/engine.py:277-303 | Every refund is matched, is explained by a payment with settlements, or has a case with its fingerprint on file. |
| `CandidateOrder.OnlyAmbiguityDepends` | backend/app/reconciliation/engine.py:310-406 | Every draft of a run but the ambiguous payouts is independent of the order. |
| `CandidateOrder.RepeatedInOtherOrder` | backend/app/reconciliation/engine.py:338-369 | A second run in another order leaves the table as it is if and only if every ambiguous payout is on file under the candidate that now comes first. |
| `AuditTheorems.HeadCommits` | backend/app/audit/service.py:66-68 | Two verifying logs with the same last hash have the same length and agree on every hashed field of every event. |
| `AuditTheorems.AlterationNoticed` | backend/app/audit/service.py:152-162 | Rewriting a row of a verifying table under its old hash and in its old place is noticed exactly when a hashed field changes, and then at exactly that event. |
| `AuditTheorems.DeletionNoticed` | backend/app/audit/service.py:152-162 | Deleting any set of rows goes unnoticed if and only if the rows left are a prefix of the sorted log: a truncated log still verifies, every other deletion is noticed. |
| `AuditTheorems.BuiltVerifiesExactlyInOrder` | backend/app/audit/service.py:71-162 | A log built by appends verifies if and only if each event came after all earlier ones in (timestamp, id) order. |
| `CaseTheorems.EveryState` | backend/app/cases/service.py:109-225 | In every state: VERIFIED means the linked bank credit is the merchant's, fits the reference and paid exactly the recoverable amount, 0 < recoverable <= exposure; PARTIALLY_RECOVERED means less than that, and what some credit of the merchant paid; the recovered amount never exceeds the exposure, nor the recoverable amount unless initiated anew; replaying the timeline gives the status; resolved_at is set iff RESOLVED. |
| `CaseTheorems.ClosedLoop` | backend/app/cases/service.py:205-216 | Over whole histories: every resolution of a case with exposure, under any code but FALSE_POSITIVE, has such a standing verification and a proven bank credit. |
| `CaseOutcomes.VerifyOutcome` | backend/app/cases/service.py:151-184 | From every state: a credit of the merchant below the recoverable amount is a partial recovery of that amount, one above puts the recovery back to initiated with nothing, the exact amount verifies it if the reference fits, and nothing else changes anything. |
| `CaseOutcomes.MovesExactly` | backend/app/cases/service.py:199-212 | Which transitions are accepted, in any spelling: to IN_PROGRESS from OPEN or REOPENED, to REOPENED from RESOLVED, to RESOLVED from anything else under a known code that is FALSE_POSITIVE, or with nothing exposed, or with the recovery VERIFIED. |
| `CaseTheorems.TimelineClosesLoop` | backend/app/cases/service.py:143-216 | Read off the timeline alone: the last recovery entry before such a resolution is a verification. |
| `RefreshSessions.AtMostOneOpen` | backend/app/security/auth.py:118-181 | In every reachable state each family has at most one unrevoked session and tokens are distinct. |
| `RefreshSessions.ReplayKillsFamily` | backend/app/security/auth.py:148-152 | Once a revoked token is presented, no session of its family is unrevoked in any continuation. |
| `RefreshSessions.TokenWorksOnce` | backend/app/security/auth.py:140-167 | Presenting a token a second time, whatever the first time led to, is answered as reuse and kills the family. |
| `RefreshSessions.RotatesExactly` | backend/app/security/auth.py:140-167 | A rotation adds a session, and is accepted, if and only if the presented token's session is open, has not expired, and its user is in order. |
| `RefreshSessions.RightfulSuccession` | backend/app/security/auth.py:118-166 | Over every run: a replacement has its predecessor's user and family and was opened before the predecessor expired, at the moment that revoked it; every session but a family's first is a replacement; a family has one user. |
| `RateLimit.RateBound` | backend/app/security/rate_limit.py:26-68 | Any half-open interval one window long grants at most 2 * limit - 1 calls. |
| `RateLimit.FixedWindowLimit` | backend/app/security/rate_limit.py:46-68 | Whichever window was current at some point, over the whole run it grants at most `limit` calls, and a later window starts no earlier than its end. |
| `RateLimit.RefusedExactlyWhenFull` | backend/app/security/rate_limit.py:46-66 | A call is refused if and only if the window it falls in has already granted `limit` calls. |
| `Webhooks.ProviderStatusConverges` | backend/app/services/webhooks.py:47-55 | Any two delivery orders of the same events, with any repetitions, end with the same provider status and timestamp: the newest event's, unless the subscription already knew something newer. |
| `Webhooks.StatusConvergesExactly` | backend/app/services/webhooks.py:47-97 | All deliveries of a set of events end with the same billing status if and only if the subscription already knew something newer, or no event charges, or the newest event charges or maps to ACTIVE. |
| `Webhooks.FieldConvergesExactly` | backend/app/services/webhooks.py:56-69 | A field no timestamp guards converges if and only if all events that carry it say the same. |
| `Ingestion.BatchAccounting` | backend/app/ingestion.py:127-177 | In an accepted batch created + duplicates is the number of records of a known type, so it equals received if and only if all are; every stored row stays in place and provider keys stay unique. |
| `Ingestion.EntryBatchAdds` | backend/app/ingestion.py:82-116 | Every batch an entry point accepts has received = created + duplicates. |
| `Ingestion.SplitBatch` | backend/app/ingestion.py:131-176 | Splitting a batch stores the same rows and the counts add up; the whole is accepted if and only if both parts are. |
| `Ingestion.ReingestCreatesNothing` | backend/app/ingestion.py:139-176 | Ingesting an accepted batch again is accepted, creates nothing, and reports every record of a known type as a duplicate. |
| `Ingestion.RefusedExactly` | backend/app/ingestion.py:131-165 | A batch is refused if and only if some record is invalid, or is a settlement with bad details whose key is neither stored nor earlier in the batch. |
| `Ingestion.LinksExactly` | backend/app/ingestion.py:152-168 | A new row is linked to a payment if and only if it is a refund or settlement whose provider's payment of that reference was stored before it; stored rows keep their links. |
| `Calendar.MonthLength` | backend/app/billing.py:19-24 | The result is a valid later date 28 to 31 days on: the next month, the same day or that month's last. |
| `Calendar.MonotoneExactly` | backend/app/billing.py:19-24 | Order is kept, and two dates fall together exactly when they share the month and the later one is clipped. |
| `Jobs.JobTable.Create` | backend/app/jobs_service.py:60-90 | The stripped key must be 1 to 200 characters; an existing (merchant, key) row is returned and nothing changes, otherwise one QUEUED row is appended with max attempts clamped to 1..10; uniqueness of keys is kept. |
| `Jobs.JobTable.ReadCandidate` | backend/app/jobs_service.py:111-119 | The candidate is the oldest claimable row, lowest id among equals; none is returned only if no row is claimable. |
| `Jobs.JobTable.ClaimUpdate` | backend/app/jobs_service.py:120-130 | The UPDATE takes effect exactly when the row still has the status and due time that were read; it writes the stale count plus one and touches no other row. |
| `Jobs.JobTable.StartCheck` | backend/app/jobs_worker.py:113-123 | Execution starts exactly for a RUNNING row owned by this worker whose lease, if any, is still in the future. |
| `Jobs.JobTable.Heartbeat` | backend/app/jobs_worker.py:130-138 | Renews the lease of the row if and only if it is RUNNING under this worker; otherwise nothing changes. |
| `Jobs.JobTable.FinishSuccess` | backend/app/jobs_worker.py:146-152 | The unguarded success write: result, SUCCEEDED, completion time, no error, no owner, no lease; no other row changes. |
| `Jobs.JobTable.FinishFailure` | backend/app/jobs_worker.py:161-184 | The failure write: RETRYING after the back-off while attempts remain and the error is retryable, else DEAD_LETTERED at the limit or FAILED below it. |
| `Jobs.JobTable.RecoverStale` | backend/app/jobs_service.py:137-158 | Exactly the RUNNING rows whose lease lies before the cutoff are released, to RETRYING or, at the limit, DEAD_LETTERED; the count returned is the number of such rows. |
| `Jobs.JobTable.Retry` | backend/app/jobs_service.py:161-174 | Only FAILED or DEAD_LETTERED rows are requeued, with attempts, result, times, error, owner and lease cleared; any other row raises and stays. |
| `JobProtocol.InvStep` | backend/app/jobs_service.py:110-134 | Every step of any worker, recovery or operator keeps the row invariant and, for each pending claim, that a guard that would still pass implies the attempt count it read is current. |
| `JobProtocol.Reachable` | backend/app/jobs_service.py:110-174 | The row and snapshot invariants hold in every reachable state, for every interleaving of any number of workers. |
| `JobTheorems.MaxAttemptsFixed` | backend/app/jobs_service.py:67-80 | A row is never deleted and its maximum never changes, so the bound on claims is one number per job. |
| `JobTheorems.OneJobPerKey` | backend/app/jobs_service.py:60-90 | In every run a merchant has at most one job per idempotency key. |
| `JobTheorems.RecoverySparesExecutor` | backend/app/jobs_worker.py:204 | With lease >= 5 s and heartbeats on time, recovery with cutoff now - lease leaves the row of a live executor as it is. |
| `JobTheorems.NoLiveJobRecovered` | backend/app/jobs_worker.py:200-206 | No timely run, extended by a recovery, changes the row of a job whose executor is live. |
| `JobTheorems.ExpiredLeaseRunsNothing` | backend/app/jobs_worker.py:118-123 | With a lease of zero or less nothing ever executes. |
| `JobTheorems.ShortLeaseRun` | backend/app/jobs_worker.py:126-143 | For every lease of 1 to 4 seconds, a concrete timely run in which one job has two live executors. |
| `JobTheorems.UncappedTotal` | backend/app/jobs.py:75-76 | While the doubled delay stays under the ceiling, n back-offs total base * (2^n - 1). |
| `JobTheorems.BackoffBounds` | backend/app/jobs.py:75-76 | n back-offs total at most n * ceiling and at most base * (2^n - 1). |
| `JobOutcomes.FailureOutcome` | backend/app/jobs_worker.py:161-184 | A failure leaves its job RETRYING if and only if the error is retryable and attempts are left, due exactly one back-off later; otherwise FAILED below the limit and DEAD_LETTERED at it. |
| `JobOutcomes.RecoveryOutcome` | backend/app/jobs_service.py:137-158 | Recovery changes a row if and only if it is RUNNING under a lease before the cutoff; with attempts left it is claimable at once, at the limit dead-lettered, each with its own error code. |
| `JobOutcomes.ClaimOutcome` | backend/app/jobs_service.py:120-130 | A winning claim takes a QUEUED or RETRYING row, whose attempts grow by one, under the lease asked for. |
| `JobOutcomes.SuccessOutcome` | backend/app/jobs_worker.py:146-152 | A success leaves the result, the time, no error, no owner and the attempts as they were. |
| `JobOutcomes.RetryOutcome` | backend/app/jobs_service.py:161-174 | An operator retry changes exactly FAILED and DEAD_LETTERED rows, back to a fresh claimable one. |
| `JobOutcomes.CreateOutcome` | backend/app/jobs_service.py:67-80 | A new job may be tried as often as asked, within 1 and 10. |
| `JobOutcomes.OtherRows` | backend/app/jobs_service.py:110-174 | Only a recovery, a retry of the job, a winning claim of it, or its worker's own step changes a row. |
| `JobOutcomes.TraceOf` | backend/app/jobs_service.py:110-174 | Every legal run has a trace of states, each following from the one before by one enabled step. |
| `Matching.AppendUnderEach` | backend/app/reconciliation/matcher.py:105-108 | Lists the settlement under (provider, ref) for every ref of the set and under no other key, whatever order the set yields. |
| `Matching.InsertByTime` | backend/app/reconciliation/matcher.py:114-115 | Inserting into a time-sorted list keeps it sorted and adds exactly the one item, after everything of its own time. |
| `Matching.SortByTime` | backend/app/reconciliation/matcher.py:114-115 | The result is sorted by settlement time, is a permutation of the input, and keeps the order of equal times. |
| `Matching.SortEach` | backend/app/reconciliation/matcher.py:114-115 | Every provider's list ends sorted by time with the same items it had, equal times in their old order. |
| `Matching.BuildIndexes` | backend/app/reconciliation/matcher.py:86-122 | Each dictionary entry is exactly the plain filter of the list by that key, in list order; the time lists are sorted permutations of the provider's settlements. |
| `Matcher.BisectLeft` | backend/app/reconciliation/matcher.py:185 | The cut: an index is below it exactly when its key is less than x. |
| `Matcher.BisectRight` | backend/app/reconciliation/matcher.py:186 | The cut: an index is below it exactly when its key is at most x. |
| `Matcher.Gather` | backend/app/reconciliation/matcher.py:149-154 | The rows listed under any of the references, each once. |
| `Matcher.AmountMatches` | backend/app/reconciliation/matcher.py:177-194 | The binary-searched slice filtered by currency and amount holds exactly the rows inside the inclusive window that fit, each once. |
| `Matcher.MatchIsListed` | backend/app/reconciliation/engine.py:165-168 | A decision that matches names a settlement of the payment's own provider, so the engine's lookup always succeeds. |
| `Reconciler.NextMatched` | backend/app/reconciliation/engine.py:168 | The lookup returns a listed settlement with the id asked for. |
| `MatchingTiers.OneReferenceIsEnough` | backend/app/reconciliation/matcher.py:20-56 | Any one shared reference, in whichever of the fields, satisfies its tier. |
| `MatchingTiers.Respelled` | backend/app/reconciliation/matcher.py:13-17 | Any letter case within any surrounding blanks counts as the same spelling. |
| `Text.StripExactly` | backend/app/reconciliation/matcher.py:13-17 | Trimming cuts off exactly the blanks at both ends. |
| `CaseStore.InsertAllAppend` | backend/app/rca/service.py:46-88 | Filing two lists of drafts one after the other is filing their concatenation. |
| `CaseStore.InsertAllKeys` | backend/app/rca/service.py:46-47 | Filing drafts keeps every existing row in place and leaves exactly the old fingerprints plus those of the drafts. |
| `CaseStore.InsertAllUnique` | backend/app/rca/service.py:46-82 | Fingerprints stay unique. |
| `CaseStore.InsertAllAbsorbs` | backend/app/rca/service.py:46-47 | Drafts whose fingerprints are all on file change nothing. |
| `CaseStore.InsertAllNumbered` | backend/app/cases/service.py:25-29 | Every row keeps the number one past the rows of its year before it. |
| `CaseStore.NumbersDistinct` | backend/app/cases/service.py:25-29 | So no two case numbers collide and the unique constraint on them never fires. |
| `CaseStore.SameCaseExactly` | backend/app/rca/service.py:33-45 | Two drafts share a case if and only if they agree on kind, amounts, method, matched record and payment, and without a payment on the record. |
| `Reconciler.GroupBy` | backend/app/reconciliation/engine.py:86-93 | Grouping into a dictionary gives the keys in order of first appearance and, under each, exactly the rows with that key in list order. |
| `Reconciler.IndexRefunds` | backend/app/reconciliation/engine.py:66-70 | Each entry is the plain filter of the refunds by provider and normalized payment reference. |
| `Reconciler.IndexSettlements` | backend/app/reconciliation/engine.py:71-72 | Each entry is the plain filter of the settlements by provider and normalized payment reference. |
| `Reconciler.IndexOrders` | backend/app/reconciliation/engine.py:73-75 | Each entry is the plain filter of the payments with an order reference by provider and normalized reference. |
| `Reconciler.IndexBanks` | backend/app/reconciliation/engine.py:315-330 | The three bank dictionaries: rows under their provider and under the wildcard for each reference, by UTR, and by currency. |
| `Reconciler.CollectBankCandidates` | backend/app/reconciliation/engine.py:337-357 | The candidates collected from the dictionaries are those of the specification: by reference, else by currency, amount and date. |
| `ReconciliationRuns.ReconciliationRun.CreateCase` | backend/app/rca/service.py:46-88 | Inserts the case with the next number of the year exactly when its fingerprint is not on file, and says whether it did. |
| `ReconciliationRuns.ReconciliationRun.Report` | backend/app/reconciliation/engine.py:29-48 | The table stays the reported drafts filed into the table the run began with, and `created` its growth. |
| `ReconciliationRuns.ReconciliationRun.ReportDuplicateSettlements` | backend/app/reconciliation/engine.py:86-104 | Reports one case for every group of settlements equal in all financial fields, in order of first appearance, and none for singletons. |
| `ReconciliationRuns.ReconciliationRun.ReportDuplicateRefunds` | backend/app/reconciliation/engine.py:133-150 | Reports one case for every repeated provider refund reference among the payment's refunds. |
| `ReconciliationRuns.ReconciliationRun.CheckOrder` | backend/app/reconciliation/engine.py:110-121 | Reports the duplicate-order case exactly when another payment shares the order reference. |
| `ReconciliationRuns.ReconciliationRun.CheckStatus` | backend/app/reconciliation/engine.py:123-131 | Reports a status mismatch exactly outside the four reconcilable payment states. |
| `ReconciliationRuns.ReconciliationRun.CheckMissingRefund` | backend/app/reconciliation/engine.py:152-161 | Reports the missing refund exactly when one is expected and none was ingested. |
| `ReconciliationRuns.ReconciliationRun.CheckPair` | backend/app/reconciliation/engine.py:200-255 | A matched pair reports exactly its disagreements: non-final status, currency, delay, difference. |
| `ReconciliationRuns.ReconciliationRun.MatchAndCheck` | backend/app/reconciliation/engine.py:163-198 | The matched settlement and the payment's refunds are recorded and the pair checked, or one ambiguous or unmatched case is reported. |
| `ReconciliationRuns.ReconciliationRun.ReconcilePayments` | backend/app/reconciliation/engine.py:106-255 | The payment loop reports each payment's drafts in order and leaves exactly the matched settlement and refund ids of the plain scan. |
| `ReconciliationRuns.ReconciliationRun.SweepSettlements` | backend/app/reconciliation/engine.py:258-275 | Reports exactly the settlements that nobody matched and no payment explains. |
| `ReconciliationRuns.ReconciliationRun.SweepRefunds` | backend/app/reconciliation/engine.py:277-303 | Reports exactly the unmatched refunds without a payment, or with a payment but no settlement. |
| `ReconciliationRuns.ReconciliationRun.ReconcileBank` | backend/app/reconciliation/engine.py:358-389 | One settlement's candidates lead to exactly one of: ambiguous case, mismatch case, match, nothing. |
| `ReconciliationRuns.ReconciliationRun.ReconcileBanks` | backend/app/reconciliation/engine.py:334-389 | The bank loop reports each in-scope settlement's outcome and leaves the sole-candidate bank ids and the match count of the plain scan. |
| `ReconciliationRuns.ReconciliationRun.SweepCredits` | backend/app/reconciliation/engine.py:391-405 | Reports exactly the positive credits that were nobody's sole candidate. |
| `ReconciliationRuns.ReconciliationRun.Execute` | backend/app/reconciliation/engine.py:64-406 | All passes together report the drafts of the plain-scan specification, in order. |
| `ReconciliationRuns.FindMatch` | backend/app/reconciliation/engine.py:165-168 | The indexed decision and the looked-up settlement are those of the plain scan. |
| `ReconciliationTheorems.SingleCalculation` | backend/app/reconciliation/calculator.py:8-27 | For the one matched settlement, the difference is net - (gross - refunds - fee - tax + adjustment), counting processed and created refunds. |
| `ReconciliationTheorems.MatchOfUnique` | backend/app/reconciliation/matcher.py:139-204 | A payment's match is a settlement exactly if that settlement is the only hit of the deciding tier. |
| `ReconciliationTheorems.SilentExactlyReconciled` | backend/app/reconciliation/engine.py:106-255 | A run reports none of the six mismatch kinds about a payment if and only if the payment is reconciled: reconcilable status, unique match, final, same currency, in the window, exact net amount. |
| `ReconciliationCoverage.SettlementCoverage` | backend/app/reconciliation/engine.py:258-275 | A settlement is reported without payment if and only if no payment matched it and none explains it. |
| `ReconciliationCoverage.ReferredIsPlainScan` | backend/app/reconciliation/engine.py:315-345 | The candidates found through the three dictionaries are exactly the bank rows that carry one of the settlement's references, each once. |
| `ReconciliationCoverage.CreditCoverage` | backend/app/reconciliation/engine.py:391-405 | A positive bank credit is reported if and only if it is no in-scope settlement's sole candidate. |
| `CaseStore.FiledExactlyWhenFresh` | backend/app/rca/service.py:46-88 | The one draft of a run about a record makes that record's case if and only if its fingerprint is neither on file nor among the drafts before it. |
| `CaseStore.OwnCaseExactly` | backend/app/rca/service.py:33-88 | The same for an element of a pass: its record gets a case if and only if the fingerprint is not on file and no earlier element reports it. |
| `CaseCoverage.AmbiguityNeedsSeveral` | backend/app/reconciliation/engine.py:358-370 | An in-scope settlement with such a case has several candidates. |
| `CaseCoverage.EqualPayoutsShareACase` | backend/app/rca/service.py:33-47 | The smallest input on which two ambiguous payouts end with one case between them. |
| `RefundCases.EqualRefundsShareACase` | backend/app/rca/service.py:33-47 | The smallest input on which two different refunds end with one case between them. |
| `RefundCases.LaterEqualRefundGetsNoCase` | backend/app/rca/service.py:33-47 | The same refunds arriving between two runs: the second run files no case for the later one. |
| `CandidateOrder.CandidatesInAnyOrder` | backend/app/reconciliation/engine.py:338-345 | The candidate rows are the same in whatever order the settlement's references are tried. |
| `CandidateOrder.OutcomeByOrder` | backend/app/reconciliation/engine.py:358-389 | One settlement's outcome changes with that order exactly when it is ambiguous and another candidate comes first. |
| `CandidateOrder.OtherOrderFilesAgain` | backend/app/reconciliation/engine.py:338-369 | An input on which it is not: repeated with the UTR first, the run files a second case. |
| `PaymentCases.ReconciledFields` | backend/app/reconciliation/engine.py:106-255 | Reconciled means, in the fields: a reconcilable status and a settlement alone in meeting the first tier met, final, in the currency, not late, paying exactly gross - refunds - fee - tax + adjustment. |
| `PaymentCases.OneOutcome` | backend/app/reconciliation/engine.py:167-198 | A payment is matched to the settlement that alone meets the first tier met; or else several meet it, or none meets any. |
| `RunCounters.TallyCounts` | backend/app/reconciliation/engine.py:81 | Every counter of the report is the number of drafts of its kinds. |
| `RunCounters.KindCount` | backend/app/reconciliation/engine.py:106-255 | A run reports as many cases of a kind as there are payments that call for it. |
| `RunCounters.MatchedCounter` | backend/app/reconciliation/engine.py:172 | `matched` is the number of payments that one settlement alone meets in the first tier met. |
| `RunCounters.OneOfThree` | backend/app/reconciliation/engine.py:167-198 | Every payment is exactly one of matched, ambiguous and unmatched. |
| `RunCounters.ReportedPassByPass` | backend/app/reconciliation/engine.py:86-405 | A run reports, and so numbers, its cases pass by pass: identical settlements, payments, settlements, refunds, payouts, credits. |
| `RecordCases.ScopedExactly` | backend/app/reconciliation/engine.py:55-64 | What a run for one merchant reads: its payments and bank rows, and refunds and settlements that are its own or linked to one of its payments. |
| `RecordCases.ExplainedExactly` | backend/app/reconciliation/engine.py:261-266 | A row is explained if and only if some payment is the one it is linked to, or has its provider and its payment reference; the link comes first. |
| `RecordCases.OrphanExactly` | backend/app/reconciliation/engine.py:258-275 | A settlement is reported without payment, with its net amount, if and only if no payment is matched to it and none explains it. |
| `RecordCases.RefundReported` | backend/app/reconciliation/engine.py:277-303 | A run reports exactly that about the refund. |
| `RecordCases.RefersExactly` | backend/app/reconciliation/engine.py:318-345 | A bank row is referred to if and only if one of its four texts is one of the settlement's two, but for blanks and case. |
| `RecordCases.CandidatesExactly` | backend/app/reconciliation/engine.py:337-357 | The candidates from the fields: who is referred to, and only if nobody is, the currency, an amount within the tolerance, and fewer than max(7, window) + 1 days between. |
| `RecordCases.PayoutFigures` | backend/app/reconciliation/engine.py:358-387 | And what those reports say: the settlement's net against nothing or against the bank row's amount, and the candidate. |
| `RecordCases.IdOfLinked` | backend/app/reconciliation/engine.py:361 | The payment named in a bank case is the one the settlement is linked to, if it exists. |
| `RecordCases.CreditExactly` | backend/app/reconciliation/engine.py:391-405 | A positive credit is reported, with its amount, if and only if it is the only possible payout of no settlement in scope. |
| `AuditChain.SecretExactly` | backend/app/audit/service.py:15-18 | Which keys are dropped, in any letter case. |
| `AuditChain.SafeIsClean` | backend/app/audit/service.py:31-38 | Sanitized metadata holds no sensitive key at any depth and no raw datetime. |
| `AuditChain.SafeFixesExactlyClean` | backend/app/audit/service.py:31-38 | Sanitizing changes a value exactly when it is not clean, so it is idempotent. |
| `AuditChain.AuditLog.FindLatest` | backend/app/audit/service.py:71-72 | With distinct (timestamp, id) pairs the scan returns the greatest event, or nothing from an empty log. |
| `AuditChain.AuditLog.RecordEvent` | backend/app/audit/service.py:93-125 | An unknown outcome raises and appends nothing; otherwise one event is appended that carries each argument, sanitized, in its own field, the hash over it, and the hash of the greatest event before it. |
| `AuditChain.AuditLog.VerifyHashChain` | backend/app/audit/service.py:152-162 | Succeeds exactly when every event, in (timestamp, id) order, has the link and hash it should; otherwise names the first that does not. |
| `AuditTheorems.SortedRewrite` | backend/app/audit/service.py:153 | Rewriting a row without moving it in the order rewrites that entry of the sorted log and moves nothing. |
| `AuditTheorems.StoredIsHashed` | backend/app/audit/service.py:114-122 | For an appended event the hash covers everything stored with it, as stored. |
| `AuditTheorems.LateEntryFails` | backend/app/audit/service.py:71-162 | Two entries that verify appended in one order and not in the other. |
| `CaseRecovery.CaseFile.EnsureRecovery` | backend/app/cases/service.py:109-121 | Returns the recovery record, creating it from the exposure when absent; nothing else changes. |
| `CaseRecovery.CaseFile.InitiateRecovery` | backend/app/cases/service.py:124-148 | The new state and error of the call as `Apply` and `ErrorOf` say, error paths leaving the case untouched. |
| `CaseRecovery.CaseFile.VerifyRecovery` | backend/app/cases/service.py:151-184 | The same for verification, where a wrong amount commits what it found and then raises. |
| `CaseRecovery.CaseFile.MarkUnrecoverable` | backend/app/cases/service.py:187-197 | The same for giving a recovery up; a blank reason changes nothing. |
| `CaseRecovery.CaseFile.Transition` | backend/app/cases/service.py:199-225 | The same for a status change, with every refusal in the order the source checks. |
| `CaseTheorems.StateStep` | backend/app/cases/service.py:109-225 | Every call keeps the state invariant and only appends to the timeline. |
| `CaseTheorems.VerifiedHasProof` | backend/app/cases/service.py:151-184 | Whenever a recovery is VERIFIED, an earlier verification succeeded and the record has not changed since. |
| `CaseTheorems.ResolvedCanRestart` | backend/app/cases/service.py:124-148 | From every reachable RESOLVED state the recovery can be initiated again, leaving the case RESOLVED with a recovery that is not VERIFIED. |
| `CaseTheorems.OvershootIsLowered` | backend/app/cases/service.py:134-148 | In any history the recovered amount exceeds the recoverable one only if some initiation lowered the recoverable amount below what stood. |
| `CaseOutcomes.VerifiesExactly` | backend/app/cases/service.py:151-184 | A verification succeeds if and only if the credit is the merchant's, pays exactly what is recoverable, and fits the reference. |
| `CaseOutcomes.ContainsIsMentions` | backend/app/cases/service.py:169 | The reference fits if it occurs somewhere in the bank's two texts. |
| `CaseOutcomes.InitiateOutcome` | backend/app/cases/service.py:124-148 | An initiation takes effect if and only if the amount lies within the exposure and an action is named; it sets amount, reference and status and leaves what was recovered. |
| `CaseOutcomes.GiveUpOutcome` | backend/app/cases/service.py:187-197 | Giving up takes effect if and only if a reason is named. |
| `CaseOutcomes.MoveOutcome` | backend/app/cases/service.py:213-225 | What an accepted transition leaves; a refused one leaves everything. |
| `CaseOutcomes.LoweredBelowRecovered` | backend/app/cases/service.py:134-148 | A history that leaves 60 recovered of 50 recoverable. |
| `CaseOutcomes.DebitIsPartialRecovery` | backend/app/cases/service.py:156-168 | A history in which a debit counts as a partial recovery of a negative amount. |
| `RefreshSessions.SessionStore.Lookup` | backend/app/security/auth.py:143-144 | Finds the session of a token, or nothing. |
| `RefreshSessions.SessionStore.Login` | backend/app/security/auth.py:118-133 | Appends one open session and changes no other row. |
| `RefreshSessions.SessionStore.RevokeAll` | backend/app/security/auth.py:136-137 | Revokes exactly the open sessions selected and keeps earlier revocation times. |
| `RefreshSessions.SessionStore.Rotate` | backend/app/security/auth.py:140-167 | The new rows and the error of one rotation, branch by branch: reuse revokes the family, expiry or a lost user revokes the session, success revokes it and appends its replacement. |
| `RefreshSessions.SessionStore.RevokeByRefresh` | backend/app/security/auth.py:170-181 | Logout revokes the session if it is open and reports whether the token is known. |
| `RefreshSessions.ChainStep` | backend/app/security/auth.py:162-165 | Replacements stay in the family, come later, and whoever was replaced is revoked. |
| `RefreshSessions.RevokedStays` | backend/app/security/auth.py:136-181 | No step ever undoes a revocation or moves a session to another family. |
| `RefreshSessions.DeadForever` | backend/app/security/auth.py:136-167 | A family without an open session never has one again. |
| `RefreshSessions.AcceptedExactly` | backend/app/security/auth.py:162-166 | An accepted rotation revokes that session now, names its replacement, gives it the user and family and one lifetime from now, and changes nothing else. |
| `RefreshSessions.RefusedExactly` | backend/app/security/auth.py:148-161 | A refused open session is revoked now and nothing else; a revoked one revokes whatever is open in its family and nothing else; with the error of each. |
| `RefreshSessions.UnknownToken` | backend/app/security/auth.py:146-147 | An unknown token is refused and changes nothing. |
| `RefreshSessions.EndsExactly` | backend/app/security/auth.py:170-199 | A logout or the revocation of a user ends exactly the open sessions it is about. |
| `RefreshSessions.LifetimeKept` | backend/app/security/auth.py:118-127 | With one configured lifetime every session expires one lifetime after it was opened. |
| `RateLimit.Limiter.Enforce` | backend/app/security/rate_limit.py:26-68 | The row and verdict of one call, branch by branch. |
| `RateLimit.Limiter.Reset` | backend/app/security/rate_limit.py:71-77 | Forgets the row. |
| `RateLimit.BlockedUntilWindowEnd` | backend/app/security/rate_limit.py:59-66 | In every run blocked_until, when set, is the window start plus the window, and it is set exactly when the count exceeded the limit. |
| `RateLimit.BoundIsReached` | backend/app/security/rate_limit.py:26-68 | For every limit and every window of two ticks or more, a run that grants 2 * limit - 1 in one such interval. |
| `RateLimit.RetryAfterExactly` | backend/app/security/rate_limit.py:47-66 | A refusal asks for at least a second and otherwise the whole seconds left, rounded down; a call after exactly that wait is refused again unless the time left was whole or under a second. |
| `Webhooks.WebhookEndpoint.Receive` | backend/app/services/webhooks.py:34-74 | One delivery: a known event id changes nothing; otherwise status, provider status, timestamp, customer, plan, period, cancellation, payment and charge are written as the branches say. |
| `Webhooks.TimestampNeverDecreases` | backend/app/services/webhooks.py:47-55 | The provider timestamp kept never goes back, whatever is delivered. |
| `Webhooks.AgreedStatus` | backend/app/services/webhooks.py:47-97 | And which status that is, for every delivery of the set. |
| `Webhooks.StatusDiverges` | backend/app/services/webhooks.py:74-97 | Two orders of one charge and one cancellation that end with different billing statuses. |
| `Webhooks.FiveFields` | backend/app/services/webhooks.py:56-69 | Customer, plan, period start, period end and last payment are such fields. |
| `Webhooks.PeriodEndConvergesExactly` | backend/app/services/webhooks.py:62-63 | So the end of the period converges if and only if all events that carry one carry the same. |
| `Webhooks.ChargesExactly` | backend/app/services/webhooks.py:74 | Which events charge: captured payments of charged or completed subscriptions. |
| `Webhooks.StatusMapExactly` | backend/app/services/webhooks.py:40-49 | Which provider statuses lead to each billing status. |
| `Webhooks.CancelsExactly` | backend/app/services/webhooks.py:64-65 | The cancel flag is set if and only if it was, or a cancellation has been delivered, in whatever order. |
| `Webhooks.StatusFollowsProvider` | backend/app/services/webhooks.py:51-97 | In any single run, orderly or not, the billing status agrees with the provider status if and only if that maps to ACTIVE or the delivery that last set it was not a captured charge. |
| `Ingestion.RecordStore.FindExisting` | backend/app/ingestion.py:140 | Says whether the provider key is stored. |
| `Ingestion.RecordStore.IngestRecords` | backend/app/ingestion.py:188-208 | An upload ends with an error and the old rows if any item does not normalize, or else as `Persist` says; whatever is accepted has received = created + duplicates. |
| `Ingestion.RecordStore.Persist` | backend/app/ingestion.py:126-186 | A batch ends with the specified rows and counters, or with the error of its first bad record and the rows it started from. |
| `Ingestion.KeysAfter` | backend/app/ingestion.py:139-176 | A key is stored afterwards if and only if it was before or the batch carries it. |
| `Ingestion.InvalidExactly` | backend/app/ingestion.py:118-138 | Which fields make a record invalid, which settlement figures are wrong, and the first two errors. |
| `Ingestion.SameKeyExactly` | backend/app/ingestion.py:139-176 | Two records share a provider key if and only if they agree on kind, provider and external id, or for bank rows on source and external id. |
| `Ingestion.StoredAsGiven` | backend/app/ingestion.py:143-176 | Every new row holds a record of the batch as it came. |
| `Calendar.ComputeAddMonth` | backend/app/billing.py:19-24 | The branches compute the same day of the next month, or its last day; only December 9999 raises. |
| `Calendar.MonthTable` | backend/app/billing.py:23-24 | The lengths of the months but February, by one formula. |
| `Calendar.YearLength` | backend/app/billing.py:23-24 | A year has 366 days when 400 divides it, or 4 does and 100 does not, and otherwise 365. |
| `Calendar.DaysBefore` | backend/app/billing.py:23-24 | The number of days before any year, in closed form. |
| `Calendar.FourCenturies` | backend/app/billing.py:23-24 | Any 400 years have 146097 days. |
| `Calendar.DayNumberOrders` | backend/app/billing.py:19-24 | Day numbers follow the calendar order, across leap years and year ends. |

## Left out

- Routes, middleware, settings switches (rate limiting disabled, testing mode), metrics, logs,
  notifications, dashboards, migrations and the frontend: no state of their own to reason about.
- Transactions and row locks: each step named above is atomic. Insert races that the source settles
  by catching an integrity error are settled by the order of the steps.
- Column-level change tracking of the ORM: a success write clears the error even where the ORM would
  skip the column because the value it loaded was already empty. Under lease exclusivity the two agree.
- Jobs executed without a worker id: such a call has no start check on the owner and no heartbeat.
- What a job computes: a result, or a retryable or permanent failure with any category. Payload
  scrubbing, job types and the merchant-scope check of `create_job` are not modelled.
- Fractional back-off: base and ceiling are whole clock ticks.
- Letters and white space outside ASCII: lower case, upper case and trimming are modelled on ASCII.
- Decimals: amounts are whole minor units, tolerances are not negative, and the settlement adjustment
  is already a number; an adjustment text that does not parse raises in the source.
- The text form of amounts inside a fingerprint: equal amounts written with different scales hash
  differently in the source.
- Time zones: all times are on one clock already.
- Case titles, texts, priorities, SLA hours, metadata and the CASE_CREATED audit entry of a new case.
- Cases opened by hand or from exceptions appear in the case table only as rows with a foreign
  fingerprint and a number.
- `record_type` of bank rows: kept as the source labels it; no property is stated about it.
- Record fields that no check reads: methods, capture times, batch ids, receipt times, raw references.
- Normalization of raw ingestion data, CSV parsing and the batch row itself.
- Webhook signatures, webhook events of other kinds, and what a webhook records in the audit log.
- Webhooks.WebhookEndpoint.Receive: does not model the invoice a captured charge marks PAID or
  creates, nor the notifications; every subscription field an event writes is modelled.
- Webhooks.ProviderStatusConverges: needs distinct event ids, distinct timestamps and mapped
  statuses; without a timestamp or with equal ones the delivery order decides.
- AuditTheorems.HeadCommits: covers the fields that are hashed; the row id is not one of them.
- AuditTheorems.AlterationNoticed: the altered event keeps its hash and its place in the order.
- Passwords, JWTs, HMAC, MFA and SSO: tokens are opaque and fresh tokens are distinct.
- Recovery dates, notes and action types: stored, never read by a decision.
- ReconciliationRuns.RunReconciliation: needs distinct settlement ids, which the primary key gives.
