/** The closed loop over whole case histories: no financial case is resolved without a verified bank
    outcome that still stood, and the timeline tells the status. */
module CaseTheorems {
  import opened Prelude
  import opened Text
  import opened CaseRecovery

  // A new case; the reconciliation opens it without a recovery record, the case service with one.
  predicate IsStart(ctx: Context, s: CaseState) {
    s == CaseState(Open, None, None, None, [CaseCreated])
    || s == CaseState(Open, None, None, Some(FreshRecovery(ctx.difference)), [CaseCreated])
  }

  function After(ctx: Context, start: CaseState, calls: seq<Call>): CaseState {
    if calls == [] then start else Apply(ctx, After(ctx, start, calls[..|calls| - 1]), calls[|calls| - 1])
  }

  // ---------- what every state satisfies ----------

  function Replay(events: seq<CaseEvent>): CaseStatus {
    if events == [] then Open
    else
      match events[|events| - 1]
      case CaseCreated => Open
      case StatusChanged(_, to) => to
      case CaseResolved(_) => Resolved
      case CaseReopened => Reopened
      case _ => Replay(events[..|events| - 1])
  }

  // VERIFIED means: the linked bank credit, visible to the case's merchant and fitting the
  // reference, paid exactly the recoverable amount, which lies within the exposure.
  predicate ProvenByBank(ctx: Context, r: Recovery) {
    && r.verifiedBank.Some? && BankVisible(ctx, r.verifiedBank.value)
    && r.recovered == r.recoverable == ctx.banks[r.verifiedBank.value].amount
    && 0 < r.recoverable <= r.exposure
    && ReferenceFits(r.reference, ctx.banks[r.verifiedBank.value])
  }

  // Some bank credit visible to the case's merchant paid this amount.
  ghost predicate Paid(ctx: Context, amount: int) {
    exists id :: BankVisible(ctx, id) && ctx.banks[id].amount == amount
  }

  // The recovered amount is nothing or what some credit paid, and never above the exposure. It stays
  // within the recoverable amount until an initiation lowers that, which leaves what stands.
  ghost predicate RecoveryOk(ctx: Context, r: Recovery) {
    && r.exposure == Abs(ctx.difference) && 0 <= r.recoverable <= r.exposure
    && (r.status == Verified ==> ProvenByBank(ctx, r))
    && (r.status == PartiallyRecovered ==> r.recovered < r.recoverable && Paid(ctx, r.recovered))
    && (r.status == NotRequired ==> r.exposure == 0)
    && (r.status == Identified ==> r.exposure > 0)
    && (r.status == Identified || r.status == NotRequired ==>
          r.recovered == 0 && r.recoverable == r.exposure && r.verifiedBank.None? && r.reference.None?)
    && (r.recovered == 0 || Paid(ctx, r.recovered)) && r.recovered <= r.exposure
    && (r.recovered > r.recoverable ==> r.status == Initiated || r.status == Unrecoverable)
  }

  ghost predicate StateOk(ctx: Context, s: CaseState) {
    && (s.recovery.Some? ==> RecoveryOk(ctx, s.recovery.value))
    && Replay(s.events) == s.status
    && (s.resolvedAt.Some? <==> s.status == Resolved)
    && (s.status == Resolved || s.status == Reopened ==> s.code.Some? && s.recovery.Some?)
  }

  lemma ReplayStep(events: seq<CaseEvent>, e: CaseEvent)
    ensures Replay(events + [e]) ==
      match e
      case CaseCreated => Open
      case StatusChanged(_, to) => to
      case CaseResolved(_) => Resolved
      case CaseReopened => Reopened
      case _ => Replay(events)
  {
    assert (events + [e])[..|events|] == events;
  }

  lemma TransitionStep(ctx: Context, s: CaseState, r: Recovery, target: string, code: Option<string>, now: int)
    requires StateOk(ctx, s) && RecoveryOk(ctx, r) && (s.recovery.Some? ==> s.recovery.value == r)
    requires TransitionError(s, r, target, code).None?
    ensures StateOk(ctx, AfterTransition(s, r, target, code, now))
        && s.events <= AfterTransition(s, r, target, code, now).events
  {
    var t := AfterTransition(s, r, target, code, now);
    ReplayStep(s.events, t.events[|s.events|]);
  }

  lemma VerifyStep(ctx: Context, s: CaseState, r: Recovery, bank: nat)
    requires StateOk(ctx, s) && RecoveryOk(ctx, r)
    ensures StateOk(ctx, AfterVerify(ctx, s, r, bank)) && s.events <= AfterVerify(ctx, s, r, bank).events
  {
    if VerifyError(ctx, r, bank).None? { ReplayStep(s.events, RecoveryVerified(bank, ctx.banks[bank].amount)); }
  }

  lemma StateStep(ctx: Context, s: CaseState, call: Call)
    requires StateOk(ctx, s)
    ensures StateOk(ctx, Apply(ctx, s, call)) && s.events <= Apply(ctx, s, call).events
  {
    var r := Ensured(ctx, s);
    match call
    case Transition(target, code, now) =>
      if TransitionError(s, r, target, code).None? { TransitionStep(ctx, s, r, target, code, now); }
    case Verify(bank) => VerifyStep(ctx, s, r, bank);
    case Initiate(amount, _, _) => ReplayStep(s.events, RecoveryInitiated(InitiateAmount(amount, r)));
    case MarkUnrecoverable(_) => ReplayStep(s.events, MarkedUnrecoverable);
    case Annotate => ReplayStep(s.events, Noted);
    case EnsureRecovery =>
  }

  lemma {:induction false} EveryState(ctx: Context, start: CaseState, calls: seq<Call>)
    requires IsStart(ctx, start)
    ensures StateOk(ctx, After(ctx, start, calls))
  {
    if calls != [] {
      EveryState(ctx, start, calls[..|calls| - 1]);
      StateStep(ctx, After(ctx, start, calls[..|calls| - 1]), calls[|calls| - 1]);
    }
  }

  // ---------- the closed loop, over calls ----------

  // Call k resolved the case with this code.
  ghost predicate ResolvesAt(ctx: Context, start: CaseState, calls: seq<Call>, k: nat, c: ResolutionCode) {
    && k < |calls|
    && After(ctx, start, calls[..k + 1]).events == After(ctx, start, calls[..k]).events + [CaseResolved(c)]
  }

  // Call v verified the recovery, and the record has not changed since.
  ghost predicate StandingProof(ctx: Context, start: CaseState, calls: seq<Call>, v: nat, k: nat) {
    && v < k <= |calls| && calls[v].Verify?
    && ErrorOf(ctx, After(ctx, start, calls[..v]), calls[v]).None?
    && After(ctx, start, calls[..v + 1]).recovery.Some?
    && After(ctx, start, calls[..v + 1]).recovery.value.status == Verified
    && forall m :: v < m <= k ==> After(ctx, start, calls[..m]).recovery == After(ctx, start, calls[..v + 1]).recovery
  }

  lemma AfterStep(ctx: Context, start: CaseState, calls: seq<Call>, k: nat)
    requires k < |calls|
    ensures After(ctx, start, calls[..k + 1]) == Apply(ctx, After(ctx, start, calls[..k]), calls[k])
  {
    assert calls[..k + 1][..k] == calls[..k];
  }

  // Whoever becomes VERIFIED does so by a successful verification.
  lemma VerifiedByVerify(ctx: Context, s: CaseState, call: Call)
    requires Apply(ctx, s, call).recovery.Some? && Apply(ctx, s, call).recovery.value.status == Verified
    ensures (call.Verify? && ErrorOf(ctx, s, call).None?) || Apply(ctx, s, call).recovery == s.recovery
  {
  }

  lemma {:induction false} VerifiedHasProof(ctx: Context, start: CaseState, calls: seq<Call>, k: nat)
    requires IsStart(ctx, start) && k <= |calls|
    requires After(ctx, start, calls[..k]).recovery.Some?
        && After(ctx, start, calls[..k]).recovery.value.status == Verified
    ensures exists v :: StandingProof(ctx, start, calls, v, k)
  {
    if k > 0 {
      AfterStep(ctx, start, calls, k - 1);
      var s := After(ctx, start, calls[..k - 1]);
      VerifiedByVerify(ctx, s, calls[k - 1]);
      if calls[k - 1].Verify? && ErrorOf(ctx, s, calls[k - 1]).None? {
        assert StandingProof(ctx, start, calls, k - 1, k);
      } else {
        VerifiedHasProof(ctx, start, calls, k - 1);
        var v :| StandingProof(ctx, start, calls, v, k - 1);
        assert StandingProof(ctx, start, calls, v, k);
      }
    }
  }

  // In any history: a case with exposure resolved under any code but FALSE_POSITIVE was verified by
  // an earlier call, and nothing touched its recovery in between.
  lemma ClosedLoop(ctx: Context, start: CaseState, calls: seq<Call>, k: nat, c: ResolutionCode)
    requires IsStart(ctx, start) && ResolvesAt(ctx, start, calls, k, c)
    requires c != FalsePositive && ctx.difference != 0
    ensures exists v :: StandingProof(ctx, start, calls, v, k)
    ensures var r := After(ctx, start, calls[..k]).recovery; r.Some? && ProvenByBank(ctx, r.value)
  {
    AfterStep(ctx, start, calls, k);
    EveryState(ctx, start, calls[..k]);
    var s := After(ctx, start, calls[..k]);
    ResolvedNeedsVerified(ctx, s, calls[k], c);
    VerifiedHasProof(ctx, start, calls, k);
  }

  lemma ResolvedNeedsVerified(ctx: Context, s: CaseState, call: Call, c: ResolutionCode)
    requires StateOk(ctx, s) && Apply(ctx, s, call).events == s.events + [CaseResolved(c)]
    requires c != FalsePositive && ctx.difference != 0
    ensures s.recovery.Some? && s.recovery.value.status == Verified
  {
    assert (s.events + [CaseResolved(c)])[|s.events|] == CaseResolved(c);
    assert call.Transition?;
  }

  // ---------- the closed loop, read off the timeline ----------

  function LastRecovery(events: seq<CaseEvent>): Option<CaseEvent> {
    if events == [] then None
    else
      var e := events[|events| - 1];
      if RecoveryEvent(e) then Some(e)
      else LastRecovery(events[..|events| - 1])
  }

  ghost predicate TimelineOk(events: seq<CaseEvent>) {
    forall i :: 0 <= i < |events| ==> Closes(events[..i], events[i])
  }

  ghost predicate Timeline(ctx: Context, s: CaseState) {
    && (ctx.difference != 0 ==> TimelineOk(s.events))
    && (s.recovery.Some? && s.recovery.value.status == Verified ==>
          s.recovery.value.verifiedBank.Some? &&
          LastRecovery(s.events) == Some(RecoveryVerified(s.recovery.value.verifiedBank.value,
              s.recovery.value.recovered)))
  }

  predicate RecoveryEvent(e: CaseEvent) { e.RecoveryInitiated? || e.RecoveryVerified? || e.MarkedUnrecoverable? }

  // If the entry resolves under a code other than FALSE_POSITIVE, a verification was the last word.
  predicate Closes(events: seq<CaseEvent>, e: CaseEvent) {
    e.CaseResolved? && e.code != FalsePositive ==>
        LastRecovery(events).Some? && LastRecovery(events).value.RecoveryVerified?
  }

  lemma TimelineAppend(events: seq<CaseEvent>, e: CaseEvent)
    ensures LastRecovery(events + [e]) == if RecoveryEvent(e) then Some(e) else LastRecovery(events)
    ensures TimelineOk(events) && Closes(events, e) ==> TimelineOk(events + [e])
  {
    assert (events + [e])[..|events|] == events;
    forall i | 0 <= i < |events| ensures (events + [e])[..i] == events[..i] { }
  }

  // The one entry a call adds, and what it does to the recovery status.
  lemma EntryOf(ctx: Context, s: CaseState, call: Call)
    requires StateOk(ctx, s)
    ensures var t := Apply(ctx, s, call);
      || (t.events == s.events && (t.recovery == s.recovery || t.recovery.value.status != Verified))
      || (|t.events| == |s.events| + 1 && t.events == s.events + [t.events[|s.events|]] &&
          var e := t.events[|s.events|];
          if RecoveryEvent(e) then
            t.recovery.Some? && (t.recovery.value.status == Verified ==>
              t.recovery.value.verifiedBank.Some?
                  && e == RecoveryVerified(t.recovery.value.verifiedBank.value, t.recovery.value.recovered))
          else t.recovery == s.recovery || t.recovery.value.status != Verified)
  {
  }

  lemma TimelineStep(ctx: Context, s: CaseState, call: Call)
    requires StateOk(ctx, s) && Timeline(ctx, s)
    ensures Timeline(ctx, Apply(ctx, s, call))
  {
    var t := Apply(ctx, s, call);
    EntryOf(ctx, s, call);
    if t.events != s.events {
      var e := t.events[|s.events|];
      TimelineAppend(s.events, e);
      if e.CaseResolved? && e.code != FalsePositive && ctx.difference != 0 {
        ResolvedNeedsVerified(ctx, s, call, e.code);
      }
    }
  }

  // In every timeline the last recovery entry before a non-FALSE_POSITIVE resolution of a case with
  // exposure is a verification.
  lemma {:induction false} TimelineClosesLoop(ctx: Context, start: CaseState, calls: seq<Call>)
    requires IsStart(ctx, start)
    ensures Timeline(ctx, After(ctx, start, calls))
  {
    if calls != [] {
      var before := calls[..|calls| - 1];
      TimelineClosesLoop(ctx, start, before);
      EveryState(ctx, start, before);
      TimelineStep(ctx, After(ctx, start, before), calls[|calls| - 1]);
    } else {
      assert start.events == [CaseCreated];
    }
  }

  // Resolution does not freeze the recovery: afterwards it can be started again, so being RESOLVED
  // says nothing about the record's present status.
  lemma ResolvedCanRestart(ctx: Context, start: CaseState, calls: seq<Call>, action: string)
    requires IsStart(ctx, start) && After(ctx, start, calls).status == Resolved && Strip(action) != ""
    ensures var s := After(ctx, start, calls + [Initiate(None, action, None)]);
      s.status == Resolved && s.recovery.Some? && s.recovery.value.status == Initiated
  {
    EveryState(ctx, start, calls);
    assert (calls + [Initiate(None, action, None)])[..|calls|] == calls;
  }

  // ---------- when more is recovered than is recoverable ----------

  predicate Overshot(s: CaseState) { s.recovery.Some? && s.recovery.value.recovered > s.recovery.value.recoverable }

  // Call m initiates a recovery of less than what already stands.
  ghost predicate LowersAt(ctx: Context, start: CaseState, calls: seq<Call>, m: nat) {
    && m < |calls| && calls[m].Initiate? && ErrorOf(ctx, After(ctx, start, calls[..m]), calls[m]).None?
    && After(ctx, start, calls[..m]).recovery.Some?
    && var r := After(ctx, start, calls[..m]).recovery.value; InitiateAmount(calls[m].amount, r) < r.recovered
  }

  lemma OvershootStep(ctx: Context, s: CaseState, call: Call)
    requires StateOk(ctx, s) && Overshot(Apply(ctx, s, call))
    ensures Overshot(s) || (call.Initiate? && ErrorOf(ctx, s, call).None? && s.recovery.Some?
                            && InitiateAmount(call.amount, s.recovery.value) < s.recovery.value.recovered)
  {
  }

  // In any history the recovered amount exceeds the recoverable one only if some initiation lowered
  // the recoverable amount below what stood.
  lemma {:induction false} OvershootIsLowered(ctx: Context, start: CaseState, calls: seq<Call>, k: nat)
    requires IsStart(ctx, start) && k <= |calls| && Overshot(After(ctx, start, calls[..k]))
    ensures exists m: nat :: m < k && LowersAt(ctx, start, calls, m)
  {
    EveryState(ctx, start, calls[..k]);
    if k > 0 {
      AfterStep(ctx, start, calls, k - 1);
      EveryState(ctx, start, calls[..k - 1]);
      OvershootStep(ctx, After(ctx, start, calls[..k - 1]), calls[k - 1]);
      if Overshot(After(ctx, start, calls[..k - 1])) {
        OvershootIsLowered(ctx, start, calls, k - 1);
      } else {
        assert LowersAt(ctx, start, calls, k - 1);
      }
    }
  }
}
