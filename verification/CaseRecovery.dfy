/** A case, its recovery record and its timeline. The class runs each service call step by step;
    `Apply` says what one call does to the whole state, and the theorems speak of any sequence of
    calls. A call that raises leaves nothing behind, except a verification against the wrong amount,
    which commits what it found before raising. */
module CaseRecovery {
  import opened Prelude
  import opened Text

  datatype CaseStatus = Open | InProgress | Resolved | Reopened

  datatype ResolutionCode =
    | SettlementPosted | RefundProcessed | DuplicateConfirmed | BankCorrectionRequired
    | ProviderInvestigationRequired | FalsePositive | OtherCode

  datatype RecoveryStatus = Identified | NotRequired | Initiated | PartiallyRecovered | Verified | Unrecoverable

  datatype Recovery = Recovery(
    status: RecoveryStatus, exposure: int, recoverable: int, recovered: int,
    reference: Option<string>, verifiedBank: Option<nat>)

  datatype BankCredit = BankCredit(merchant: Option<string>, amount: int, reference: Option<string>,
      rawReference: Option<string>)

  datatype CaseEvent =
    | CaseCreated
    | RecoveryInitiated(amount: int)
    | RecoveryVerified(bank: nat, amount: int)
    | MarkedUnrecoverable
    | StatusChanged(from: CaseStatus, to: CaseStatus)
    | CaseResolved(code: ResolutionCode)
    | CaseReopened
    | Noted // assignment, note or attached exception

  datatype CaseError =
    | BadAmount | MissingAction | NoBank | NothingRecoverable | PartialProof | AmountMismatch | ReferenceMismatch
    | MissingReason | BadStatus | BadTransition | MissingCode | BadCode | RecoveryNotVerified

  // What never changes during a case's life.
  datatype Context = Context(difference: int, merchant: Option<string>, banks: map<nat, BankCredit>)

  datatype CaseState = CaseState(
    status: CaseStatus, code: Option<ResolutionCode>, resolvedAt: Option<int>, recovery: Option<Recovery>,
    events: seq<CaseEvent>)

  function ValidTransitions(from: CaseStatus): set<CaseStatus> {
    match from
    case Open => {InProgress, Resolved}
    case InProgress => {Resolved}
    case Resolved => {Reopened}
    case Reopened => {InProgress, Resolved}
  }

  function ParseStatus(text: string): Option<CaseStatus> {
    var t := Upper(text);
    if t == "OPEN" then Some(Open)
    else if t == "IN_PROGRESS" then Some(InProgress)
    else if t == "RESOLVED" then Some(Resolved)
    else if t == "REOPENED" then Some(Reopened)
    else None
  }

  function ParseCode(text: string): Option<ResolutionCode> {
    var t := Upper(text);
    if t == "SETTLEMENT_POSTED" then Some(SettlementPosted)
    else if t == "REFUND_PROCESSED" then Some(RefundProcessed)
    else if t == "DUPLICATE_CONFIRMED" then Some(DuplicateConfirmed)
    else if t == "BANK_CORRECTION_REQUIRED" then Some(BankCorrectionRequired)
    else if t == "PROVIDER_INVESTIGATION_REQUIRED" then Some(ProviderInvestigationRequired)
    else if t == "FALSE_POSITIVE" then Some(FalsePositive)
    else if t == "OTHER" then Some(OtherCode)
    else None
  }

  predicate Contains(text: string, part: string) {
    part <= text || (text != "" && Contains(text[1..], part))
  }

  function TextOf(t: Option<string>): string { if t.Some? then t.value else "" }

  predicate ReferenceFits(reference: Option<string>, bank: BankCredit) {
    TextOf(reference) != "" ==>
        Contains(Lower(TextOf(bank.reference) + " " + TextOf(bank.rawReference)), Lower(reference.value))
  }

  function FreshRecovery(difference: int): Recovery {
    var exposure := Abs(difference);
    Recovery(if exposure > 0 then Identified else NotRequired, exposure, exposure, 0, None, None)
  }

  function Ensured(ctx: Context, s: CaseState): Recovery {
    if s.recovery.Some? then s.recovery.value else FreshRecovery(ctx.difference)
  }

  // ---------- one call ----------

  datatype Call =
    | EnsureRecovery
    | Initiate(amount: Option<int>, action: string, reference: Option<string>)
    | Verify(bank: nat)
    | MarkUnrecoverable(note: string)
    | Transition(target: string, code: Option<string>, now: int)
    | Annotate

  function InitiateAmount(amount: Option<int>, r: Recovery): int { if amount.Some? then amount.value else r.exposure }

  function InitiateError(r: Recovery, amount: Option<int>, action: string): Option<CaseError> {
    var a := InitiateAmount(amount, r);
    if a < 0 || a > r.exposure then Some(BadAmount)
    else if Strip(action) == "" then Some(MissingAction)
    else None
  }

  function Stripped(t: Option<string>): Option<string> { if TextOf(t) == "" then None else Some(Strip(t.value)) }

  function AfterInitiate(s: CaseState, r: Recovery, amount: Option<int>, reference: Option<string>): CaseState {
    var a := InitiateAmount(amount, r);
    s.(recovery := Some(r.(recoverable := a, reference := Stripped(reference), status := Initiated)),
       events := s.events + [RecoveryInitiated(a)])
  }

  predicate BankVisible(ctx: Context, id: nat) { id in ctx.banks && ctx.banks[id].merchant == ctx.merchant }

  function VerifyError(ctx: Context, r: Recovery, id: nat): Option<CaseError> {
    if !BankVisible(ctx, id) then Some(NoBank)
    else if r.recoverable <= 0 then Some(NothingRecoverable)
    else if ctx.banks[id].amount < r.recoverable then Some(PartialProof)
    else if ctx.banks[id].amount > r.recoverable then Some(AmountMismatch)
    else if !ReferenceFits(r.reference, ctx.banks[id]) then Some(ReferenceMismatch)
    else None
  }

  function AfterVerify(ctx: Context, s: CaseState, r: Recovery, id: nat): CaseState {
    match VerifyError(ctx, r, id)
    case None =>
      var amount := ctx.banks[id].amount;
      s.(recovery := Some(r.(recovered := amount, verifiedBank := Some(id), status := Verified)),
         events := s.events + [RecoveryVerified(id, amount)])
    case Some(PartialProof) => s.(recovery := Some(r.(recovered := ctx.banks[id].amount, status := PartiallyRecovered)))
    case Some(AmountMismatch) => s.(recovery := Some(r.(recovered := 0, status := Initiated)))
    case Some(_) => s
  }

  function TransitionError(s: CaseState, r: Recovery, target: string, code: Option<string>): Option<CaseError> {
    var to := ParseStatus(target);
    if to.None? then Some(BadStatus)
    else if to.value !in ValidTransitions(s.status) then Some(BadTransition)
    else if to.value != Resolved then None
    else if TextOf(code) == "" then Some(MissingCode)
    else if ParseCode(code.value).None? then Some(BadCode)
    else if ParseCode(code.value).value != FalsePositive && r.exposure > 0 && r.status != Verified
        then Some(RecoveryNotVerified)
    else None
  }

  function AfterTransition(s: CaseState, r: Recovery, target: string, code: Option<string>, now: int): CaseState
    requires TransitionError(s, r, target, code).None?
  {
    var to := ParseStatus(target).value;
    match to
    case Resolved =>
      var c := ParseCode(code.value).value;
      s.(status := Resolved, code := Some(c), resolvedAt := Some(now), recovery := Some(r),
         events := s.events + [CaseResolved(c)])
    case Reopened => s.(status := Reopened, resolvedAt := None, events := s.events + [CaseReopened])
    case _ => s.(status := to, events := s.events + [StatusChanged(s.status, to)])
  }

  function ErrorOf(ctx: Context, s: CaseState, call: Call): Option<CaseError> {
    var r := Ensured(ctx, s);
    match call
    case Initiate(amount, action, _) => InitiateError(r, amount, action)
    case Verify(bank) => VerifyError(ctx, r, bank)
    case MarkUnrecoverable(note) => if Strip(note) == "" then Some(MissingReason) else None
    case Transition(target, code, _) => TransitionError(s, r, target, code)
    case _ => None
  }

  function Apply(ctx: Context, s: CaseState, call: Call): CaseState {
    var r := Ensured(ctx, s);
    match call
    case EnsureRecovery => s.(recovery := Some(r))
    case Initiate(amount, action, reference) =>
      if InitiateError(r, amount, action).Some? then s else AfterInitiate(s, r, amount, reference)
    case Verify(bank) => AfterVerify(ctx, s, r, bank)
    case MarkUnrecoverable(note) =>
      if Strip(note) == "" then s
      else s.(recovery := Some(r.(status := Unrecoverable)), events := s.events + [MarkedUnrecoverable])
    case Transition(target, code, now) =>
      if TransitionError(s, r, target, code).Some? then s else AfterTransition(s, r, target, code, now)
    case Annotate => s.(events := s.events + [Noted])
  }

  class CaseFile {
    const ctx: Context
    var status: CaseStatus
    var code: Option<ResolutionCode>
    var resolvedAt: Option<int>
    var recovery: Option<Recovery>
    var events: seq<CaseEvent>

    function State(): CaseState
      reads this
    {
      CaseState(status, code, resolvedAt, recovery, events)
    }

    constructor (ctx: Context)
      ensures this.ctx == ctx && State() == CaseState(Open, None, None, None, [CaseCreated])
    {
      this.ctx := ctx;
      status, code, resolvedAt, recovery, events := Open, None, None, None, [CaseCreated];
    }

    method EnsureRecovery() returns (r: Recovery)
      modifies this`recovery
      ensures r == Ensured(ctx, old(State())) && State() == Apply(ctx, old(State()), Call.EnsureRecovery)
    {
      if recovery.Some? { return recovery.value; }
      var exposure := Abs(ctx.difference);
      r := Recovery(if exposure > 0 then Identified else NotRequired, exposure, exposure, 0, None, None);
      recovery := Some(r);
    }

    method InitiateRecovery(amount: Option<int>, action: string, reference: Option<string>)
        returns (error: Option<CaseError>)
      modifies this
      ensures error == ErrorOf(ctx, old(State()), Initiate(amount, action, reference))
      ensures State() == Apply(ctx, old(State()), Initiate(amount, action, reference))
    {
      var before := recovery;
      var r := EnsureRecovery();
      var a := if amount.Some? then amount.value else r.exposure;
      if a < 0 || a > r.exposure { recovery := before; return Some(BadAmount); }
      if Strip(action) == "" { recovery := before; return Some(MissingAction); }
      r := r.(recoverable := a);
      r := r.(reference := if TextOf(reference) != "" then Some(Strip(reference.value)) else None);
      r := r.(status := Initiated);
      recovery := Some(r);
      events := events + [RecoveryInitiated(a)];
      return None;
    }

    method VerifyRecovery(bankId: nat) returns (error: Option<CaseError>)
      modifies this
      ensures error == ErrorOf(ctx, old(State()), Verify(bankId))
      ensures State() == Apply(ctx, old(State()), Verify(bankId))
    {
      var before := recovery;
      var r := EnsureRecovery();
      if !(bankId in ctx.banks && ctx.banks[bankId].merchant == ctx.merchant) {
        recovery := before;
        return Some(NoBank);
      }
      var bank := ctx.banks[bankId];
      var recovered, required := bank.amount, r.recoverable;
      if required <= 0 { recovery := before; return Some(NothingRecoverable); }
      if recovered != required {
        r := r.(recovered := if recovered < required then recovered else 0);
        r := r.(status := if recovered < required then PartiallyRecovered else Initiated);
        recovery := Some(r); // committed before the error is raised
        return Some(if recovered < required then PartialProof else AmountMismatch);
      }
      if TextOf(r.reference) != ""
          && !Contains(Lower(TextOf(bank.reference) + " " + TextOf(bank.rawReference)), Lower(r.reference.value)) {
        recovery := before;
        return Some(ReferenceMismatch);
      }
      r := r.(recovered := recovered);
      r := r.(verifiedBank := Some(bankId));
      r := r.(status := Verified);
      recovery := Some(r);
      events := events + [RecoveryVerified(bankId, recovered)];
      return None;
    }

    method MarkUnrecoverable(note: string) returns (error: Option<CaseError>)
      modifies this
      ensures error == ErrorOf(ctx, old(State()), Call.MarkUnrecoverable(note))
      ensures State() == Apply(ctx, old(State()), Call.MarkUnrecoverable(note))
    {
      var before := recovery;
      var r := EnsureRecovery();
      if Strip(note) == "" { recovery := before; return Some(MissingReason); }
      recovery := Some(r.(status := Unrecoverable));
      events := events + [MarkedUnrecoverable];
      return None;
    }

    method Transition(target: string, resolution: Option<string>, now: int) returns (error: Option<CaseError>)
      modifies this
      ensures error == ErrorOf(ctx, old(State()), Call.Transition(target, resolution, now))
      ensures State() == Apply(ctx, old(State()), Call.Transition(target, resolution, now))
    {
      var to := ParseStatus(target);
      if to.None? { return Some(BadStatus); }
      if to.value !in ValidTransitions(status) { return Some(BadTransition); }
      if to.value == Resolved {
        if TextOf(resolution) == "" { return Some(MissingCode); }
        var c := ParseCode(resolution.value);
        if c.None? { return Some(BadCode); }
        var before := recovery;
        var r := EnsureRecovery();
        if c.value != FalsePositive && r.exposure > 0 && r.status != Verified {
          recovery := before;
          return Some(RecoveryNotVerified);
        }
        code := c;
        resolvedAt := Some(now);
        events := events + [CaseResolved(c.value)];
      } else if to.value == Reopened {
        resolvedAt := None;
        events := events + [CaseReopened];
      } else {
        events := events + [StatusChanged(status, to.value)];
      }
      status := to.value;
      return None;
    }
  }
}
