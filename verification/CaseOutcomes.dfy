/** What each call on a case leads to, from the amounts, texts and statuses it is given: in every
    state a case can be in, and in both directions. */
module CaseOutcomes {
  import opened Prelude
  import opened Text
  import opened CaseRecovery
  import opened CaseTheorems

  // ---------- references ----------

  predicate OccursAt(text: string, part: string, k: nat) { k + |part| <= |text| && text[k..k + |part|] == part }

  ghost predicate Mentions(text: string, part: string) { exists k: nat :: OccursAt(text, part, k) }

  lemma OccursLater(text: string, part: string, k: nat)
    requires text != ""
    ensures OccursAt(text[1..], part, k) <==> OccursAt(text, part, k + 1)
  {
    if k + 1 + |part| <= |text| { assert text[1..][k..k + |part|] == text[k + 1..k + 1 + |part|]; }
  }

  lemma OccursFirst(text: string, part: string)
    ensures OccursAt(text, part, 0) <==> part <= text
  {
  }

  lemma {:induction false} ContainsIsMentions(text: string, part: string)
    ensures Contains(text, part) <==> Mentions(text, part)
  {
    OccursFirst(text, part);
    if text != "" {
      ContainsIsMentions(text[1..], part);
      if k: nat :| OccursAt(text[1..], part, k) { OccursLater(text, part, k); }
      if k: nat :| OccursAt(text, part, k) && k > 0 { OccursLater(text, part, k - 1); }
    }
  }

  // No reference was agreed, or the bank's texts mention it, whatever the case of the letters.
  ghost predicate Fits(reference: Option<string>, bank: BankCredit) {
    reference.None? || reference.value == "" ||
    Mentions(Lower(TextOf(bank.reference) + " " + TextOf(bank.rawReference)), Lower(reference.value))
  }

  // ---------- verification ----------

  // What a bank credit proves: nothing changes unless it is the merchant's and something is
  // recoverable; then less is a partial recovery of that much, more puts the recovery back to
  // initiated with nothing recovered, and the exact amount verifies it if the reference fits.
  lemma VerifyOutcome(ctx: Context, s: CaseState, bank: nat)
    requires StateOk(ctx, s)
    ensures var r, t := Ensured(ctx, s), Apply(ctx, s, Verify(bank));
      if bank !in ctx.banks || ctx.banks[bank].merchant != ctx.merchant || r.recoverable == 0 then t == s
      else
        var amount := ctx.banks[bank].amount;
        if amount < r.recoverable then
          t == s.(recovery := Some(r.(recovered := amount, status := PartiallyRecovered)))
        else if amount > r.recoverable then
          t == s.(recovery := Some(r.(recovered := 0, status := Initiated)))
        else if Fits(r.reference, ctx.banks[bank]) then
          t == s.(recovery := Some(r.(recovered := amount, verifiedBank := Some(bank), status := Verified)),
                  events := s.events + [RecoveryVerified(bank, amount)])
        else t == s
  {
    if bank in ctx.banks && TextOf(Ensured(ctx, s).reference) != "" {
      var b := ctx.banks[bank];
      ContainsIsMentions(Lower(TextOf(b.reference) + " " + TextOf(b.rawReference)),
          Lower(Ensured(ctx, s).reference.value));
    }
  }

  // The call succeeds in exactly one of these cases.
  lemma VerifiesExactly(ctx: Context, s: CaseState, bank: nat)
    requires StateOk(ctx, s)
    ensures var r := Ensured(ctx, s);
      ErrorOf(ctx, s, Verify(bank)).None? <==>
        bank in ctx.banks && ctx.banks[bank].merchant == ctx.merchant
        && ctx.banks[bank].amount == r.recoverable > 0 && Fits(r.reference, ctx.banks[bank])
  {
    if bank in ctx.banks && TextOf(Ensured(ctx, s).reference) != "" {
      var b := ctx.banks[bank];
      ContainsIsMentions(Lower(TextOf(b.reference) + " " + TextOf(b.rawReference)),
          Lower(Ensured(ctx, s).reference.value));
    }
  }

  // ---------- initiation and giving up ----------

  // An initiation for an amount, or for the whole exposure, takes effect exactly when the amount lies
  // within the exposure and an action is named.
  lemma InitiateOutcome(ctx: Context, s: CaseState, amount: Option<int>, action: string, reference: Option<string>)
    requires StateOk(ctx, s)
    ensures var call, r := Initiate(amount, action, reference), Ensured(ctx, s);
      var wanted, exposure := if amount.Some? then amount.value else Abs(ctx.difference), Abs(ctx.difference);
      var t := Apply(ctx, s, call);
      && (ErrorOf(ctx, s, call).None? <==> 0 <= wanted <= exposure && Strip(action) != "")
      && (ErrorOf(ctx, s, call).Some? ==> t == s)
      && (ErrorOf(ctx, s, call).None? ==>
            && t.events == s.events + [RecoveryInitiated(wanted)] && t.status == s.status && t.code == s.code
            && t.resolvedAt == s.resolvedAt && t.recovery.Some?
            && t.recovery.value.status == Initiated && t.recovery.value.recoverable == wanted
            && t.recovery.value.recovered == r.recovered && t.recovery.value.verifiedBank == r.verifiedBank
            && t.recovery.value.exposure == exposure
            && t.recovery.value.reference ==
                 if reference == None || reference == Some("") then None else Some(Strip(reference.value)))
  {
  }

  lemma GiveUpOutcome(ctx: Context, s: CaseState, note: string)
    requires StateOk(ctx, s)
    ensures var call, r := MarkUnrecoverable(note), Ensured(ctx, s);
      && (ErrorOf(ctx, s, call).None? <==> Strip(note) != "")
      && Apply(ctx, s, call) ==
           if Strip(note) == "" then s
           else s.(recovery := Some(r.(status := Unrecoverable)), events := s.events + [MarkedUnrecoverable])
  {
  }

  // ---------- moving the case ----------

  predicate KnownCode(text: string) {
    || text == "SETTLEMENT_POSTED" || text == "REFUND_PROCESSED" || text == "DUPLICATE_CONFIRMED"
    || text == "BANK_CORRECTION_REQUIRED" || text == "PROVIDER_INVESTIGATION_REQUIRED"
    || text == "FALSE_POSITIVE" || text == "OTHER"
  }

  // A case may be resolved as a false positive, when nothing was exposed, or once it is verified.
  predicate MayResolve(ctx: Context, s: CaseState, code: string) {
    Upper(code) == "FALSE_POSITIVE" || ctx.difference == 0 || (s.recovery.Some? && s.recovery.value.status == Verified)
  }

  // Which transitions are accepted, in any spelling of the letters.
  lemma MovesExactly(ctx: Context, s: CaseState, target: string, code: Option<string>, now: int)
    requires StateOk(ctx, s)
    ensures ErrorOf(ctx, s, Transition(target, code, now)).None? <==>
      || (Upper(target) == "IN_PROGRESS" && (s.status == Open || s.status == Reopened))
      || (Upper(target) == "REOPENED" && s.status == Resolved)
      || (Upper(target) == "RESOLVED" && s.status != Resolved
          && code.Some? && KnownCode(Upper(code.value)) && MayResolve(ctx, s, code.value))
  {
  }

  // And what an accepted one leaves; a refused one leaves everything.
  lemma MoveOutcome(ctx: Context, s: CaseState, target: string, code: Option<string>, now: int)
    requires StateOk(ctx, s)
    ensures var call := Transition(target, code, now);
      var t := Apply(ctx, s, call);
      && (ErrorOf(ctx, s, call).Some? ==> t == s)
      && (ErrorOf(ctx, s, call).None? ==>
            if Upper(target) == "RESOLVED" then
              && t.status == Resolved && t.resolvedAt == Some(now) && t.code.Some?
              && t.recovery == Some(Ensured(ctx, s)) && t.events == s.events + [CaseResolved(t.code.value)]
              && (t.code.value == FalsePositive <==> Upper(code.value) == "FALSE_POSITIVE")
            else if Upper(target) == "REOPENED" then
              t == s.(status := Reopened, resolvedAt := None, events := s.events + [CaseReopened])
            else
              t == s.(status := InProgress, events := s.events + [StatusChanged(s.status, InProgress)]))
  {
    MovesExactly(ctx, s, target, code, now);
  }

  // ---------- inputs worth knowing ----------

  // A recovery of 60 out of 100 stands; initiating 50 leaves 60 recovered of 50 recoverable.
  lemma LoweredBelowRecovered(bank: nat) returns (ctx: Context, calls: seq<Call>)
    ensures IsStart(ctx, CaseState(Open, None, None, None, [CaseCreated]))
    ensures Overshot(After(ctx, CaseState(Open, None, None, None, [CaseCreated]), calls))
  {
    var start := CaseState(Open, None, None, None, [CaseCreated]);
    ctx := Context(100, None, map[bank := BankCredit(None, 60, None, None)]);
    var partial, lower := Verify(bank), Initiate(Some(50), "x", None);
    calls := [partial, lower];
    assert [partial, lower][..1] == [partial] && [partial][..0] == [];
    assert After(ctx, start, [partial]).recovery == Some(Recovery(PartiallyRecovered, 100, 100, 60, None, None));
    OneLetter('x');
  }

  // A debit counts as a partial recovery of a negative amount.
  lemma DebitIsPartialRecovery(bank: nat) returns (ctx: Context, s: CaseState)
    ensures StateOk(ctx, s) && s.recovery.Some?
    ensures s.recovery.value.status == PartiallyRecovered && s.recovery.value.recovered < 0
  {
    var start := CaseState(Open, None, None, None, [CaseCreated]);
    ctx := Context(100, None, map[bank := BankCredit(None, -5, None, None)]);
    var calls := [Verify(bank)];
    s := After(ctx, start, calls);
    EveryState(ctx, start, calls);
    AfterStep(ctx, start, calls, 0);
    assert calls[..1] == calls && After(ctx, start, calls[..0]) == start;
  }
}
