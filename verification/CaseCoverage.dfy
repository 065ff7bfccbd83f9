/** Coverage read off the case table: which settlements, payouts and bank credits have a case in it
    after a run. A case is found by its fingerprint, so these say exactly when one is on file. */
module CaseCoverage {
  import opened Prelude
  import opened Text
  import opened Records
  import opened Matching
  import opened CaseStore
  import opened ReconciliationSpec
  import opened ReconciliationRuns
  import opened ReconciliationTheorems
  import opened ReconciliationCoverage

  ghost predicate OnFile(rows: seq<CaseRow>, d: Draft) { FromRun(FingerprintOf(d)) in Keys(rows) }

  // A run files exactly the fingerprints of its drafts.
  lemma FiledExactly(rows: seq<CaseRow>, year: int, ds: seq<Draft>, d: Draft)
    ensures OnFile(InsertAll(rows, year, ds), d) <==>
        OnFile(rows, d) || exists e :: e in ds && FingerprintOf(e) == FingerprintOf(d)
  {
    InsertAllKeys(rows, year, ds);
  }

  lemma OrphanOf(plan: Plan, i: Input, e: Draft)
    requires e in LeftoverDrafts(plan, i) && e.caseType == SettlementWithoutPayment
    ensures exists t :: e == OrphanSettlement(t)
  {
    var su, ru := SettlementsUsed(plan, i.payments), RefundsUsed(plan, i.payments);
    LeftoverMembers(plan, i, e);
    forall r ensures e !in RefundDrafts(ru, i, r) { }
    var t :| t in i.settlements && e in SettlementDrafts(su, i, t);
    assert e == OrphanSettlement(t);
  }

  lemma OrphanByFingerprint(plan: Plan, i: Input, s: Settlement, e: Draft)
    requires Typed(plan) && e in DraftsOf(plan, i) && FingerprintOf(e) == FingerprintOf(OrphanSettlement(s))
    ensures e == OrphanSettlement(s)
  {
    LeftoverOnly(plan, i, e);
    OrphanOf(plan, i, e);
    var t :| e == OrphanSettlement(t);
    SameOrphan(s, t);
  }

  lemma SameOrphan(s: Settlement, t: Settlement)
    requires FingerprintOf(OrphanSettlement(s)) == FingerprintOf(OrphanSettlement(t))
    ensures OrphanSettlement(s) == OrphanSettlement(t)
  {
  }

  // A settlement's SETTLEMENT_WITHOUT_PAYMENT case is filed by a run if and only if no payment
  // matched the settlement and none explains it.
  lemma SettlementCaseExactly(rules: Rules, i: Input, rows: seq<CaseRow>, year: int, s: Settlement)
    requires s in i.settlements && DistinctSettlements(i.settlements) && !OnFile(rows, OrphanSettlement(s))
    ensures OnFile(InsertAll(rows, year, Drafts(rules, i)), OrphanSettlement(s)) <==>
            s.id !in SettlementsUsed(PlanFor(rules, i), i.payments)
                && !Explained(i, s.paymentId, s.provider, s.providerPaymentId)
  {
    var plan := PlanFor(rules, i);
    PlanTypes(rules, i);
    SettlementCoverage(rules, i, s);
    FiledExactly(rows, year, DraftsOf(plan, i), OrphanSettlement(s));
    forall e | e in DraftsOf(plan, i) && FingerprintOf(e) == FingerprintOf(OrphanSettlement(s))
      ensures e == OrphanSettlement(s)
    {
      OrphanByFingerprint(plan, i, s, e);
    }
  }

  lemma CreditByFingerprint(plan: Plan, i: Input, b: Bank, e: Draft)
    requires Typed(plan) && e in DraftsOf(plan, i) && FingerprintOf(e) == FingerprintOf(LooseCredit(b))
    ensures e == LooseCredit(b)
  {
    BankLegOnly(plan, i, e);
    BankLegMembers(plan, i, e);
  }

  // A positive bank credit's BANK_WITHOUT_SETTLEMENT case is filed if and only if the credit is
  // nobody's sole candidate.
  lemma CreditCaseExactly(rules: Rules, i: Input, rows: seq<CaseRow>, year: int, b: Bank)
    requires DistinctBanks(i.banks) && b in i.banks && b.amount > 0 && !OnFile(rows, LooseCredit(b))
    ensures OnFile(InsertAll(rows, year, Drafts(rules, i)), LooseCredit(b)) <==> !SoleCandidate(rules, i, b)
  {
    var plan := PlanFor(rules, i);
    PlanTypes(rules, i);
    CreditCoverage(rules, i, b);
    FiledExactly(rows, year, DraftsOf(plan, i), LooseCredit(b));
    forall e | e in DraftsOf(plan, i) && FingerprintOf(e) == FingerprintOf(LooseCredit(b)) ensures e == LooseCredit(b) {
      CreditByFingerprint(plan, i, b, e);
    }
  }

  // ---------- payouts ----------

  ghost predicate MismatchFiled(rows: seq<CaseRow>, s: Settlement) {
    exists r :: r in rows && r.Opened? && r.draft.caseType == BankSettlementMismatch
        && r.draft.matchedRecord == Some(s.id)
  }

  ghost predicate AmbiguityFiled(rows: seq<CaseRow>, s: Settlement) {
    FiledFor(rows, BankAmbiguousMatch, SettlementRef(s.id))
  }

  lemma MismatchFiledIsReported(rows: seq<CaseRow>, year: int, ds: seq<Draft>, s: Settlement)
    requires !MismatchFiled(rows, s)
    ensures MismatchFiled(InsertAll(rows, year, ds), s) <==> MismatchReported(ds, s)
  {
    var after := InsertAll(rows, year, ds);
    if MismatchFiled(after, s) {
      var r :| r in after && r.Opened?
               && r.draft.caseType == BankSettlementMismatch && r.draft.matchedRecord == Some(s.id);
      RowsComeFrom(rows, year, ds, r);
    }
    if d :| d in ds && d.caseType == BankSettlementMismatch && d.matchedRecord == Some(s.id) {
      DraftHasRow(rows, year, ds, d);
    }
  }

  // An in-scope settlement gets a BANK_SETTLEMENT_MISMATCH case if and only if it has one candidate
  // bank row and disagrees with it.
  lemma MismatchCaseExactly(rules: Rules, i: Input, rows: seq<CaseRow>, year: int, s: Settlement)
    requires s in i.settlements && DistinctSettlements(i.settlements) && InScope(i, s) && !MismatchFiled(rows, s)
    ensures var c := BankCandidates(rules, i, s);
      MismatchFiled(InsertAll(rows, year, Drafts(rules, i)), s) <==> |c| == 1 && !BankAgrees(s, c[0])
  {
    BankOutcome(rules, i, s);
    MismatchFiledIsReported(rows, year, Drafts(rules, i), s);
  }

  // ---------- ambiguous payouts: settlements of one payment may share a case ----------

  predicate Doubtful(plan: Plan, i: Input, s: Settlement) { InScope(i, s) && |plan.candidates(s)| > 1 }

  function DoubtDraft(plan: Plan, i: Input, s: Settlement): Draft
    requires Doubtful(plan, i, s)
  {
    AmbiguousPayout(i, s, plan.candidates(s)[0])
  }

  function Outcomes(plan: Plan, i: Input): Settlement -> seq<Draft> {
    (s: Settlement) => BankDrafts(i, s, plan.candidates(s))
  }

  lemma RunAroundPayouts(plan: Plan, i: Input)
    ensures DraftsOf(plan, i) ==
      MatchingDrafts(plan, i) + LeftoverDrafts(plan, i) + FlatMap(Outcomes(plan, i), i.settlements)
      + CreditPass(BanksUsed(plan, i, i.settlements), i.banks)
  {
    SameMap(Outcomes(plan, i), (s: Settlement) => BankDrafts(i, s, plan.candidates(s)), i.settlements);
    RegroupTwo(MatchingDrafts(plan, i) + LeftoverDrafts(plan, i), BankPass(plan, i, i.settlements),
               CreditPass(BanksUsed(plan, i, i.settlements), i.banks));
  }

  lemma NotEarlier(plan: Plan, i: Input, d: Draft)
    requires Typed(plan) && d.caseType == BankAmbiguousMatch
    ensures d !in MatchingDrafts(plan, i) && d !in LeftoverDrafts(plan, i)
  {
    NotInPass(plan, i, d);
    NotDuplicate(i, d);
    NotLeftover(plan, i, d);
  }

  lemma NotCredit(used: set<nat>, banks: seq<Bank>, d: Draft)
    requires d.caseType == BankAmbiguousMatch
    ensures d !in CreditPass(used, banks)
  {
    FlatMapMember((b: Bank) => CreditDrafts(used, b), banks, d);
  }

  lemma OnlyPayouts(plan: Plan, i: Input, k: nat)
    requires Typed(plan) && DistinctSettlements(i.settlements)
    requires k < |i.settlements| && Doubtful(plan, i, i.settlements[k])
    ensures OnlyPass(MatchingDrafts(plan, i) + LeftoverDrafts(plan, i), Outcomes(plan, i), i.settlements,
                     CreditPass(BanksUsed(plan, i, i.settlements), i.banks),
                     BankAmbiguousMatch, k, DoubtDraft(plan, i, i.settlements[k]))
  {
    var pre := MatchingDrafts(plan, i) + LeftoverDrafts(plan, i);
    var post := CreditPass(BanksUsed(plan, i, i.settlements), i.banks);
    forall e | e in pre || e in post ensures e.caseType != BankAmbiguousMatch {
      if e.caseType == BankAmbiguousMatch {
        NotEarlier(plan, i, e);
        NotCredit(BanksUsed(plan, i, i.settlements), i.banks, e);
      }
    }
  }

  // An earlier doubtful settlement of the same known payment, with the same net amount and the same
  // first candidate: its case has the fingerprint this one's would have.
  ghost predicate Shares(plan: Plan, i: Input, m: nat, k: nat)
    requires k < |i.settlements| && Doubtful(plan, i, i.settlements[k])
  {
    && m < k && Doubtful(plan, i, i.settlements[m])
    && var s, t := i.settlements[m], i.settlements[k];
       && PaymentById(i, t.paymentId).Some? && IdOf(PaymentById(i, s.paymentId)) == IdOf(PaymentById(i, t.paymentId))
       && s.net == t.net && plan.candidates(s)[0].id == plan.candidates(t)[0].id
  }

  lemma SharesIsFingerprint(plan: Plan, i: Input, m: nat, k: nat)
    requires m < k < |i.settlements| && DistinctSettlements(i.settlements)
    requires Doubtful(plan, i, i.settlements[m]) && Doubtful(plan, i, i.settlements[k])
    ensures FingerprintOf(DoubtDraft(plan, i, i.settlements[m])) == FingerprintOf(DoubtDraft(plan, i, i.settlements[k]))
            <==> Shares(plan, i, m, k)
  {
  }

  lemma ReportedIsShared(plan: Plan, i: Input, k: nat)
    requires k < |i.settlements| && Doubtful(plan, i, i.settlements[k]) && DistinctSettlements(i.settlements)
    ensures ReportedBefore(Outcomes(plan, i), i.settlements, k, DoubtDraft(plan, i, i.settlements[k]))
            <==> exists m :: Shares(plan, i, m, k)
  {
    var f, d := Outcomes(plan, i), DoubtDraft(plan, i, i.settlements[k]);
    if m: nat :| Shares(plan, i, m, k) {
      var e := DoubtDraft(plan, i, i.settlements[m]);
      SharesIsFingerprint(plan, i, m, k);
      assert f(i.settlements[m]) == [e];
      assert e in f(i.settlements[m]);
    }
    if ReportedBefore(f, i.settlements, k, d) {
      var j, e :| 0 <= j < k && e in f(i.settlements[j]) && FingerprintOf(e) == FingerprintOf(d);
      SharesIsFingerprint(plan, i, j, k);
    }
  }

  // From any table in which settlement k has no BANK_AMBIGUOUS_MATCH case of its own: the run gives it
  // one if and only if its fingerprint is not on file and no earlier settlement of the run shares it.
  lemma AmbiguousCaseExactlyFirst(rules: Rules, i: Input, rows: seq<CaseRow>, year: int, k: nat)
    requires DistinctSettlements(i.settlements) && k < |i.settlements|
    requires Doubtful(PlanFor(rules, i), i, i.settlements[k])
    requires !AmbiguityFiled(rows, i.settlements[k])
    ensures var d := DoubtDraft(PlanFor(rules, i), i, i.settlements[k]);
      AmbiguityFiled(InsertAll(rows, year, Drafts(rules, i)), i.settlements[k])
      <==> !OnFile(rows, d) && forall m :: !Shares(PlanFor(rules, i), i, m, k)
  {
    var plan := PlanFor(rules, i);
    PlanTypes(rules, i);
    RunAroundPayouts(plan, i);
    OnlyPayouts(plan, i, k);
    OwnCaseExactly(rows, year, MatchingDrafts(plan, i) + LeftoverDrafts(plan, i), Outcomes(plan, i), i.settlements,
                   CreditPass(BanksUsed(plan, i, i.settlements), i.banks), BankAmbiguousMatch, k,
                       DoubtDraft(plan, i, i.settlements[k]));
    ReportedIsShared(plan, i, k);
  }

  // A settlement without several candidates gets no such case.
  lemma AmbiguityNeedsSeveral(rules: Rules, i: Input, rows: seq<CaseRow>, year: int, s: Settlement)
    requires s in i.settlements && DistinctSettlements(i.settlements) && InScope(i, s) && !AmbiguityFiled(rows, s)
    requires AmbiguityFiled(InsertAll(rows, year, Drafts(rules, i)), s)
    ensures |BankCandidates(rules, i, s)| > 1
  {
    BankOutcome(rules, i, s);
    var r :| r in InsertAll(rows, year, Drafts(rules, i)) && r.Opened?
             && r.draft.caseType == BankAmbiguousMatch && r.draft.record == SettlementRef(s.id);
    RowsComeFrom(rows, year, Drafts(rules, i), r);
  }

  // The smallest instance: two settlements of one payment, equal in net amount, and two bank rows
  // that fit both.
  function EqualPayouts(): Input {
    var p := Payment(1, "razorpay", "pay_1", None, None, 200, "INR", "captured", 0, false, map[]);
    var s := Settlement(1, "razorpay", "setl_1", "pay_1", Some(1), None, 100, 0, 0, 100, 0, "settled", 0, None, map[]);
    var b := Bank(1, None, None, None, 100, "INR", 0, map[]);
    Input([p], [p], [], [s, s.(id := 2, settlementRef := "setl_2")], [b, b.(id := 2)], None)
  }

  lemma BothFit(rules: Rules, s: Settlement)
    requires s in EqualPayouts().settlements
    ensures BankCandidates(rules, EqualPayouts(), s) == EqualPayouts().banks
  {
    var i := EqualPayouts();
    NoneReferred(i, s);
    forall b | b in i.banks ensures FitsPayout(rules, s)(b) && WithCurrency(SettlementCurrency(s))(b) {
      RowFits(rules, s, b);
    }
    FilterAll(WithCurrency(SettlementCurrency(s)), i.banks);
    FilterAll(FitsPayout(rules, s), i.banks);
  }

  lemma RowFits(rules: Rules, s: Settlement, b: Bank)
    requires s in EqualPayouts().settlements && b in EqualPayouts().banks
    ensures Upper(b.currency) == SettlementCurrency(s) && PayoutFits(rules, s, b)
  {
    assert SettlementCurrency(s) == Upper("INR");
    assert b.timestamp == s.settledAt && b.amount == s.net;
  }

  lemma NotReferred(s: Settlement, b: Bank)
    requires b.reference.None? && b.meta == map[]
    ensures !Refers(s, b)
  {
    assert BankRefs(b) == {};
    assert BankUtr(b) == None;
  }

  lemma NoneReferred(i: Input, s: Settlement)
    requires i == EqualPayouts() && s in i.settlements
    ensures RefCandidates(i, s) == []
  {
    assert DistinctBanks(i.banks);
    ReferredIsPlainScan(i, s);
    forall b | b in i.banks ensures !Refers(s, b) { NotReferred(s, b); }
    HasMember(RefCandidates(i, s));
  }

  lemma BothDoubtful(rules: Rules, i: Input, plan: Plan)
    requires i == EqualPayouts() && plan == PlanFor(rules, i)
    ensures Doubtful(plan, i, i.settlements[0]) && Doubtful(plan, i, i.settlements[1]) && Shares(plan, i, 0, 1)
  {
    BothFit(rules, i.settlements[0]);
    BothFit(rules, i.settlements[1]);
    assert PaymentById(i, Some(1)) == Some(i.payments[0]);
  }

  // Both payouts are ambiguous, and only the first one has a case.
  lemma EqualPayoutsShareACase(rules: Rules, year: int)
    ensures var i, plan := EqualPayouts(), PlanFor(rules, EqualPayouts());
      var after := InsertAll([], year, Drafts(rules, i));
      && Doubtful(plan, i, i.settlements[0]) && Doubtful(plan, i, i.settlements[1])
      && AmbiguityFiled(after, i.settlements[0]) && !AmbiguityFiled(after, i.settlements[1])
  {
    var i := EqualPayouts();
    BothDoubtful(rules, i, PlanFor(rules, i));
    AmbiguousCaseExactlyFirst(rules, i, [], year, 0);
    AmbiguousCaseExactlyFirst(rules, i, [], year, 1);
  }
}
