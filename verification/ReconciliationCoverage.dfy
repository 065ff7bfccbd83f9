/** Accounting of a run's counters, and what becomes of every settlement, refund and bank credit. */
module ReconciliationCoverage {
  import opened Prelude
  import opened Text
  import opened Records
  import opened Matching
  import opened Matcher
  import opened CaseStore
  import opened ReconciliationSpec
  import opened ReconciliationRuns
  import opened ReconciliationTheorems

  // ---------- accounting ----------

  // What the unmatched and ambiguous counters gain from a list of drafts.
  function Open(ds: seq<Draft>): nat { Tally(ds).unmatched + Tally(ds).ambiguous }

  lemma {:induction false} OpenAppend(a: seq<Draft>, b: seq<Draft>)
    ensures Open(a + b) == Open(a) + Open(b)
  {
    if b == [] {
      assert a + b == a;
    } else {
      assert (a + b)[..|a + b| - 1] == a + b[..|b| - 1];
      OpenAppend(a, b[..|b| - 1]);
    }
  }

  predicate Counts(t: CaseType) { t == MissingRefund || t == PaymentWithoutSettlement || t == AmbiguousMatch }

  lemma {:induction false} OpenQuiet(ds: seq<Draft>)
    requires forall d :: d in ds ==> !Counts(d.caseType)
    ensures Open(ds) == 0
  {
    if ds != [] {
      OpenQuiet(ds[..|ds| - 1]);
      assert ds[|ds| - 1] in ds;
    }
  }

  // Payments flagged expected_refund for which no refund was ingested.
  ghost function Missing(i: Input): Payment -> bool { (p: Payment) => p.expectedRefund && RefundsOf(i, p) == [] }

  lemma OpenFour(a: seq<Draft>, b: seq<Draft>, c: seq<Draft>, d: seq<Draft>)
    ensures Open(a + b + c + d) == Open(a) + Open(b) + Open(c) + Open(d)
  {
    OpenAppend(a + b + c, d);
    OpenAppend(a + b, c);
    OpenAppend(a, b);
  }

  lemma OwnOpen(i: Input, p: Payment)
    ensures Open(OwnDrafts(i, p)) == if Missing(i)(p) then 1 else 0
  {
    var a, b, c, d := OrderDrafts(i, p), StatusDrafts(p), RefundDuplicates(i, p), MissingRefundDrafts(i, p);
    RefundGroupTypes(p, DuplicateGroups(RefundKeyOf, RefundsOf(i, p)));
    OpenFour(a, b, c, d);
    OpenQuiet(a);
    OpenQuiet(b);
    OpenQuiet(c);
    assert d != [] ==> d[..0] == [];
  }

  lemma OpenOne(d: Draft)
    ensures Open([d]) == if Counts(d.caseType) then 1 else 0
  {
    assert [] + [d] == [d];
    TallyStep([], d);
  }

  lemma MatchOpen(rules: Rules, i: Input, p: Payment)
    ensures Open(MatchDrafts(rules, i, p)) == if MatchOf(rules, i, p).Some? then 0 else 1
  {
    MatchTypes(rules, i, p);
    var ds := MatchDrafts(rules, i, p);
    if MatchOf(rules, i, p).Some? { OpenQuiet(ds); } else { OpenOne(Unpaired(p, Scan(rules, p, i.settlements))); }
  }

  ghost predicate Accounted(plan: Plan, i: Input) {
    forall p :: Open(plan.own(p)) + Open(plan.matching(p)) == (if Missing(i)(p) then 1 else 0)
        + if plan.match'(p).Some? then 0 else 1
  }

  lemma {:induction false} PaymentsAccounted(plan: Plan, i: Input, ps: seq<Payment>)
    requires Accounted(plan, i)
    ensures |Filter(HasMatch(plan), ps)| + Open(PaymentPass(plan, ps)) == |ps| + |Filter(Missing(i), ps)|
  {
    if ps != [] {
      var n := |ps| - 1;
      PaymentsAccounted(plan, i, ps[..n]);
      assert ps[..n + 1] == ps;
      PaymentPassStep(plan, ps, n);
      FilterStep(HasMatch(plan), ps, n);
      FilterStep(Missing(i), ps, n);
      OpenAppend(PaymentPass(plan, ps[..n]), plan.own(ps[n]) + plan.matching(ps[n]));
      OpenAppend(plan.own(ps[n]), plan.matching(ps[n]));
    }
  }

  lemma PlanAccounted(rules: Rules, i: Input)
    ensures Accounted(PlanFor(rules, i), i)
  {
    var plan := PlanFor(rules, i);
    forall p
      ensures Open(plan.own(p)) + Open(plan.matching(p)) == (if Missing(i)(p) then 1 else 0)
              + if plan.match'(p).Some? then 0 else 1
    {
      OwnOpen(i, p);
      MatchOpen(rules, i, p);
    }
  }

  lemma DuplicatesQuiet(i: Input)
    ensures Open(DuplicateSettlementDrafts(DuplicateGroups(SettlementKeyOf, i.settlements))) == 0
  {
    SettlementGroupTypes(DuplicateGroups(SettlementKeyOf, i.settlements));
    OpenQuiet(DuplicateSettlementDrafts(DuplicateGroups(SettlementKeyOf, i.settlements)));
  }

  lemma LeftoversQuiet(plan: Plan, i: Input)
    ensures Open(LeftoverDrafts(plan, i)) == 0
  {
    forall d | d in LeftoverDrafts(plan, i) ensures !Counts(d.caseType) { LeftoverTypes(plan, i, d); }
    OpenQuiet(LeftoverDrafts(plan, i));
  }

  lemma BankLegQuiet(plan: Plan, i: Input)
    ensures Open(BankLegDrafts(plan, i)) == 0
  {
    forall d | d in BankLegDrafts(plan, i) ensures !Counts(d.caseType) { BankLegTypes(plan, i, d); }
    OpenQuiet(BankLegDrafts(plan, i));
  }

  lemma OpenOfRun(plan: Plan, i: Input)
    ensures Open(DraftsOf(plan, i)) == Open(PaymentPass(plan, i.payments))
  {
    DuplicatesQuiet(i);
    LeftoversQuiet(plan, i);
    BankLegQuiet(plan, i);
    OpenFour(DuplicateSettlementDrafts(DuplicateGroups(SettlementKeyOf, i.settlements)), PaymentPass(plan, i.payments),
             LeftoverDrafts(plan, i), BankLegDrafts(plan, i));
  }

  // matched + ambiguous + unmatched = payments + payments still waiting for an expected refund.
  lemma RunAccounting(rules: Rules, i: Input)
    ensures var stats := Tally(Drafts(rules, i));
      |Filter(HasMatch(PlanFor(rules, i)), i.payments)| + stats.ambiguous + stats.unmatched
      == |i.payments| + |Filter(Missing(i), i.payments)|
  {
    var plan := PlanFor(rules, i);
    PlanAccounted(rules, i);
    PaymentsAccounted(plan, i, i.payments);
    OpenOfRun(plan, i);
  }

  // ---------- settlements ----------

  ghost predicate Explained(i: Input, id: Option<nat>, provider: string, reference: string) {
    LinkedPayment(i, id, provider, reference).Some?
  }

  ghost predicate Typed(plan: Plan) {
    Attributed(plan) && forall p, d :: d in plan.own(p) + plan.matching(p) ==> d.caseType in OWN + PAIRED + UNPAIRED
  }

  lemma NotInPass(plan: Plan, i: Input, d: Draft)
    requires Typed(plan) && d.caseType !in OWN + PAIRED + UNPAIRED
    ensures d !in PaymentPass(plan, i.payments)
  {
    PaymentPassMember(plan, i.payments, d);
  }

  lemma LeftoverOnly(plan: Plan, i: Input, d: Draft)
    requires Typed(plan) && d.caseType in LEFTOVER
    ensures d in DraftsOf(plan, i) <==> d in LeftoverDrafts(plan, i)
  {
    InRun(plan, i, d);
    NotDuplicate(i, d);
    NotInPass(plan, i, d);
    NotBankLeg(plan, i, d);
  }

  lemma PlanTypes(rules: Rules, i: Input)
    ensures Typed(PlanFor(rules, i))
  {
    PlanAttributed(rules, i);
    var plan := PlanFor(rules, i);
    forall p, d | d in plan.own(p) + plan.matching(p) ensures d.caseType in OWN + PAIRED + UNPAIRED {
      OwnTypes(i, p, d);
      MatchTypes(rules, i, p);
    }
  }

  function OrphanSettlement(s: Settlement): Draft {
    Plain(None, SettlementRef(s.id), SettlementWithoutPayment, 0, s.net)
  }

  lemma OrphanInPass(used: set<nat>, i: Input, s: Settlement)
    requires s in i.settlements && DistinctSettlements(i.settlements)
    ensures OrphanSettlement(s) in SettlementPass(used, i, i.settlements) <==>
            s.id !in used && !Explained(i, s.paymentId, s.provider, s.providerPaymentId)
  {
    var d := OrphanSettlement(s);
    FlatMapMember((s: Settlement) => SettlementDrafts(used, i, s), i.settlements, d);
    if t :| t in i.settlements && d in SettlementDrafts(used, i, t) {
      assert t.id == s.id;
      SameIdSameRow(i.settlements, [t], s);
      assert [t][0].id == s.id;
    }
  }

  lemma OrphanInLeftovers(plan: Plan, i: Input, s: Settlement)
    ensures OrphanSettlement(s) in LeftoverDrafts(plan, i) <==>
            OrphanSettlement(s) in SettlementPass(SettlementsUsed(plan, i.payments), i, i.settlements)
  {
    var ru, d := RefundsUsed(plan, i.payments), OrphanSettlement(s);
    FlatMapMember((r: Refund) => RefundDrafts(ru, i, r), i.refunds, d);
  }

  // A settlement has a SETTLEMENT_WITHOUT_PAYMENT draft of its own exactly when no payment matched
  // it and none explains it.
  lemma SettlementCoverage(rules: Rules, i: Input, s: Settlement)
    requires s in i.settlements && DistinctSettlements(i.settlements)
    ensures OrphanSettlement(s) in Drafts(rules, i) <==>
            s.id !in SettlementsUsed(PlanFor(rules, i), i.payments)
                && !Explained(i, s.paymentId, s.provider, s.providerPaymentId)
  {
    var plan := PlanFor(rules, i);
    PlanTypes(rules, i);
    LeftoverOnly(plan, i, OrphanSettlement(s));
    OrphanInLeftovers(plan, i, s);
    OrphanInPass(SettlementsUsed(plan, i.payments), i, s);
  }

  // ---------- bank candidates are a plain scan ----------

  ghost predicate DistinctBanks(s: seq<Bank>) { forall i, j :: 0 <= i < j < |s| ==> s[i].id != s[j].id }

  predicate RefersBy(ref: string, b: Bank) { ref in BankRefs(b) || BankUtr(b) == Some(ref) }

  // Some payout reference of the settlement is a reference or the UTR of the bank row.
  ghost predicate Refers(s: Settlement, b: Bank) { exists ref :: ref in PayoutRefs(s) && RefersBy(ref, b) }

  lemma {:induction false} DistinctMembers(banks: seq<Bank>, listed: seq<Bank>)
    requires DistinctBanks(banks) && forall b :: b in listed ==> b in banks
    ensures DistinctBanks(Distinct(listed)) && forall b :: b in Distinct(listed) <==> b in listed
  {
    if listed != [] {
      var front, last := listed[..|listed| - 1], listed[|listed| - 1];
      DistinctMembers(banks, front);
      assert listed == front + [last];
      var found := Distinct(front);
      if k :| 0 <= k < |found| && found[k].id == last.id {
        assert found[k] in banks && last in banks;
        assert found[k] == last;
      }
    }
  }

  lemma ListedMember(banks: seq<Bank>, provider: string, ref: string, b: Bank)
    ensures b in FlatMap(ListingsUnder((provider, ref)), banks) <==>
            b in banks && ref in BankRefs(b) && (provider == BankProvider(b) || provider == "*")
  {
    FlatMapMember(ListingsUnder((provider, ref)), banks, b);
    if b in banks && ref in BankRefs(b) && (provider == BankProvider(b) || provider == "*") {
      assert b in ListingsUnder((provider, ref))(b);
    }
  }

  lemma RefListingMember(i: Input, provider: string, ref: string, b: Bank)
    ensures b in RefListing(i, provider, ref) <==> b in i.banks && RefersBy(ref, b)
  {
    ListedMember(i.banks, provider, ref, b);
    ListedMember(i.banks, "*", ref, b);
    FilterMember(WithUtr(ref), i.banks, b);
  }

  lemma ReferredIsPlainScan(i: Input, s: Settlement)
    requires DistinctBanks(i.banks)
    ensures DistinctBanks(RefCandidates(i, s))
    ensures forall b :: b in RefCandidates(i, s) <==> b in i.banks && Refers(s, b)
  {
    var provider := Lower(s.provider);
    var listed := FlatMap(ListingsFor(i, provider), PayoutRefs(s));
    forall b ensures b in listed <==> b in i.banks && Refers(s, b) {
      FlatMapMember(ListingsFor(i, provider), PayoutRefs(s), b);
      forall ref ensures b in ListingsFor(i, provider)(ref) <==> b in i.banks && RefersBy(ref, b) {
        RefListingMember(i, provider, ref, b);
      }
    }
    DistinctMembers(i.banks, listed);
  }

  lemma BankDistinctNoDup(s: seq<Bank>)
    requires DistinctBanks(s)
    ensures NoDup(s)
  {
  }

  ghost predicate CouldBe(rules: Rules, i: Input, s: Settlement, b: Bank) {
    if exists x :: x in i.banks && Refers(s, x) then Refers(s, b)
    else Upper(b.currency) == SettlementCurrency(s) && PayoutFits(rules, s, b)
  }

  // The candidates: whoever is referred to, and only when nobody is, whoever fits currency, amount
  // and date; each once.
  lemma CandidatesArePlainScan(rules: Rules, i: Input, s: Settlement)
    requires DistinctBanks(i.banks)
    ensures var c := BankCandidates(rules, i, s);
      && NoDup(c)
      && forall b :: b in c <==> b in i.banks && CouldBe(rules, i, s, b)
  {
    ReferredIsPlainScan(i, s);
    var r := RefCandidates(i, s);
    BankDistinctNoDup(r);
    if r != [] {
      assert r[0] in r;
    } else {
      var same := Filter(WithCurrency(SettlementCurrency(s)), i.banks);
      BankDistinctNoDup(i.banks);
      FilterNoDup(WithCurrency(SettlementCurrency(s)), i.banks);
      FilterNoDup(FitsPayout(rules, s), same);
      forall b ensures b in Filter(FitsPayout(rules, s), same) <==>
                       b in i.banks && Upper(b.currency) == SettlementCurrency(s) && PayoutFits(rules, s, b) {
        FilterMember(FitsPayout(rules, s), same, b);
        FilterMember(WithCurrency(SettlementCurrency(s)), i.banks, b);
      }
      forall x | x in i.banks ensures !Refers(s, x) { assert x !in r; }
    }
  }

  // ---------- what becomes of settlements and credits at the bank ----------

  lemma BankLegOnly(plan: Plan, i: Input, d: Draft)
    requires Typed(plan) && d.caseType in BANKLEG
    ensures d in DraftsOf(plan, i) <==> d in BankLegDrafts(plan, i)
  {
    InRun(plan, i, d);
    NotDuplicate(i, d);
    NotInPass(plan, i, d);
    NotLeftover(plan, i, d);
  }

  lemma PayoutInLeg(plan: Plan, i: Input, d: Draft)
    requires d.caseType == BankAmbiguousMatch || d.caseType == BankSettlementMismatch
    ensures d in BankLegDrafts(plan, i) <==> exists s :: s in i.settlements && d in BankDrafts(i, s, plan.candidates(s))
  {
    BankLegMembers(plan, i, d);
  }

  predicate AboutPayout(d: Draft, s: Settlement) {
    || (d.caseType == BankAmbiguousMatch && d.record == SettlementRef(s.id))
    || (d.caseType == BankSettlementMismatch && d.matchedRecord == Some(s.id))
  }

  ghost predicate AmbiguityReported(ds: seq<Draft>, s: Settlement) {
    exists d :: d in ds && d.caseType == BankAmbiguousMatch && d.record == SettlementRef(s.id)
  }

  ghost predicate MismatchReported(ds: seq<Draft>, s: Settlement) {
    exists d :: d in ds && d.caseType == BankSettlementMismatch && d.matchedRecord == Some(s.id)
  }

  lemma PayoutDraft(plan: Plan, i: Input, s: Settlement, d: Draft)
    requires Typed(plan) && s in i.settlements && DistinctSettlements(i.settlements) && AboutPayout(d, s)
    ensures d in DraftsOf(plan, i) <==> d in BankDrafts(i, s, plan.candidates(s))
  {
    BankLegOnly(plan, i, d);
    PayoutInLeg(plan, i, d);
    forall t | t in i.settlements && d in BankDrafts(i, t, plan.candidates(t)) ensures t == s {
      PayoutOwner(i, s, t, plan.candidates(t), d);
    }
  }

  lemma PayoutOwner(i: Input, s: Settlement, t: Settlement, c: seq<Bank>, d: Draft)
    requires s in i.settlements && t in i.settlements && DistinctSettlements(i.settlements)
    requires AboutPayout(d, s) && d in BankDrafts(i, t, c)
    ensures t == s
  {
    assert t.id == s.id;
  }

  lemma OutcomeOf(i: Input, s: Settlement, c: seq<Bank>, ds: seq<Draft>)
    requires InScope(i, s) && forall d :: AboutPayout(d, s) ==> (d in ds <==> d in BankDrafts(i, s, c))
    ensures AmbiguityReported(ds, s) <==> |c| > 1
    ensures MismatchReported(ds, s) <==> |c| == 1 && !BankAgrees(s, c[0])
  {
    if |c| > 1 { assert AboutPayout(AmbiguousPayout(i, s, c[0]), s); }
    if |c| == 1 && !BankAgrees(s, c[0]) { assert AboutPayout(MismatchedPayout(i, s, c[0]), s); }
  }

  // An in-scope settlement is exactly one of: agreeing with its one bank row, reported as a
  // mismatch, reported as ambiguous, or without any candidate.
  lemma BankOutcome(rules: Rules, i: Input, s: Settlement)
    requires s in i.settlements && DistinctSettlements(i.settlements) && InScope(i, s)
    ensures var c, ds := BankCandidates(rules, i, s), Drafts(rules, i);
      && (AmbiguityReported(ds, s) <==> |c| > 1)
      && (MismatchReported(ds, s) <==> |c| == 1 && !BankAgrees(s, c[0]))
      && (!AmbiguityReported(ds, s) && !MismatchReported(ds, s) <==> c == [] || (|c| == 1 && BankAgrees(s, c[0])))
  {
    var plan := PlanFor(rules, i);
    PlanTypes(rules, i);
    forall d | AboutPayout(d, s) ensures d in DraftsOf(plan, i) <==> d in BankDrafts(i, s, plan.candidates(s)) {
      PayoutDraft(plan, i, s, d);
    }
    OutcomeOf(i, s, plan.candidates(s), DraftsOf(plan, i));
  }

  function LooseCredit(b: Bank): Draft { Plain(None, BankRef(b.id), BankWithoutSettlement, 0, b.amount) }

  ghost predicate SoleCandidate(rules: Rules, i: Input, b: Bank) {
    exists s :: s in i.settlements && InScope(i, s) && BankCandidates(rules, i, s) == [b]
  }

  lemma CreditInLeg(plan: Plan, i: Input, b: Bank)
    requires DistinctBanks(i.banks) && b in i.banks && b.amount > 0
    ensures LooseCredit(b) in BankLegDrafts(plan, i) <==> b.id !in BanksUsed(plan, i, i.settlements)
  {
    var used, d := BanksUsed(plan, i, i.settlements), LooseCredit(b);
    FlatMapMember((s: Settlement) => BankDrafts(i, s, plan.candidates(s)), i.settlements, d);
    FlatMapMember((b: Bank) => CreditDrafts(used, b), i.banks, d);
  }

  // A positive bank credit is some settlement's sole candidate, or it has a case; never both.
  lemma CreditCoverage(rules: Rules, i: Input, b: Bank)
    requires DistinctBanks(i.banks) && b in i.banks && b.amount > 0
    ensures LooseCredit(b) in Drafts(rules, i) <==> !SoleCandidate(rules, i, b)
  {
    var plan := PlanFor(rules, i);
    PlanTypes(rules, i);
    BankLegOnly(plan, i, LooseCredit(b));
    CreditInLeg(plan, i, b);
    UsedIsSole(rules, i, b);
  }

  lemma SoleIsSole(rules: Rules, i: Input, s: Settlement, b: Bank)
    requires DistinctBanks(i.banks) && b in i.banks
    ensures (exists x :: SoleBank(i, s, BankCandidates(rules, i, s)) == Some(x) && x.id == b.id)
            <==> InScope(i, s) && BankCandidates(rules, i, s) == [b]
  {
    var c := BankCandidates(rules, i, s);
    CandidatesArePlainScan(rules, i, s);
    if |c| == 1 {
      assert c[0] in c && c == [c[0]];
      assert c[0].id == b.id <==> c[0] == b;
    }
  }

  lemma UsedIsSole(rules: Rules, i: Input, b: Bank)
    requires DistinctBanks(i.banks) && b in i.banks
    ensures b.id in BanksUsed(PlanFor(rules, i), i, i.settlements) <==> SoleCandidate(rules, i, b)
  {
    forall s { SoleIsSole(rules, i, s, b); }
  }
}
