/** What a reconciliation run guarantees: idempotence, silence exactly when reconciled, accounting,
    and coverage of every settlement, refund and bank credit. */
module ReconciliationTheorems {
  import opened Prelude
  import opened Records
  import opened Matching
  import opened Matcher
  import opened CaseStore
  import opened ReconciliationSpec
  import opened Reconciler
  import opened ReconciliationRuns

  // ---------- idempotence ----------

  // On unchanged records a second run, even in a later year, creates nothing.
  lemma Idempotent(rules: Rules, i: Input, cases: seq<CaseRow>, year: int, later: int)
    ensures var after := InsertAll(cases, year, Drafts(rules, i));
      InsertAll(after, later, Drafts(rules, i)) == after
  {
    var ds := Drafts(rules, i);
    InsertAllKeys(cases, year, ds);
    InsertAllAbsorbs(InsertAll(cases, year, ds), later, ds);
  }

  // Fingerprints and case numbers stay unique through any run.
  lemma RunKeepsTable(rules: Rules, i: Input, cases: seq<CaseRow>, year: int)
    requires UniqueFingerprints(cases) && Numbered(cases)
    ensures var after := InsertAll(cases, year, Drafts(rules, i));
      && cases <= after && UniqueFingerprints(after) && Numbered(after)
      && forall a, b :: 0 <= a < b < |after| ==> after[a].number != after[b].number
  {
    var ds := Drafts(rules, i);
    InsertAllKeys(cases, year, ds);
    InsertAllUnique(cases, year, ds);
    InsertAllNumbered(cases, year, ds);
    var after := InsertAll(cases, year, ds);
    forall a, b | 0 <= a < b < |after| ensures after[a].number != after[b].number { NumbersDistinct(after, a, b); }
  }

  // ---------- which pass a draft comes from ----------

  ghost predicate TypesIn(ds: seq<Draft>, types: set<CaseType>) { forall d :: d in ds ==> d.caseType in types }

  const OWN := {DuplicatePayment, StatusMismatch, DuplicateRefund, MissingRefund}
  const PAIRED := {StatusMismatch, CurrencyMismatch, DelayedSettlement, SettlementMismatch}
  const UNPAIRED := {AmbiguousMatch, PaymentWithoutSettlement}
  const LEFTOVER := {SettlementWithoutPayment, RefundWithoutPayment, RefundWithoutSettlement}
  const BANKLEG := {BankAmbiguousMatch, BankSettlementMismatch, BankWithoutSettlement}

  lemma {:induction false} SettlementGroupTypes(groups: seq<seq<Settlement>>)
    ensures TypesIn(DuplicateSettlementDrafts(groups), {DuplicateSettlement})
  {
    if groups != [] { SettlementGroupTypes(groups[..|groups| - 1]); }
  }

  lemma {:induction false} RefundGroupTypes(p: Payment, groups: seq<seq<Refund>>)
    ensures forall d :: d in DuplicateRefundDrafts(p, groups) ==>
        d.caseType == DuplicateRefund && d.payment == Some(p.id)
  {
    if groups != [] { RefundGroupTypes(p, groups[..|groups| - 1]); }
  }

  lemma InParts<T>(a: seq<T>, b: seq<T>, c: seq<T>, d: seq<T>, x: T)
    ensures x in a + b + c + d <==> x in a || x in b || x in c || x in d
  {
  }

  lemma OwnMember(i: Input, p: Payment, d: Draft)
    ensures d in OwnDrafts(i, p) <==>
      d in OrderDrafts(i, p) || d in StatusDrafts(p) || d in RefundDuplicates(i, p) || d in MissingRefundDrafts(i, p)
  {
    InParts(OrderDrafts(i, p), StatusDrafts(p), RefundDuplicates(i, p), MissingRefundDrafts(i, p), d);
  }

  lemma OwnTypes(i: Input, p: Payment, d: Draft)
    ensures d in OwnDrafts(i, p) ==> d.caseType in OWN && d.payment == Some(p.id)
    ensures d.caseType == StatusMismatch ==> (d in OwnDrafts(i, p) <==> d in StatusDrafts(p))
    ensures d.caseType == MissingRefund ==> (d in OwnDrafts(i, p) <==> d in MissingRefundDrafts(i, p))
  {
    OwnMember(i, p, d);
    RefundGroupTypes(p, DuplicateGroups(RefundKeyOf, RefundsOf(i, p)));
  }

  lemma MatchTypes(rules: Rules, i: Input, p: Payment)
    ensures forall d :: d in MatchDrafts(rules, i, p) ==> d.payment == Some(p.id)
    ensures TypesIn(MatchDrafts(rules, i, p), if MatchOf(rules, i, p).Some? then PAIRED else UNPAIRED)
  {
  }

  lemma PaymentPassMember(plan: Plan, ps: seq<Payment>, d: Draft)
    ensures d in PaymentPass(plan, ps) <==> exists p :: p in ps && d in plan.own(p) + plan.matching(p)
  {
    FlatMapMember((p: Payment) => plan.own(p) + plan.matching(p), ps, d);
  }

  lemma LeftoverMembers(plan: Plan, i: Input, d: Draft)
    ensures var su, ru := SettlementsUsed(plan, i.payments), RefundsUsed(plan, i.payments);
      d in LeftoverDrafts(plan, i) <==>
        || (exists s :: s in i.settlements && d in SettlementDrafts(su, i, s))
        || (exists r :: r in i.refunds && d in RefundDrafts(ru, i, r))
  {
    var su, ru := SettlementsUsed(plan, i.payments), RefundsUsed(plan, i.payments);
    FlatMapMember((s: Settlement) => SettlementDrafts(su, i, s), i.settlements, d);
    FlatMapMember((r: Refund) => RefundDrafts(ru, i, r), i.refunds, d);
  }

  lemma BankLegMembers(plan: Plan, i: Input, d: Draft)
    ensures var bu := BanksUsed(plan, i, i.settlements);
      d in BankLegDrafts(plan, i) <==>
        || (exists s :: s in i.settlements && d in BankDrafts(i, s, plan.candidates(s)))
        || (exists b :: b in i.banks && d in CreditDrafts(bu, b))
  {
    var bu := BanksUsed(plan, i, i.settlements);
    FlatMapMember((s: Settlement) => BankDrafts(i, s, plan.candidates(s)), i.settlements, d);
    FlatMapMember((b: Bank) => CreditDrafts(bu, b), i.banks, d);
  }

  lemma LeftoverTypes(plan: Plan, i: Input, d: Draft)
    requires d in LeftoverDrafts(plan, i)
    ensures d.caseType in LEFTOVER
  {
    LeftoverMembers(plan, i, d);
  }

  lemma BankLegTypes(plan: Plan, i: Input, d: Draft)
    requires d in BankLegDrafts(plan, i)
    ensures d.caseType in BANKLEG
  {
    BankLegMembers(plan, i, d);
  }

  lemma InRun(plan: Plan, i: Input, d: Draft)
    ensures d in DraftsOf(plan, i) <==>
      || d in DuplicateSettlementDrafts(DuplicateGroups(SettlementKeyOf, i.settlements))
      || d in PaymentPass(plan, i.payments)
      || d in LeftoverDrafts(plan, i)
      || d in BankLegDrafts(plan, i)
  {
    InParts(DuplicateSettlementDrafts(DuplicateGroups(SettlementKeyOf, i.settlements)), PaymentPass(plan, i.payments),
            LeftoverDrafts(plan, i), BankLegDrafts(plan, i), d);
  }

  // ---------- silence means reconciled, and the other way round ----------

  const SILENT := {AmbiguousMatch, PaymentWithoutSettlement, StatusMismatch, CurrencyMismatch, DelayedSettlement,
      SettlementMismatch}

  predicate Concerns(d: Draft, p: Payment) { d.payment == Some(p.id) && d.caseType in SILENT }

  // The payment is in a reconcilable state and has a uniquely matched settlement, final, in the
  // same currency, inside the window, with net = gross - refunds - fee - tax + adjustment.
  ghost predicate Agreeing(i: Input, rules: Rules, p: Payment, s: Settlement) {
    && IsFinal(s) && SameCurrency(p, s) && !Delayed(rules, p, s)
    && s.net == p.amount - Sum(CountedRefund, RefundsOf(i, p)) - s.fee - s.tax + s.adjustment
  }

  ghost predicate Reconciled(rules: Rules, i: Input, p: Payment) {
    && p.status in RECONCILABLE
    && exists s, tier :: UniqueMatch(rules, p, i.settlements, tier, s) && Agreeing(i, rules, p, s)
  }

  lemma MatchOfUnique(rules: Rules, i: Input, p: Payment, s: Settlement)
    requires DistinctSettlements(i.settlements)
    ensures MatchOf(rules, i, p) == Some(s) <==> exists tier :: UniqueMatch(rules, p, i.settlements, tier, s)
  {
    if s in i.settlements {
      MatchesExactlyUnique(rules, p, i.settlements, s);
      FindsSettlement(i.settlements, s);
    }
    if MatchOf(rules, i, p) == Some(s) { FoundInList(i.settlements, Scan(rules, p, i.settlements).recordId.value); }
  }

  lemma {:induction false} FoundInList(s: seq<Settlement>, id: nat)
    ensures var f := FindSettlement(s, id); f.Some? ==> f.value in s && f.value.id == id
  {
    if s != [] && s[0].id != id { FoundInList(s[1..], id); }
  }

  lemma SumOne<T>(f: T -> int, x: T)
    ensures Sum(f, [x]) == f(x)
  {
    assert [x][..0] == [];
  }

  lemma SingleCalculation(p: Payment, refunds: seq<Refund>, m: Settlement)
    ensures Calculate(p, refunds, [m]).difference
            == m.net - (p.amount - Sum(CountedRefund, refunds) - m.fee - m.tax + m.adjustment)
  {
    SumOne(Net, m);
    SumOne(Fee, m);
    SumOne(Tax, m);
    SumOne(Adjustment, m);
  }

  lemma PairSilent(rules: Rules, i: Input, p: Payment, m: Settlement, d: Decision)
    ensures PairDrafts(rules, i, p, m, d) == [] <==> Agreeing(i, rules, p, m)
  {
    SingleCalculation(p, RefundsOf(i, p), m);
    EmptyParts(if !IsFinal(m) then [Linked(p, m, d, StatusMismatch, Calculate(p, RefundsOf(i, p), [m]))] else [],
               if !SameCurrency(p, m) then [Linked(p, m, d, CurrencyMismatch, Calculate(p, RefundsOf(i, p), [m]))]
               else [],
               if Delayed(rules, p, m) then [Linked(p, m, d, DelayedSettlement, Calculate(p, RefundsOf(i, p), [m]))]
               else [],
               if Calculate(p, RefundsOf(i, p), [m]).difference != 0
               then [Linked(p, m, d, SettlementMismatch, Calculate(p, RefundsOf(i, p), [m]))] else []);
  }

  lemma EmptyParts<T>(a: seq<T>, b: seq<T>, c: seq<T>, d: seq<T>)
    ensures a + b + c + d == [] <==> a == [] && b == [] && c == [] && d == []
  {
    assert |a + b + c + d| == |a| + |b| + |c| + |d|;
  }

  lemma MatchingSilent(rules: Rules, i: Input, p: Payment)
    ensures (forall d :: d in MatchDrafts(rules, i, p) ==> !Concerns(d, p))
            <==> MatchOf(rules, i, p).Some? && Agreeing(i, rules, p, MatchOf(rules, i, p).value)
  {
    MatchTypes(rules, i, p);
    var ds, m := MatchDrafts(rules, i, p), MatchOf(rules, i, p);
    if m.Some? { PairSilent(rules, i, p, m.value, Scan(rules, p, i.settlements)); }
    if ds != [] { assert ds[0] in ds; }
  }

  // A plan whose per-payment drafts carry that payment.
  ghost predicate Attributed(plan: Plan) {
    forall q, d :: d in plan.own(q) + plan.matching(q) ==> d.payment == Some(q.id)
  }

  lemma PassOfPayment(plan: Plan, i: Input, p: Payment, d: Draft)
    requires Attributed(plan) && DistinctPayments(i.payments) && p in i.payments && d.payment == Some(p.id)
    ensures d in PaymentPass(plan, i.payments) <==> d in plan.own(p) + plan.matching(p)
  {
    PaymentPassMember(plan, i.payments, d);
    if d in PaymentPass(plan, i.payments) {
      var q :| q in i.payments && d in plan.own(q) + plan.matching(q);
      assert q.id == p.id;
      assert q == p;
    }
  }

  lemma NotDuplicate(i: Input, d: Draft)
    requires d.caseType != DuplicateSettlement
    ensures d !in DuplicateSettlementDrafts(DuplicateGroups(SettlementKeyOf, i.settlements))
  {
    SettlementGroupTypes(DuplicateGroups(SettlementKeyOf, i.settlements));
  }

  lemma NotLeftover(plan: Plan, i: Input, d: Draft)
    requires d.caseType !in LEFTOVER
    ensures d !in LeftoverDrafts(plan, i)
  {
    if d in LeftoverDrafts(plan, i) { LeftoverTypes(plan, i, d); }
  }

  lemma NotBankLeg(plan: Plan, i: Input, d: Draft)
    requires d.caseType !in BANKLEG
    ensures d !in BankLegDrafts(plan, i)
  {
    if d in BankLegDrafts(plan, i) { BankLegTypes(plan, i, d); }
  }

  predicate OfPayments(caseType: CaseType) {
    caseType != DuplicateSettlement && caseType !in LEFTOVER && caseType !in BANKLEG
  }

  // A draft of a payment's kind about p comes from p's own checks or its matching.
  lemma DraftOfPayment(plan: Plan, i: Input, p: Payment, d: Draft)
    requires Attributed(plan) && DistinctPayments(i.payments) && p in i.payments
    requires d.payment == Some(p.id) && OfPayments(d.caseType)
    ensures d in DraftsOf(plan, i) <==> d in plan.own(p) + plan.matching(p)
  {
    NotDuplicate(i, d);
    NotLeftover(plan, i, d);
    NotBankLeg(plan, i, d);
    InRun(plan, i, d);
    PassOfPayment(plan, i, p, d);
  }

  lemma DraftOfConcern(plan: Plan, i: Input, p: Payment, d: Draft)
    requires Attributed(plan) && DistinctPayments(i.payments) && p in i.payments && Concerns(d, p)
    ensures d in DraftsOf(plan, i) <==> d in plan.own(p) + plan.matching(p)
  {
    DraftOfPayment(plan, i, p, d);
  }

  lemma PlanAttributed(rules: Rules, i: Input)
    ensures Attributed(PlanFor(rules, i))
  {
    var plan := PlanFor(rules, i);
    forall q, d | d in plan.own(q) + plan.matching(q) ensures d.payment == Some(q.id) {
      OwnTypes(i, q, d);
      MatchTypes(rules, i, q);
    }
  }

  lemma SilentDrafts(rules: Rules, i: Input, p: Payment)
    requires DistinctPayments(i.payments) && p in i.payments
    ensures (forall d :: d in Drafts(rules, i) ==> !Concerns(d, p)) <==>
            (forall d :: d in OwnDrafts(i, p) ==> !Concerns(d, p))
                && (forall d :: d in MatchDrafts(rules, i, p) ==> !Concerns(d, p))
  {
    var plan := PlanFor(rules, i);
    PlanAttributed(rules, i);
    forall d | Concerns(d, p) ensures d in DraftsOf(plan, i) <==> d in plan.own(p) + plan.matching(p) {
      DraftOfConcern(plan, i, p, d);
    }
    assert plan.own(p) == OwnDrafts(i, p) && plan.matching(p) == MatchDrafts(rules, i, p);
  }

  lemma SilentOwn(t: CaseType)
    requires t in SILENT && t in OWN
    ensures t == StatusMismatch
  {
  }

  lemma OwnConcern(i: Input, p: Payment, d: Draft)
    requires Concerns(d, p)
    ensures d in OwnDrafts(i, p) <==> d in StatusDrafts(p)
  {
    OwnTypes(i, p, d);
    StatusTypes(p);
    if d in OwnDrafts(i, p) { SilentOwn(d.caseType); }
  }

  lemma StatusTypes(p: Payment)
    ensures forall d :: d in StatusDrafts(p) ==> d.caseType == StatusMismatch
  {
  }

  lemma StatusSilent(p: Payment)
    ensures (forall d :: d in StatusDrafts(p) ==> !Concerns(d, p)) <==> p.status in RECONCILABLE
  {
    if p.status !in RECONCILABLE { assert StatusDrafts(p)[0] in StatusDrafts(p); }
  }

  lemma SameConcerns(a: seq<Draft>, b: seq<Draft>, p: Payment)
    requires forall d :: Concerns(d, p) ==> (d in a <==> d in b)
    ensures (forall d :: d in a ==> !Concerns(d, p)) <==> (forall d :: d in b ==> !Concerns(d, p))
  {
  }

  lemma OwnSilent(i: Input, p: Payment)
    ensures (forall d :: d in OwnDrafts(i, p) ==> !Concerns(d, p)) <==> p.status in RECONCILABLE
  {
    forall d | Concerns(d, p) ensures d in OwnDrafts(i, p) <==> d in StatusDrafts(p) { OwnConcern(i, p, d); }
    SameConcerns(OwnDrafts(i, p), StatusDrafts(p), p);
    StatusSilent(p);
  }

  lemma ReconciledIsMatch(rules: Rules, i: Input, p: Payment)
    requires DistinctSettlements(i.settlements)
    ensures (exists s, tier :: UniqueMatch(rules, p, i.settlements, tier, s) && Agreeing(i, rules, p, s))
            <==> MatchOf(rules, i, p).Some? && Agreeing(i, rules, p, MatchOf(rules, i, p).value)
  {
    if s, tier :| UniqueMatch(rules, p, i.settlements, tier, s) && Agreeing(i, rules, p, s) {
      MatchOfUnique(rules, i, p, s);
    }
    if MatchOf(rules, i, p).Some? { MatchOfUnique(rules, i, p, MatchOf(rules, i, p).value); }
  }

  lemma SilentExactlyReconciled(rules: Rules, i: Input, p: Payment)
    requires DistinctSettlements(i.settlements) && DistinctPayments(i.payments) && p in i.payments
    ensures (forall d :: d in Drafts(rules, i) ==> !Concerns(d, p)) <==> Reconciled(rules, i, p)
  {
    SilentDrafts(rules, i, p);
    OwnSilent(i, p);
    MatchingSilent(rules, i, p);
    ReconciledIsMatch(rules, i, p);
  }

  ghost predicate HasCase(rows: seq<CaseRow>, p: Payment) {
    exists r :: r in rows && r.Opened? && Concerns(r.draft, p)
  }

  lemma ConcernIsStored(rows: seq<CaseRow>, year: int, ds: seq<Draft>, p: Payment)
    ensures (exists d :: d in ds && Concerns(d, p)) ==> HasCase(InsertAll(rows, year, ds), p)
    ensures HasCase(InsertAll(rows, year, ds), p) && !HasCase(rows, p) ==> exists d :: d in ds && Concerns(d, p)
  {
    var after := InsertAll(rows, year, ds);
    if d :| d in ds && Concerns(d, p) {
      DraftHasRow(rows, year, ds, d);
      var r :| r in after && r.Opened? && FingerprintOf(r.draft) == FingerprintOf(d);
      assert Concerns(r.draft, p);
    }
    if r :| r in after && r.Opened? && Concerns(r.draft, p) { RowsComeFrom(rows, year, ds, r); }
  }

  // Read off the case table: after any run, a payment without a case of the six kinds is
  // reconciled; and a reconciled payment gains none.
  lemma SilenceMeansReconciled(rules: Rules, i: Input, p: Payment, cases: seq<CaseRow>, year: int)
    requires DistinctSettlements(i.settlements) && DistinctPayments(i.payments) && p in i.payments
    ensures var after := InsertAll(cases, year, Drafts(rules, i));
      && (!HasCase(after, p) ==> Reconciled(rules, i, p))
      && (!HasCase(cases, p) ==> (!HasCase(after, p) <==> Reconciled(rules, i, p)))
  {
    SilentExactlyReconciled(rules, i, p);
    ConcernIsStored(cases, year, Drafts(rules, i), p);
  }
}
