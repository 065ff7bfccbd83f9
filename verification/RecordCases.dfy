/** Which cases a run opens about settlements, refunds and bank rows, read off the records' own fields,
    and what a run for one merchant reads. */
module RecordCases {
  import opened Prelude
  import opened Text
  import opened Records
  import opened Matching
  import opened MatchingTiers
  import opened CaseStore
  import opened ReconciliationSpec
  import opened ReconciliationRuns
  import opened ReconciliationTheorems
  import opened ReconciliationCoverage
  import opened RefundCases
  import opened PaymentCases

  // ---------- what a run reads ----------

  predicate BelongsTo(db: Database, link: Option<nat>, own: Option<string>, merchant: Option<string>) {
    own == merchant || exists p :: p in db.payments && link == Some(p.id) && p.merchant == merchant
  }

  // Without a merchant everything; for a merchant its own rows, and refunds and settlements linked to
  // its payments. Payments are always looked up among all of them.
  lemma ScopedExactly(db: Database, merchant: Option<string>)
    ensures var i, all := Scoped(db, merchant), merchant == None || merchant == Some("");
      && i.allPayments == db.payments && i.merchant == merchant
      && (forall p :: p in i.payments <==> p in db.payments && (all || p.merchant == merchant))
      && (forall r :: r in i.refunds <==> r in db.refunds && (all || BelongsTo(db, r.paymentId, r.merchant, merchant)))
      && (forall s :: s in i.settlements <==>
          s in db.settlements && (all || BelongsTo(db, s.paymentId, s.merchant, merchant)))
      && (forall b :: b in i.banks <==> b in db.banks && (all || b.merchant == merchant))
  {
    var i := Scoped(db, merchant);
    if Given(merchant) {
      forall p { FilterMember((p: Payment) => p.merchant == merchant, db.payments, p); }
      forall r {
        FilterMember((r: Refund) => r.merchant == merchant
            || PaysFor(db.payments, r.paymentId, merchant), db.refunds, r);
      }
      forall s {
        FilterMember((s: Settlement) => s.merchant == merchant
            || PaysFor(db.payments, s.paymentId, merchant), db.settlements, s);
      }
      forall b { FilterMember((b: Bank) => b.merchant == merchant, db.banks, b); }
    }
  }

  // ---------- linked payments ----------

  lemma {:induction false} FindsPayment(f: Payment -> bool, s: seq<Payment>)
    ensures FindPayment(f, s).Some? <==> exists p :: p in s && f(p)
    ensures FindPayment(f, s).Some? ==> FindPayment(f, s).value in s && f(FindPayment(f, s).value)
  {
    if s != [] {
      FindsPayment(f, s[1..]);
      assert s == [s[0]] + s[1..];
    }
  }

  predicate Explains(p: Payment, id: Option<nat>, provider: string, reference: string) {
    id == Some(p.id) || (reference != "" && p.provider == provider && p.providerPaymentId == reference)
  }

  // A row is explained by the payment it is linked to, or by one of its provider with its reference.
  lemma ExplainedExactly(i: Input, id: Option<nat>, provider: string, reference: string)
    ensures Explained(i, id, provider, reference) <==>
            exists p :: p in i.allPayments && Explains(p, id, provider, reference)
    ensures Explained(i, id, provider, reference) ==>
      var linked := LinkedPayment(i, id, provider, reference).value;
      linked in i.allPayments && Explains(linked, id, provider, reference)
      && ((exists p :: p in i.allPayments && id == Some(p.id)) ==> id == Some(linked.id))
  {
    if id.Some? { FindsPayment((p: Payment) => p.id == id.value, i.allPayments); }
    FindsPayment((p: Payment) => p.provider == provider && p.providerPaymentId == reference, i.allPayments);
  }

  // ---------- settlements nobody matched ----------

  lemma UsedExactly(rules: Rules, i: Input, s: Settlement)
    requires DistinctSettlements(i.settlements) && s in i.settlements
    ensures s.id in SettlementsUsed(PlanFor(rules, i), i.payments) <==>
        exists p :: p in i.payments && Settles(rules, i, p, s)
  {
    var plan := PlanFor(rules, i);
    forall p ensures plan.match'(p).Some? && plan.match'(p).value.id == s.id <==> Settles(rules, i, p, s) {
      OneOutcome(rules, i, p);
      if plan.match'(p).Some? && plan.match'(p).value.id == s.id {
        FoundInList(i.settlements, Scan(rules, p, i.settlements).recordId.value);
        SameRow(i.settlements, s, plan.match'(p).value);
      }
    }
  }

  lemma SameRow(ss: seq<Settlement>, a: Settlement, b: Settlement)
    requires DistinctSettlements(ss) && a in ss && b in ss && a.id == b.id
    ensures a == b
  {
    var j :| 0 <= j < |ss| && ss[j] == a;
    var k :| 0 <= k < |ss| && ss[k] == b;
  }

  // A settlement is reported without payment if and only if no payment is matched to it and none
  // explains it.
  lemma OrphanExactly(rules: Rules, i: Input, s: Settlement)
    requires DistinctSettlements(i.settlements) && s in i.settlements
    ensures Draft(None, SettlementRef(s.id), SettlementWithoutPayment, 0, s.net, NoMethod, NoConfidence, None)
            in Drafts(rules, i) <==>
      && (forall p :: p in i.payments ==> !Settles(rules, i, p, s))
      && (forall p :: p in i.allPayments ==> !Explains(p, s.paymentId, s.provider, s.providerPaymentId))
  {
    SettlementCoverage(rules, i, s);
    UsedExactly(rules, i, s);
    ExplainedExactly(i, s.paymentId, s.provider, s.providerPaymentId);
  }

  // ---------- refunds nobody matched ----------

  // The refund belongs to a payment that has its settlement.
  ghost predicate Carried(rules: Rules, i: Input, r: Refund) {
    exists p, s :: p in i.payments && RefundFor(p, r) && Settles(rules, i, p, s)
  }

  // A settlement of the refund's provider for the refund's payment reference.
  predicate SettledAlongside(r: Refund, s: Settlement) {
    s.provider == r.provider && SameText(Some(s.providerPaymentId), Some(r.providerPaymentId))
  }

  lemma CarriedExactly(rules: Rules, i: Input, r: Refund)
    requires DistinctSettlements(i.settlements) && DistinctRefunds(i.refunds) && r in i.refunds
    ensures r.id in RefundsUsed(PlanFor(rules, i), i.payments) <==> Carried(rules, i, r)
  {
    var plan := PlanFor(rules, i);
    forall p ensures plan.match'(p).Some? <==> exists s :: Settles(rules, i, p, s) { OneOutcome(rules, i, p); }
    forall p, x | x in plan.refunds(p) && x.id == r.id ensures x == r && RefundFor(p, r) {
      RefundsMember(i, p, x);
      SameRefund(i.refunds, x, r);
    }
    forall p | RefundFor(p, r) ensures r in plan.refunds(p) { RefundsMember(i, p, r); }
  }

  lemma SameRefund(rs: seq<Refund>, a: Refund, b: Refund)
    requires DistinctRefunds(rs) && a in rs && b in rs && a.id == b.id
    ensures a == b
  {
    var j :| 0 <= j < |rs| && rs[j] == a;
    var k :| 0 <= k < |rs| && rs[k] == b;
  }

  lemma AlongsideExactly(i: Input, r: Refund)
    ensures SettlementsFor(i, r) == [] <==> forall s :: s in i.settlements ==> !SettledAlongside(r, s)
  {
    var f := SettlementsWith((r.provider, Normalize(Some(r.providerPaymentId))));
    HasMember(SettlementsFor(i, r));
    forall s ensures s in SettlementsFor(i, r) <==> s in i.settlements && SettledAlongside(r, s) {
      FilterMember(f, i.settlements, s);
    }
  }

  // What becomes of a refund: carried by its payment's settlement, or reported without payment, or
  // reported without settlement, or accounted for; from the fields.
  lemma RefundExactly(rules: Rules, i: Input, r: Refund)
    requires DistinctSettlements(i.settlements) && DistinctRefunds(i.refunds) && r in i.refunds
    ensures var used := RefundsUsed(PlanFor(rules, i), i.payments);
      RefundDrafts(used, i, r) ==
        if Carried(rules, i, r) then []
        else if forall p :: p in i.allPayments ==> !Explains(p, r.paymentId, r.provider, r.providerPaymentId)
        then [Draft(None, RefundRef(r.id), RefundWithoutPayment, 0, r.amount, NoMethod, NoConfidence, None)]
        else if forall s :: s in i.settlements ==> !SettledAlongside(r, s)
        then [Draft(Some(LinkedId(i, r)), RefundRef(r.id), RefundWithoutSettlement, r.amount, 0,
                    NoMethod, NoConfidence, None)]
        else []
  {
    CarriedExactly(rules, i, r);
    ExplainedExactly(i, r.paymentId, r.provider, r.providerPaymentId);
    AlongsideExactly(i, r);
  }

  // A run reports about a refund what RefundExactly says, and nothing else.
  lemma RefundReported(rules: Rules, i: Input, r: Refund, d: Draft)
    requires DistinctRefunds(i.refunds) && r in i.refunds && d.record == RefundRef(r.id)
    requires d.caseType == RefundWithoutPayment || d.caseType == RefundWithoutSettlement
    ensures d in Drafts(rules, i) <==> d in RefundDrafts(RefundsUsed(PlanFor(rules, i), i.payments), i, r)
  {
    var plan := PlanFor(rules, i);
    PlanTypes(rules, i);
    LeftoverOnly(plan, i, d);
    RefundInLeftovers(plan, i, r, d);
  }

  lemma RefundInLeftovers(plan: Plan, i: Input, r: Refund, d: Draft)
    requires DistinctRefunds(i.refunds) && r in i.refunds && d.record == RefundRef(r.id)
    ensures d in LeftoverDrafts(plan, i) <==> d in RefundDrafts(RefundsUsed(plan, i.payments), i, r)
  {
    var su, ru := SettlementsUsed(plan, i.payments), RefundsUsed(plan, i.payments);
    LeftoverMembers(plan, i, d);
    forall s ensures d !in SettlementDrafts(su, i, s) { }
    forall x | x in i.refunds && d in RefundDrafts(ru, i, x) ensures x == r { SameRefund(i.refunds, x, r); }
  }

  // ---------- identical settlements ----------

  predicate Twins(s: Settlement, t: Settlement) {
    && s.provider == t.provider && s.providerPaymentId == t.providerPaymentId && s.status == t.status
    && s.gross == t.gross && s.fee == t.fee && s.tax == t.tax && s.net == t.net
    && s.settledAt == t.settledAt && s.utr == t.utr && Upper(OwnCurrency(s)) == Upper(OwnCurrency(t))
  }

  function TwinAmounts(s: Settlement): Settlement -> int { (t: Settlement) => if Twins(s, t) then t.net else 0 }

  // s is the first of several identical settlements.
  ghost predicate FirstTwin(i: Input, s: Settlement) {
    && (exists t :: t in i.settlements && t != s && Twins(s, t))
    && (exists k :: 0 <= k < |i.settlements| && i.settlements[k] == s && forall m :: 0 <= m < k ==>
        !Twins(s, i.settlements[m]))
  }

  function TwinDraft(i: Input, s: Settlement): Draft {
    Draft(None, SettlementRef(s.id), DuplicateSettlement, s.net, Sum(TwinAmounts(s), i.settlements), NoMethod,
        NoConfidence, None)
  }

  lemma KeyIsTwins(s: Settlement, t: Settlement)
    ensures SettlementKeyOf(s) == SettlementKeyOf(t) <==> Twins(s, t)
  {
  }

  lemma {:induction false} FirstOfFilter<T>(f: T -> bool, s: seq<T>, k: nat)
    requires k < |s| && f(s[k]) && forall m :: 0 <= m < k ==> !f(s[m])
    ensures Filter(f, s) != [] && Filter(f, s)[0] == s[k]
  {
    if k == |s| - 1 { FilterNone(f, s[..k]); } else { FirstOfFilter(f, s[..|s| - 1], k); }
  }

  lemma {:induction false} FirstExists<T>(f: T -> bool, s: seq<T>) returns (k: nat)
    requires Filter(f, s) != []
    ensures k < |s| && f(s[k]) && (forall m :: 0 <= m < k ==> !f(s[m])) && Filter(f, s)[0] == s[k]
  {
    k := 0;
    while k < |s| && !f(s[k])
      invariant k <= |s| && forall m :: 0 <= m < k ==> !f(s[m])
    {
      k := k + 1;
    }
    if k == |s| {
      FilterNone(f, s);
      assert false;
    }
    FirstOfFilter(f, s, k);
  }

  lemma {:induction false} SettlementGroupMember(groups: seq<seq<Settlement>>, d: Draft)
    ensures d in DuplicateSettlementDrafts(groups) <==>
        exists g :: g in groups && g != [] && d == DuplicateSettlementDraft(g)
  {
    if groups != [] {
      SettlementGroupMember(groups[..|groups| - 1], d);
      assert groups == groups[..|groups| - 1] + [groups[|groups| - 1]];
    }
  }

  lemma TwinGroup(i: Input, s: Settlement)
    requires s in i.settlements
    ensures var g := Filter(HasKey(SettlementKeyOf, SettlementKeyOf(s)), i.settlements);
      && s in g && (forall t :: t in g <==> t in i.settlements && Twins(s, t))
      && Sum(Net, g) == Sum(TwinAmounts(s), i.settlements)
  {
    var f := HasKey(SettlementKeyOf, SettlementKeyOf(s));
    forall t ensures t in Filter(f, i.settlements) <==> t in i.settlements && Twins(s, t) {
      FilterMember(f, i.settlements, t);
      KeyIsTwins(s, t);
    }
    forall t ensures f(t) == Twins(s, t) { KeyIsTwins(s, t); }
    SumOfFilter(Net, f, TwinAmounts(s), i.settlements);
  }

  lemma TwinGroupListed(i: Input, s: Settlement)
    requires s in i.settlements && exists t :: t in i.settlements && t != s && Twins(s, t)
    ensures Filter(HasKey(SettlementKeyOf, SettlementKeyOf(s)), i.settlements) in DuplicateGroups(SettlementKeyOf,
        i.settlements)
  {
    var g := Filter(HasKey(SettlementKeyOf, SettlementKeyOf(s)), i.settlements);
    TwinGroup(i, s);
    var t :| t in i.settlements && t != s && Twins(s, t);
    TwoMembers(g, s, t);
    KeysMember(SettlementKeyOf, i.settlements, SettlementKeyOf(s));
    GroupsMember(SettlementKeyOf, i.settlements, KeysOf(SettlementKeyOf, i.settlements), g);
  }

  lemma FirstOfGroup(i: Input, s: Settlement)
    requires FirstTwin(i, s)
    ensures var g := Filter(HasKey(SettlementKeyOf, SettlementKeyOf(s)), i.settlements); g != [] && g[0] == s
  {
    var f := HasKey(SettlementKeyOf, SettlementKeyOf(s));
    var k :| 0 <= k < |i.settlements| && i.settlements[k] == s && forall m :: 0 <= m < k ==>
        !Twins(s, i.settlements[m]);
    forall m | 0 <= m < k ensures !f(i.settlements[m]) { KeyIsTwins(s, i.settlements[m]); }
    FirstOfFilter(f, i.settlements, k);
  }

  lemma TwinInGroups(i: Input, s: Settlement)
    requires s in i.settlements && FirstTwin(i, s)
    ensures TwinDraft(i, s) in DuplicateSettlementDrafts(DuplicateGroups(SettlementKeyOf, i.settlements))
  {
    TwinGroupListed(i, s);
    FirstOfGroup(i, s);
    TwinGroup(i, s);
    SettlementGroupMember(DuplicateGroups(SettlementKeyOf, i.settlements), TwinDraft(i, s));
    assert DuplicateSettlementDraft(Filter(HasKey(SettlementKeyOf, SettlementKeyOf(s)), i.settlements)) ==
        TwinDraft(i, s);
  }

  lemma GroupHasFirst(i: Input, g: seq<Settlement>)
    requires DistinctSettlements(i.settlements) && g in DuplicateGroups(SettlementKeyOf, i.settlements)
    ensures |g| > 1 && g[0] in i.settlements && FirstTwin(i, g[0]) && DuplicateSettlementDraft(g) == TwinDraft(i, g[0])
  {
    GroupsMember(SettlementKeyOf, i.settlements, KeysOf(SettlementKeyOf, i.settlements), g);
    var key :| key in KeysOf(SettlementKeyOf, i.settlements)
        && g == Filter(HasKey(SettlementKeyOf, key), i.settlements);
    var k := FirstExists(HasKey(SettlementKeyOf, key), i.settlements);
    var s := g[0];
    assert SettlementKeyOf(s) == key;
    TwinGroup(i, s);
    forall m | 0 <= m < k ensures !Twins(s, i.settlements[m]) { KeyIsTwins(s, i.settlements[m]); }
    DistinctNoRepeats(i.settlements);
    FilterNoDup(HasKey(SettlementKeyOf, key), i.settlements);
    assert g[1] in g && g[1] != s;
  }

  lemma DistinctNoRepeats(s: seq<Settlement>)
    requires DistinctSettlements(s)
    ensures NoDup(s)
  {
  }

  lemma OnlyDuplicates(plan: Plan, i: Input, d: Draft)
    requires Typed(plan) && d.caseType == DuplicateSettlement
    ensures d in DraftsOf(plan, i) <==> d in DuplicateSettlementDrafts(DuplicateGroups(SettlementKeyOf, i.settlements))
  {
    InRun(plan, i, d);
    NotInPass(plan, i, d);
    NotLeftover(plan, i, d);
    NotBankLeg(plan, i, d);
  }

  // Identical settlements are reported once, under the first of them, with what they add up to.
  lemma TwinsExactly(rules: Rules, i: Input, d: Draft)
    requires DistinctSettlements(i.settlements) && d.caseType == DuplicateSettlement
    ensures d in Drafts(rules, i) <==> exists s :: s in i.settlements && FirstTwin(i, s) && d == TwinDraft(i, s)
  {
    PlanTypes(rules, i);
    OnlyDuplicates(PlanFor(rules, i), i, d);
    TwinsInGroups(i, d);
  }

  lemma TwinsInGroups(i: Input, d: Draft)
    requires DistinctSettlements(i.settlements)
    ensures d in DuplicateSettlementDrafts(DuplicateGroups(SettlementKeyOf, i.settlements)) <==>
            exists s :: s in i.settlements && FirstTwin(i, s) && d == TwinDraft(i, s)
  {
    var groups := DuplicateGroups(SettlementKeyOf, i.settlements);
    SettlementGroupMember(groups, d);
    if s :| s in i.settlements && FirstTwin(i, s) && d == TwinDraft(i, s) { TwinInGroups(i, s); }
    if g :| g in groups && g != [] && d == DuplicateSettlementDraft(g) { GroupHasFirst(i, g); }
  }

  // ---------- settlements against the bank ----------

  function PayoutTexts(s: Settlement): seq<Option<string>> { [Some(s.settlementRef), s.utr] }

  function BankRowTexts(b: Bank): seq<Option<string>> {
    [b.reference, Get(b.meta, "settlement_reference"), Get(b.meta, "settlement_id"), Get(b.meta, "utr")]
  }

  // A bank row is referred to if one of its four texts is one of the settlement's two.
  lemma RefersExactly(s: Settlement, b: Bank)
    ensures Refers(s, b) <==> Share(PayoutTexts(s), BankRowTexts(b))
  {
    forall ref
      ensures ref in PayoutRefs(s) <==> Normalize(Some(s.settlementRef)) == Some(ref) || Normalize(s.utr) == Some(ref)
    {
    }
    forall ref ensures RefersBy(ref, b) <==> exists k :: 0 <= k < 4 && Normalize(BankRowTexts(b)[k]) == Some(ref) {
      RowReference(ref, b);
    }
    if Share(PayoutTexts(s), BankRowTexts(b)) {
      var j, k :| 0 <= j < 2 && 0 <= k < 4 && Names(PayoutTexts(s)[j], BankRowTexts(b)[k]);
      var ref := Normalize(PayoutTexts(s)[j]).value;
      assert Normalize(BankRowTexts(b)[k]) == Some(ref);
      assert ref in PayoutRefs(s) && RefersBy(ref, b);
    }
    if Refers(s, b) {
      var ref :| ref in PayoutRefs(s) && RefersBy(ref, b);
      var k :| 0 <= k < 4 && Normalize(BankRowTexts(b)[k]) == Some(ref);
      var j := if Normalize(Some(s.settlementRef)) == Some(ref) then 0 else 1;
      assert Names(PayoutTexts(s)[j], BankRowTexts(b)[k]);
    }
  }

  lemma RowReference(ref: string, b: Bank)
    ensures RefersBy(ref, b) <==> exists k :: 0 <= k < 4 && Normalize(BankRowTexts(b)[k]) == Some(ref)
  {
    var t := BankRowTexts(b);
    assert ref in BankRefs(b) <==>
        Normalize(t[0]) == Some(ref) || Normalize(t[1]) == Some(ref) || Normalize(t[2]) == Some(ref);
    assert BankUtr(b) == Some(ref) <==> Normalize(t[3]) == Some(ref);
  }

  // Amount within tolerance, and fewer than max(7, window) + 1 days apart, either way round.
  predicate CouldPay(rules: Rules, s: Settlement, b: Bank) {
    && s.net - rules.amountTolerance <= b.amount <= s.net + rules.amountTolerance
    && var days := if rules.windowDays > 7 then rules.windowDays else 7;
       Abs(s.settledAt - b.timestamp) < (days + 1) * 24 * 60 * 60 * 1_000_000
  }

  lemma WholeDays(t: nat, days: nat)
    ensures t / DAY <= days <==> t < (days + 1) * DAY
  {
  }

  // Which bank rows are candidates for a settlement's payout.
  predicate Payout(rules: Rules, i: Input, s: Settlement, b: Bank) {
    Lower(b.currency) == Lower(OwnCurrency(s)) && CouldPay(rules, s, b)
  }

  lemma PayoutExactly(rules: Rules, i: Input, s: Settlement, b: Bank)
    ensures Upper(b.currency) == SettlementCurrency(s) && PayoutFits(rules, s, b) <==> Payout(rules, i, s, b)
    ensures BankAgrees(s, b) <==> b.amount == s.net && Lower(b.currency) == Lower(OwnCurrency(s))
  {
    UpperLower(b.currency, OwnCurrency(s));
    WholeDays(Abs(b.timestamp - s.settledAt), Max(7, rules.windowDays));
  }

  ghost predicate MayBe(rules: Rules, i: Input, s: Settlement, b: Bank) {
    if exists x :: x in i.banks && Share(PayoutTexts(s), BankRowTexts(x)) then Share(PayoutTexts(s), BankRowTexts(b))
    else Payout(rules, i, s, b)
  }

  lemma CandidatesExactly(rules: Rules, i: Input, s: Settlement)
    requires DistinctBanks(i.banks)
    ensures NoDup(BankCandidates(rules, i, s))
    ensures forall b :: b in BankCandidates(rules, i, s) <==> b in i.banks && MayBe(rules, i, s, b)
  {
    CandidatesArePlainScan(rules, i, s);
    forall b ensures Refers(s, b) <==> Share(PayoutTexts(s), BankRowTexts(b)) { RefersExactly(s, b); }
    forall b ensures CouldBe(rules, i, s, b) <==> MayBe(rules, i, s, b) { PayoutExactly(rules, i, s, b); }
  }

  ghost predicate SeveralMayBe(rules: Rules, i: Input, s: Settlement) {
    exists a, b :: a in i.banks && b in i.banks && a != b && MayBe(rules, i, s, a) && MayBe(rules, i, s, b)
  }

  ghost predicate OnlyMayBe(rules: Rules, i: Input, s: Settlement, b: Bank) {
    b in i.banks && MayBe(rules, i, s, b) && forall x :: x in i.banks && MayBe(rules, i, s, x) ==> x == b
  }

  // Exactly one bank row may be the payout, and it differs in amount or currency.
  ghost predicate OnlyMisfits(rules: Rules, i: Input, s: Settlement) {
    exists b :: OnlyMayBe(rules, i, s, b) && (b.amount != s.net || Lower(b.currency) != Lower(OwnCurrency(s)))
  }

  // The run is for all merchants, or for the settlement's own.
  predicate Within(i: Input, s: Settlement) { i.merchant == None || i.merchant == Some("") || s.merchant == i.merchant }

  lemma InScopeIsWithin(i: Input, s: Settlement)
    ensures InScope(i, s) <==> Within(i, s)
  {
  }

  lemma OutOfScope(rules: Rules, i: Input, s: Settlement)
    requires DistinctSettlements(i.settlements) && s in i.settlements && !InScope(i, s)
    ensures !AmbiguityReported(Drafts(rules, i), s) && !MismatchReported(Drafts(rules, i), s)
  {
    var plan := PlanFor(rules, i);
    PlanTypes(rules, i);
    forall d | AboutPayout(d, s) ensures d !in DraftsOf(plan, i) { PayoutDraft(plan, i, s, d); }
  }

  // A settlement is reported ambiguous if and only if it is within the run's scope and two bank rows
  // may be its payout, and mismatching if and only if exactly one may be and it differs in amount or
  // currency.
  lemma PayoutOutcome(rules: Rules, i: Input, s: Settlement)
    requires DistinctBanks(i.banks) && DistinctSettlements(i.settlements) && s in i.settlements
    ensures AmbiguityReported(Drafts(rules, i), s) <==> Within(i, s) && SeveralMayBe(rules, i, s)
    ensures MismatchReported(Drafts(rules, i), s) <==> Within(i, s) && OnlyMisfits(rules, i, s)
  {
    InScopeIsWithin(i, s);
    if InScope(i, s) { InScopeOutcome(rules, i, s); } else { OutOfScope(rules, i, s); }
  }

  lemma SeveralCandidates(rules: Rules, i: Input, s: Settlement)
    requires DistinctBanks(i.banks)
    ensures |BankCandidates(rules, i, s)| > 1 <==> SeveralMayBe(rules, i, s)
  {
    CandidatesExactly(rules, i, s);
    SeveralMembers(BankCandidates(rules, i, s));
  }

  lemma OneCandidate(rules: Rules, i: Input, s: Settlement)
    requires DistinctBanks(i.banks)
    ensures var c := BankCandidates(rules, i, s); |c| == 1 && !BankAgrees(s, c[0]) <==> OnlyMisfits(rules, i, s)
  {
    var c := BankCandidates(rules, i, s);
    CandidatesExactly(rules, i, s);
    forall b ensures c == [b] <==> OnlyMayBe(rules, i, s, b) { OneMember(c, b); }
    forall b { PayoutExactly(rules, i, s, b); }
    if |c| == 1 { assert c == [c[0]]; }
  }

  lemma InScopeOutcome(rules: Rules, i: Input, s: Settlement)
    requires DistinctBanks(i.banks) && DistinctSettlements(i.settlements) && s in i.settlements && InScope(i, s)
    ensures AmbiguityReported(Drafts(rules, i), s) <==> SeveralMayBe(rules, i, s)
    ensures MismatchReported(Drafts(rules, i), s) <==> OnlyMisfits(rules, i, s)
  {
    BankOutcome(rules, i, s);
    SeveralCandidates(rules, i, s);
    OneCandidate(rules, i, s);
  }

  // The credit is the only possible payout of some settlement within the scope.
  ghost predicate OnlyPayout(rules: Rules, i: Input, b: Bank) {
    exists s :: s in i.settlements && Within(i, s) && OnlyMayBe(rules, i, s, b)
  }

  lemma OnlyPayoutIsSole(rules: Rules, i: Input, b: Bank)
    requires DistinctBanks(i.banks)
    ensures OnlyPayout(rules, i, b) <==> SoleCandidate(rules, i, b)
  {
    forall s ensures BankCandidates(rules, i, s) == [b] <==> OnlyMayBe(rules, i, s, b) {
      CandidatesExactly(rules, i, s);
      OneMember(BankCandidates(rules, i, s), b);
    }
  }

  // A positive credit is reported, with its amount, if and only if it is no such payout.
  lemma CreditExactly(rules: Rules, i: Input, b: Bank)
    requires DistinctBanks(i.banks) && b in i.banks && b.amount > 0
    ensures Draft(None, BankRef(b.id), BankWithoutSettlement, 0, b.amount, NoMethod, NoConfidence,
        None) in Drafts(rules, i)
            <==> !OnlyPayout(rules, i, b)
  {
    CreditCoverage(rules, i, b);
    OnlyPayoutIsSole(rules, i, b);
  }

  function AmbiguityCase(i: Input, s: Settlement, b: Bank): Draft {
    Draft(IdOf(PaymentById(i, s.paymentId)), SettlementRef(s.id), BankAmbiguousMatch, s.net, 0,
          NoMethod, NoConfidence, Some(b.id))
  }

  function MismatchCase(i: Input, s: Settlement, b: Bank): Draft {
    Draft(IdOf(PaymentById(i, s.paymentId)), BankRef(b.id), BankSettlementMismatch, s.net, b.amount,
          NoMethod, NoConfidence, Some(s.id))
  }

  lemma PayoutSource(plan: Plan, i: Input, d: Draft)
    requires Typed(plan) && d in DraftsOf(plan, i)
        && (d.caseType == BankAmbiguousMatch || d.caseType == BankSettlementMismatch)
    ensures exists s :: s in i.settlements && d in BankDrafts(i, s, plan.candidates(s))
  {
    BankLegOnly(plan, i, d);
    PayoutInLeg(plan, i, d);
  }

  lemma OutcomeSays(i: Input, s: Settlement, c: seq<Bank>, d: Draft)
    requires d in BankDrafts(i, s, c)
    ensures InScope(i, s)
    ensures d.caseType == BankAmbiguousMatch ==> |c| > 1 && d == AmbiguityCase(i, s, c[0])
    ensures d.caseType == BankSettlementMismatch ==> |c| == 1 && d == MismatchCase(i, s, c[0])
  {
  }

  lemma FiguresOf(plan: Plan, i: Input, d: Draft) returns (s: Settlement, b: Bank)
    requires Typed(plan) && d in DraftsOf(plan, i)
        && (d.caseType == BankAmbiguousMatch || d.caseType == BankSettlementMismatch)
    ensures s in i.settlements && InScope(i, s) && b in plan.candidates(s)
    ensures d == if d.caseType == BankAmbiguousMatch then AmbiguityCase(i, s, b) else MismatchCase(i, s, b)
  {
    PayoutSource(plan, i, d);
    s :| s in i.settlements && d in BankDrafts(i, s, plan.candidates(s));
    OutcomeSays(i, s, plan.candidates(s), d);
    b := plan.candidates(s)[0];
  }

  // What those reports say: the settlement's figures, and a candidate; or both sides of a mismatch.
  lemma PayoutFigures(rules: Rules, i: Input, d: Draft) returns (s: Settlement, b: Bank)
    requires d in Drafts(rules, i) && (d.caseType == BankAmbiguousMatch || d.caseType == BankSettlementMismatch)
    ensures s in i.settlements && Within(i, s) && b in BankCandidates(rules, i, s)
    ensures d == if d.caseType == BankAmbiguousMatch then AmbiguityCase(i, s, b) else MismatchCase(i, s, b)
  {
    PlanTypes(rules, i);
    s, b := FiguresOf(PlanFor(rules, i), i, d);
  }

  lemma IdOfLinked(i: Input, id: Option<nat>)
    ensures IdOf(PaymentById(i, id)) == if exists p :: p in i.allPayments && id == Some(p.id) then id else None
  {
    if id.Some? { FindsPayment((p: Payment) => p.id == id.value, i.allPayments); }
  }
}
