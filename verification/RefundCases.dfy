/** Refunds without a settlement. Their fingerprint carries the linked payment and the amount but
    not the refund, so equal refunds of one payment share a single case: a refund gets a case of its
    own exactly when no equal one was reported before it, in this run or an earlier one. */
module RefundCases {
  import opened Prelude
  import opened Records
  import opened CaseStore
  import opened ReconciliationSpec
  import opened ReconciliationRuns
  import opened ReconciliationTheorems
  import opened ReconciliationCoverage

  predicate Unsettled(used: set<nat>, i: Input, r: Refund) {
    && r.id !in used
    && LinkedPayment(i, r.paymentId, r.provider, r.providerPaymentId).Some?
    && SettlementsFor(i, r) == []
  }

  function LinkedId(i: Input, r: Refund): nat {
    var linked := LinkedPayment(i, r.paymentId, r.provider, r.providerPaymentId);
    if linked.Some? then linked.value.id else 0
  }

  function UnsettledDraft(i: Input, r: Refund): Draft {
    Plain(Some(LinkedId(i, r)), RefundRef(r.id), RefundWithoutSettlement, r.amount, 0)
  }

  // ---------- the refund pass within the run ----------

  function Reports(used: set<nat>, i: Input): Refund -> seq<Draft> { (r: Refund) => RefundDrafts(used, i, r) }

  lemma RunAroundRefunds(plan: Plan, i: Input)
    ensures var used := RefundsUsed(plan, i.payments);
      DraftsOf(plan, i) ==
        MatchingDrafts(plan, i) + SettlementPass(SettlementsUsed(plan, i.payments), i, i.settlements)
        + FlatMap(Reports(used, i), i.refunds) + BankLegDrafts(plan, i)
  {
    var used := RefundsUsed(plan, i.payments);
    SameMap(Reports(used, i), (r: Refund) => RefundDrafts(used, i, r), i.refunds);
    RegroupTwo(MatchingDrafts(plan, i), SettlementPass(SettlementsUsed(plan, i.payments), i, i.settlements),
               RefundPass(used, i, i.refunds));
  }

  lemma NotMatching(plan: Plan, i: Input, d: Draft)
    requires Typed(plan) && d.caseType == RefundWithoutSettlement
    ensures d !in MatchingDrafts(plan, i)
  {
    NotInPass(plan, i, d);
    NotDuplicate(i, d);
  }

  lemma NotOrphan(used: set<nat>, i: Input, d: Draft)
    requires d.caseType == RefundWithoutSettlement
    ensures d !in SettlementPass(used, i, i.settlements)
  {
    FlatMapMember((s: Settlement) => SettlementDrafts(used, i, s), i.settlements, d);
  }

  lemma OtherPasses(plan: Plan, i: Input, e: Draft)
    requires Typed(plan) && e.caseType == RefundWithoutSettlement
    ensures e !in MatchingDrafts(plan, i) + SettlementPass(SettlementsUsed(plan, i.payments), i, i.settlements)
    ensures e !in BankLegDrafts(plan, i)
  {
    NotMatching(plan, i, e);
    NotOrphan(SettlementsUsed(plan, i.payments), i, e);
    if e in BankLegDrafts(plan, i) { BankLegTypes(plan, i, e); }
  }

  lemma OwnReports(used: set<nat>, i: Input, r: Refund, e: Draft)
    requires e in Reports(used, i)(r)
    ensures e.record == RefundRef(r.id)
  {
  }

  lemma OnlyRefunds(plan: Plan, i: Input, k: nat)
    requires Typed(plan) && DistinctRefunds(i.refunds) && k < |i.refunds|
    requires Unsettled(RefundsUsed(plan, i.payments), i, i.refunds[k])
    ensures OnlyPass(MatchingDrafts(plan, i) + SettlementPass(SettlementsUsed(plan, i.payments), i, i.settlements),
                     Reports(RefundsUsed(plan, i.payments), i), i.refunds, BankLegDrafts(plan, i),
                     RefundWithoutSettlement, k, UnsettledDraft(i, i.refunds[k]))
  {
    var pre := MatchingDrafts(plan, i) + SettlementPass(SettlementsUsed(plan, i.payments), i, i.settlements);
    var f, d := Reports(RefundsUsed(plan, i.payments), i), UnsettledDraft(i, i.refunds[k]);
    forall e | e in pre || e in BankLegDrafts(plan, i) ensures e.caseType != RefundWithoutSettlement {
      if e.caseType == RefundWithoutSettlement { OtherPasses(plan, i, e); }
    }
    forall j, e | 0 <= j < |i.refunds| && j != k && e in f(i.refunds[j]) ensures !SameSubject(e, d) {
      OwnReports(RefundsUsed(plan, i.payments), i, i.refunds[j], e);
    }
    assert f(i.refunds[k]) == [d];
  }

  // ---------- whose case it is ----------

  ghost predicate HasOwnCase(rows: seq<CaseRow>, r: Refund) { FiledFor(rows, RefundWithoutSettlement, RefundRef(r.id)) }

  // An earlier unsettled refund of the same payment and amount.
  ghost predicate Shares(used: set<nat>, i: Input, m: nat, k: nat)
    requires k < |i.refunds|
  {
    && m < k && Unsettled(used, i, i.refunds[m])
    && LinkedId(i, i.refunds[m]) == LinkedId(i, i.refunds[k]) && i.refunds[m].amount == i.refunds[k].amount
  }

  lemma ReportedIsShared(used: set<nat>, i: Input, k: nat)
    requires k < |i.refunds| && Unsettled(used, i, i.refunds[k])
    ensures ReportedBefore(Reports(used, i), i.refunds, k, UnsettledDraft(i, i.refunds[k])) <==>
        exists m :: Shares(used, i, m, k)
  {
    var f, d := Reports(used, i), UnsettledDraft(i, i.refunds[k]);
    if m: nat :| Shares(used, i, m, k) {
      var e := UnsettledDraft(i, i.refunds[m]);
      assert f(i.refunds[m]) == [e];
      assert e in f(i.refunds[m]) && FingerprintOf(e) == FingerprintOf(d);
    }
    if ReportedBefore(f, i.refunds, k, d) {
      var j, e :| 0 <= j < k && e in f(i.refunds[j]) && FingerprintOf(e) == FingerprintOf(d);
      assert Shares(used, i, j, k);
    }
  }

  // From any table in which refund k has no REFUND_WITHOUT_SETTLEMENT case of its own: the run gives
  // it one if and only if its fingerprint is not on file and no earlier refund of the run shares its
  // linked payment and amount.
  lemma OwnCaseExactlyFirst(rules: Rules, i: Input, rows: seq<CaseRow>, year: int, k: nat)
    requires k < |i.refunds| && DistinctRefunds(i.refunds) && !HasOwnCase(rows, i.refunds[k])
    requires Unsettled(RefundsUsed(PlanFor(rules, i), i.payments), i, i.refunds[k])
    ensures HasOwnCase(InsertAll(rows, year, Drafts(rules, i)), i.refunds[k])
            <==> FromRun(FingerprintOf(UnsettledDraft(i, i.refunds[k]))) !in Keys(rows)
                 && forall m :: !Shares(RefundsUsed(PlanFor(rules, i), i.payments), i, m, k)
  {
    var plan := PlanFor(rules, i);
    var used := RefundsUsed(plan, i.payments);
    PlanTypes(rules, i);
    RunAroundRefunds(plan, i);
    OnlyRefunds(plan, i, k);
    var pre := MatchingDrafts(plan, i) + SettlementPass(SettlementsUsed(plan, i.payments), i, i.settlements);
    OwnCaseExactly(rows, year, pre, Reports(used, i), i.refunds, BankLegDrafts(plan, i), RefundWithoutSettlement, k,
                   UnsettledDraft(i, i.refunds[k]));
    ReportedIsShared(used, i, k);
  }

  // Every refund is matched, is explained by a payment with settlements, or has a case on file.
  lemma RefundCoverage(rules: Rules, i: Input, rows: seq<CaseRow>, year: int, r: Refund)
    requires r in i.refunds
    ensures var used, linked := RefundsUsed(PlanFor(rules, i), i.payments),
        LinkedPayment(i, r.paymentId, r.provider, r.providerPaymentId);
      || r.id in used
      || (linked.Some? && SettlementsFor(i, r) != [])
      || exists row :: row in InsertAll(rows, year, Drafts(rules, i)) && row.Opened? &&
           FingerprintOf(row.draft) == FingerprintOf(
             if linked.None? then Plain(None, RefundRef(r.id), RefundWithoutPayment, 0, r.amount)
             else UnsettledDraft(i, r))
  {
    var plan := PlanFor(rules, i);
    var used, linked := RefundsUsed(plan, i.payments), LinkedPayment(i, r.paymentId, r.provider, r.providerPaymentId);
    if r.id !in used && !(linked.Some? && SettlementsFor(i, r) != []) {
      var d := if linked.None? then Plain(None, RefundRef(r.id), RefundWithoutPayment, 0, r.amount)
          else UnsettledDraft(i, r);
      assert d in RefundDrafts(used, i, r);
      FlatMapMember((r: Refund) => RefundDrafts(used, i, r), i.refunds, d);
      assert d in LeftoverDrafts(plan, i);
      DraftHasRow(rows, year, DraftsOf(plan, i), d);
    }
  }

  // The smallest instance: two refunds of 50 on one payment without a settlement.
  function EqualRefunds(): Input {
    var p := Payment(1, "razorpay", "pay_1", None, None, 100, "INR", "captured", 0, false, map[]);
    var a := Refund(1, "razorpay", "rfnd_1", "pay_1", Some(1), None, 50, "processed");
    Input([p], [p], [a, a.(id := 2, providerRefundId := "rfnd_2")], [], [], None)
  }

  lemma EqualRefundsUnsettled(rules: Rules, i: Input)
    requires EqualRefunds().refunds[0] in i.refunds && i.payments == i.allPayments == EqualRefunds().payments
        && i.settlements == []
    ensures RefundsUsed(PlanFor(rules, i), i.payments) == {}
    ensures forall r :: r in EqualRefunds().refunds ==> Unsettled({}, i, r) && LinkedId(i, r) == 1
  {
    var p := i.payments[0];
    assert PlanFor(rules, i).match'(p) == None by { assert MatchOf(rules, i, p) == None; }
  }

  // Reported in one run, they end with one case, the first one's.
  lemma EqualRefundsShareACase(rules: Rules, year: int)
    ensures var i := EqualRefunds();
      var after := InsertAll([], year, Drafts(rules, i));
      HasOwnCase(after, i.refunds[0]) && !HasOwnCase(after, i.refunds[1])
  {
    var i := EqualRefunds();
    EqualRefundsUnsettled(rules, i);
    OwnCaseExactlyFirst(rules, i, [], year, 0);
    OwnCaseExactlyFirst(rules, i, [], year, 1);
    assert Shares({}, i, 0, 1);
  }

  function FirstRefund(): Input { EqualRefunds().(refunds := [EqualRefunds().refunds[0]]) }

  ghost function DayOne(rules: Rules, year: int): seq<CaseRow> { InsertAll([], year, Drafts(rules, FirstRefund())) }

  lemma FirstIsFiled(rules: Rules, year: int)
    ensures var i := EqualRefunds();
      && HasOwnCase(DayOne(rules, year), i.refunds[0]) && !HasOwnCase(DayOne(rules, year), i.refunds[1])
  {
    EqualRefundsUnsettled(rules, FirstRefund());
    OwnCaseExactlyFirst(rules, FirstRefund(), [], year, 0);
    NotYet(rules, FirstRefund(), year, EqualRefunds().refunds[1]);
  }

  // Arriving between two runs, the second one gets none either: its fingerprint is on file.
  lemma LaterEqualRefundGetsNoCase(rules: Rules, year: int)
    ensures var i := EqualRefunds();
      && HasOwnCase(DayOne(rules, year), i.refunds[0])
      && !HasOwnCase(InsertAll(DayOne(rules, year), year, Drafts(rules, i)), i.refunds[1])
  {
    var i := EqualRefunds();
    FirstIsFiled(rules, year);
    EqualRefundsUnsettled(rules, i);
    OwnCaseExactlyFirst(rules, i, DayOne(rules, year), year, 1);
    assert Shares({}, i, 0, 1);
  }

  lemma NotYet(rules: Rules, i: Input, year: int, other: Refund)
    requires forall r :: r in i.refunds ==> r.id != other.id
    ensures !HasOwnCase(InsertAll([], year, Drafts(rules, i)), other)
  {
    var plan := PlanFor(rules, i);
    PlanTypes(rules, i);
    if row :| row in InsertAll([], year, DraftsOf(plan, i)) && row.Opened?
              && row.draft.caseType == RefundWithoutSettlement && row.draft.record == RefundRef(other.id) {
      RowsComeFrom([], year, DraftsOf(plan, i), row);
      LeftoverOnly(plan, i, row.draft);
      OfOwnRefund(plan, i, row.draft);
    }
  }

  lemma OfOwnRefund(plan: Plan, i: Input, d: Draft)
    requires d in LeftoverDrafts(plan, i) && d.caseType == RefundWithoutSettlement
    ensures exists r :: r in i.refunds && d.record == RefundRef(r.id)
  {
    LeftoverMembers(plan, i, d);
  }
}
