/** The run itself: a session holding the case table and the run's local variables. The ghost log
    lists the drafts reported so far; the table is always the log inserted into the table the run
    started from, and the counters are always its tally. */
module ReconciliationRuns {
  import opened Prelude
  import opened Text
  import opened Records
  import opened Matching
  import opened Matcher
  import opened CaseStore
  import opened ReconciliationSpec
  import opened Reconciler

  ghost predicate DistinctRefunds(s: seq<Refund>) { forall i, j :: 0 <= i < j < |s| ==> s[i].id != s[j].id }
  ghost predicate DistinctPayments(s: seq<Payment>) { forall i, j :: 0 <= i < j < |s| ==> s[i].id != s[j].id }

  lemma TallyStep(log: seq<Draft>, d: Draft)
    ensures Tally(log + [d]) == Bump(Tally(log), d.caseType)
  {
    assert (log + [d])[..|log + [d]| - 1] == log;
  }

  // The plan is what the records call for; each field is read only where it is computed.
  ghost predicate Realizes(plan: Plan, rules: Rules, i: Input) {
    && (forall p {:trigger OwnDrafts(i, p)} :: plan.own(p) == OwnDrafts(i, p))
    && (forall p {:trigger MatchDrafts(rules, i, p)} :: plan.matching(p) == MatchDrafts(rules, i, p))
    && (forall p {:trigger RefundsOf(i, p)} :: plan.refunds(p) == RefundsOf(i, p))
    && (forall p {:trigger MatchOf(rules, i, p)} :: plan.match'(p) == MatchOf(rules, i, p))
    && (forall s {:trigger BankCandidates(rules, i, s)} :: plan.candidates(s) == BankCandidates(rules, i, s))
  }

  // cases == InsertAll(base, year, log) and stats == Tally(log); as quantifiers, so that they are
  // looked into only where an insertion or a tally is at hand.
  ghost predicate IsInsertion(cases: seq<CaseRow>, base: seq<CaseRow>, year: int, log: seq<Draft>) {
    forall l {:trigger InsertAll(base, year, l)} :: l == log ==> cases == InsertAll(base, year, l)
  }

  ghost predicate IsTally(stats: Stats, log: seq<Draft>) {
    forall l {:trigger Tally(l)} :: l == log ==> stats == Tally(l)
  }

  class ReconciliationRun {
    var cases: seq<CaseRow>
    const year: int
    var created: nat
    var stats: Stats
    var matched: nat
    var bankMatched: nat
    var matchedSettlements: set<nat>
    var matchedRefunds: set<nat>
    var matchedBanks: set<nat>
    ghost var base: seq<CaseRow>
    ghost var log: seq<Draft>

    constructor (cases: seq<CaseRow>, year: int)
      ensures this.cases == cases && this.year == year && Valid()
      ensures base == cases && log == [] && created == 0
      ensures matched == 0 && bankMatched == 0
      ensures matchedSettlements == {} && matchedRefunds == {} && matchedBanks == {}
    {
      this.cases, this.year := cases, year;
      created, stats, matched, bankMatched := 0, ZERO, 0, 0;
      matchedSettlements, matchedRefunds, matchedBanks := {}, {}, {};
      base, log := cases, [];
    }

    ghost predicate Stored()
      reads this
    {
      IsInsertion(cases, base, year, log) && |cases| == |base| + created
    }

    ghost predicate Valid()
      reads this
    {
      Stored() && IsTally(stats, log)
    }

    // create_case: nothing if the fingerprint is stored, otherwise one row with the next number.
    method CreateCase(d: Draft) returns (added: bool)
      modifies `cases
      ensures cases == Insert(old(cases), year, d)
      ensures added <==> |cases| == |old(cases)| + 1
      ensures !added ==> cases == old(cases)
    {
      for k := 0 to |cases|
        invariant cases == old(cases)
        invariant forall j :: 0 <= j < k ==> KeyOf(cases[j]) != FromRun(FingerprintOf(d))
      {
        if KeyOf(cases[k]) == FromRun(FingerprintOf(d)) {
          assert cases[k] in cases;
          return false;
        }
      }
      var count := 0;
      for k := 0 to |cases|
        invariant cases == old(cases) && count == CountYear(cases[..k], year)
      {
        assert cases[..k + 1][..k] == cases[..k];
        if cases[k].number.year == year { count := count + 1; }
      }
      assert cases[..|cases|] == cases;
      cases := cases + [Opened(CaseNumber(year, count + 1), d)];
      return true;
    }

    // created += int(_case(...))
    method Report(d: Draft)
      requires Stored()
      modifies `cases, `created, `log
      ensures Stored() && log == old(log) + [d]
      ensures Tally(log) == Bump(old(Tally(log)), d.caseType)
    {
      TallyStep(log, d);
      InsertAllStep(base, year, log, d);
      assert cases == InsertAll(base, year, log);
      var added := CreateCase(d);
      if added { created := created + 1; }
      log := log + [d];
    }

    method ReportSettlementGroup(group: seq<Settlement>)
      requires Valid()
      modifies `cases, `created, `log, `stats
      ensures Valid() && log == old(log) + if |group| > 1 then [DuplicateSettlementDraft(group)] else []
    {
      if |group| > 1 {
        stats := stats.(duplicates := stats.duplicates + 1);
        Report(Plain(None, SettlementRef(group[0].id), DuplicateSettlement, group[0].net, Sum(Net, group)));
      }
    }

    method ReportNextSettlementGroup(ghost start: seq<Draft>, ghost settlements: seq<Settlement>,
                                     ghost keys: seq<SettlementKey>, ghost k: nat, group: seq<Settlement>)
      requires Valid() && k < |keys| && group == Filter(HasKey(SettlementKeyOf, keys[k]), settlements)
      requires log == start + DuplicateSettlementDrafts(GroupsOver(SettlementKeyOf, settlements, keys[..k]))
      modifies `cases, `created, `log, `stats
      ensures Valid() && log == start
          + DuplicateSettlementDrafts(GroupsOver(SettlementKeyOf, settlements, keys[..k + 1]))
    {
      SettlementGroupAppends(start, settlements, keys, k);
      ReportSettlementGroup(group);
    }

    method ReportSettlementGroupsOf(ghost settlements: seq<Settlement>, keys: seq<SettlementKey>,
                                    groups: map<SettlementKey, seq<Settlement>>)
      requires Valid() && forall k :: Lookup(groups, k) == Filter(HasKey(SettlementKeyOf, k), settlements)
      modifies `cases, `created, `log, `stats
      ensures Valid() && log == old(log) + DuplicateSettlementDrafts(GroupsOver(SettlementKeyOf, settlements, keys))
    {
      ghost var start := log;
      assert log == start + DuplicateSettlementDrafts(GroupsOver(SettlementKeyOf, settlements, keys[..0]));
      for k := 0 to |keys|
        invariant Valid() && log == start
            + DuplicateSettlementDrafts(GroupsOver(SettlementKeyOf, settlements, keys[..k]))
      {
        var group := Lookup(groups, keys[k]);
        ReportNextSettlementGroup(start, settlements, keys, k, group);
      }
      assert keys[..|keys|] == keys;
    }

    method ReportDuplicateSettlements(settlements: seq<Settlement>)
      requires Valid()
      modifies `cases, `created, `log, `stats
      ensures Valid() && log == old(log) + DuplicateSettlementDrafts(DuplicateGroups(SettlementKeyOf, settlements))
    {
      var keys, groups := GroupBy(SettlementKeyOf, settlements);
      ReportSettlementGroupsOf(settlements, keys, groups);
    }

    method ReportRefundGroup(p: Payment, group: seq<Refund>)
      requires Valid()
      modifies `cases, `created, `log, `stats
      ensures Valid() && log == old(log) + if |group| > 1 then [DuplicateRefundDraft(p, group)] else []
    {
      if |group| > 1 {
        stats := stats.(duplicates := stats.duplicates + 1);
        Report(Plain(Some(p.id), RefundRef(group[0].id), DuplicateRefund, group[0].amount, Sum(RefundAmount, group)));
      }
    }

    method ReportNextRefundGroup(ghost start: seq<Draft>, p: Payment, ghost refunds: seq<Refund>,
                                 ghost keys: seq<RefundKey>, ghost k: nat, group: seq<Refund>)
      requires Valid() && k < |keys| && group == Filter(HasKey(RefundKeyOf, keys[k]), refunds)
      requires log == start + DuplicateRefundDrafts(p, GroupsOver(RefundKeyOf, refunds, keys[..k]))
      modifies `cases, `created, `log, `stats
      ensures Valid() && log == start + DuplicateRefundDrafts(p, GroupsOver(RefundKeyOf, refunds, keys[..k + 1]))
    {
      RefundGroupAppends(start, p, refunds, keys, k);
      ReportRefundGroup(p, group);
    }

    method ReportRefundGroupsOf(p: Payment, ghost refunds: seq<Refund>, keys: seq<RefundKey>,
                                groups: map<RefundKey, seq<Refund>>)
      requires Valid() && forall k :: Lookup(groups, k) == Filter(HasKey(RefundKeyOf, k), refunds)
      modifies `cases, `created, `log, `stats
      ensures Valid() && log == old(log) + DuplicateRefundDrafts(p, GroupsOver(RefundKeyOf, refunds, keys))
    {
      ghost var start := log;
      assert log == start + DuplicateRefundDrafts(p, GroupsOver(RefundKeyOf, refunds, keys[..0]));
      for k := 0 to |keys|
        invariant Valid() && log == start + DuplicateRefundDrafts(p, GroupsOver(RefundKeyOf, refunds, keys[..k]))
      {
        var group := Lookup(groups, keys[k]);
        ReportNextRefundGroup(start, p, refunds, keys, k, group);
      }
      assert keys[..|keys|] == keys;
    }

    method ReportRefundGroups(p: Payment, refunds: seq<Refund>)
      requires Valid()
      modifies `cases, `created, `log, `stats
      ensures Valid() && log == old(log) + DuplicateRefundDrafts(p, DuplicateGroups(RefundKeyOf, refunds))
    {
      var keys, groups := GroupBy(RefundKeyOf, refunds);
      ReportRefundGroupsOf(p, refunds, keys, groups);
    }

    // Several refunds can be legitimate: only repeated provider references are reported.
    method ReportDuplicateRefunds(i: Input, p: Payment, refunds: seq<Refund>)
      requires Valid() && refunds == RefundsOf(i, p)
      modifies `cases, `created, `log, `stats
      ensures Valid() && log == old(log) + RefundDuplicates(i, p)
    {
      if |refunds| > 1 { ReportRefundGroups(p, refunds); }
    }

    method CheckOrder(i: Input, p: Payment, orders: seq<Payment>)
      requires Valid() && orders == SameOrder(i, p)
      modifies `cases, `created, `log, `stats
      ensures Valid() && log == old(log) + OrderDrafts(i, p)
    {
      if |orders| > 1 {
        Report(Plain(Some(p.id), PaymentRef(p.id), DuplicatePayment, p.amount, Sum(PaymentAmount, orders)));
        stats := stats.(duplicates := stats.duplicates + 1);
      }
    }

    method CheckStatus(p: Payment)
      requires Valid()
      modifies `cases, `created, `log, `stats
      ensures Valid() && log == old(log) + StatusDrafts(p)
    {
      if p.status !in RECONCILABLE {
        Report(Plain(Some(p.id), PaymentRef(p.id), StatusMismatch, p.amount, 0));
        stats := stats.(mismatch := stats.mismatch + 1);
      }
    }

    method CheckMissingRefund(i: Input, p: Payment, refunds: seq<Refund>)
      requires Valid() && refunds == RefundsOf(i, p)
      modifies `cases, `created, `log, `stats
      ensures Valid() && log == old(log) + MissingRefundDrafts(i, p)
    {
      if p.expectedRefund && refunds == [] {
        Report(Plain(Some(p.id), PaymentRef(p.id), MissingRefund, p.amount, 0));
        stats := stats.(unmatched := stats.unmatched + 1);
      }
    }

    // The checks on the payment alone, before any matching.
    method CheckPayment(i: Input, p: Payment, refunds: seq<Refund>, orders: seq<Payment>)
      requires Valid() && refunds == RefundsOf(i, p) && orders == SameOrder(i, p)
      modifies `cases, `created, `log, `stats
      ensures Valid() && log == old(log) + OwnDrafts(i, p)
    {
      OwnAppends(log, i, p);
      CheckOrder(i, p, orders);
      CheckStatus(p);
      ReportDuplicateRefunds(i, p, refunds);
      CheckMissingRefund(i, p, refunds);
    }

    method CheckFinal(p: Payment, m: Settlement, d: Decision, c: Calculation)
      requires Valid()
      modifies `cases, `created, `log, `stats
      ensures Valid() && log == old(log) + if !IsFinal(m) then [Linked(p, m, d, StatusMismatch, c)] else []
    {
      if Lower(m.status) !in FINAL {
        Report(Linked(p, m, d, StatusMismatch, c));
        stats := stats.(mismatch := stats.mismatch + 1);
      }
    }

    method CheckCurrency(p: Payment, m: Settlement, d: Decision, c: Calculation)
      requires Valid()
      modifies `cases, `created, `log, `stats
      ensures Valid() && log == old(log) + if !SameCurrency(p, m) then [Linked(p, m, d, CurrencyMismatch, c)] else []
    {
      if SettlementCurrency(m) != Upper(p.currency) {
        Report(Linked(p, m, d, CurrencyMismatch, c));
        stats := stats.(mismatch := stats.mismatch + 1);
      }
    }

    method CheckDelay(rules: Rules, p: Payment, m: Settlement, d: Decision, c: Calculation)
      requires Valid()
      modifies `cases, `created, `log, `stats
      ensures Valid() && log == old(log) + if Delayed(rules, p, m) then [Linked(p, m, d, DelayedSettlement, c)] else []
    {
      if m.settledAt > p.createdAt + rules.windowDays * DAY {
        stats := stats.(delayed := stats.delayed + 1);
        Report(Linked(p, m, d, DelayedSettlement, c));
      }
    }

    method CheckDifference(p: Payment, m: Settlement, d: Decision, c: Calculation)
      requires Valid()
      modifies `cases, `created, `log, `stats
      ensures Valid() && log == old(log) + if c.difference != 0 then [Linked(p, m, d, SettlementMismatch, c)] else []
    {
      if c.difference != 0 {
        stats := stats.(mismatch := stats.mismatch + 1);
        Report(Linked(p, m, d, SettlementMismatch, c));
      }
    }

    // The four comparisons of a matched pair.
    method CheckPair(rules: Rules, i: Input, p: Payment, m: Settlement, d: Decision, refunds: seq<Refund>)
      requires Valid() && refunds == RefundsOf(i, p)
      modifies `cases, `created, `log, `stats
      ensures Valid() && log == old(log) + PairDrafts(rules, i, p, m, d)
    {
      var c := Calculate(p, refunds, [m]);
      PairAppends(log, rules, i, p, m, d);
      CheckFinal(p, m, d, c);
      CheckCurrency(p, m, d, c);
      CheckDelay(rules, p, m, d, c);
      CheckDifference(p, m, d, c);
    }

    method ReportUnpaired(p: Payment, d: Decision)
      requires Valid()
      modifies `cases, `created, `log, `stats
      ensures Valid() && log == old(log) + [Unpaired(p, d)]
    {
      if d.candidates != [] {
        stats := stats.(ambiguous := stats.ambiguous + 1);
        Report(Draft(Some(p.id), PaymentRef(p.id), AmbiguousMatch, p.amount, 0, d.via, d.confidence, None));
      } else {
        stats := stats.(unmatched := stats.unmatched + 1);
        Report(Draft(Some(p.id), PaymentRef(p.id), PaymentWithoutSettlement, p.amount, 0, d.via, d.confidence, None));
      }
    }

    method MatchAndCheck(rules: Rules, i: Input, p: Payment, ix: Indexes, refunds: seq<Refund>)
      requires Valid() && refunds == RefundsOf(i, p)
      requires IndexesOf(ix, i.settlements) && DistinctSettlements(i.settlements)
      modifies `cases, `created, `log, `stats, `matched, `matchedSettlements, `matchedRefunds
      ensures Valid() && log == old(log) + MatchDrafts(rules, i, p)
      ensures var m := MatchOf(rules, i, p);
        && matched == old(matched) + (if m.Some? then 1 else 0)
        && matchedSettlements == old(matchedSettlements) + (if m.Some? then {m.value.id} else {})
        && matchedRefunds == old(matchedRefunds) + (if m.Some? then set r <- refunds :: r.id else {})
    {
      var decision, m := FindMatch(rules, i, p, ix);
      DraftsByDecision(rules, i, p, decision);
      if m.Some? {
        matchedSettlements := matchedSettlements + {m.value.id};
        matchedRefunds := matchedRefunds + set r <- refunds :: r.id;
        matched := matched + 1;
        CheckPair(rules, i, p, m.value, decision, refunds);
      } else {
        ReportUnpaired(p, decision);
      }
    }

    method PlannedCheck(ghost plan: Plan, ghost rules: Rules, i: Input, p: Payment, refunds: seq<Refund>,
                        ordersBy: map<(string, Option<string>), seq<Payment>>)
      requires Valid() && Realizes(plan, rules, i) && refunds == RefundsOf(i, p)
          && ListsOf(ordersBy, OrdersWith, i.payments)
      modifies `cases, `created, `log, `stats
      ensures Valid() && log == old(log) + plan.own(p)
    {
      var orders := if Given(p.orderId) then Lookup(ordersBy, (p.provider, Normalize(p.orderId))) else [];
      CheckPayment(i, p, refunds, orders);
    }

    method PlannedMatch(ghost plan: Plan, rules: Rules, i: Input, p: Payment, ix: Indexes, refunds: seq<Refund>)
      requires Valid() && Realizes(plan, rules, i) && refunds == RefundsOf(i, p)
      requires IndexesOf(ix, i.settlements) && DistinctSettlements(i.settlements)
      modifies `cases, `created, `log, `stats, `matched, `matchedSettlements, `matchedRefunds
      ensures Valid() && log == old(log) + plan.matching(p)
      ensures var m := plan.match'(p);
        && matched == old(matched) + (if m.Some? then 1 else 0)
        && matchedSettlements == old(matchedSettlements) + (if m.Some? then {m.value.id} else {})
        && matchedRefunds == old(matchedRefunds) + (if m.Some? then set r <- plan.refunds(p) :: r.id else {})
    {
      MatchAndCheck(rules, i, p, ix, refunds);
    }

    // One iteration of the payment loop.
    method ReconcilePayment(ghost plan: Plan, rules: Rules, i: Input, p: Payment, ix: Indexes,
                            refundsBy: map<(string, Option<string>), seq<Refund>>,
                            ordersBy: map<(string, Option<string>), seq<Payment>>)
      requires Valid() && Realizes(plan, rules, i)
      requires ListsOf(refundsBy, RefundsWith, i.refunds) && ListsOf(ordersBy, OrdersWith, i.payments)
      requires IndexesOf(ix, i.settlements) && DistinctSettlements(i.settlements)
      modifies `cases, `created, `log, `stats, `matched, `matchedSettlements, `matchedRefunds
      ensures Valid() && log == old(log) + (plan.own(p) + plan.matching(p))
      ensures var m := plan.match'(p);
        && matched == old(matched) + (if m.Some? then 1 else 0)
        && matchedSettlements == old(matchedSettlements) + (if m.Some? then {m.value.id} else {})
        && matchedRefunds == old(matchedRefunds) + (if m.Some? then set r <- plan.refunds(p) :: r.id else {})
    {
      var refunds := Lookup(refundsBy, PaymentKey(p));
      PlannedCheck(plan, rules, i, p, refunds, ordersBy);
      PlannedMatch(plan, rules, i, p, ix, refunds);
    }

    ghost predicate PaymentsDone(plan: Plan, ps: seq<Payment>)
      reads this
    {
      && matched == |Filter(HasMatch(plan), ps)|
      && matchedSettlements == SettlementsUsed(plan, ps)
      && matchedRefunds == RefundsUsed(plan, ps)
    }

    method ReconcileNext(ghost start: seq<Draft>, ghost plan: Plan, rules: Rules, i: Input, k: nat, ix: Indexes,
                         refundsBy: map<(string, Option<string>), seq<Refund>>,
                         ordersBy: map<(string, Option<string>), seq<Payment>>)
      requires Valid() && k < |i.payments| && Realizes(plan, rules, i)
      requires log == start + PaymentPass(plan, i.payments[..k]) && PaymentsDone(plan, i.payments[..k])
      requires ListsOf(refundsBy, RefundsWith, i.refunds) && ListsOf(ordersBy, OrdersWith, i.payments)
      requires IndexesOf(ix, i.settlements) && DistinctSettlements(i.settlements)
      modifies `cases, `created, `log, `stats, `matched, `matchedSettlements, `matchedRefunds
      ensures Valid() && log == start + PaymentPass(plan, i.payments[..k + 1])
          && PaymentsDone(plan, i.payments[..k + 1])
    {
      PaymentPassAppends(start, plan, i.payments, k);
      UsedStep(plan, i.payments, k);
      ReconcilePayment(plan, rules, i, i.payments[k], ix, refundsBy, ordersBy);
    }

    method ReconcilePayments(ghost plan: Plan, rules: Rules, i: Input, ix: Indexes,
                             refundsBy: map<(string, Option<string>), seq<Refund>>,
                             ordersBy: map<(string, Option<string>), seq<Payment>>)
      requires Valid() && PaymentsDone(plan, []) && Realizes(plan, rules, i)
      requires ListsOf(refundsBy, RefundsWith, i.refunds) && ListsOf(ordersBy, OrdersWith, i.payments)
      requires IndexesOf(ix, i.settlements) && DistinctSettlements(i.settlements)
      modifies `cases, `created, `log, `stats, `matched, `matchedSettlements, `matchedRefunds
      ensures Valid() && log == old(log) + PaymentPass(plan, i.payments)
      ensures PaymentsDone(plan, i.payments)
    {
      ghost var start := log;
      for k := 0 to |i.payments|
        invariant Valid() && log == start + PaymentPass(plan, i.payments[..k])
        invariant PaymentsDone(plan, i.payments[..k])
      {
        ReconcileNext(start, plan, rules, i, k, ix, refundsBy, ordersBy);
      }
      assert i.payments[..|i.payments|] == i.payments;
    }

    // A settlement no payment matched and no payment explains.
    method SweepSettlement(i: Input, s: Settlement)
      requires Valid()
      modifies `cases, `created, `log
      ensures Valid() && log == old(log) + SettlementDrafts(matchedSettlements, i, s)
    {
      if s.id !in matchedSettlements {
        var linked := LinkedPayment(i, s.paymentId, s.provider, s.providerPaymentId);
        if linked.None? { Report(Plain(None, SettlementRef(s.id), SettlementWithoutPayment, 0, s.net)); }
      }
    }

    method SweepSettlements(i: Input)
      requires Valid()
      modifies `cases, `created, `log
      ensures Valid() && log == old(log) + SettlementPass(matchedSettlements, i, i.settlements)
    {
      ghost var start := log;
      for k := 0 to |i.settlements|
        invariant Valid() && log == start + SettlementPass(matchedSettlements, i, i.settlements[..k])
      {
        SettlementPassStep(matchedSettlements, i, k);
        SweepSettlement(i, i.settlements[k]);
      }
      assert i.settlements[..|i.settlements|] == i.settlements;
    }

    method SweepRefund(i: Input, r: Refund, settlementsBy: map<(string, Option<string>), seq<Settlement>>)
      requires Valid() && ListsOf(settlementsBy, SettlementsWith, i.settlements)
      modifies `cases, `created, `log
      ensures Valid() && log == old(log) + RefundDrafts(matchedRefunds, i, r)
    {
      if r.id !in matchedRefunds {
        var linked := LinkedPayment(i, r.paymentId, r.provider, r.providerPaymentId);
        if linked.None? {
          Report(Plain(None, RefundRef(r.id), RefundWithoutPayment, 0, r.amount));
        } else {
          var settled := Lookup(settlementsBy, (r.provider, Normalize(Some(r.providerPaymentId))));
          if settled == [] {
            Report(Plain(Some(linked.value.id), RefundRef(r.id), RefundWithoutSettlement, r.amount, 0));
          }
        }
      }
    }

    method SweepRefunds(i: Input, settlementsBy: map<(string, Option<string>), seq<Settlement>>)
      requires Valid() && ListsOf(settlementsBy, SettlementsWith, i.settlements)
      modifies `cases, `created, `log
      ensures Valid() && log == old(log) + RefundPass(matchedRefunds, i, i.refunds)
    {
      ghost var start := log;
      for k := 0 to |i.refunds|
        invariant Valid() && log == start + RefundPass(matchedRefunds, i, i.refunds[..k])
      {
        RefundPassStep(matchedRefunds, i, k);
        SweepRefund(i, i.refunds[k], settlementsBy);
      }
      assert i.refunds[..|i.refunds|] == i.refunds;
    }

    ghost predicate BanksDone(plan: Plan, i: Input, ss: seq<Settlement>)
      reads this
    {
      bankMatched == |Filter(Agrees(plan, i), ss)| && matchedBanks == BanksUsed(plan, i, ss)
    }

    method ReportAmbiguousPayout(i: Input, s: Settlement, first: Bank)
      requires Valid()
      modifies `cases, `created, `log, `stats
      ensures Valid() && log == old(log) + [AmbiguousPayout(i, s, first)]
    {
      var payment := IdOf(PaymentById(i, s.paymentId));
      stats := stats.(bankAmbiguous := stats.bankAmbiguous + 1);
      Report(Draft(payment, SettlementRef(s.id), BankAmbiguousMatch, s.net, 0, NoMethod, NoConfidence, Some(first.id)));
    }

    method CheckPayout(i: Input, s: Settlement, bank: Bank)
      requires Valid()
      modifies `cases, `created, `log, `stats, `bankMatched
      ensures Valid() && log == old(log) + if BankAgrees(s, bank) then [] else [MismatchedPayout(i, s, bank)]
      ensures bankMatched == old(bankMatched) + if BankAgrees(s, bank) then 1 else 0
    {
      if bank.amount != s.net || Upper(bank.currency) != SettlementCurrency(s) {
        var payment := IdOf(PaymentById(i, s.paymentId));
        stats := stats.(bankMismatch := stats.bankMismatch + 1);
        Report(Draft(payment, BankRef(bank.id), BankSettlementMismatch, s.net, bank.amount, NoMethod, NoConfidence,
            Some(s.id)));
      } else {
        bankMatched := bankMatched + 1;
      }
    }

    // What the candidates of one in-scope settlement lead to.
    method ReconcileBank(i: Input, s: Settlement, candidates: seq<Bank>)
      requires Valid() && InScope(i, s)
      modifies `cases, `created, `log, `stats, `bankMatched, `matchedBanks
      ensures Valid() && log == old(log) + BankDrafts(i, s, candidates)
      ensures bankMatched == old(bankMatched) + if |candidates| == 1 && BankAgrees(s, candidates[0]) then 1 else 0
      ensures matchedBanks == old(matchedBanks) + if |candidates| == 1 then {candidates[0].id} else {}
    {
      if |candidates| > 1 {
        ReportAmbiguousPayout(i, s, candidates[0]);
      } else if |candidates| == 1 {
        matchedBanks := matchedBanks + {candidates[0].id};
        CheckPayout(i, s, candidates[0]);
      }
    }

    method ReconcileNextBank(ghost start: seq<Draft>, ghost plan: Plan, rules: Rules, i: Input, k: nat, ix: BankIndexes)
      requires Valid() && k < |i.settlements| && BankIndexesOf(ix, i.banks) && Realizes(plan, rules, i)
      requires log == start + BankPass(plan, i, i.settlements[..k]) && BanksDone(plan, i, i.settlements[..k])
      modifies `cases, `created, `log, `stats, `bankMatched, `matchedBanks
      ensures Valid() && log == start + BankPass(plan, i, i.settlements[..k + 1])
          && BanksDone(plan, i, i.settlements[..k + 1])
    {
      var s := i.settlements[k];
      BankPassAppends(start, plan, i, k);
      BankUsedStep(plan, i, k);
      if !(Given(i.merchant) && s.merchant != i.merchant) {
        var candidates := PlannedCandidates(plan, rules, i, ix, s);
        ReconcileBank(i, s, candidates);
      }
    }

    method ReconcileBanks(ghost plan: Plan, rules: Rules, i: Input, ix: BankIndexes)
      requires Valid() && BanksDone(plan, i, []) && BankIndexesOf(ix, i.banks) && Realizes(plan, rules, i)
      modifies `cases, `created, `log, `stats, `bankMatched, `matchedBanks
      ensures Valid() && log == old(log) + BankPass(plan, i, i.settlements)
      ensures BanksDone(plan, i, i.settlements)
    {
      ghost var start := log;
      for k := 0 to |i.settlements|
        invariant Valid() && log == start + BankPass(plan, i, i.settlements[..k])
        invariant BanksDone(plan, i, i.settlements[..k])
      {
        ReconcileNextBank(start, plan, rules, i, k, ix);
      }
      assert i.settlements[..|i.settlements|] == i.settlements;
    }

    // A positive credit that is nobody's sole candidate.
    method SweepCredit(b: Bank)
      requires Valid()
      modifies `cases, `created, `log, `stats
      ensures Valid() && log == old(log) + CreditDrafts(matchedBanks, b)
    {
      if b.id !in matchedBanks && b.amount > 0 {
        stats := stats.(bankUnmatched := stats.bankUnmatched + 1);
        Report(Plain(None, BankRef(b.id), BankWithoutSettlement, 0, b.amount));
      }
    }

    method SweepCredits(i: Input)
      requires Valid()
      modifies `cases, `created, `log, `stats
      ensures Valid() && log == old(log) + CreditPass(matchedBanks, i.banks)
    {
      ghost var start := log;
      for k := 0 to |i.banks|
        invariant Valid() && log == start + CreditPass(matchedBanks, i.banks[..k])
      {
        CreditPassStep(matchedBanks, i.banks, k);
        SweepCredit(i.banks[k]);
      }
      assert i.banks[..|i.banks|] == i.banks;
    }

    method ReconcileMatching(ghost plan: Plan, rules: Rules, i: Input)
      requires Valid() && PaymentsDone(plan, []) && Realizes(plan, rules, i) && DistinctSettlements(i.settlements)
      modifies `cases, `created, `log, `stats, `matched, `matchedSettlements, `matchedRefunds
      ensures Valid() && log == old(log) + MatchingDrafts(plan, i) && PaymentsDone(plan, i.payments)
    {
      MatchingAppends(log, plan, i);
      ReportDuplicateSettlements(i.settlements);
      var refundsBy := IndexRefunds(i.refunds);
      var ordersBy := IndexOrders(i.payments);
      var ix := BuildIndexes(i.settlements);
      ReconcilePayments(plan, rules, i, ix, refundsBy, ordersBy);
    }

    method SweepLeftovers(ghost plan: Plan, i: Input)
      requires Valid() && PaymentsDone(plan, i.payments)
      modifies `cases, `created, `log
      ensures Valid() && log == old(log) + LeftoverDrafts(plan, i)
    {
      var settlementsBy := IndexSettlements(i.settlements);
      SweepSettlements(i);
      SweepRefunds(i, settlementsBy);
    }

    // Settlements against the bank, then the credits left over.
    method ReconcileBankLeg(ghost plan: Plan, rules: Rules, i: Input)
      requires Valid() && BanksDone(plan, i, []) && Realizes(plan, rules, i)
      modifies `cases, `created, `log, `stats, `bankMatched, `matchedBanks
      ensures Valid() && log == old(log) + BankLegDrafts(plan, i)
      ensures bankMatched == |Filter(Agrees(plan, i), i.settlements)|
    {
      var indexes := IndexBanks(i.banks);
      ReconcileBanks(plan, rules, i, indexes);
      SweepCredits(i);
    }

    method Execute(ghost plan: Plan, rules: Rules, i: Input)
      requires Valid() && PaymentsDone(plan, []) && BanksDone(plan, i, []) && Realizes(plan, rules, i)
      requires DistinctSettlements(i.settlements)
      modifies `cases, `created, `log, `stats, `matched, `bankMatched, `matchedSettlements, `matchedRefunds,
          `matchedBanks
      ensures Valid() && log == old(log) + DraftsOf(plan, i)
      ensures matched == |Filter(HasMatch(plan), i.payments)| && bankMatched == |Filter(Agrees(plan, i), i.settlements)|
    {
      RunAppends(log, plan, i);
      ReconcileMatching(plan, rules, i);
      SweepLeftovers(plan, i);
      ReconcileBankLeg(plan, rules, i);
    }
  }

  method PlannedCandidates(ghost plan: Plan, rules: Rules, i: Input, ix: BankIndexes, s: Settlement)
      returns (found: seq<Bank>)
    requires BankIndexesOf(ix, i.banks) && Realizes(plan, rules, i)
    ensures found == plan.candidates(s)
  {
    found := CollectBankCandidates(rules, i, ix, s);
  }

  datatype Report = Report(created: nat, matched: nat, bankMatched: nat, stats: Stats)

  // run_reconciliation: reads the scoped records, writes the case table, returns its counters.
  method RunReconciliation(rules: Rules, db: Database, merchant: Option<string>, cases: seq<CaseRow>, year: int)
    returns (after: seq<CaseRow>, report: Report)
    requires DistinctSettlements(Scoped(db, merchant).settlements)
    ensures var i := Scoped(db, merchant); var plan := PlanFor(rules, i);
      && after == InsertAll(cases, year, Drafts(rules, i))
      && |after| == |cases| + report.created
      && report.matched == |Filter(HasMatch(plan), i.payments)|
      && report.bankMatched == |Filter(Agrees(plan, i), i.settlements)|
      && report.stats == Tally(Drafts(rules, i))
  {
    var i := Scoped(db, merchant);
    ghost var plan := PlanFor(rules, i);
    PlanRealizes(rules, i);
    var run := new ReconciliationRun(cases, year);
    run.Execute(plan, rules, i);
    after := run.cases;
    report := Report(run.created, run.matched, run.bankMatched, run.stats);
    assert run.log == Drafts(rules, i);
    assert after == InsertAll(cases, year, Drafts(rules, i));
  }

  lemma PlanRealizes(rules: Rules, i: Input)
    ensures Realizes(PlanFor(rules, i), rules, i)
  {
  }

  // The decision, and the settlement it names looked up among the provider's candidates.
  method FindMatch(rules: Rules, i: Input, p: Payment, ix: Indexes) returns (d: Decision, m: Option<Settlement>)
    requires IndexesOf(ix, i.settlements) && DistinctSettlements(i.settlements)
    ensures Same(d, Scan(rules, p, i.settlements)) && m == MatchOf(rules, i, p)
  {
    var candidates := Lookup(ix.byProvider, Lower(p.provider));
    d := MatchPayment(p, rules, ix, i.settlements);
    m := None;
    if d.matched && d.recordId.Some? {
      MatchIsListed(rules, p, i.settlements);
      ProviderListed(ix, i.settlements, p, d.recordId.value);
      var found := NextMatched(candidates, d.recordId.value);
      FilterMember(OfProvider(Lower(p.provider)), i.settlements, found);
      FindsSettlement(i.settlements, found);
      m := Some(found);
    }
  }

  // What a run reports about a pair does not depend on the order of the candidates.
  lemma PairSame(rules: Rules, i: Input, p: Payment, m: Settlement, a: Decision, b: Decision)
    requires Same(a, b)
    ensures PairDrafts(rules, i, p, m, a) == PairDrafts(rules, i, p, m, b)
  {
  }

  lemma DraftsByDecision(rules: Rules, i: Input, p: Payment, d: Decision)
    requires Same(d, Scan(rules, p, i.settlements))
    ensures MatchDrafts(rules, i, p)
            == if MatchOf(rules, i, p).Some? then PairDrafts(rules, i, p, MatchOf(rules, i, p).value, d)
                else [Unpaired(p, d)]
  {
    if MatchOf(rules, i, p).Some? {
      PairSame(rules, i, p, MatchOf(rules, i, p).value, d, Scan(rules, p, i.settlements));
    }
  }

  lemma RunAppends(log: seq<Draft>, plan: Plan, i: Input)
    ensures log + DraftsOf(plan, i) == log + MatchingDrafts(plan, i) + LeftoverDrafts(plan, i) + BankLegDrafts(plan, i)
  {
    Regroup(log, MatchingDrafts(plan, i), LeftoverDrafts(plan, i), BankLegDrafts(plan, i));
  }

  lemma MatchingAppends(log: seq<Draft>, plan: Plan, i: Input)
    ensures log + MatchingDrafts(plan, i)
         == log + DuplicateSettlementDrafts(DuplicateGroups(SettlementKeyOf, i.settlements))
             + PaymentPass(plan, i.payments)
  {
    RegroupTwo(log, DuplicateSettlementDrafts(DuplicateGroups(SettlementKeyOf, i.settlements)),
        PaymentPass(plan, i.payments));
  }

  lemma Regroup<T>(log: seq<T>, a: seq<T>, b: seq<T>, c: seq<T>)
    ensures log + (a + b + c) == log + a + b + c
  {
  }

  lemma RegroupFour<T>(log: seq<T>, a: seq<T>, b: seq<T>, c: seq<T>, d: seq<T>)
    ensures log + (a + b + c + d) == log + a + b + c + d
  {
    Regroup(log, a, b, c);
    assert log + (a + b + c + d) == log + (a + b + c) + d;
  }

  lemma RegroupTwo<T>(log: seq<T>, a: seq<T>, b: seq<T>)
    ensures log + (a + b) == log + a + b
  {
  }

  lemma OwnAppends(log: seq<Draft>, i: Input, p: Payment)
    ensures log + OwnDrafts(i, p) ==
            log + OrderDrafts(i, p) + StatusDrafts(p) + RefundDuplicates(i, p) + MissingRefundDrafts(i, p)
  {
    RegroupFour(log, OrderDrafts(i, p), StatusDrafts(p), RefundDuplicates(i, p), MissingRefundDrafts(i, p));
  }

  lemma PairAppends(log: seq<Draft>, rules: Rules, i: Input, p: Payment, m: Settlement, d: Decision)
    ensures var c := Calculate(p, RefundsOf(i, p), [m]);
      log + PairDrafts(rules, i, p, m, d) ==
        log + (if !IsFinal(m) then [Linked(p, m, d, StatusMismatch, c)] else [])
            + (if !SameCurrency(p, m) then [Linked(p, m, d, CurrencyMismatch, c)] else [])
            + (if Delayed(rules, p, m) then [Linked(p, m, d, DelayedSettlement, c)] else [])
            + (if c.difference != 0 then [Linked(p, m, d, SettlementMismatch, c)] else [])
  {
    var c := Calculate(p, RefundsOf(i, p), [m]);
    RegroupFour(log, if !IsFinal(m) then [Linked(p, m, d, StatusMismatch, c)] else [],
                if !SameCurrency(p, m) then [Linked(p, m, d, CurrencyMismatch, c)] else [],
                if Delayed(rules, p, m) then [Linked(p, m, d, DelayedSettlement, c)] else [],
                if c.difference != 0 then [Linked(p, m, d, SettlementMismatch, c)] else []);
  }

  lemma SettlementGroupAppends(log: seq<Draft>, s: seq<Settlement>, keys: seq<SettlementKey>, k: nat)
    requires k < |keys|
    ensures var g := Filter(HasKey(SettlementKeyOf, keys[k]), s);
      log + DuplicateSettlementDrafts(GroupsOver(SettlementKeyOf, s, keys[..k + 1]))
      == log + DuplicateSettlementDrafts(GroupsOver(SettlementKeyOf, s, keys[..k]))
         + if |g| > 1 then [DuplicateSettlementDraft(g)] else []
  {
    var g := Filter(HasKey(SettlementKeyOf, keys[k]), s);
    SettlementGroupStep(s, keys, k);
    RegroupTwo(log, DuplicateSettlementDrafts(GroupsOver(SettlementKeyOf, s, keys[..k])),
               if |g| > 1 then [DuplicateSettlementDraft(g)] else []);
  }

  lemma RefundGroupAppends(log: seq<Draft>, p: Payment, s: seq<Refund>, keys: seq<RefundKey>, k: nat)
    requires k < |keys|
    ensures var g := Filter(HasKey(RefundKeyOf, keys[k]), s);
      log + DuplicateRefundDrafts(p, GroupsOver(RefundKeyOf, s, keys[..k + 1]))
      == log + DuplicateRefundDrafts(p, GroupsOver(RefundKeyOf, s, keys[..k]))
         + if |g| > 1 then [DuplicateRefundDraft(p, g)] else []
  {
    var g := Filter(HasKey(RefundKeyOf, keys[k]), s);
    RefundGroupStep(p, s, keys, k);
    RegroupTwo(log, DuplicateRefundDrafts(p, GroupsOver(RefundKeyOf, s, keys[..k])),
               if |g| > 1 then [DuplicateRefundDraft(p, g)] else []);
  }

  lemma SettlementGroupStep(s: seq<Settlement>, keys: seq<SettlementKey>, k: nat)
    requires k < |keys|
    ensures var g := Filter(HasKey(SettlementKeyOf, keys[k]), s);
      DuplicateSettlementDrafts(GroupsOver(SettlementKeyOf, s, keys[..k + 1]))
      == DuplicateSettlementDrafts(GroupsOver(SettlementKeyOf, s, keys[..k]))
         + if |g| > 1 then [DuplicateSettlementDraft(g)] else []
  {
    assert keys[..k + 1][..k] == keys[..k];
    var before, g := GroupsOver(SettlementKeyOf, s, keys[..k]), Filter(HasKey(SettlementKeyOf, keys[k]), s);
    assert (before + [g])[..|before + [g]| - 1] == before;
    assert GroupsOver(SettlementKeyOf, s, keys[..k + 1]) == before + if |g| > 1 then [g] else [];
    if |g| > 1 {
      assert DuplicateSettlementDrafts(before + [g]) == DuplicateSettlementDrafts(before)
          + [DuplicateSettlementDraft(g)];
    } else {
      assert before + [] == before;
    }
  }

  lemma RefundGroupStep(p: Payment, s: seq<Refund>, keys: seq<RefundKey>, k: nat)
    requires k < |keys|
    ensures var g := Filter(HasKey(RefundKeyOf, keys[k]), s);
      DuplicateRefundDrafts(p, GroupsOver(RefundKeyOf, s, keys[..k + 1]))
      == DuplicateRefundDrafts(p, GroupsOver(RefundKeyOf, s, keys[..k]))
         + if |g| > 1 then [DuplicateRefundDraft(p, g)] else []
  {
    assert keys[..k + 1][..k] == keys[..k];
    var before, g := GroupsOver(RefundKeyOf, s, keys[..k]), Filter(HasKey(RefundKeyOf, keys[k]), s);
    assert (before + [g])[..|before + [g]| - 1] == before;
    assert GroupsOver(RefundKeyOf, s, keys[..k + 1]) == before + if |g| > 1 then [g] else [];
    if |g| > 1 {
      assert DuplicateRefundDrafts(p, before + [g]) == DuplicateRefundDrafts(p, before) + [DuplicateRefundDraft(p, g)];
    } else {
      assert before + [] == before;
    }
  }

  lemma ProviderListed(ix: Indexes, s: seq<Settlement>, p: Payment, id: nat)
    requires ReferenceIndexes(ix, s)
    requires exists x :: x in s && SameProvider(p, x) && x.id == id
    ensures exists x :: x in Lookup(ix.byProvider, Lower(p.provider)) && x.id == id
  {
    var x :| x in s && SameProvider(p, x) && x.id == id;
    FilterMember(OfProvider(Lower(p.provider)), s, x);
  }

  // ---------- one more element of each pass ----------

  lemma PaymentPassStep(plan: Plan, ps: seq<Payment>, k: nat)
    requires k < |ps|
    ensures PaymentPass(plan, ps[..k + 1]) == PaymentPass(plan, ps[..k]) + (plan.own(ps[k]) + plan.matching(ps[k]))
  {
    assert ps[..k + 1][..k] == ps[..k];
  }

  lemma PaymentPassAppends(log: seq<Draft>, plan: Plan, ps: seq<Payment>, k: nat)
    requires k < |ps|
    ensures log + PaymentPass(plan, ps[..k + 1]) == log + PaymentPass(plan, ps[..k])
        + (plan.own(ps[k]) + plan.matching(ps[k]))
  {
    PaymentPassStep(plan, ps, k);
    RegroupTwo(log, PaymentPass(plan, ps[..k]), plan.own(ps[k]) + plan.matching(ps[k]));
  }

  lemma BankPassAppends(log: seq<Draft>, plan: Plan, i: Input, k: nat)
    requires k < |i.settlements|
    ensures var s := i.settlements[k];
      log + BankPass(plan, i, i.settlements[..k + 1]) == log + BankPass(plan, i, i.settlements[..k])
          + BankDrafts(i, s, plan.candidates(s))
  {
    BankPassStep(plan, i, k);
    RegroupTwo(log, BankPass(plan, i, i.settlements[..k]),
        BankDrafts(i, i.settlements[k], plan.candidates(i.settlements[k])));
  }

  lemma SettlementPassStep(used: set<nat>, i: Input, k: nat)
    requires k < |i.settlements|
    ensures SettlementPass(used, i, i.settlements[..k + 1])
            == SettlementPass(used, i, i.settlements[..k]) + SettlementDrafts(used, i, i.settlements[k])
  {
    assert i.settlements[..k + 1][..k] == i.settlements[..k];
  }

  lemma RefundPassStep(used: set<nat>, i: Input, k: nat)
    requires k < |i.refunds|
    ensures RefundPass(used, i, i.refunds[..k + 1]) == RefundPass(used, i, i.refunds[..k])
        + RefundDrafts(used, i, i.refunds[k])
  {
    assert i.refunds[..k + 1][..k] == i.refunds[..k];
  }

  lemma BankPassStep(plan: Plan, i: Input, k: nat)
    requires k < |i.settlements|
    ensures var s := i.settlements[k];
      BankPass(plan, i, i.settlements[..k + 1]) == BankPass(plan, i, i.settlements[..k])
          + BankDrafts(i, s, plan.candidates(s))
  {
    assert i.settlements[..k + 1][..k] == i.settlements[..k];
  }

  lemma CreditPassStep(used: set<nat>, bs: seq<Bank>, k: nat)
    requires k < |bs|
    ensures CreditPass(used, bs[..k + 1]) == CreditPass(used, bs[..k]) + CreditDrafts(used, bs[k])
  {
    assert bs[..k + 1][..k] == bs[..k];
  }

  lemma UsedStep(plan: Plan, ps: seq<Payment>, k: nat)
    requires k < |ps|
    ensures var m := plan.match'(ps[k]);
      && |Filter(HasMatch(plan), ps[..k + 1])| == |Filter(HasMatch(plan), ps[..k])| + (if m.Some? then 1 else 0)
      && SettlementsUsed(plan, ps[..k + 1]) == SettlementsUsed(plan, ps[..k]) + (if m.Some? then {m.value.id} else {})
      && RefundsUsed(plan, ps[..k + 1]) == RefundsUsed(plan, ps[..k])
          + (if m.Some? then set r <- plan.refunds(ps[k]) :: r.id else {})
  {
    FilterStep(HasMatch(plan), ps, k);
    assert ps[..k + 1] == ps[..k] + [ps[k]];
  }

  lemma BankUsedStep(plan: Plan, i: Input, k: nat)
    requires k < |i.settlements|
    ensures var ss, s := i.settlements, i.settlements[k]; var b := SoleBank(i, s, plan.candidates(s));
      && |Filter(Agrees(plan, i), ss[..k + 1])| == |Filter(Agrees(plan, i), ss[..k])|
          + (if b.Some? && BankAgrees(s, b.value) then 1 else 0)
      && BanksUsed(plan, i, ss[..k + 1]) == BanksUsed(plan, i, ss[..k]) + (if b.Some? then {b.value.id} else {})
  {
    FilterStep(Agrees(plan, i), i.settlements, k);
    assert i.settlements[..k + 1] == i.settlements[..k] + [i.settlements[k]];
  }
}
