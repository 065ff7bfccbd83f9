/** What the counters of a run count: every one as a number of drafts by kind, and the ones about
    payments as numbers of payments, from the records. */
module RunCounters {
  import opened Prelude
  import opened Records
  import opened Matching
  import opened CaseStore
  import opened ReconciliationSpec
  import opened ReconciliationRuns
  import opened ReconciliationTheorems
  import opened ReconciliationCoverage
  import opened PaymentCases

  function OfKind(t: CaseType): Draft -> bool { (d: Draft) => d.caseType == t }

  function Count(t: CaseType, ds: seq<Draft>): nat { |Filter(OfKind(t), ds)| }

  lemma CountAppend(t: CaseType, a: seq<Draft>, b: seq<Draft>)
    ensures Count(t, a + b) == Count(t, a) + Count(t, b)
  {
    FilterAppend(OfKind(t), a, b);
  }

  lemma CountOne(t: CaseType, d: Draft)
    ensures Count(t, [d]) == if d.caseType == t then 1 else 0
  {
    FilterOne(OfKind(t), d);
  }

  lemma CountNone(t: CaseType, ds: seq<Draft>)
    requires !HasKind(ds, t)
    ensures Count(t, ds) == 0
  {
    forall k | 0 <= k < |ds| ensures ds[k].caseType != t { assert ds[k] in ds; }
    FilterNone(OfKind(t), ds);
  }

  // ---------- every counter is a number of drafts ----------

  // The counters hold these numbers of drafts by kind.
  predicate Holds(stats: Stats, n: CaseType -> nat) {
    && stats.unmatched == n(MissingRefund) + n(PaymentWithoutSettlement)
    && stats.ambiguous == n(AmbiguousMatch)
    && stats.mismatch == n(StatusMismatch) + n(CurrencyMismatch) + n(SettlementMismatch)
    && stats.delayed == n(DelayedSettlement)
    && stats.duplicates == n(DuplicateSettlement) + n(DuplicatePayment) + n(DuplicateRefund)
    && stats.bankUnmatched == n(BankWithoutSettlement)
    && stats.bankMismatch == n(BankSettlementMismatch)
    && stats.bankAmbiguous == n(BankAmbiguousMatch)
  }

  function Counts(ds: seq<Draft>): CaseType -> nat { (t: CaseType) => Count(t, ds) }

  lemma BumpHolds(stats: Stats, n: CaseType -> nat, m: CaseType -> nat, t: CaseType)
    requires Holds(stats, n) && forall u :: m(u) == n(u) + if u == t then 1 else 0
    ensures Holds(Bump(stats, t), m)
  {
  }

  lemma CountLast(t: CaseType, ds: seq<Draft>)
    requires ds != []
    ensures Count(t, ds) == Count(t, ds[..|ds| - 1]) + if ds[|ds| - 1].caseType == t then 1 else 0
  {
    assert ds == ds[..|ds| - 1] + [ds[|ds| - 1]];
    CountAppend(t, ds[..|ds| - 1], [ds[|ds| - 1]]);
    CountOne(t, ds[|ds| - 1]);
  }

  lemma {:induction false} TallyCounts(ds: seq<Draft>)
    ensures Holds(Tally(ds), Counts(ds))
  {
    if ds != [] {
      TallyCounts(ds[..|ds| - 1]);
      forall t { CountLast(t, ds); }
      BumpHolds(Tally(ds[..|ds| - 1]), Counts(ds[..|ds| - 1]), Counts(ds), ds[|ds| - 1].caseType);
    }
  }

  // ---------- one payment ----------

  lemma CountAtMostOne(t: CaseType, ds: seq<Draft>)
    requires |ds| <= 1
    ensures Count(t, ds) == if HasKind(ds, t) then 1 else 0
  {
    if |ds| == 1 {
      assert ds == [ds[0]];
      CountOne(t, ds[0]);
      KindOfOne(ds[0], t);
    } else {
      CountNone(t, ds);
    }
  }

  lemma CountFour(t: CaseType, a: seq<Draft>, b: seq<Draft>, c: seq<Draft>, d: seq<Draft>)
    ensures Count(t, a + b + c + d) == Count(t, a) + Count(t, b) + Count(t, c) + Count(t, d)
  {
    CountAppend(t, a + b + c, d);
    CountAppend(t, a + b, c);
    CountAppend(t, a, b);
  }

  function One(cond: bool): nat { if cond then 1 else 0 }

  lemma OwnCount(i: Input, p: Payment, t: CaseType)
    requires t != DuplicateRefund && DistinctRefunds(i.refunds) && DistinctPayments(i.payments) && p in i.payments
    ensures Count(t, OwnDrafts(i, p)) == One(OwnCalls(i, p, t))
  {
    var a, b, c, d := OrderDrafts(i, p), StatusDrafts(p), RefundDuplicates(i, p), MissingRefundDrafts(i, p);
    CountFour(t, a, b, c, d);
    OrderKinds(i, p, t);
    StatusKinds(p, t);
    RefundKinds(i, p, t);
    MissingKinds(i, p, t);
    CountAtMostOne(t, a);
    CountAtMostOne(t, b);
    CountNone(t, c);
    CountAtMostOne(t, d);
  }

  lemma CountIf(t: CaseType, cond: bool, d: Draft)
    ensures Count(t, if cond then [d] else []) == One(cond && d.caseType == t)
  {
    if cond { CountOne(t, d); }
  }

  lemma PairCount(rules: Rules, i: Input, p: Payment, m: Settlement, s: Decision, t: CaseType)
    ensures Count(t, PairDrafts(rules, i, p, m, s)) == One(PairCalls(rules, i, p, m, t))
  {
    var c := Calculate(p, RefundsOf(i, p), [m]);
    var a, b := Linked(p, m, s, StatusMismatch, c), Linked(p, m, s, CurrencyMismatch, c);
    var e, f := Linked(p, m, s, DelayedSettlement, c), Linked(p, m, s, SettlementMismatch, c);
    PairConditions(rules, i, p, m);
    CountIf(t, !IsFinal(m), a);
    CountIf(t, !SameCurrency(p, m), b);
    CountIf(t, Delayed(rules, p, m), e);
    CountIf(t, c.difference != 0, f);
    CountFour(t, if !IsFinal(m) then [a] else [], if !SameCurrency(p, m) then [b] else [],
              if Delayed(rules, p, m) then [e] else [], if c.difference != 0 then [f] else []);
  }

  lemma MatchCount(rules: Rules, i: Input, p: Payment, t: CaseType)
    requires DistinctSettlements(i.settlements)
    ensures Count(t, MatchDrafts(rules, i, p)) == if MatchCalls(rules, i, p, t) then 1 else 0
  {
    var m, s := MatchOf(rules, i, p), Scan(rules, p, i.settlements);
    OneOutcome(rules, i, p);
    if m.Some? { PairCount(rules, i, p, m.value, s, t); } else { CountOne(t, Unpaired(p, s)); }
  }

  // ---------- the run ----------

  ghost function OwnAsks(i: Input, t: CaseType): Payment -> bool { (p: Payment) => OwnCalls(i, p, t) }

  ghost function MatchAsks(rules: Rules, i: Input, t: CaseType): Payment -> bool {
    (p: Payment) => MatchCalls(rules, i, p, t)
  }

  ghost predicate Accounts(plan: Plan, t: CaseType, f: Payment -> bool, g: Payment -> bool, p: Payment) {
    Count(t, plan.own(p)) == (if f(p) then 1 else 0) && Count(t, plan.matching(p)) == if g(p) then 1 else 0
  }

  lemma {:induction false} PassCount(plan: Plan, t: CaseType, f: Payment -> bool, g: Payment -> bool, ps: seq<Payment>)
    requires forall p :: p in ps ==> Accounts(plan, t, f, g, p)
    ensures Count(t, PaymentPass(plan, ps)) == |Filter(f, ps)| + |Filter(g, ps)|
  {
    if ps != [] {
      var n := |ps| - 1;
      assert ps[n] in ps && Accounts(plan, t, f, g, ps[n]);
      PassCount(plan, t, f, g, ps[..n]);
      assert ps[..n + 1] == ps;
      PaymentPassStep(plan, ps, n);
      FilterStep(f, ps, n);
      FilterStep(g, ps, n);
      CountAppend(t, PaymentPass(plan, ps[..n]), plan.own(ps[n]) + plan.matching(ps[n]));
      CountAppend(t, plan.own(ps[n]), plan.matching(ps[n]));
    }
  }

  lemma CountOfRun(plan: Plan, i: Input, t: CaseType)
    requires OfPayments(t)
    ensures Count(t, DraftsOf(plan, i)) == Count(t, PaymentPass(plan, i.payments))
  {
    var dup := DuplicateSettlementDrafts(DuplicateGroups(SettlementKeyOf, i.settlements));
    CountAppend(t, MatchingDrafts(plan, i) + LeftoverDrafts(plan, i), BankLegDrafts(plan, i));
    CountAppend(t, MatchingDrafts(plan, i), LeftoverDrafts(plan, i));
    CountAppend(t, dup, PaymentPass(plan, i.payments));
    NoneOfKind(plan, i, t);
    CountNone(t, dup);
    CountNone(t, LeftoverDrafts(plan, i));
    CountNone(t, BankLegDrafts(plan, i));
  }

  lemma NoneOfKind(plan: Plan, i: Input, t: CaseType)
    requires OfPayments(t)
    ensures !HasKind(DuplicateSettlementDrafts(DuplicateGroups(SettlementKeyOf, i.settlements)), t)
    ensures !HasKind(LeftoverDrafts(plan, i), t) && !HasKind(BankLegDrafts(plan, i), t)
  {
    SettlementGroupTypes(DuplicateGroups(SettlementKeyOf, i.settlements));
    forall d | d in LeftoverDrafts(plan, i) ensures d.caseType in LEFTOVER { LeftoverTypes(plan, i, d); }
    forall d | d in BankLegDrafts(plan, i) ensures d.caseType in BANKLEG { BankLegTypes(plan, i, d); }
  }

  // A run reports as many cases of a kind as there are payments that call for it, on their own or
  // through their matching.
  lemma KindCount(rules: Rules, i: Input, t: CaseType)
    requires DistinctSettlements(i.settlements) && DistinctRefunds(i.refunds) && DistinctPayments(i.payments)
    requires OfPayments(t) && t != DuplicateRefund
    ensures Count(t, Drafts(rules, i)) == |Filter(OwnAsks(i, t), i.payments)|
        + |Filter(MatchAsks(rules, i, t), i.payments)|
  {
    var plan := PlanFor(rules, i);
    forall p | p in i.payments ensures Accounts(plan, t, OwnAsks(i, t), MatchAsks(rules, i, t), p) {
      OwnCount(i, p, t);
      MatchCount(rules, i, p, t);
    }
    PassCount(plan, t, OwnAsks(i, t), MatchAsks(rules, i, t), i.payments);
    CountOfRun(plan, i, t);
  }

  ghost function IsAmbiguous(rules: Rules, i: Input): Payment -> bool { (p: Payment) => Ambiguous(rules, i, p) }

  ghost function IsUnmet(rules: Rules, i: Input): Payment -> bool { (p: Payment) => Unmet(rules, i, p) }

  // A refund is expected and none has come.
  ghost function AwaitsRefund(i: Input): Payment -> bool {
    (p: Payment) => p.expectedRefund && forall r :: r in i.refunds ==> !RefundFor(p, r)
  }

  lemma {:induction false} SameFilter<T>(f: T -> bool, g: T -> bool, s: seq<T>)
    requires forall x :: x in s ==> f(x) == g(x)
    ensures Filter(f, s) == Filter(g, s)
  {
    if s != [] {
      assert s[|s| - 1] in s;
      SameFilter(f, g, s[..|s| - 1]);
    }
  }

  lemma {:induction false} NoneFiltered<T>(f: T -> bool, s: seq<T>)
    requires forall x :: x in s ==> !f(x)
    ensures Filter(f, s) == []
  {
    if s != [] {
      assert s[|s| - 1] in s;
      NoneFiltered(f, s[..|s| - 1]);
    }
  }

  lemma AsksAmbiguous(rules: Rules, i: Input, p: Payment)
    ensures !OwnCalls(i, p, AmbiguousMatch) && (MatchCalls(rules, i, p, AmbiguousMatch) <==> Ambiguous(rules, i, p))
  {
  }

  lemma AsksUnmet(rules: Rules, i: Input, p: Payment)
    ensures !OwnCalls(i, p, PaymentWithoutSettlement)
    ensures MatchCalls(rules, i, p, PaymentWithoutSettlement) <==> Unmet(rules, i, p)
  {
  }

  lemma AsksRefund(rules: Rules, i: Input, p: Payment)
    ensures !MatchCalls(rules, i, p, MissingRefund) && (OwnCalls(i, p, MissingRefund) <==> AwaitsRefund(i)(p))
  {
  }

  lemma AmbiguousCount(rules: Rules, i: Input)
    requires DistinctSettlements(i.settlements) && DistinctRefunds(i.refunds) && DistinctPayments(i.payments)
    ensures Count(AmbiguousMatch, Drafts(rules, i)) == |Filter(IsAmbiguous(rules, i), i.payments)|
  {
    KindCount(rules, i, AmbiguousMatch);
    forall p { AsksAmbiguous(rules, i, p); }
    NoneFiltered(OwnAsks(i, AmbiguousMatch), i.payments);
    SameFilter(MatchAsks(rules, i, AmbiguousMatch), IsAmbiguous(rules, i), i.payments);
  }

  lemma UnmetCount(rules: Rules, i: Input)
    requires DistinctSettlements(i.settlements) && DistinctRefunds(i.refunds) && DistinctPayments(i.payments)
    ensures Count(PaymentWithoutSettlement, Drafts(rules, i)) == |Filter(IsUnmet(rules, i), i.payments)|
  {
    KindCount(rules, i, PaymentWithoutSettlement);
    forall p { AsksUnmet(rules, i, p); }
    NoneFiltered(OwnAsks(i, PaymentWithoutSettlement), i.payments);
    SameFilter(MatchAsks(rules, i, PaymentWithoutSettlement), IsUnmet(rules, i), i.payments);
  }

  lemma AwaitedCount(rules: Rules, i: Input)
    requires DistinctSettlements(i.settlements) && DistinctRefunds(i.refunds) && DistinctPayments(i.payments)
    ensures Count(MissingRefund, Drafts(rules, i)) == |Filter(AwaitsRefund(i), i.payments)|
  {
    KindCount(rules, i, MissingRefund);
    forall p { AsksRefund(rules, i, p); }
    NoneFiltered(MatchAsks(rules, i, MissingRefund), i.payments);
    SameFilter(OwnAsks(i, MissingRefund), AwaitsRefund(i), i.payments);
  }

  // `ambiguous` counts the payments that several settlements meet in the first tier met; `unmatched`
  // those that no settlement meets, and the refunds still awaited.
  lemma CountersExactly(rules: Rules, i: Input)
    requires DistinctSettlements(i.settlements) && DistinctRefunds(i.refunds) && DistinctPayments(i.payments)
    ensures Tally(Drafts(rules, i)).ambiguous == |Filter(IsAmbiguous(rules, i), i.payments)|
    ensures Tally(Drafts(rules, i)).unmatched
            == |Filter(IsUnmet(rules, i), i.payments)| + |Filter(AwaitsRefund(i), i.payments)|
  {
    TallyCounts(Drafts(rules, i));
    AmbiguousCount(rules, i);
    UnmetCount(rules, i);
    AwaitedCount(rules, i);
  }

  ghost function IsSettled(rules: Rules, i: Input): Payment -> bool {
    (p: Payment) => exists s :: Settles(rules, i, p, s)
  }

  // `matched` counts the payments that one settlement alone meets in the first tier met.
  lemma MatchedCounter(rules: Rules, i: Input)
    requires DistinctSettlements(i.settlements)
    ensures |Filter(HasMatch(PlanFor(rules, i)), i.payments)| == |Filter(IsSettled(rules, i), i.payments)|
  {
    forall p ensures HasMatch(PlanFor(rules, i))(p) <==> IsSettled(rules, i)(p) { OneOutcome(rules, i, p); }
    SameFilter(HasMatch(PlanFor(rules, i)), IsSettled(rules, i), i.payments);
  }

  // Every payment is exactly one of these.
  lemma OneOfThree(rules: Rules, i: Input, p: Payment)
    requires DistinctSettlements(i.settlements)
    ensures IsSettled(rules, i)(p) || Ambiguous(rules, i, p) || Unmet(rules, i, p)
    ensures !(IsSettled(rules, i)(p) && Ambiguous(rules, i, p)) && !(IsSettled(rules, i)(p) && Unmet(rules, i, p))
    ensures !(Ambiguous(rules, i, p) && Unmet(rules, i, p))
  {
    OneOutcome(rules, i, p);
  }

  // ---------- the order of a report ----------

  // The pass a kind of case belongs to.
  function Rank(t: CaseType): nat {
    match t
    case DuplicateSettlement => 0
    case SettlementWithoutPayment => 2
    case RefundWithoutPayment => 3
    case RefundWithoutSettlement => 3
    case BankAmbiguousMatch => 4
    case BankSettlementMismatch => 4
    case BankWithoutSettlement => 5
    case _ => 1
  }

  ghost predicate AllRanked(ds: seq<Draft>, rank: nat) { forall d :: d in ds ==> Rank(d.caseType) == rank }

  ghost predicate InRanks(ds: seq<Draft>, lo: nat, hi: nat) {
    && (forall d :: d in ds ==> lo <= Rank(d.caseType) <= hi)
    && (forall a, b :: 0 <= a < b < |ds| ==> Rank(ds[a].caseType) <= Rank(ds[b].caseType))
  }

  lemma OneRank(ds: seq<Draft>, rank: nat)
    requires AllRanked(ds, rank)
    ensures InRanks(ds, rank, rank)
  {
    forall a | 0 <= a < |ds| ensures Rank(ds[a].caseType) == rank { assert ds[a] in ds; }
  }

  lemma RanksAppend(a: seq<Draft>, b: seq<Draft>, lo: nat, mid: nat, hi: nat)
    requires InRanks(a, lo, mid) && InRanks(b, mid + 1, hi) && lo <= mid < hi
    ensures InRanks(a + b, lo, hi)
  {
    forall k | 0 <= k < |a| ensures Rank(a[k].caseType) <= mid { assert a[k] in a; }
    forall k | 0 <= k < |b| ensures Rank(b[k].caseType) > mid { assert b[k] in b; }
  }

  lemma PaymentRank(plan: Plan, i: Input)
    requires Typed(plan)
    ensures AllRanked(PaymentPass(plan, i.payments), 1)
  {
    forall d | d in PaymentPass(plan, i.payments) ensures Rank(d.caseType) == 1 {
      PaymentPassMember(plan, i.payments, d);
      assert d.caseType in OWN + PAIRED + UNPAIRED;
    }
  }

  lemma LeftoverRanks(plan: Plan, i: Input)
    ensures AllRanked(SettlementPass(SettlementsUsed(plan, i.payments), i, i.settlements), 2)
    ensures AllRanked(RefundPass(RefundsUsed(plan, i.payments), i, i.refunds), 3)
  {
    var su, ru := SettlementsUsed(plan, i.payments), RefundsUsed(plan, i.payments);
    forall d | d in SettlementPass(su, i, i.settlements) ensures Rank(d.caseType) == 2 {
      FlatMapMember((s: Settlement) => SettlementDrafts(su, i, s), i.settlements, d);
    }
    forall d | d in RefundPass(ru, i, i.refunds) ensures Rank(d.caseType) == 3 {
      FlatMapMember((r: Refund) => RefundDrafts(ru, i, r), i.refunds, d);
    }
  }

  lemma BankRanks(plan: Plan, i: Input)
    ensures AllRanked(BankPass(plan, i, i.settlements), 4)
    ensures AllRanked(CreditPass(BanksUsed(plan, i, i.settlements), i.banks), 5)
  {
    var bu := BanksUsed(plan, i, i.settlements);
    forall d | d in BankPass(plan, i, i.settlements) ensures Rank(d.caseType) == 4 {
      FlatMapMember((s: Settlement) => BankDrafts(i, s, plan.candidates(s)), i.settlements, d);
    }
    forall d | d in CreditPass(bu, i.banks) ensures Rank(d.caseType) == 5 {
      FlatMapMember((b: Bank) => CreditDrafts(bu, b), i.banks, d);
    }
  }

  lemma RankedRun(plan: Plan, i: Input)
    requires Typed(plan)
    ensures InRanks(DraftsOf(plan, i), 0, 5)
  {
    var dup, pay := DuplicateSettlementDrafts(DuplicateGroups(SettlementKeyOf, i.settlements)),
        PaymentPass(plan, i.payments);
    var settlements := SettlementPass(SettlementsUsed(plan, i.payments), i, i.settlements);
    var refunds := RefundPass(RefundsUsed(plan, i.payments), i, i.refunds);
    var payouts, credits := BankPass(plan, i, i.settlements), CreditPass(BanksUsed(plan, i, i.settlements), i.banks);
    SettlementGroupTypes(DuplicateGroups(SettlementKeyOf, i.settlements));
    PaymentRank(plan, i);
    LeftoverRanks(plan, i);
    BankRanks(plan, i);
    OneRank(dup, 0);
    OneRank(pay, 1);
    OneRank(settlements, 2);
    OneRank(refunds, 3);
    OneRank(payouts, 4);
    OneRank(credits, 5);
    RanksAppend(dup, pay, 0, 0, 1);
    RanksAppend(settlements, refunds, 2, 2, 3);
    RanksAppend(payouts, credits, 4, 4, 5);
    RanksAppend(dup + pay, settlements + refunds, 0, 1, 3);
    RanksAppend(dup + pay + (settlements + refunds), payouts + credits, 0, 3, 5);
  }

  // A run reports, and so numbers, its cases pass by pass: identical settlements, payments,
  // settlements, refunds, payouts, credits.
  lemma ReportedPassByPass(rules: Rules, i: Input, a: nat, b: nat)
    requires a < b < |Drafts(rules, i)|
    ensures Rank(Drafts(rules, i)[a].caseType) <= Rank(Drafts(rules, i)[b].caseType)
  {
    PlanTypes(rules, i);
    RankedRun(PlanFor(rules, i), i);
  }
}
