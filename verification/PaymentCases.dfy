/** Which cases a run opens about a payment, kind by kind, and with which figures: read off the
    records' own fields, in both directions. */
module PaymentCases {
  import opened Prelude
  import opened Text
  import opened Records
  import opened Matching
  import opened MatchingTiers
  import opened CaseStore
  import opened ReconciliationSpec
  import opened Reconciler
  import opened ReconciliationRuns
  import opened ReconciliationTheorems

  // ---------- the conditions, from the fields ----------

  predicate RefundFor(p: Payment, r: Refund) {
    r.provider == p.provider && SameText(Some(r.providerPaymentId), Some(p.providerPaymentId))
  }

  predicate OrderOf(p: Payment, q: Payment) {
    && p.orderId.Some? && p.orderId.value != "" && q.orderId.Some? && q.orderId.value != ""
    && q.provider == p.provider && SameText(q.orderId, p.orderId)
  }

  // The provider's reference of a refund; refunds without one count as one.
  function RefundName(r: Refund): string { if r.providerRefundId == "" then "missing" else r.providerRefundId }

  predicate Reconcilable(p: Payment) {
    p.status == "captured" || p.status == "authorized" || p.status == "refunded" || p.status == "partially_refunded"
  }

  predicate Settled(s: Settlement) {
    Lower(s.status) == "settled" || Lower(s.status) == "processed" || Lower(s.status) == "success"
        || Lower(s.status) == "paid"
  }

  function OwnCurrency(s: Settlement): string { if "currency" in s.raw then s.raw["currency"] else "INR" }

  predicate Late(rules: Rules, p: Payment, s: Settlement) {
    s.settledAt - p.createdAt > rules.windowDays * 24 * 60 * 60 * 1_000_000
  }

  // The refunds of a payment that count: those processed or created.
  function Counted(p: Payment): Refund -> int {
    (r: Refund) => if RefundFor(p, r) && (r.status == "processed" || r.status == "created") then r.amount else 0
  }

  function Refunded(i: Input, p: Payment): int { Sum(Counted(p), i.refunds) }

  // What the settlement should have paid out.
  function Owed(i: Input, p: Payment, s: Settlement): int {
    p.amount - Refunded(i, p) - s.fee - s.tax + s.adjustment
  }

  // The settlement the payment is matched to: the only one to meet the first tier any settlement meets.
  ghost predicate Settles(rules: Rules, i: Input, p: Payment, s: Settlement) {
    exists tier :: FirstMet(rules, tier, p, i.settlements) && OnlyMeets(rules, tier, p, i.settlements, s)
  }

  ghost predicate Ambiguous(rules: Rules, i: Input, p: Payment) {
    exists tier :: FirstMet(rules, tier, p, i.settlements) && SeveralMeet(rules, tier, p, i.settlements)
  }

  ghost predicate Unmet(rules: Rules, i: Input, p: Payment) { NoneMet(rules, p, i.settlements) }

  // Two refunds of the payment carry one name.
  ghost predicate RepeatedRefund(i: Input, p: Payment) {
    exists a, b :: a in i.refunds && b in i.refunds && a != b
      && RefundFor(p, a) && RefundFor(p, b) && RefundName(a) == RefundName(b)
  }

  // When a payment and its settlement disagree in a way.
  predicate PairCalls(rules: Rules, i: Input, p: Payment, s: Settlement, t: CaseType) {
    || (t == StatusMismatch && !Settled(s))
    || (t == CurrencyMismatch && Lower(OwnCurrency(s)) != Lower(p.currency))
    || (t == DelayedSettlement && Late(rules, p, s))
    || (t == SettlementMismatch && s.net != Owed(i, p, s))
  }

  // When the payment on its own calls for a case of a kind.
  ghost predicate OwnCalls(i: Input, p: Payment, t: CaseType) {
    || (t == DuplicatePayment && exists q :: q in i.payments && q != p && OrderOf(p, q))
    || (t == StatusMismatch && !Reconcilable(p))
    || (t == DuplicateRefund && RepeatedRefund(i, p))
    || (t == MissingRefund && p.expectedRefund && forall r :: r in i.refunds ==> !RefundFor(p, r))
  }

  // When its matching does.
  ghost predicate MatchCalls(rules: Rules, i: Input, p: Payment, t: CaseType) {
    || (t == AmbiguousMatch && Ambiguous(rules, i, p))
    || (t == PaymentWithoutSettlement && Unmet(rules, i, p))
    || exists m :: Settles(rules, i, p, m) && PairCalls(rules, i, p, m, t)
  }

  ghost predicate Reports(ds: seq<Draft>, p: Payment, t: CaseType) {
    exists d :: d in ds && d.payment == Some(p.id) && d.caseType == t
  }

  // ---------- matching ----------

  lemma OneOutcome(rules: Rules, i: Input, p: Payment)
    requires DistinctSettlements(i.settlements)
    ensures MatchOf(rules, i, p).Some? ==> Settles(rules, i, p, MatchOf(rules, i, p).value)
    ensures forall s :: Settles(rules, i, p, s) ==> MatchOf(rules, i, p) == Some(s)
    ensures MatchOf(rules, i, p).None? ==>
      (Ambiguous(rules, i, p) <==> Scan(rules, p, i.settlements).candidates != [])
      && (Unmet(rules, i, p) <==> Scan(rules, p, i.settlements).candidates == [])
    ensures MatchOf(rules, i, p).Some? ==> !Ambiguous(rules, i, p) && !Unmet(rules, i, p)
    ensures var d := Scan(rules, p, i.settlements);
      if MatchOf(rules, i, p).Some? then d.via != NoMethod && d.confidence != NoConfidence
      else Unmet(rules, i, p) ==> d.via == NoMethod && d.confidence == NoConfidence
  {
    DecisionExactly(rules, p, i.settlements);
    DecidingTierIsFirst(rules, p, i.settlements);
    var tier := DecidingTier(rules, p, i.settlements);
    forall s | Settles(rules, i, p, s) ensures MatchOf(rules, i, p) == Some(s) {
      var t :| FirstMet(rules, t, p, i.settlements) && OnlyMeets(rules, t, p, i.settlements, s);
      FindsSettlement(i.settlements, s);
    }
    if tier.Some? {
      CountHits(rules, tier.value, p, i.settlements);
      var h := Hits(rules, tier.value, p, i.settlements);
      if |h| == 1 {
        assert h == [h[0]];
        assert OnlyMeets(rules, tier.value, p, i.settlements, h[0]);
        assert Settles(rules, i, p, h[0]);
      }
    }
  }

  // ---------- which kinds each part of a payment's drafts holds ----------

  ghost predicate HasKind(ds: seq<Draft>, t: CaseType) { exists d :: d in ds && d.caseType == t }

  lemma KindOfParts(a: seq<Draft>, b: seq<Draft>, t: CaseType)
    ensures HasKind(a + b, t) <==> HasKind(a, t) || HasKind(b, t)
  {
    if d :| d in a && d.caseType == t { assert d in a + b; }
    if d :| d in b && d.caseType == t { assert d in a + b; }
  }

  lemma KindOfOne(d: Draft, t: CaseType)
    ensures HasKind([d], t) <==> d.caseType == t
  {
    assert d in [d];
  }

  lemma OrderKinds(i: Input, p: Payment, t: CaseType)
    requires DistinctPayments(i.payments) && p in i.payments
    ensures HasKind(OrderDrafts(i, p), t) <==>
        t == DuplicatePayment && exists q :: q in i.payments && q != p && OrderOf(p, q)
  {
    SharedOrder(i, p);
    if OrderDrafts(i, p) != [] { KindOfOne(OrderDrafts(i, p)[0], t); }
  }

  lemma SharedOrder(i: Input, p: Payment)
    requires DistinctPayments(i.payments) && p in i.payments
    ensures |SameOrder(i, p)| > 1 <==> exists q :: q in i.payments && q != p && OrderOf(p, q)
  {
    var f := OrdersWith((p.provider, Normalize(p.orderId)));
    var h := SameOrder(i, p);
    if Given(p.orderId) {
      forall q ensures q in h <==> q in i.payments && OrderOf(p, q) { FilterMember(f, i.payments, q); }
      FilterNoDup(f, i.payments);
      SeveralMembers(h);
      assert OrderOf(p, p);
    }
  }

  lemma RefundsMember(i: Input, p: Payment, r: Refund)
    ensures r in RefundsOf(i, p) <==> r in i.refunds && RefundFor(p, r)
  {
    FilterMember(RefundsWith(PaymentKey(p)), i.refunds, r);
  }

  lemma {:induction false} KeysMember<T, K>(key: T -> K, s: seq<T>, k: K)
    ensures k in KeysOf(key, s) <==> exists x :: x in s && key(x) == k
  {
    if s != [] {
      KeysMember(key, s[..|s| - 1], k);
      assert s == s[..|s| - 1] + [s[|s| - 1]];
    }
  }

  lemma {:induction false} GroupsMember<T, K>(key: T -> K, s: seq<T>, keys: seq<K>, g: seq<T>)
    ensures g in GroupsOver(key, s, keys) <==> exists k :: k in keys && g == Filter(HasKey(key, k), s) && |g| > 1
  {
    if keys != [] {
      GroupsMember(key, s, keys[..|keys| - 1], g);
      assert keys == keys[..|keys| - 1] + [keys[|keys| - 1]];
    }
  }

  // A group of duplicates exists if and only if two rows share a key.
  lemma SomeDuplicates<T(!new), K>(key: T -> K, s: seq<T>)
    requires NoDup(s)
    ensures DuplicateGroups(key, s) != [] <==> exists a, b :: a in s && b in s && a != b && key(a) == key(b)
  {
    var groups := DuplicateGroups(key, s);
    HasMember(groups);
    if g :| g in groups {
      GroupsMember(key, s, KeysOf(key, s), g);
      var k :| k in KeysOf(key, s) && g == Filter(HasKey(key, k), s) && |g| > 1;
      FilterNoDup(HasKey(key, k), s);
      FilterMember(HasKey(key, k), s, g[0]);
      FilterMember(HasKey(key, k), s, g[1]);
      assert g[0] in s && g[1] in s && g[0] != g[1];
    }
    if a, b :| a in s && b in s && a != b && key(a) == key(b) {
      var g := Filter(HasKey(key, key(a)), s);
      FilterMember(HasKey(key, key(a)), s, a);
      FilterMember(HasKey(key, key(a)), s, b);
      TwoMembers(g, a, b);
      KeysMember(key, s, key(a));
      GroupsMember(key, s, KeysOf(key, s), g);
    }
  }

  lemma {:induction false} RefundGroupDrafts(p: Payment, groups: seq<seq<Refund>>)
    requires forall g :: g in groups ==> g != []
    ensures DuplicateRefundDrafts(p, groups) == [] <==> groups == []
  {
    if groups != [] { assert groups[|groups| - 1] in groups; }
  }

  lemma RefundKinds(i: Input, p: Payment, t: CaseType)
    requires DistinctRefunds(i.refunds)
    ensures HasKind(RefundDuplicates(i, p), t) <==> t == DuplicateRefund && RepeatedRefund(i, p)
  {
    var rs := RefundsOf(i, p);
    var groups := DuplicateGroups(RefundKeyOf, rs);
    FilterNoDup(RefundsWith(PaymentKey(p)), i.refunds);
    SomeDuplicates(RefundKeyOf, rs);
    RefundGroupTypes(p, groups);
    forall g | g in groups ensures g != [] { GroupsMember(RefundKeyOf, rs, KeysOf(RefundKeyOf, rs), g); }
    RefundGroupDrafts(p, groups);
    HasMember(DuplicateRefundDrafts(p, groups));
    SharedNames(i, p);
  }

  ghost predicate SharesKey(i: Input, p: Payment) {
    exists a, b :: a in RefundsOf(i, p) && b in RefundsOf(i, p) && a != b && RefundKeyOf(a) == RefundKeyOf(b)
  }

  lemma SharedNames(i: Input, p: Payment)
    ensures SharesKey(i, p) <==> RepeatedRefund(i, p)
    ensures SharesKey(i, p) ==> |RefundsOf(i, p)| > 1
  {
    forall r ensures r in RefundsOf(i, p) <==> r in i.refunds && RefundFor(p, r) { RefundsMember(i, p, r); }
    forall a, b | RefundFor(p, a) && RefundFor(p, b)
      ensures RefundKeyOf(a) == RefundKeyOf(b) <==> RefundName(a) == RefundName(b)
    {
      SameAfter(p.provider + ":", RefundName(a), RefundName(b));
    }
    if a, b :| a in RefundsOf(i, p) && b in RefundsOf(i, p) && a != b && RefundKeyOf(a) == RefundKeyOf(b) {
      TwoMembers(RefundsOf(i, p), a, b);
    }
  }

  lemma SameAfter(prefix: string, a: string, b: string)
    ensures prefix + a == prefix + b <==> a == b
  {
    assert (prefix + a)[|prefix|..] == a && (prefix + b)[|prefix|..] == b;
  }

  lemma MissingKinds(i: Input, p: Payment, t: CaseType)
    ensures HasKind(MissingRefundDrafts(i, p), t) <==>
            t == MissingRefund && p.expectedRefund && forall r :: r in i.refunds ==> !RefundFor(p, r)
  {
    forall r ensures r in RefundsOf(i, p) <==> r in i.refunds && RefundFor(p, r) { RefundsMember(i, p, r); }
    HasMember(RefundsOf(i, p));
    if MissingRefundDrafts(i, p) != [] { KindOfOne(MissingRefundDrafts(i, p)[0], t); }
  }

  lemma StatusKinds(p: Payment, t: CaseType)
    ensures HasKind(StatusDrafts(p), t) <==> t == StatusMismatch && !Reconcilable(p)
  {
    if StatusDrafts(p) != [] { KindOfOne(StatusDrafts(p)[0], t); }
  }

  lemma OwnKinds(i: Input, p: Payment, t: CaseType)
    requires DistinctPayments(i.payments) && p in i.payments && DistinctRefunds(i.refunds)
    ensures HasKind(OwnDrafts(i, p), t) <==>
      || HasKind(OrderDrafts(i, p), t) || HasKind(StatusDrafts(p), t)
      || HasKind(RefundDuplicates(i, p), t) || HasKind(MissingRefundDrafts(i, p), t)
  {
    KindOfParts(OrderDrafts(i, p) + StatusDrafts(p) + RefundDuplicates(i, p), MissingRefundDrafts(i, p), t);
    KindOfParts(OrderDrafts(i, p) + StatusDrafts(p), RefundDuplicates(i, p), t);
    KindOfParts(OrderDrafts(i, p), StatusDrafts(p), t);
  }

  // ---------- a matched pair ----------

  lemma RefundedIs(i: Input, p: Payment)
    ensures Sum(CountedRefund, RefundsOf(i, p)) == Refunded(i, p)
  {
    SumOfFilter(CountedRefund, RefundsWith(PaymentKey(p)), Counted(p), i.refunds);
  }

  lemma {:induction false} SumOfFilter<T(!new)>(f: T -> int, keep: T -> bool, g: T -> int, s: seq<T>)
    requires forall x :: g(x) == if keep(x) then f(x) else 0
    ensures Sum(f, Filter(keep, s)) == Sum(g, s)
  {
    if s != [] {
      var front, last := s[..|s| - 1], s[|s| - 1];
      SumOfFilter(f, keep, g, front);
      assert Filter(keep, s) == Filter(keep, front) + if keep(last) then [last] else [];
      if keep(last) { SumAppend(f, Filter(keep, front), last); } else { assert Filter(keep, s) == Filter(keep, front); }
    }
  }

  lemma SumAppend<T>(f: T -> int, s: seq<T>, x: T)
    ensures Sum(f, s + [x]) == Sum(f, s) + f(x)
  {
    assert (s + [x])[..|s + [x]| - 1] == s;
  }

  lemma OwedIs(i: Input, p: Payment, m: Settlement)
    ensures var c := Calculate(p, RefundsOf(i, p), [m]);
      c.expected == Owed(i, p, m) && c.actual == m.net && c.difference == m.net - Owed(i, p, m)
      && c.gross == p.amount && c.refunded == Refunded(i, p) && c.fees == m.fee && c.tax == m.tax
  {
    RefundedIs(i, p);
    SumOne(Net, m);
    SumOne(Fee, m);
    SumOne(Tax, m);
    SumOne(Adjustment, m);
  }

  // The four comparisons, as conditions on the fields.
  lemma PairConditions(rules: Rules, i: Input, p: Payment, m: Settlement)
    ensures IsFinal(m) <==> Settled(m)
    ensures SameCurrency(p, m) <==> Lower(OwnCurrency(m)) == Lower(p.currency)
    ensures Delayed(rules, p, m) <==> Late(rules, p, m)
    ensures Calculate(p, RefundsOf(i, p), [m]).difference != 0 <==> m.net != Owed(i, p, m)
  {
    UpperLower(OwnCurrency(m), p.currency);
    OwedIs(i, p, m);
  }

  lemma KindIf(cond: bool, d: Draft, t: CaseType)
    ensures HasKind(if cond then [d] else [], t) <==> cond && d.caseType == t
  {
    if cond { KindOfOne(d, t); }
  }

  lemma PairKinds(rules: Rules, i: Input, p: Payment, m: Settlement, d: Decision, t: CaseType)
    ensures HasKind(PairDrafts(rules, i, p, m, d), t) <==> PairCalls(rules, i, p, m, t)
  {
    var c := Calculate(p, RefundsOf(i, p), [m]);
    PairConditions(rules, i, p, m);
    var a, b := Linked(p, m, d, StatusMismatch, c), Linked(p, m, d, CurrencyMismatch, c);
    var e, f := Linked(p, m, d, DelayedSettlement, c), Linked(p, m, d, SettlementMismatch, c);
    KindIf(!IsFinal(m), a, t);
    KindIf(!SameCurrency(p, m), b, t);
    KindIf(Delayed(rules, p, m), e, t);
    KindIf(c.difference != 0, f, t);
    FourParts(if !IsFinal(m) then [a] else [], if !SameCurrency(p, m) then [b] else [],
              if Delayed(rules, p, m) then [e] else [], if c.difference != 0 then [f] else [], t);
  }

  lemma FourParts(a: seq<Draft>, b: seq<Draft>, c: seq<Draft>, d: seq<Draft>, t: CaseType)
    ensures HasKind(a + b + c + d, t) <==> HasKind(a, t) || HasKind(b, t) || HasKind(c, t) || HasKind(d, t)
  {
    KindOfParts(a + b + c, d, t);
    KindOfParts(a + b, c, t);
    KindOfParts(a, b, t);
  }

  lemma MatchKinds(rules: Rules, i: Input, p: Payment, t: CaseType)
    requires DistinctSettlements(i.settlements)
    ensures HasKind(MatchDrafts(rules, i, p), t) <==> MatchCalls(rules, i, p, t)
  {
    var m, d := MatchOf(rules, i, p), Scan(rules, p, i.settlements);
    OneOutcome(rules, i, p);
    if m.Some? { PairKinds(rules, i, p, m.value, d, t); } else { KindOfOne(Unpaired(p, d), t); }
  }

  // ---------- the run ----------

  lemma ReportedByParts(rules: Rules, i: Input, p: Payment, t: CaseType)
    requires DistinctPayments(i.payments) && p in i.payments && OfPayments(t)
    ensures Reports(Drafts(rules, i), p, t) <==> HasKind(OwnDrafts(i, p), t) || HasKind(MatchDrafts(rules, i, p), t)
  {
    var plan := PlanFor(rules, i);
    PlanAttributed(rules, i);
    KindOfParts(plan.own(p), plan.matching(p), t);
    forall d: Draft | d.payment == Some(p.id) && d.caseType == t
      ensures d in DraftsOf(plan, i) <==> d in plan.own(p) + plan.matching(p)
    {
      DraftOfPayment(plan, i, p, d);
    }
    if d :| d in plan.own(p) + plan.matching(p) && d.caseType == t { assert d.payment == Some(p.id); }
  }

  lemma OwnPartCalls(i: Input, p: Payment, t: CaseType)
    requires DistinctRefunds(i.refunds) && DistinctPayments(i.payments) && p in i.payments
    ensures HasKind(OwnDrafts(i, p), t) <==> OwnCalls(i, p, t)
  {
    OwnKinds(i, p, t);
    OrderKinds(i, p, t);
    StatusKinds(p, t);
    RefundKinds(i, p, t);
    MissingKinds(i, p, t);
  }

  // A run reports a case of each kind about a payment if and only if the records call for it.
  lemma ReportedExactly(rules: Rules, i: Input, p: Payment, t: CaseType)
    requires DistinctSettlements(i.settlements) && DistinctRefunds(i.refunds)
    requires DistinctPayments(i.payments) && p in i.payments && OfPayments(t)
    ensures Reports(Drafts(rules, i), p, t) <==> OwnCalls(i, p, t) || MatchCalls(rules, i, p, t)
  {
    ReportedByParts(rules, i, p, t);
    OwnPartCalls(i, p, t);
    MatchKinds(rules, i, p, t);
  }

  predicate InOrder(rules: Rules, i: Input, p: Payment, s: Settlement) {
    Settled(s) && Lower(OwnCurrency(s)) == Lower(p.currency) && !Late(rules, p, s) && s.net == Owed(i, p, s)
  }

  // What being reconciled means in the fields.
  lemma ReconciledFields(rules: Rules, i: Input, p: Payment)
    requires DistinctSettlements(i.settlements)
    ensures Reconciled(rules, i, p) <==>
      Reconcilable(p) && exists s :: Settles(rules, i, p, s) && InOrder(rules, i, p, s)
  {
    ReconciledIsMatch(rules, i, p);
    MatchInOrder(rules, i, p);
    if MatchOf(rules, i, p).Some? { AgreeingFields(rules, i, p, MatchOf(rules, i, p).value); }
  }

  lemma MatchInOrder(rules: Rules, i: Input, p: Payment)
    requires DistinctSettlements(i.settlements)
    ensures (exists s :: Settles(rules, i, p, s) && InOrder(rules, i, p, s))
            <==> MatchOf(rules, i, p).Some? && InOrder(rules, i, p, MatchOf(rules, i, p).value)
  {
    OneOutcome(rules, i, p);
  }

  lemma AgreeingFields(rules: Rules, i: Input, p: Payment, s: Settlement)
    ensures Agreeing(i, rules, p, s) <==> InOrder(rules, i, p, s)
  {
    PairConditions(rules, i, p, s);
    RefundedIs(i, p);
  }

  // ---------- the figures of the cases ----------

  // What the payments that share an order add up to.
  function OrderAmounts(p: Payment): Payment -> int { (q: Payment) => if OrderOf(p, q) then q.amount else 0 }

  // What a case about payment p says, and how it was matched.
  ghost predicate Figures(rules: Rules, i: Input, p: Payment, d: Draft) {
    match d.caseType
    case DuplicatePayment =>
      d.record == PaymentRef(p.id) && d.expected == p.amount && d.actual == Sum(OrderAmounts(p), i.payments)
          && Unmatched(d)
    case DuplicateRefund =>
      exists r :: r in i.refunds && RefundFor(p, r) && AboutRepeated(i, p, r, d)
    case MissingRefund => d.record == PaymentRef(p.id) && d.expected == p.amount && d.actual == 0 && Unmatched(d)
    case AmbiguousMatch => d.record == PaymentRef(p.id) && d.expected == p.amount && d.actual == 0
        && d.matchedRecord.None?
    case PaymentWithoutSettlement =>
      d.record == PaymentRef(p.id) && d.expected == p.amount && d.actual == 0 && Unmatched(d)
    case StatusMismatch =>
      || (d.record == PaymentRef(p.id) && d.expected == p.amount && d.actual == 0 && Unmatched(d))
      || exists s :: Settles(rules, i, p, s) && AboutPair(i, p, s, d)
    case _ => exists s :: Settles(rules, i, p, s) && AboutPair(i, p, s, d)
  }

  // What the payment's refunds of one name add up to.
  function NamedAmounts(p: Payment, name: string): Refund -> int {
    (r: Refund) => if RefundFor(p, r) && RefundName(r) == name then r.amount else 0
  }

  predicate AboutRepeated(i: Input, p: Payment, r: Refund, d: Draft) {
    && d.record == RefundRef(r.id) && d.expected == r.amount
    && d.actual == Sum(NamedAmounts(p, RefundName(r)), i.refunds) && Unmatched(d)
  }

  predicate Unmatched(d: Draft) { d.via == NoMethod && d.confidence == NoConfidence && d.matchedRecord.None? }

  // Expected: what the settlement should have paid; actual: what it did.
  predicate AboutPair(i: Input, p: Payment, s: Settlement, d: Draft) {
    && d.record == SettlementRef(s.id) && d.matchedRecord == Some(s.id)
    && d.expected == Owed(i, p, s) && d.actual == s.net && d.via != NoMethod && d.confidence != NoConfidence
  }

  lemma OrderFigures(i: Input, p: Payment, d: Draft)
    requires d in OrderDrafts(i, p)
    ensures d.record == PaymentRef(p.id) && d.expected == p.amount && d.actual == Sum(OrderAmounts(p), i.payments)
        && Unmatched(d)
  {
    SumOfFilter(PaymentAmount, OrdersWith((p.provider, Normalize(p.orderId))), OrderAmounts(p), i.payments);
  }

  lemma {:induction false} RefundFigures(p: Payment, groups: seq<seq<Refund>>, d: Draft)
    requires d in DuplicateRefundDrafts(p, groups)
    ensures exists g :: g in groups && g != [] && d == DuplicateRefundDraft(p, g)
  {
    var n := |groups| - 1;
    if d in DuplicateRefundDrafts(p, groups[..n]) {
      RefundFigures(p, groups[..n], d);
    } else {
      assert groups[n] in groups;
    }
  }

  lemma NamedTotal(i: Input, p: Payment, r: Refund)
    requires RefundFor(p, r)
    ensures Sum(RefundAmount, Filter(HasKey(RefundKeyOf, RefundKeyOf(r)), RefundsOf(i, p))) ==
        Sum(NamedAmounts(p, RefundName(r)), i.refunds)
  {
    var same := HasKey(RefundKeyOf, RefundKeyOf(r));
    ghost var amount := (x: Refund) => if same(x) then RefundAmount(x) else 0;
    SumOfFilter(RefundAmount, same, amount, RefundsOf(i, p));
    forall x ensures NamedAmounts(p, RefundName(r))(x) == if RefundsWith(PaymentKey(p))(x) then amount(x) else 0 {
      SameAfter(p.provider + ":", RefundName(x), RefundName(r));
    }
    SumOfFilter(amount, RefundsWith(PaymentKey(p)), NamedAmounts(p, RefundName(r)), i.refunds);
  }

  lemma GroupFigures(i: Input, p: Payment, d: Draft)
    requires d in RefundDuplicates(i, p)
    ensures exists r :: r in i.refunds && RefundFor(p, r) && AboutRepeated(i, p, r, d)
  {
    var rs := RefundsOf(i, p);
    RefundFigures(p, DuplicateGroups(RefundKeyOf, rs), d);
    var g :| g in DuplicateGroups(RefundKeyOf, rs) && g != [] && d == DuplicateRefundDraft(p, g);
    GroupsMember(RefundKeyOf, rs, KeysOf(RefundKeyOf, rs), g);
    var k :| k in KeysOf(RefundKeyOf, rs) && g == Filter(HasKey(RefundKeyOf, k), rs);
    FilterMember(HasKey(RefundKeyOf, k), rs, g[0]);
    RefundsMember(i, p, g[0]);
    NamedTotal(i, p, g[0]);
  }

  lemma OwnFiguresOf(rules: Rules, i: Input, p: Payment, d: Draft)
    requires d in OwnDrafts(i, p)
    ensures Figures(rules, i, p, d)
  {
    OwnMember(i, p, d);
    if d in OrderDrafts(i, p) { OrderFigures(i, p, d); }
    if d in RefundDuplicates(i, p) {
      RefundGroupTypes(p, DuplicateGroups(RefundKeyOf, RefundsOf(i, p)));
      GroupFigures(i, p, d);
    }
  }

  lemma PairIsLinked(rules: Rules, i: Input, p: Payment, m: Settlement, s: Decision, d: Draft)
    requires d in PairDrafts(rules, i, p, m, s)
    ensures d.caseType in PAIRED && d == Linked(p, m, s, d.caseType, Calculate(p, RefundsOf(i, p), [m]))
  {
    var c := Calculate(p, RefundsOf(i, p), [m]);
    InParts(if !IsFinal(m) then [Linked(p, m, s, StatusMismatch, c)] else [],
            if !SameCurrency(p, m) then [Linked(p, m, s, CurrencyMismatch, c)] else [],
            if Delayed(rules, p, m) then [Linked(p, m, s, DelayedSettlement, c)] else [],
            if c.difference != 0 then [Linked(p, m, s, SettlementMismatch, c)] else [], d);
  }

  lemma MatchFigures(rules: Rules, i: Input, p: Payment, d: Draft)
    requires DistinctSettlements(i.settlements) && d in MatchDrafts(rules, i, p)
    ensures Figures(rules, i, p, d)
  {
    var m, s := MatchOf(rules, i, p), Scan(rules, p, i.settlements);
    OneOutcome(rules, i, p);
    if m.Some? {
      PairIsLinked(rules, i, p, m.value, s, d);
      OwedIs(i, p, m.value);
      assert AboutPair(i, p, m.value, d);
    }
  }

  // Every case a run opens about a payment carries these figures.
  lemma EveryFigure(rules: Rules, i: Input, p: Payment, d: Draft)
    requires DistinctSettlements(i.settlements) && DistinctPayments(i.payments) && p in i.payments
    requires d in Drafts(rules, i) && d.payment == Some(p.id) && OfPayments(d.caseType)
    ensures Figures(rules, i, p, d)
  {
    var plan := PlanFor(rules, i);
    PlanAttributed(rules, i);
    DraftOfPayment(plan, i, p, d);
    if d in OwnDrafts(i, p) { OwnFiguresOf(rules, i, p, d); } else { MatchFigures(rules, i, p, d); }
  }
}
