/** What one reconciliation run should report, record by record, written as plain scans of the
    records: for every payment, settlement, refund and bank row, the drafts of cases it gives rise
    to. Nothing here is indexed, and nothing reads the case table. */
module ReconciliationSpec {
  import opened Prelude
  import opened Text
  import opened Records
  import opened Matching
  import opened CaseStore

  // The tables, each in the order its query returns it.
  datatype Database = Database(payments: seq<Payment>, refunds: seq<Refund>, settlements: seq<Settlement>,
      banks: seq<Bank>)

  // What a run for one merchant (or for all) reads; single payments are looked up in the whole table.
  datatype Input = Input(
    allPayments: seq<Payment>, payments: seq<Payment>, refunds: seq<Refund>, settlements: seq<Settlement>,
    banks: seq<Bank>, merchant: Option<string>)

  predicate Given(text: Option<string>) { text.Some? && text.value != "" }

  predicate PaysFor(payments: seq<Payment>, id: Option<nat>, merchant: Option<string>) {
    id.Some? && exists p :: p in payments && p.id == id.value && p.merchant == merchant
  }

  function Scoped(db: Database, merchant: Option<string>): Input {
    if !Given(merchant) then Input(db.payments, db.payments, db.refunds, db.settlements, db.banks, merchant)
    else
      Input(db.payments,
            Filter((p: Payment) => p.merchant == merchant, db.payments),
            Filter((r: Refund) => r.merchant == merchant || PaysFor(db.payments, r.paymentId, merchant), db.refunds),
            Filter((s: Settlement) => s.merchant == merchant || PaysFor(db.payments, s.paymentId, merchant),
                   db.settlements),
            Filter((b: Bank) => b.merchant == merchant, db.banks), merchant)
  }

  // ---------- groups of equal keys, in order of first appearance ----------

  function KeysOf<T, K(==)>(key: T -> K, s: seq<T>): seq<K> {
    if s == [] then []
    else
      var before := KeysOf(key, s[..|s| - 1]);
      if key(s[|s| - 1]) in before then before else before + [key(s[|s| - 1])]
  }

  function HasKey<T, K(==)>(key: T -> K, k: K): T -> bool { (x: T) => key(x) == k }

  function GroupsOver<T, K(==)>(key: T -> K, s: seq<T>, keys: seq<K>): seq<seq<T>> {
    if keys == [] then []
    else
      var group := Filter(HasKey(key, keys[|keys| - 1]), s);
      GroupsOver(key, s, keys[..|keys| - 1]) + if |group| > 1 then [group] else []
  }

  function DuplicateGroups<T, K(==)>(key: T -> K, s: seq<T>): seq<seq<T>> { GroupsOver(key, s, KeysOf(key, s)) }

  function Sum<T>(f: T -> int, s: seq<T>): int {
    if s == [] then 0 else Sum(f, s[..|s| - 1]) + f(s[|s| - 1])
  }

  // ---------- duplicate settlements ----------

  datatype SettlementKey = SettlementKey(
    provider: string, paymentRef: string, gross: int, fee: int, tax: int, net: int, status: string,
    settledAt: int, utr: Option<string>, currency: string)

  function SettlementKeyOf(s: Settlement): SettlementKey {
    SettlementKey(s.provider, s.providerPaymentId, s.gross, s.fee, s.tax, s.net, s.status, s.settledAt, s.utr,
        SettlementCurrency(s))
  }

  function Net(s: Settlement): int { s.net }

  function Fee(s: Settlement): int { s.fee }

  function Tax(s: Settlement): int { s.tax }

  function Adjustment(s: Settlement): int { s.adjustment }

  function Plain(payment: Option<nat>, record: RecordRef, caseType: CaseType, expected: int, actual: int): Draft {
    Draft(payment, record, caseType, expected, actual, NoMethod, NoConfidence, None)
  }

  function DuplicateSettlementDraft(g: seq<Settlement>): Draft
    requires g != []
  {
    Plain(None, SettlementRef(g[0].id), DuplicateSettlement, g[0].net, Sum(Net, g))
  }

  function DuplicateSettlementDrafts(groups: seq<seq<Settlement>>): seq<Draft> {
    if groups == [] then []
    else
      var g := groups[|groups| - 1];
      DuplicateSettlementDrafts(groups[..|groups| - 1]) + if g == [] then [] else [DuplicateSettlementDraft(g)]
  }

  // ---------- payments ----------

  function RefundsWith(key: (string, Option<string>)): Refund -> bool {
    (r: Refund) => r.provider == key.0 && Normalize(Some(r.providerPaymentId)) == key.1
  }

  function SettlementsWith(key: (string, Option<string>)): Settlement -> bool {
    (s: Settlement) => s.provider == key.0 && Normalize(Some(s.providerPaymentId)) == key.1
  }

  function OrdersWith(key: (string, Option<string>)): Payment -> bool {
    (p: Payment) => Given(p.orderId) && p.provider == key.0 && Normalize(p.orderId) == key.1
  }

  function PaymentKey(p: Payment): (string, Option<string>) { (p.provider, Normalize(Some(p.providerPaymentId))) }

  function RefundsOf(i: Input, p: Payment): seq<Refund> { Filter(RefundsWith(PaymentKey(p)), i.refunds) }

  function SameOrder(i: Input, p: Payment): seq<Payment> {
    if Given(p.orderId) then Filter(OrdersWith((p.provider, Normalize(p.orderId))), i.payments) else []
  }

  function PaymentAmount(p: Payment): int { p.amount }

  function RefundAmount(r: Refund): int { r.amount }

  const RECONCILABLE := {"captured", "authorized", "refunded", "partially_refunded"}
  const FINAL := {"settled", "processed", "success", "paid"}
  const COUNTED := {"processed", "created"}

  // The provider's reference for a refund, as one text.
  datatype RefundKey = RefundKey(text: string)

  function RefundKeyOf(r: Refund): RefundKey {
    RefundKey(r.provider + ":" + if r.providerRefundId == "" then "missing" else r.providerRefundId)
  }

  function CountedRefund(r: Refund): int { if r.status in COUNTED then r.amount else 0 }

  // calculate_expected_settlement: gross, refunds, fees, tax, expected, actual, difference.
  datatype Calculation = Calculation(gross: int, refunded: int, fees: int, tax: int, expected: int, actual: int,
      difference: int)

  function Calculate(p: Payment, refunds: seq<Refund>, settlements: seq<Settlement>): Calculation {
    var refunded := Sum(CountedRefund, refunds);
    var fees := Sum(Fee, settlements);
    var tax := Sum(Tax, settlements);
    var adjustments := Sum(Adjustment, settlements);
    var expected := p.amount - refunded - fees - tax + adjustments;
    var actual := Sum(Net, settlements);
    Calculation(p.amount, refunded, fees, tax, expected, actual, actual - expected)
  }

  function DuplicateRefundDraft(p: Payment, g: seq<Refund>): Draft
    requires g != []
  {
    Plain(Some(p.id), RefundRef(g[0].id), DuplicateRefund, g[0].amount, Sum(RefundAmount, g))
  }

  function DuplicateRefundDrafts(p: Payment, groups: seq<seq<Refund>>): seq<Draft> {
    if groups == [] then []
    else
      var g := groups[|groups| - 1];
      DuplicateRefundDrafts(p, groups[..|groups| - 1]) + if g == [] then [] else [DuplicateRefundDraft(p, g)]
  }

  function OrderDrafts(i: Input, p: Payment): seq<Draft> {
    if |SameOrder(i, p)| > 1 then
      [Plain(Some(p.id), PaymentRef(p.id), DuplicatePayment, p.amount, Sum(PaymentAmount, SameOrder(i, p)))]
    else []
  }

  function StatusDrafts(p: Payment): seq<Draft> {
    if p.status !in RECONCILABLE then [Plain(Some(p.id), PaymentRef(p.id), StatusMismatch, p.amount, 0)] else []
  }

  function RefundDuplicates(i: Input, p: Payment): seq<Draft> {
    if |RefundsOf(i, p)| > 1 then DuplicateRefundDrafts(p, DuplicateGroups(RefundKeyOf, RefundsOf(i, p))) else []
  }

  function MissingRefundDrafts(i: Input, p: Payment): seq<Draft> {
    if p.expectedRefund && RefundsOf(i, p) == []
        then [Plain(Some(p.id), PaymentRef(p.id), MissingRefund, p.amount, 0)] else []
  }

  function FindSettlement(s: seq<Settlement>, id: nat): Option<Settlement> {
    if s == [] then None else if s[0].id == id then Some(s[0]) else FindSettlement(s[1..], id)
  }

  ghost function MatchOf(rules: Rules, i: Input, p: Payment): Option<Settlement> {
    var d := Scan(rules, p, i.settlements);
    if d.matched && d.recordId.Some? then FindSettlement(i.settlements, d.recordId.value) else None
  }

  function Linked(p: Payment, m: Settlement, d: Decision, caseType: CaseType, c: Calculation): Draft {
    Draft(Some(p.id), SettlementRef(m.id), caseType, c.expected, c.actual, d.via, d.confidence, Some(m.id))
  }

  predicate IsFinal(m: Settlement) { Lower(m.status) in FINAL }

  predicate SameCurrency(p: Payment, m: Settlement) { SettlementCurrency(m) == Upper(p.currency) }

  predicate Delayed(rules: Rules, p: Payment, m: Settlement) { m.settledAt > p.createdAt + rules.windowDays * DAY }

  // A matched pair: one draft for each of the four ways it can disagree.
  function PairDrafts(rules: Rules, i: Input, p: Payment, m: Settlement, d: Decision): seq<Draft> {
    var c := Calculate(p, RefundsOf(i, p), [m]);
    (if !IsFinal(m) then [Linked(p, m, d, StatusMismatch, c)] else [])
    + (if !SameCurrency(p, m) then [Linked(p, m, d, CurrencyMismatch, c)] else [])
    + (if Delayed(rules, p, m) then [Linked(p, m, d, DelayedSettlement, c)] else [])
    + (if c.difference != 0 then [Linked(p, m, d, SettlementMismatch, c)] else [])
  }

  // Several candidates, or none.
  function Unpaired(p: Payment, d: Decision): Draft {
    Draft(Some(p.id), PaymentRef(p.id), if d.candidates != [] then AmbiguousMatch else PaymentWithoutSettlement,
          p.amount, 0, d.via, d.confidence, None)
  }

  ghost function MatchDrafts(rules: Rules, i: Input, p: Payment): seq<Draft> {
    var d := Scan(rules, p, i.settlements);
    var m := MatchOf(rules, i, p);
    if m.Some? then PairDrafts(rules, i, p, m.value, d) else [Unpaired(p, d)]
  }

  // What a payment gives rise to on its own, before matching.
  function OwnDrafts(i: Input, p: Payment): seq<Draft> {
    OrderDrafts(i, p) + StatusDrafts(p) + RefundDuplicates(i, p) + MissingRefundDrafts(i, p)
  }

  // ---------- settlements and refunds nobody matched ----------

  function FindPayment(f: Payment -> bool, s: seq<Payment>): Option<Payment> {
    if s == [] then None else if f(s[0]) then Some(s[0]) else FindPayment(f, s[1..])
  }

  function PaymentById(i: Input, id: Option<nat>): Option<Payment> {
    if id.None? then None else FindPayment((p: Payment) => p.id == id.value, i.allPayments)
  }

  // The stored link first, then the provider's payment reference, compared as stored.
  function LinkedPayment(i: Input, id: Option<nat>, provider: string, reference: string): Option<Payment> {
    var linked := PaymentById(i, id);
    if linked.None? && reference != "" then
      FindPayment((p: Payment) => p.provider == provider && p.providerPaymentId == reference, i.allPayments)
    else linked
  }

  function SettlementDrafts(used: set<nat>, i: Input, s: Settlement): seq<Draft> {
    if s.id in used || LinkedPayment(i, s.paymentId, s.provider, s.providerPaymentId).Some? then []
    else [Plain(None, SettlementRef(s.id), SettlementWithoutPayment, 0, s.net)]
  }

  function SettlementsFor(i: Input, r: Refund): seq<Settlement> {
    Filter(SettlementsWith((r.provider, Normalize(Some(r.providerPaymentId)))), i.settlements)
  }

  function RefundDrafts(used: set<nat>, i: Input, r: Refund): seq<Draft> {
    var linked := LinkedPayment(i, r.paymentId, r.provider, r.providerPaymentId);
    if r.id in used then []
    else if linked.None? then [Plain(None, RefundRef(r.id), RefundWithoutPayment, 0, r.amount)]
    else if SettlementsFor(i, r) == []
        then [Plain(Some(linked.value.id), RefundRef(r.id), RefundWithoutSettlement, r.amount, 0)]
    else []
  }

  // ---------- the bank leg ----------

  function BankRefs(b: Bank): set<string> {
    References([b.reference, Get(b.meta, "settlement_reference"), Get(b.meta, "settlement_id")])
  }

  function BankUtr(b: Bank): Option<string> { Normalize(Get(b.meta, "utr")) }

  function BankProvider(b: Bank): string { if b.provider.Some? then Lower(b.provider.value) else "" }

  // The settlement's own references, in the order they are tried.
  function PayoutRefs(s: Settlement): seq<string> {
    var ref, utr := Normalize(Some(s.settlementRef)), Normalize(s.utr);
    (if ref.Some? then [ref.value] else []) + (if utr.Some? && utr != ref then [utr.value] else [])
  }

  // A bank row is listed under its provider and under the wildcard for each of its references.
  function ListingAs(key: (string, string), provider: string, refs: set<string>, b: Bank): seq<Bank> {
    if key.1 !in refs then [] else (if provider == key.0 then [b] else []) + (if key.0 == "*" then [b] else [])
  }

  function Listing(key: (string, string), b: Bank): seq<Bank> { ListingAs(key, BankProvider(b), BankRefs(b), b) }

  function ListingsUnder(key: (string, string)): Bank -> seq<Bank> { (b: Bank) => Listing(key, b) }

  function WithUtr(ref: string): Bank -> bool { (b: Bank) => BankUtr(b) == Some(ref) }

  function WithCurrency(currency: string): Bank -> bool { (b: Bank) => Upper(b.currency) == currency }

  function RefListing(i: Input, provider: string, ref: string): seq<Bank> {
    FlatMap(ListingsUnder((provider, ref)), i.banks) + FlatMap(ListingsUnder(("*", ref)), i.banks)
        + Filter(WithUtr(ref), i.banks)
  }

  function ListingsFor(i: Input, provider: string): string -> seq<Bank> {
    (ref: string) => RefListing(i, provider, ref)
  }

  predicate Present(found: seq<Bank>, id: nat) { exists k :: 0 <= k < |found| && found[k].id == id }

  function AddBank(found: seq<Bank>, b: Bank): seq<Bank> { if Present(found, b.id) then found else found + [b] }

  function Distinct(listed: seq<Bank>): seq<Bank> {
    if listed == [] then [] else AddBank(Distinct(listed[..|listed| - 1]), listed[|listed| - 1])
  }

  function RefCandidates(i: Input, s: Settlement): seq<Bank> {
    Distinct(FlatMap(ListingsFor(i, Lower(s.provider)), PayoutRefs(s)))
  }

  predicate PayoutFits(rules: Rules, s: Settlement, b: Bank) {
    && Abs(b.timestamp - s.settledAt) / DAY <= Max(7, rules.windowDays)
    && Abs(b.amount - s.net) <= rules.amountTolerance
  }

  function FitsPayout(rules: Rules, s: Settlement): Bank -> bool { (b: Bank) => PayoutFits(rules, s, b) }

  function BankCandidates(rules: Rules, i: Input, s: Settlement): seq<Bank> {
    var referred := RefCandidates(i, s);
    if referred != [] then referred
    else Filter(FitsPayout(rules, s), Filter(WithCurrency(SettlementCurrency(s)), i.banks))
  }

  predicate InScope(i: Input, s: Settlement) { Given(i.merchant) ==> s.merchant == i.merchant }

  predicate BankAgrees(s: Settlement, b: Bank) { b.amount == s.net && Upper(b.currency) == SettlementCurrency(s) }

  function IdOf(p: Option<Payment>): Option<nat> { if p.Some? then Some(p.value.id) else None }

  function AmbiguousPayout(i: Input, s: Settlement, first: Bank): Draft {
    Draft(IdOf(PaymentById(i, s.paymentId)), SettlementRef(s.id), BankAmbiguousMatch, s.net, 0, NoMethod,
        NoConfidence, Some(first.id))
  }

  function MismatchedPayout(i: Input, s: Settlement, b: Bank): Draft {
    Draft(IdOf(PaymentById(i, s.paymentId)), BankRef(b.id), BankSettlementMismatch, s.net, b.amount, NoMethod,
        NoConfidence, Some(s.id))
  }

  function BankDrafts(i: Input, s: Settlement, c: seq<Bank>): seq<Draft> {
    if !InScope(i, s) then []
    else if |c| > 1 then [AmbiguousPayout(i, s, c[0])]
    else if |c| == 1 && !BankAgrees(s, c[0]) then [MismatchedPayout(i, s, c[0])]
    else []
  }

  // The bank row that is a settlement's one candidate.
  function SoleBank(i: Input, s: Settlement, c: seq<Bank>): Option<Bank> {
    if InScope(i, s) && |c| == 1 then Some(c[0]) else None
  }

  function CreditDrafts(used: set<nat>, b: Bank): seq<Draft> {
    if b.id in used || b.amount <= 0 then [] else [Plain(None, BankRef(b.id), BankWithoutSettlement, 0, b.amount)]
  }

  // ---------- the whole run ----------

  // What each record contributes, as functions of the record.
  datatype Plan = Plan(
    own: Payment -> seq<Draft>,             // drafts from the payment's own checks
    matching: Payment -> seq<Draft>,        // drafts from matching it
    refunds: Payment -> seq<Refund>,
    match': Payment -> Option<Settlement>,  // the settlement it matches
    candidates: Settlement -> seq<Bank>)    // the bank rows that could be its payout

  ghost function PlanFor(rules: Rules, i: Input): Plan {
    Plan((p: Payment) => OwnDrafts(i, p), (p: Payment) => MatchDrafts(rules, i, p), (p: Payment) => RefundsOf(i, p),
         (p: Payment) => MatchOf(rules, i, p), (s: Settlement) => BankCandidates(rules, i, s))
  }

  ghost function HasMatch(plan: Plan): Payment -> bool { (p: Payment) => plan.match'(p).Some? }

  ghost function SettlementsUsed(plan: Plan, ps: seq<Payment>): set<nat> {
    set p <- ps | plan.match'(p).Some? :: plan.match'(p).value.id
  }

  ghost function RefundsUsed(plan: Plan, ps: seq<Payment>): set<nat> {
    set p <- ps, r <- plan.refunds(p) | plan.match'(p).Some? :: r.id
  }

  ghost function BanksUsed(plan: Plan, i: Input, ss: seq<Settlement>): set<nat> {
    set s <- ss | SoleBank(i, s, plan.candidates(s)).Some? :: SoleBank(i, s, plan.candidates(s)).value.id
  }

  ghost function Agrees(plan: Plan, i: Input): Settlement -> bool {
    (s: Settlement) => var b := SoleBank(i, s, plan.candidates(s)); b.Some? && BankAgrees(s, b.value)
  }

  ghost function PaymentPass(plan: Plan, ps: seq<Payment>): seq<Draft> {
    FlatMap((p: Payment) => plan.own(p) + plan.matching(p), ps)
  }

  function SettlementPass(used: set<nat>, i: Input, ss: seq<Settlement>): seq<Draft> {
    FlatMap((s: Settlement) => SettlementDrafts(used, i, s), ss)
  }

  function RefundPass(used: set<nat>, i: Input, rs: seq<Refund>): seq<Draft> {
    FlatMap((r: Refund) => RefundDrafts(used, i, r), rs)
  }

  ghost function BankPass(plan: Plan, i: Input, ss: seq<Settlement>): seq<Draft> {
    FlatMap((s: Settlement) => BankDrafts(i, s, plan.candidates(s)), ss)
  }

  function CreditPass(used: set<nat>, bs: seq<Bank>): seq<Draft> {
    FlatMap((b: Bank) => CreditDrafts(used, b), bs)
  }

  // Payments against settlements.
  ghost function MatchingDrafts(plan: Plan, i: Input): seq<Draft> {
    DuplicateSettlementDrafts(DuplicateGroups(SettlementKeyOf, i.settlements)) + PaymentPass(plan, i.payments)
  }

  // Settlements and refunds left over.
  ghost function LeftoverDrafts(plan: Plan, i: Input): seq<Draft> {
    SettlementPass(SettlementsUsed(plan, i.payments), i, i.settlements)
        + RefundPass(RefundsUsed(plan, i.payments), i, i.refunds)
  }

  // Settlements against bank rows.
  ghost function BankLegDrafts(plan: Plan, i: Input): seq<Draft> {
    BankPass(plan, i, i.settlements) + CreditPass(BanksUsed(plan, i, i.settlements), i.banks)
  }

  ghost function DraftsOf(plan: Plan, i: Input): seq<Draft> {
    MatchingDrafts(plan, i) + LeftoverDrafts(plan, i) + BankLegDrafts(plan, i)
  }

  ghost function Drafts(rules: Rules, i: Input): seq<Draft> { DraftsOf(PlanFor(rules, i), i) }

  // The counter each kind of case feeds.
  datatype Stats = Stats(
    unmatched: nat, ambiguous: nat, mismatch: nat, delayed: nat, duplicates: nat,
    bankUnmatched: nat, bankMismatch: nat, bankAmbiguous: nat)

  const ZERO := Stats(0, 0, 0, 0, 0, 0, 0, 0)

  function Bump(t: Stats, caseType: CaseType): Stats {
    match caseType
    case MissingRefund => t.(unmatched := t.unmatched + 1)
    case PaymentWithoutSettlement => t.(unmatched := t.unmatched + 1)
    case AmbiguousMatch => t.(ambiguous := t.ambiguous + 1)
    case StatusMismatch => t.(mismatch := t.mismatch + 1)
    case CurrencyMismatch => t.(mismatch := t.mismatch + 1)
    case SettlementMismatch => t.(mismatch := t.mismatch + 1)
    case DelayedSettlement => t.(delayed := t.delayed + 1)
    case DuplicateSettlement => t.(duplicates := t.duplicates + 1)
    case DuplicatePayment => t.(duplicates := t.duplicates + 1)
    case DuplicateRefund => t.(duplicates := t.duplicates + 1)
    case BankWithoutSettlement => t.(bankUnmatched := t.bankUnmatched + 1)
    case BankSettlementMismatch => t.(bankMismatch := t.bankMismatch + 1)
    case BankAmbiguousMatch => t.(bankAmbiguous := t.bankAmbiguous + 1)
    case _ => t
  }

  function Tally(drafts: seq<Draft>): Stats {
    if drafts == [] then ZERO else Bump(Tally(drafts[..|drafts| - 1]), drafts[|drafts| - 1].caseType)
  }
}
