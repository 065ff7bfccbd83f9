/** Payment-to-settlement matching. `Scan` is the plain definition: four tiers over the payment's
    provider, the first non-empty tier decides, and only a singleton matches. `BuildIndexes` fills
    the dictionaries and time-sorted lists the matcher looks settlements up in. */
module Matching {
  import opened Prelude
  import opened Text
  import opened Records

  datatype Method = ExactPaymentId | OrderReference | UtrReference | AmountCurrencyTime | ToleranceMatch | NoMethod
  datatype Confidence = High | Medium | NoConfidence

  datatype Candidate = Candidate(id: nat, amount: int, currency: string, timestamp: int)

  datatype Decision = Decision(
    matched: bool, via: Method, confidence: Confidence, recordId: Option<nat>, candidates: seq<Candidate>)

  // ---------- the plain scan ----------

  predicate SameProvider(p: Payment, s: Settlement) { Lower(s.provider) == Lower(p.provider) }

  predicate InWindow(rules: Rules, p: Payment, s: Settlement) {
    p.createdAt - rules.toleranceMinutes * MINUTE <= s.settledAt <= p.createdAt + rules.toleranceMinutes * MINUTE
  }

  predicate AmountFits(rules: Rules, p: Payment, s: Settlement) {
    && Upper(GetOr(s.raw, "currency", p.currency)) == Upper(p.currency)
    && Abs(s.net - p.amount) <= rules.amountTolerance
  }

  datatype Tier = ByPaymentId | ByOrderRef | ByBankRef | ByAmountTime

  ghost predicate Satisfies(rules: Rules, tier: Tier, p: Payment, s: Settlement) {
    && SameProvider(p, s)
    && match tier
       case ByPaymentId => Normalize(Some(p.providerPaymentId)).Some?
                           && Normalize(Some(s.providerPaymentId)) == Normalize(Some(p.providerPaymentId))
       case ByOrderRef => PaymentRefs(p) * SettlementRefs(s) != {}
       case ByBankRef => PaymentBankRefs(p) * SettlementBankRefs(s) != {}
       case ByAmountTime => InWindow(rules, p, s) && AmountFits(rules, p, s)
  }

  ghost function InTier(rules: Rules, tier: Tier, p: Payment): Settlement -> bool {
    s => Satisfies(rules, tier, p, s)
  }

  ghost function Hits(rules: Rules, tier: Tier, p: Payment, settlements: seq<Settlement>): seq<Settlement> {
    Filter(InTier(rules, tier, p), settlements)
  }

  function CandidateOf(s: Settlement): Candidate {
    Candidate(s.id, s.net, SettlementCurrency(s), s.settledAt)
  }

  function CandidatesOf(found: seq<Settlement>): seq<Candidate> {
    if found == [] then [] else CandidatesOf(found[..|found| - 1]) + [CandidateOf(found[|found| - 1])]
  }

  const NO_DECISION := Decision(false, NoMethod, NoConfidence, None, [])

  // One non-empty tier decides: a single hit matches, several are ambiguous.
  function Decide(found: seq<Settlement>, via: Method, confidence: Confidence, ambiguous: Method): Decision
    requires found != []
  {
    if |found| == 1 then Decision(true, via, confidence, Some(found[0].id), [])
    else Decision(false, ambiguous, NoConfidence, None, CandidatesOf(found))
  }

  function AmountMethod(rules: Rules): Method {
    if rules.amountTolerance != 0 then ToleranceMatch else AmountCurrencyTime
  }

  function MethodOf(rules: Rules, tier: Tier): Method {
    match tier
    case ByPaymentId => ExactPaymentId
    case ByOrderRef => OrderReference
    case ByBankRef => UtrReference
    case ByAmountTime => AmountMethod(rules)
  }

  function AmbiguousMethodOf(tier: Tier): Method {
    match tier
    case ByPaymentId => ExactPaymentId
    case ByOrderRef => OrderReference
    case ByBankRef => UtrReference
    case ByAmountTime => AmountCurrencyTime
  }

  function ConfidenceOf(tier: Tier): Confidence { if tier == ByAmountTime then Medium else High }

  ghost function DecideTier(rules: Rules, tier: Tier, found: seq<Settlement>): Decision
    requires found != []
  {
    Decide(found, MethodOf(rules, tier), ConfidenceOf(tier), AmbiguousMethodOf(tier))
  }

  // The first non-empty tier decides.
  ghost function DecidingTier(rules: Rules, p: Payment, settlements: seq<Settlement>): Option<Tier> {
    if Hits(rules, ByPaymentId, p, settlements) != [] then Some(ByPaymentId)
    else if Hits(rules, ByOrderRef, p, settlements) != [] then Some(ByOrderRef)
    else if Hits(rules, ByBankRef, p, settlements) != [] then Some(ByBankRef)
    else if Hits(rules, ByAmountTime, p, settlements) != [] then Some(ByAmountTime)
    else None
  }

  ghost function Scan(rules: Rules, p: Payment, settlements: seq<Settlement>): Decision {
    var tier := DecidingTier(rules, p, settlements);
    if tier.None? then NO_DECISION else DecideTier(rules, tier.value, Hits(rules, tier.value, p, settlements))
  }

  // Equal up to the order in which candidates are listed.
  ghost predicate Same(a: Decision, b: Decision) {
    && a.matched == b.matched && a.via == b.via && a.confidence == b.confidence && a.recordId == b.recordId
    && |a.candidates| == |b.candidates| && forall c :: c in a.candidates <==> c in b.candidates
  }

  // ---------- candidates up to order ----------

  ghost predicate DistinctSettlements(s: seq<Settlement>) {
    forall i, j :: 0 <= i < j < |s| ==> s[i].id != s[j].id
  }

  lemma {:induction false} CandidateMember(found: seq<Settlement>, c: Candidate)
    ensures |CandidatesOf(found)| == |found|
    ensures c in CandidatesOf(found) <==> exists s :: s in found && CandidateOf(s) == c
  {
    if found != [] {
      CandidateMember(found[..|found| - 1], c);
      assert found == found[..|found| - 1] + [found[|found| - 1]];
    }
  }

  lemma DecideSame(a: seq<Settlement>, b: seq<Settlement>, via: Method, confidence: Confidence, ambiguous: Method)
    requires a != [] && b != [] && NoDup(a) && NoDup(b) && forall x :: x in a <==> x in b
    ensures Same(Decide(a, via, confidence, ambiguous), Decide(b, via, confidence, ambiguous))
  {
    SameMembersSameBag(a, b);
    assert a[0] in b;
    forall c ensures c in CandidatesOf(a) <==> c in CandidatesOf(b) {
      CandidateMember(a, c);
      CandidateMember(b, c);
    }
    CandidateMember(a, CandidateOf(a[0]));
    CandidateMember(b, CandidateOf(b[0]));
  }

  // ---------- the indexes ----------

  datatype Indexes = Indexes(
    byProvider: map<string, seq<Settlement>>,
    byPaymentId: map<(string, string), seq<Settlement>>,
    byOrderRef: map<(string, string), seq<Settlement>>,
    byBankRef: map<(string, string), seq<Settlement>>,
    byTime: map<string, seq<Settlement>>)

  function OfProvider(provider: string): Settlement -> bool { (s: Settlement) => Lower(s.provider) == provider }

  function WithPaymentId(key: (string, string)): Settlement -> bool {
    (s: Settlement) => Lower(s.provider) == key.0 && Normalize(Some(s.providerPaymentId)) == Some(key.1)
  }

  function WithOrderRef(key: (string, string)): Settlement -> bool {
    (s: Settlement) => Lower(s.provider) == key.0 && key.1 in SettlementRefs(s)
  }

  function WithBankRef(key: (string, string)): Settlement -> bool {
    (s: Settlement) => Lower(s.provider) == key.0 && key.1 in SettlementBankRefs(s)
  }

  ghost predicate SortedByTime(s: seq<Settlement>) {
    forall i, j :: 0 <= i < j < |s| ==> s[i].settledAt <= s[j].settledAt
  }

  ghost predicate ReferenceIndexes(ix: Indexes, s: seq<Settlement>) {
    && ListsOf(ix.byProvider, OfProvider, s)
    && ListsOf(ix.byPaymentId, WithPaymentId, s)
    && ListsOf(ix.byOrderRef, WithOrderRef, s)
    && ListsOf(ix.byBankRef, WithBankRef, s)
  }

  ghost predicate IndexesOf(ix: Indexes, s: seq<Settlement>) {
    && ReferenceIndexes(ix, s)
    && (forall p :: SortedByTime(Lookup(ix.byTime, p)))
    && (forall p :: multiset(Lookup(ix.byTime, p)) == multiset(Filter(OfProvider(p), s)))
  }

  // Appends an item under (provider, ref) for every ref of a set, in whatever order the set yields.
  method AppendUnderEach(index: map<(string, string), seq<Settlement>>, provider: string, refs: set<string>,
      item: Settlement)
    returns (r: map<(string, string), seq<Settlement>>)
    ensures forall k :: Lookup(r, k) == Lookup(index, k) + if k.0 == provider && k.1 in refs then [item] else []
  {
    r := index;
    var pending := refs;
    while pending != {}
      invariant pending <= refs
      invariant forall k ::
        Lookup(r, k) == Lookup(index, k) + if k.0 == provider && k.1 in refs - pending then [item] else []
    {
      var ref :| ref in pending;
      r := Append(r, (provider, ref), item);
      pending := pending - {ref};
    }
  }

  function AtTime(t: int): Settlement -> bool { (s: Settlement) => s.settledAt == t }

  // The sort is stable: settlements with one time keep the order they had.
  ghost predicate SameOrderWithin(sorted: seq<Settlement>, values: seq<Settlement>) {
    forall t :: Filter(AtTime(t), sorted) == Filter(AtTime(t), values)
  }

  lemma InsertStable(a: seq<Settlement>, b: seq<Settlement>, item: Settlement, t: int)
    requires forall j :: 0 <= j < |b| ==> item.settledAt < b[j].settledAt
    ensures Filter(AtTime(t), a + [item] + b) == Filter(AtTime(t), a + b) + if item.settledAt == t then [item] else []
  {
    FilterAppend(AtTime(t), a + [item], b);
    FilterAppend(AtTime(t), a, [item]);
    FilterAppend(AtTime(t), a, b);
    FilterOne(AtTime(t), item);
    if item.settledAt == t { FilterNone(AtTime(t), b); }
  }

  // The item comes after everything of its own time.
  ghost predicate InsertedLast(r: seq<Settlement>, sorted: seq<Settlement>, item: Settlement) {
    forall t :: Filter(AtTime(t), r) == Filter(AtTime(t), sorted) + if item.settledAt == t then [item] else []
  }

  lemma InsertedAt(sorted: seq<Settlement>, k: nat, item: Settlement)
    requires k <= |sorted| && forall j :: k <= j < |sorted| ==> item.settledAt < sorted[j].settledAt
    ensures InsertedLast(sorted[..k] + [item] + sorted[k..], sorted, item)
  {
    assert sorted[..k] + sorted[k..] == sorted;
    forall t { InsertStable(sorted[..k], sorted[k..], item, t); }
  }

  lemma OrderKept(r: seq<Settlement>, sorted: seq<Settlement>, values: seq<Settlement>, i: nat)
    requires i < |values| && SameOrderWithin(sorted, values[..i]) && InsertedLast(r, sorted, values[i])
    ensures SameOrderWithin(r, values[..i + 1])
  {
    forall t { FilterStep(AtTime(t), values, i); }
  }

  method InsertByTime(sorted: seq<Settlement>, item: Settlement) returns (r: seq<Settlement>)
    requires SortedByTime(sorted)
    ensures SortedByTime(r) && multiset(r) == multiset(sorted) + multiset{item}
    ensures InsertedLast(r, sorted, item)
  {
    var k := |sorted|;
    while k > 0 && sorted[k - 1].settledAt > item.settledAt
      invariant 0 <= k <= |sorted|
      invariant forall j :: k <= j < |sorted| ==> item.settledAt < sorted[j].settledAt
    {
      k := k - 1;
    }
    InsertBag(sorted, k, item);
    r := sorted[..k] + [item] + sorted[k..];
    InsertedAt(sorted, k, item);
  }

  ghost predicate SortOf(sorted: seq<Settlement>, values: seq<Settlement>) {
    SortedByTime(sorted) && multiset(sorted) == multiset(values) && SameOrderWithin(sorted, values)
  }

  method SortByTime(values: seq<Settlement>) returns (sorted: seq<Settlement>)
    ensures SortOf(sorted, values)
  {
    sorted := [];
    for i := 0 to |values|
      invariant SortOf(sorted, values[..i])
    {
      ghost var before := sorted;
      sorted := InsertByTime(sorted, values[i]);
      OrderKept(sorted, before, values, i);
      assert values[..i + 1] == values[..i] + [values[i]];
    }
    assert values[..|values|] == values;
  }

  method SortEach(lists: map<string, seq<Settlement>>) returns (r: map<string, seq<Settlement>>)
    ensures forall p :: SortOf(Lookup(r, p), Lookup(lists, p))
  {
    r := lists;
    var pending := lists.Keys;
    while pending != {}
      invariant pending <= lists.Keys && r.Keys == lists.Keys
      invariant forall p :: p in pending ==> r[p] == lists[p]
      invariant forall p :: p in lists.Keys - pending ==> SortOf(r[p], lists[p])
    {
      var p :| p in pending;
      var sorted := SortByTime(r[p]);
      r := r[p := sorted];
      pending := pending - {p};
    }
  }

  method AddUnderProvider(m: map<string, seq<Settlement>>, ghost s: seq<Settlement>, ghost i: nat, item: Settlement)
    returns (r: map<string, seq<Settlement>>)
    requires i < |s| && item == s[i] && ListsOf(m, OfProvider, s[..i])
    ensures ListsOf(r, OfProvider, s[..i + 1])
  {
    r := Append(m, Lower(item.provider), item);
    ListsStep(m, r, OfProvider, s, i);
  }

  method AddUnderPaymentId(m: map<(string, string), seq<Settlement>>, ghost s: seq<Settlement>, ghost i: nat,
      item: Settlement)
    returns (r: map<(string, string), seq<Settlement>>)
    requires i < |s| && item == s[i] && ListsOf(m, WithPaymentId, s[..i])
    ensures ListsOf(r, WithPaymentId, s[..i + 1])
  {
    r := m;
    var pid := Normalize(Some(item.providerPaymentId));
    if pid.Some? { r := Append(m, (Lower(item.provider), pid.value), item); }
    ListsStep(m, r, WithPaymentId, s, i);
  }

  method AddUnderOrderRefs(m: map<(string, string), seq<Settlement>>, ghost s: seq<Settlement>, ghost i: nat,
      item: Settlement)
    returns (r: map<(string, string), seq<Settlement>>)
    requires i < |s| && item == s[i] && ListsOf(m, WithOrderRef, s[..i])
    ensures ListsOf(r, WithOrderRef, s[..i + 1])
  {
    r := AppendUnderEach(m, Lower(item.provider), SettlementRefs(item), item);
    ListsStep(m, r, WithOrderRef, s, i);
  }

  method AddUnderBankRefs(m: map<(string, string), seq<Settlement>>, ghost s: seq<Settlement>, ghost i: nat,
      item: Settlement)
    returns (r: map<(string, string), seq<Settlement>>)
    requires i < |s| && item == s[i] && ListsOf(m, WithBankRef, s[..i])
    ensures ListsOf(r, WithBankRef, s[..i + 1])
  {
    r := AppendUnderEach(m, Lower(item.provider), SettlementBankRefs(item), item);
    ListsStep(m, r, WithBankRef, s, i);
  }

  method BuildIndexes(settlements: seq<Settlement>) returns (ix: Indexes)
    ensures IndexesOf(ix, settlements)
  {
    ix := Indexes(map[], map[], map[], map[], map[]);
    for i := 0 to |settlements|
      invariant ReferenceIndexes(ix, settlements[..i]) && ListsOf(ix.byTime, OfProvider, settlements[..i])
    {
      var item := settlements[i];
      var byProvider := AddUnderProvider(ix.byProvider, settlements, i, item);
      var byPaymentId := AddUnderPaymentId(ix.byPaymentId, settlements, i, item);
      var byOrderRef := AddUnderOrderRefs(ix.byOrderRef, settlements, i, item);
      var byBankRef := AddUnderBankRefs(ix.byBankRef, settlements, i, item);
      var byTime := AddUnderProvider(ix.byTime, settlements, i, item);
      ix := Indexes(byProvider, byPaymentId, byOrderRef, byBankRef, byTime);
    }
    assert settlements[..|settlements|] == settlements;
    var byTime := SortEach(ix.byTime);
    ix := ix.(byTime := byTime);
  }
}
