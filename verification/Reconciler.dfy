/** The dictionaries a reconciliation run builds in one pass over each table, and the look-ups it
    makes in them, each proved to find what a plain scan finds. */
module Reconciler {
  import opened Prelude
  import opened Text
  import opened Records
  import opened Matching
  import opened Matcher
  import opened ReconciliationSpec

  // ---------- the dictionaries a run builds ----------

  // A dictionary of lists keyed by `key`, with its keys in insertion order.
  method GroupBy<T, K(==,!new)>(key: T -> K, s: seq<T>) returns (keys: seq<K>, groups: map<K, seq<T>>)
    ensures keys == KeysOf(key, s)
    ensures forall k :: Lookup(groups, k) == Filter(HasKey(key, k), s)
  {
    keys, groups := [], map[];
    for i := 0 to |s|
      invariant keys == KeysOf(key, s[..i])
      invariant forall k :: Lookup(groups, k) == Filter(HasKey(key, k), s[..i])
    {
      assert s[..i + 1][..i] == s[..i];
      forall k { FilterStep(HasKey(key, k), s, i); }
      if key(s[i]) !in keys { keys := keys + [key(s[i])]; }
      groups := Append(groups, key(s[i]), s[i]);
    }
    assert s[..|s|] == s;
  }

  method IndexRefunds(refunds: seq<Refund>) returns (m: map<(string, Option<string>), seq<Refund>>)
    ensures ListsOf(m, RefundsWith, refunds)
  {
    m := map[];
    for i := 0 to |refunds|
      invariant ListsOf(m, RefundsWith, refunds[..i])
    {
      ghost var before := m;
      m := Append(m, (refunds[i].provider, Normalize(Some(refunds[i].providerPaymentId))), refunds[i]);
      ListsStep(before, m, RefundsWith, refunds, i);
    }
    assert refunds[..|refunds|] == refunds;
  }

  method IndexSettlements(settlements: seq<Settlement>) returns (m: map<(string, Option<string>), seq<Settlement>>)
    ensures ListsOf(m, SettlementsWith, settlements)
  {
    m := map[];
    for i := 0 to |settlements|
      invariant ListsOf(m, SettlementsWith, settlements[..i])
    {
      ghost var before := m;
      m := Append(m, (settlements[i].provider, Normalize(Some(settlements[i].providerPaymentId))), settlements[i]);
      ListsStep(before, m, SettlementsWith, settlements, i);
    }
    assert settlements[..|settlements|] == settlements;
  }

  method IndexOrders(payments: seq<Payment>) returns (m: map<(string, Option<string>), seq<Payment>>)
    ensures ListsOf(m, OrdersWith, payments)
  {
    m := map[];
    for i := 0 to |payments|
      invariant ListsOf(m, OrdersWith, payments[..i])
    {
      ghost var before := m;
      if Given(payments[i].orderId) {
        m := Append(m, (payments[i].provider, Normalize(payments[i].orderId)), payments[i]);
      }
      ListsStep(before, m, OrdersWith, payments, i);
    }
    assert payments[..|payments|] == payments;
  }

  datatype BankIndexes = BankIndexes(
    byRef: map<(string, string), seq<Bank>>, byUtr: map<string, seq<Bank>>, byCurrency: map<string, seq<Bank>>)

  ghost predicate ByReference(m: map<(string, string), seq<Bank>>, banks: seq<Bank>) {
    forall k :: Lookup(m, k) == FlatMap(ListingsUnder(k), banks)
  }

  ghost predicate BankIndexesOf(ix: BankIndexes, banks: seq<Bank>) {
    && ByReference(ix.byRef, banks)
    && ListsOf(ix.byUtr, WithUtr, banks)
    && ListsOf(ix.byCurrency, WithCurrency, banks)
  }

  method ListOnce(m: map<(string, string), seq<Bank>>, provider: string, ref: string, bank: Bank)
    returns (r: map<(string, string), seq<Bank>>)
    ensures forall k :: Lookup(r, k) == Lookup(m, k) + ListingAs(k, provider, {ref}, bank)
  {
    r := Append(m, (provider, ref), bank);
    r := Append(r, ("*", ref), bank);
  }

  method ListBankUnder(m: map<(string, string), seq<Bank>>, provider: string, refs: set<string>, bank: Bank)
    returns (r: map<(string, string), seq<Bank>>)
    ensures forall k :: Lookup(r, k) == Lookup(m, k) + ListingAs(k, provider, refs, bank)
  {
    r := m;
    var pending := refs;
    while pending != {}
      invariant pending <= refs
      invariant forall k :: Lookup(r, k) == Lookup(m, k) + ListingAs(k, provider, refs - pending, bank)
    {
      var ref :| ref in pending;
      r := ListOnce(r, provider, ref, bank);
      pending := pending - {ref};
    }
    assert refs - pending == refs;
  }

  method IndexBankRefs(banks: seq<Bank>) returns (m: map<(string, string), seq<Bank>>)
    ensures ByReference(m, banks)
  {
    m := map[];
    for i := 0 to |banks|
      invariant ByReference(m, banks[..i])
    {
      ghost var before := m;
      m := ListBankUnder(m, BankProvider(banks[i]), BankRefs(banks[i]), banks[i]);
      forall k ensures Lookup(m, k) == FlatMap(ListingsUnder(k), banks[..i + 1]) {
        FlatMapStep(ListingsUnder(k), banks, i);
      }
    }
    assert banks[..|banks|] == banks;
  }

  method IndexBankUtrs(banks: seq<Bank>) returns (m: map<string, seq<Bank>>)
    ensures ListsOf(m, WithUtr, banks)
  {
    m := map[];
    for i := 0 to |banks|
      invariant ListsOf(m, WithUtr, banks[..i])
    {
      ghost var before := m;
      var utr := BankUtr(banks[i]);
      if utr.Some? { m := Append(m, utr.value, banks[i]); }
      ListsStep(before, m, WithUtr, banks, i);
    }
    assert banks[..|banks|] == banks;
  }

  method IndexBankCurrencies(banks: seq<Bank>) returns (m: map<string, seq<Bank>>)
    ensures ListsOf(m, WithCurrency, banks)
  {
    m := map[];
    for i := 0 to |banks|
      invariant ListsOf(m, WithCurrency, banks[..i])
    {
      ghost var before := m;
      m := Append(m, Upper(banks[i].currency), banks[i]);
      ListsStep(before, m, WithCurrency, banks, i);
    }
    assert banks[..|banks|] == banks;
  }

  method IndexBanks(banks: seq<Bank>) returns (ix: BankIndexes)
    ensures BankIndexesOf(ix, banks)
  {
    var byRef := IndexBankRefs(banks);
    var byUtr := IndexBankUtrs(banks);
    var byCurrency := IndexBankCurrencies(banks);
    ix := BankIndexes(byRef, byUtr, byCurrency);
  }

  // candidates_map: rows in order of first appearance, once per id.
  method AddBanks(found: seq<Bank>, ghost listed: seq<Bank>, more: seq<Bank>) returns (r: seq<Bank>)
    requires found == Distinct(listed)
    ensures r == Distinct(listed + more)
  {
    r := found;
    assert listed + more[..0] == listed;
    for k := 0 to |more|
      invariant r == Distinct(listed + more[..k])
    {
      assert (listed + more[..k + 1])[..|listed| + k] == listed + more[..k];
      if !Present(r, more[k].id) { r := r + [more[k]]; }
    }
    assert more[..|more|] == more;
  }

  method CollectReferred(i: Input, ix: BankIndexes, s: Settlement) returns (found: seq<Bank>)
    requires BankIndexesOf(ix, i.banks)
    ensures found == RefCandidates(i, s)
  {
    var refs, provider := PayoutRefs(s), Lower(s.provider);
    ghost var listed: seq<Bank> := [];
    found := [];
    for r := 0 to |refs|
      invariant listed == FlatMap(ListingsFor(i, provider), refs[..r])
      invariant found == Distinct(listed)
    {
      FlatMapStep(ListingsFor(i, provider), refs, r);
      var more := Lookup(ix.byRef, (provider, refs[r])) + Lookup(ix.byRef, ("*", refs[r])) + Lookup(ix.byUtr, refs[r]);
      assert more == RefListing(i, provider, refs[r]);
      found := AddBanks(found, listed, more);
      listed := listed + more;
    }
    assert refs[..|refs|] == refs;
  }

  method CollectFitting(rules: Rules, i: Input, ix: BankIndexes, s: Settlement) returns (found: seq<Bank>)
    requires BankIndexesOf(ix, i.banks)
    ensures found == Filter(FitsPayout(rules, s), Filter(WithCurrency(SettlementCurrency(s)), i.banks))
  {
    var same := Lookup(ix.byCurrency, SettlementCurrency(s));
    found := [];
    for k := 0 to |same|
      invariant found == Filter(FitsPayout(rules, s), same[..k])
    {
      FilterStep(FitsPayout(rules, s), same, k);
      if PayoutFits(rules, s, same[k]) { found := found + [same[k]]; }
    }
    assert same[..|same|] == same;
  }

  // The bank rows that could be a settlement's payout: by reference, else by amount and date.
  method CollectBankCandidates(rules: Rules, i: Input, ix: BankIndexes, s: Settlement) returns (found: seq<Bank>)
    requires BankIndexesOf(ix, i.banks)
    ensures found == BankCandidates(rules, i, s)
  {
    found := CollectReferred(i, ix, s);
    if found == [] { found := CollectFitting(rules, i, ix, s); }
  }

  // next(item for item in candidates if item.id == id)
  method NextMatched(candidates: seq<Settlement>, id: nat) returns (m: Settlement)
    requires exists x :: x in candidates && x.id == id
    ensures m in candidates && m.id == id
  {
    var k := 0;
    assert candidates[0..] == candidates;
    while candidates[k].id != id
      invariant 0 <= k < |candidates| && exists x :: x in candidates[k..] && x.id == id
      decreases |candidates| - k
    {
      assert candidates[k..] == [candidates[k]] + candidates[k + 1..];
      k := k + 1;
    }
    m := candidates[k];
  }

  lemma {:induction false} FindsSettlement(s: seq<Settlement>, x: Settlement)
    requires DistinctSettlements(s) && x in s
    ensures FindSettlement(s, x.id) == Some(x)
  {
    if s[0].id == x.id {
      assert s[0] in s;
      SameIdSameRow(s, [s[0]], x);
    } else {
      FindsSettlement(s[1..], x);
    }
  }
}
