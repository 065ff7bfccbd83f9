/** The matcher as the source runs it: dictionary lookups for the three reference tiers, a binary
    search over the provider's time-sorted settlements for the last one. */
module Matcher {
  import opened Prelude
  import opened Text
  import opened Records
  import opened Matching

  ghost predicate SameMembers(a: seq<Settlement>, b: seq<Settlement>) {
    NoDup(a) && NoDup(b) && forall x :: x in a <==> x in b
  }

  lemma HitsMembers(rules: Rules, tier: Tier, p: Payment, s: seq<Settlement>)
    requires DistinctSettlements(s)
    ensures NoDup(Hits(rules, tier, p, s))
    ensures forall x :: x in Hits(rules, tier, p, s) <==> x in s && Satisfies(rules, tier, p, x)
  {
    FilterNoDup(InTier(rules, tier, p), s);
    forall x ensures x in Hits(rules, tier, p, s) <==> x in s && Satisfies(rules, tier, p, x) {
      FilterMember(InTier(rules, tier, p), s, x);
    }
  }

  // bisect.bisect_left / bisect_right: the loop keeps `lo` below and `hi` above the cut.
  method BisectLeft(keys: seq<int>, x: int) returns (lo: nat)
    requires forall i, j :: 0 <= i < j < |keys| ==> keys[i] <= keys[j]
    ensures lo <= |keys|
    ensures forall k :: 0 <= k < |keys| ==> (k < lo <==> keys[k] < x)
  {
    lo := 0;
    var hi := |keys|;
    while lo < hi
      invariant lo <= hi <= |keys|
      invariant forall k :: 0 <= k < lo ==> keys[k] < x
      invariant forall k :: hi <= k < |keys| ==> keys[k] >= x
    {
      var mid := (lo + hi) / 2;
      if keys[mid] < x { lo := mid + 1; } else { hi := mid; }
    }
  }

  method BisectRight(keys: seq<int>, x: int) returns (lo: nat)
    requires forall i, j :: 0 <= i < j < |keys| ==> keys[i] <= keys[j]
    ensures lo <= |keys|
    ensures forall k :: 0 <= k < |keys| ==> (k < lo <==> keys[k] <= x)
  {
    lo := 0;
    var hi := |keys|;
    while lo < hi
      invariant lo <= hi <= |keys|
      invariant forall k :: 0 <= k < lo ==> keys[k] <= x
      invariant forall k :: hi <= k < |keys| ==> keys[k] > x
    {
      var mid := (lo + hi) / 2;
      if x < keys[mid] { hi := mid; } else { lo := mid + 1; }
    }
  }

  // Everything listed under one of the references, once each, in whatever order the set yields.
  method Gather(index: map<(string, string), seq<Settlement>>, provider: string, refs: set<string>,
      ghost s: seq<Settlement>)
    returns (found: seq<Settlement>)
    requires DistinctSettlements(s) && forall k, x :: x in Lookup(index, k) ==> x in s
    ensures NoDup(found)
    ensures forall x :: x in found <==> exists ref :: ref in refs && x in Lookup(index, (provider, ref))
  {
    found := [];
    var pending := refs;
    while pending != {}
      invariant pending <= refs
      invariant NoDup(found) && forall x :: x in found ==> x in s
      invariant forall x :: x in found <==> exists ref :: ref in refs - pending && x in Lookup(index, (provider, ref))
    {
      var ref :| ref in pending;
      var listed := Lookup(index, (provider, ref));
      ghost var before := found;
      for i := 0 to |listed|
        invariant NoDup(found) && forall x :: x in found ==> x in s
        invariant forall x :: x in found <==> x in before || x in listed[..i]
      {
        var present := false;
        for k := 0 to |found|
          invariant present <==> exists m :: 0 <= m < k && found[m].id == listed[i].id
        {
          if found[k].id == listed[i].id { present := true; }
        }
        assert listed[i] in Lookup(index, (provider, ref));
        SameIdSameRow(s, found, listed[i]);
        if !present { found := found + [listed[i]]; }
        assert listed[..i + 1] == listed[..i] + [listed[i]];
      }
      assert listed[..|listed|] == listed;
      pending := pending - {ref};
    }
  }

  lemma SameIdSameRow(s: seq<Settlement>, found: seq<Settlement>, item: Settlement)
    requires DistinctSettlements(s) && item in s && forall x :: x in found ==> x in s
    ensures (exists m :: 0 <= m < |found| && found[m].id == item.id) <==> item in found
  {
    if m :| 0 <= m < |found| && found[m].id == item.id {
      assert found[m] in s;
      var i :| 0 <= i < |s| && s[i] == found[m];
      var j :| 0 <= j < |s| && s[j] == item;
    }
  }

  // The slice of the time-sorted list inside the window, filtered by currency and amount.
  method AmountMatches(rules: Rules, p: Payment, timed: seq<Settlement>) returns (found: seq<Settlement>)
    requires SortedByTime(timed) && NoDup(timed)
    ensures NoDup(found)
    ensures forall x :: x in found <==> x in timed && InWindow(rules, p, x) && AmountFits(rules, p, x)
  {
    var window := rules.toleranceMinutes * MINUTE;
    var keys := seq(|timed|, i requires 0 <= i < |timed| => timed[i].settledAt);
    var lo := BisectLeft(keys, p.createdAt - window);
    var hi := BisectRight(keys, p.createdAt + window);
    assert lo <= hi by { assert hi < |keys| ==> keys[hi] > p.createdAt + window; }
    found := [];
    for i := lo to hi
      invariant NoDup(found)
      invariant forall x :: x in found <==> exists k :: lo <= k < i && timed[k] == x && AmountFits(rules, p, x)
    {
      if AmountFits(rules, p, timed[i]) { found := found + [timed[i]]; }
    }
    forall x ensures x in found <==> x in timed && InWindow(rules, p, x) && AmountFits(rules, p, x) {
      if x in timed && InWindow(rules, p, x) && AmountFits(rules, p, x) {
        var k :| 0 <= k < |timed| && timed[k] == x;
        assert keys[k] == x.settledAt;
        assert lo <= k < hi;
      }
      if x in found {
        var k :| lo <= k < hi && timed[k] == x && AmountFits(rules, p, x);
        assert keys[k] == x.settledAt;
      }
    }
  }

  lemma ListedInSource<K(!new)>(m: map<K, seq<Settlement>>, f: K -> Settlement -> bool, s: seq<Settlement>, k: K,
      x: Settlement)
    requires ListsOf(m, f, s)
    ensures x in Lookup(m, k) <==> x in s && f(k)(x)
  {
    FilterMember(f(k), s, x);
  }

  method PaymentIdHits(p: Payment, ix: Indexes, rules: Rules, ghost s: seq<Settlement>) returns (found: seq<Settlement>)
    requires ReferenceIndexes(ix, s) && DistinctSettlements(s)
    ensures SameMembers(found, Hits(rules, ByPaymentId, p, s))
  {
    HitsMembers(rules, ByPaymentId, p, s);
    var pid := Normalize(Some(p.providerPaymentId));
    found := if pid.Some? then Lookup(ix.byPaymentId, (Lower(p.provider), pid.value)) else [];
    if pid.Some? {
      var key := (Lower(p.provider), pid.value);
      FilterNoDup(WithPaymentId(key), s);
      forall x ensures x in found <==> x in s && WithPaymentId(key)(x) {
        ListedInSource(ix.byPaymentId, WithPaymentId, s, key, x);
      }
    }
  }

  lemma OrderListed(p: Payment, ix: Indexes, rules: Rules, s: seq<Settlement>, x: Settlement)
    requires ReferenceIndexes(ix, s)
    ensures (exists ref :: ref in PaymentRefs(p) && x in Lookup(ix.byOrderRef, (Lower(p.provider), ref)))
            <==> x in s && Satisfies(rules, ByOrderRef, p, x)
  {
    forall ref ensures x in Lookup(ix.byOrderRef, (Lower(p.provider), ref)) <==>
        x in s && SameProvider(p, x) && ref in SettlementRefs(x) {
      ListedInSource(ix.byOrderRef, WithOrderRef, s, (Lower(p.provider), ref), x);
    }
    if ref :| ref in PaymentRefs(p) && ref in SettlementRefs(x) {
      assert ref in PaymentRefs(p) * SettlementRefs(x);
    }
  }

  method OrderHits(p: Payment, ix: Indexes, rules: Rules, ghost s: seq<Settlement>) returns (found: seq<Settlement>)
    requires ReferenceIndexes(ix, s) && DistinctSettlements(s)
    ensures SameMembers(found, Hits(rules, ByOrderRef, p, s))
  {
    HitsMembers(rules, ByOrderRef, p, s);
    forall k, x | x in Lookup(ix.byOrderRef, k) ensures x in s { ListedInSource(ix.byOrderRef, WithOrderRef, s, k, x); }
    found := Gather(ix.byOrderRef, Lower(p.provider), PaymentRefs(p), s);
    forall x ensures x in found <==> x in s && Satisfies(rules, ByOrderRef, p, x) { OrderListed(p, ix, rules, s, x); }
  }

  lemma BankRefListed(p: Payment, ix: Indexes, rules: Rules, s: seq<Settlement>, x: Settlement)
    requires ReferenceIndexes(ix, s)
    ensures (exists ref :: ref in PaymentBankRefs(p) && x in Lookup(ix.byBankRef, (Lower(p.provider), ref)))
            <==> x in s && Satisfies(rules, ByBankRef, p, x)
  {
    forall ref ensures x in Lookup(ix.byBankRef, (Lower(p.provider), ref)) <==>
        x in s && SameProvider(p, x) && ref in SettlementBankRefs(x) {
      ListedInSource(ix.byBankRef, WithBankRef, s, (Lower(p.provider), ref), x);
    }
    if ref :| ref in PaymentBankRefs(p) && ref in SettlementBankRefs(x) {
      assert ref in PaymentBankRefs(p) * SettlementBankRefs(x);
    }
  }

  method BankRefHits(p: Payment, ix: Indexes, rules: Rules, ghost s: seq<Settlement>) returns (found: seq<Settlement>)
    requires ReferenceIndexes(ix, s) && DistinctSettlements(s)
    ensures SameMembers(found, Hits(rules, ByBankRef, p, s))
  {
    HitsMembers(rules, ByBankRef, p, s);
    forall k, x | x in Lookup(ix.byBankRef, k) ensures x in s { ListedInSource(ix.byBankRef, WithBankRef, s, k, x); }
    found := Gather(ix.byBankRef, Lower(p.provider), PaymentBankRefs(p), s);
    forall x ensures x in found <==> x in s && Satisfies(rules, ByBankRef, p, x) { BankRefListed(p, ix, rules, s, x); }
  }

  lemma BagNoDup<T>(a: seq<T>, b: seq<T>)
    requires multiset(a) == multiset(b) && NoDup(b)
    ensures NoDup(a) && forall x :: x in a <==> x in b
  {
    forall x ensures x in a <==> x in b {
      assert x in a <==> x in multiset(a);
      assert x in b <==> x in multiset(b);
    }
    forall i, j | 0 <= i < j < |a| ensures a[i] != a[j] {
      if a[i] == a[j] {
        assert a == a[..i] + [a[i]] + a[i + 1..j] + [a[j]] + a[j + 1..];
        assert multiset(a)[a[i]] >= 2;
        NoDupCount(b, a[i]);
      }
    }
  }

  method AmountHits(p: Payment, ix: Indexes, rules: Rules, ghost s: seq<Settlement>) returns (found: seq<Settlement>)
    requires IndexesOf(ix, s) && DistinctSettlements(s)
    ensures SameMembers(found, Hits(rules, ByAmountTime, p, s))
  {
    HitsMembers(rules, ByAmountTime, p, s);
    var timed := Lookup(ix.byTime, Lower(p.provider));
    ghost var mine := Filter(OfProvider(Lower(p.provider)), s);
    FilterNoDup(OfProvider(Lower(p.provider)), s);
    BagNoDup(timed, mine);
    found := AmountMatches(rules, p, timed);
    forall x ensures x in mine <==> x in s && SameProvider(p, x) { FilterMember(OfProvider(Lower(p.provider)), s, x); }
  }

  lemma TierSame(rules: Rules, tier: Tier, p: Payment, s: seq<Settlement>, found: seq<Settlement>)
    requires SameMembers(found, Hits(rules, tier, p, s))
    ensures found == [] <==> Hits(rules, tier, p, s) == []
    ensures found != [] ==> Same(DecideTier(rules, tier, found), DecideTier(rules, tier, Hits(rules, tier, p, s)))
  {
    if found != [] { assert found[0] in Hits(rules, tier, p, s); }
    if Hits(rules, tier, p, s) != [] { assert Hits(rules, tier, p, s)[0] in found; }
    if found != [] {
      DecideSame(found, Hits(rules, tier, p, s), MethodOf(rules, tier), ConfidenceOf(tier), AmbiguousMethodOf(tier));
    }
  }

  method MatchPayment(p: Payment, rules: Rules, ix: Indexes, ghost s: seq<Settlement>) returns (d: Decision)
    requires IndexesOf(ix, s) && DistinctSettlements(s)
    ensures Same(d, Scan(rules, p, s))
  {
    var candidates := Lookup(ix.byProvider, Lower(p.provider));
    if candidates == [] {
      NothingForProvider(rules, p, s);
      return NO_DECISION;
    }
    var exact := PaymentIdHits(p, ix, rules, s);
    TierSame(rules, ByPaymentId, p, s, exact);
    if |exact| == 1 { return Decision(true, ExactPaymentId, High, Some(exact[0].id), []); }
    if |exact| > 1 { return Decision(false, ExactPaymentId, NoConfidence, None, CandidatesOf(exact)); }

    var orders := OrderHits(p, ix, rules, s);
    TierSame(rules, ByOrderRef, p, s, orders);
    if |orders| == 1 { return Decision(true, OrderReference, High, Some(orders[0].id), []); }
    if |orders| > 1 { return Decision(false, OrderReference, NoConfidence, None, CandidatesOf(orders)); }

    var banks := BankRefHits(p, ix, rules, s);
    TierSame(rules, ByBankRef, p, s, banks);
    if |banks| == 1 { return Decision(true, UtrReference, High, Some(banks[0].id), []); }
    if |banks| > 1 { return Decision(false, UtrReference, NoConfidence, None, CandidatesOf(banks)); }

    var amounts := AmountHits(p, ix, rules, s);
    TierSame(rules, ByAmountTime, p, s, amounts);
    if |amounts| == 1 { return Decision(true, AmountMethod(rules), Medium, Some(amounts[0].id), []); }
    if |amounts| > 1 { return Decision(false, AmountCurrencyTime, NoConfidence, None, CandidatesOf(amounts)); }
    return NO_DECISION;
  }

  lemma NothingForProvider(rules: Rules, p: Payment, s: seq<Settlement>)
    requires Filter(OfProvider(Lower(p.provider)), s) == []
    ensures forall tier :: Hits(rules, tier, p, s) == []
  {
    forall tier ensures Hits(rules, tier, p, s) == [] {
      if Hits(rules, tier, p, s) != [] {
        var x := Hits(rules, tier, p, s)[0];
        FilterMember(InTier(rules, tier, p), s, x);
        FilterMember(OfProvider(Lower(p.provider)), s, x);
      }
    }
  }

  // ---------- what the decision depends on ----------

  // Tier t decides: it has a hit, and no earlier tier has one.
  ghost predicate Decides(rules: Rules, tier: Tier, p: Payment, s: seq<Settlement>) {
    && Hits(rules, tier, p, s) != []
    && (tier != ByPaymentId ==> Hits(rules, ByPaymentId, p, s) == [])
    && (tier == ByBankRef || tier == ByAmountTime ==> Hits(rules, ByOrderRef, p, s) == [])
    && (tier == ByAmountTime ==> Hits(rules, ByBankRef, p, s) == [])
  }

  ghost predicate OnlyHit(rules: Rules, tier: Tier, p: Payment, s: seq<Settlement>, x: Settlement) {
    x in s && Satisfies(rules, tier, p, x) && forall y :: y in s && Satisfies(rules, tier, p, y) ==> y == x
  }

  // x is the one settlement a tier selects, and no settlement satisfies an earlier tier.
  ghost predicate UniqueMatch(rules: Rules, p: Payment, s: seq<Settlement>, tier: Tier, x: Settlement) {
    && OnlyHit(rules, tier, p, s, x)
    && (tier != ByPaymentId ==> forall y :: y in s ==> !Satisfies(rules, ByPaymentId, p, y))
    && (tier == ByBankRef || tier == ByAmountTime ==> forall y :: y in s ==> !Satisfies(rules, ByOrderRef, p, y))
    && (tier == ByAmountTime ==> forall y :: y in s ==> !Satisfies(rules, ByBankRef, p, y))
  }

  lemma MatchesExactlyUnique(rules: Rules, p: Payment, s: seq<Settlement>, x: Settlement)
    requires DistinctSettlements(s) && x in s
    ensures Scan(rules, p, s).matched && Scan(rules, p, s).recordId == Some(x.id)
            <==> exists tier :: UniqueMatch(rules, p, s, tier, x)
  {
    forall tier
      ensures Decides(rules, tier, p, s) && |Hits(rules, tier, p, s)| == 1 && Hits(rules, tier, p, s)[0].id == x.id
              <==> UniqueMatch(rules, p, s, tier, x)
    {
      UniqueIsSingleton(rules, tier, p, s, x);
    }
    var tier := DecidingTier(rules, p, s);
    if tier.Some? { assert Decides(rules, tier.value, p, s); }
  }

  lemma NoHits(rules: Rules, tier: Tier, p: Payment, s: seq<Settlement>)
    requires DistinctSettlements(s)
    ensures Hits(rules, tier, p, s) == [] <==> forall y :: y in s ==> !Satisfies(rules, tier, p, y)
  {
    HitsMembers(rules, tier, p, s);
    if Hits(rules, tier, p, s) != [] { assert Hits(rules, tier, p, s)[0] in Hits(rules, tier, p, s); }
  }

  lemma SingleHit(rules: Rules, tier: Tier, p: Payment, s: seq<Settlement>, x: Settlement)
    requires DistinctSettlements(s) && x in s
    ensures |Hits(rules, tier, p, s)| == 1 && Hits(rules, tier, p, s)[0].id == x.id <==> OnlyHit(rules, tier, p, s, x)
  {
    var h := Hits(rules, tier, p, s);
    HitsMembers(rules, tier, p, s);
    if |h| == 1 && h[0].id == x.id {
      assert h[0] in h;
      SameIdSameRow(s, [h[0]], x);
      assert x in [h[0]];
      forall y | y in s && Satisfies(rules, tier, p, y) ensures y == x { assert y in h; }
    }
    if OnlyHit(rules, tier, p, s, x) { SameMembersSameBag(h, [x]); }
  }

  lemma UniqueIsSingleton(rules: Rules, tier: Tier, p: Payment, s: seq<Settlement>, x: Settlement)
    requires DistinctSettlements(s) && x in s
    ensures Decides(rules, tier, p, s) && |Hits(rules, tier, p, s)| == 1 && Hits(rules, tier, p, s)[0].id == x.id
            <==> UniqueMatch(rules, p, s, tier, x)
  {
    NoHits(rules, ByPaymentId, p, s);
    NoHits(rules, ByOrderRef, p, s);
    NoHits(rules, ByBankRef, p, s);
    SingleHit(rules, tier, p, s, x);
  }

  // Neither the order of the list nor other providers' rows change the decision.
  lemma ScanIgnoresOrder(rules: Rules, p: Payment, s: seq<Settlement>, t: seq<Settlement>)
    requires DistinctSettlements(s) && DistinctSettlements(t)
    requires forall x :: SameProvider(p, x) ==> (x in s <==> x in t)
    ensures Same(Scan(rules, p, s), Scan(rules, p, t))
  {
    forall tier ensures SameMembers(Hits(rules, tier, p, s), Hits(rules, tier, p, t)) {
      HitsMembers(rules, tier, p, s);
      HitsMembers(rules, tier, p, t);
    }
    TierSame(rules, ByPaymentId, p, t, Hits(rules, ByPaymentId, p, s));
    TierSame(rules, ByOrderRef, p, t, Hits(rules, ByOrderRef, p, s));
    TierSame(rules, ByBankRef, p, t, Hits(rules, ByBankRef, p, s));
    TierSame(rules, ByAmountTime, p, t, Hits(rules, ByAmountTime, p, s));
  }

  // The record a decision names is in the provider's list, so the engine's lookup succeeds.
  lemma MatchIsListed(rules: Rules, p: Payment, s: seq<Settlement>)
    requires DistinctSettlements(s) && Scan(rules, p, s).matched
    ensures exists x :: x in s && SameProvider(p, x) && Scan(rules, p, s).recordId == Some(x.id)
  {
    var tier := DecidingTier(rules, p, s).value;
    HitsMembers(rules, tier, p, s);
    assert Hits(rules, tier, p, s)[0] in Hits(rules, tier, p, s);
  }
}
