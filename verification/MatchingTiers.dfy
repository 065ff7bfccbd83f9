/** What a match means in terms of the records' own fields: which texts, times and amounts have to
    agree, what the decision then says, and that spelling makes no difference. */
module MatchingTiers {
  import opened Prelude
  import opened Text
  import opened Records
  import opened Matching
  import opened Matcher

  // ---------- the tiers, field by field ----------

  // Two texts name the same thing: neither is blank, and they agree but for blanks and letter case.
  predicate Names(a: Option<string>, b: Option<string>) {
    Normalize(a).Some? && Normalize(a) == Normalize(b)
  }

  ghost predicate Share(a: seq<Option<string>>, b: seq<Option<string>>) {
    exists j, k :: 0 <= j < |a| && 0 <= k < |b| && Names(a[j], b[k])
  }

  function OrderTexts(p: Payment): seq<Option<string>> {
    [p.orderId, Get(p.raw, "order_id"), Get(p.raw, "merchant_order_reference"), Get(p.raw, "provider_reference")]
  }

  function SettlementOrderTexts(s: Settlement): seq<Option<string>> {
    [Get(s.raw, "order_id"), Get(s.raw, "merchant_order_reference"), Get(s.raw, "provider_reference"),
     Get(s.raw, "settlement_reference")]
  }

  function BankTexts(p: Payment): seq<Option<string>> {
    [Get(p.raw, "utr"), Get(p.raw, "bank_reference"), Get(p.raw, "settlement_reference")]
  }

  function SettlementBankTexts(s: Settlement): seq<Option<string>> {
    [s.utr, Get(s.raw, "utr"), Get(s.raw, "bank_reference"), Get(s.raw, "settlement_reference")]
  }

  // The currency a settlement is compared in: its own, or the payment's when it names none.
  function CurrencyBeside(p: Payment, s: Settlement): string {
    if "currency" in s.raw then s.raw["currency"] else p.currency
  }

  ghost predicate Meets(rules: Rules, tier: Tier, p: Payment, s: Settlement) {
    && Lower(p.provider) == Lower(s.provider)
    && match tier
       case ByPaymentId => Names(Some(p.providerPaymentId), Some(s.providerPaymentId))
       case ByOrderRef => Share(OrderTexts(p), SettlementOrderTexts(s))
       case ByBankRef => Share(BankTexts(p), SettlementBankTexts(s))
       case ByAmountTime =>
         && Abs(s.settledAt - p.createdAt) <= rules.toleranceMinutes * 60_000_000
         && Lower(CurrencyBeside(p, s)) == Lower(p.currency)
         && p.amount - rules.amountTolerance <= s.net <= p.amount + rules.amountTolerance
  }

  lemma SharedReference(a: seq<Option<string>>, b: seq<Option<string>>)
    ensures References(a) * References(b) != {} <==> Share(a, b)
  {
    if Share(a, b) {
      var j, k :| 0 <= j < |a| && 0 <= k < |b| && Names(a[j], b[k]);
      assert a[j] in a && b[k] in b;
      assert Normalize(a[j]).value in References(a) * References(b);
    }
    if References(a) * References(b) != {} {
      var ref :| ref in References(a) * References(b);
      var x :| x in a && Normalize(x).Some? && Normalize(x).value == ref;
      var y :| y in b && Normalize(y).Some? && Normalize(y).value == ref;
      var j :| 0 <= j < |a| && a[j] == x;
      var k :| 0 <= k < |b| && b[k] == y;
      assert Names(a[j], b[k]);
    }
  }

  lemma UpperLower(a: string, b: string)
    ensures Upper(a) == Upper(b) <==> Lower(a) == Lower(b)
  {
    LowerOfUpper(a);
    LowerOfUpper(b);
    UpperOfLower(a);
    UpperOfLower(b);
  }

  lemma UpperOfLower(s: string)
    ensures Upper(Lower(s)) == Upper(s)
  {
    forall i | 0 <= i < |s| ensures UpperChar(LowerChar(s[i])) == UpperChar(s[i]) { }
  }

  // A settlement satisfies a tier of the matcher if and only if these fields agree.
  lemma TierExactly(rules: Rules, tier: Tier, p: Payment, s: Settlement)
    ensures Satisfies(rules, tier, p, s) <==> Meets(rules, tier, p, s)
  {
    SharedReference(OrderTexts(p), SettlementOrderTexts(s));
    SharedReference(BankTexts(p), SettlementBankTexts(s));
    UpperLower(CurrencyBeside(p, s), p.currency);
  }

  // One shared reference is enough, whichever fields carry it.
  lemma OneReferenceIsEnough(rules: Rules, p: Payment, s: Settlement, j: nat, k: nat)
    requires Lower(p.provider) == Lower(s.provider)
    ensures j < |OrderTexts(p)| && k < |SettlementOrderTexts(s)| && Names(OrderTexts(p)[j], SettlementOrderTexts(s)[k])
            ==> Satisfies(rules, ByOrderRef, p, s)
    ensures j < |BankTexts(p)| && k < |SettlementBankTexts(s)| && Names(BankTexts(p)[j], SettlementBankTexts(s)[k])
            ==> Satisfies(rules, ByBankRef, p, s)
  {
    TierExactly(rules, ByOrderRef, p, s);
    TierExactly(rules, ByBankRef, p, s);
  }

  // ---------- what the decision says ----------

  ghost predicate SomeMeets(rules: Rules, tier: Tier, p: Payment, s: seq<Settlement>) {
    exists x :: x in s && Meets(rules, tier, p, x)
  }

  // The first tier that any settlement meets.
  ghost predicate FirstMet(rules: Rules, tier: Tier, p: Payment, s: seq<Settlement>) {
    && SomeMeets(rules, tier, p, s)
    && (tier != ByPaymentId ==> !SomeMeets(rules, ByPaymentId, p, s))
    && (tier == ByBankRef || tier == ByAmountTime ==> !SomeMeets(rules, ByOrderRef, p, s))
    && (tier == ByAmountTime ==> !SomeMeets(rules, ByBankRef, p, s))
  }

  ghost predicate NoneMet(rules: Rules, p: Payment, s: seq<Settlement>) { forall tier :: !SomeMeets(rules, tier, p, s) }

  // x is all that meets the tier.
  ghost predicate OnlyMeets(rules: Rules, tier: Tier, p: Payment, s: seq<Settlement>, x: Settlement) {
    x in s && Meets(rules, tier, p, x) && forall y :: y in s && Meets(rules, tier, p, y) ==> y == x
  }

  ghost predicate SeveralMeet(rules: Rules, tier: Tier, p: Payment, s: seq<Settlement>) {
    exists x, y :: x in s && y in s && x != y && Meets(rules, tier, p, x) && Meets(rules, tier, p, y)
  }

  lemma HitsMeet(rules: Rules, tier: Tier, p: Payment, s: seq<Settlement>)
    requires DistinctSettlements(s)
    ensures NoDup(Hits(rules, tier, p, s))
    ensures forall x :: x in Hits(rules, tier, p, s) <==> x in s && Meets(rules, tier, p, x)
    ensures Hits(rules, tier, p, s) != [] <==> SomeMeets(rules, tier, p, s)
  {
    HitsMembers(rules, tier, p, s);
    forall x ensures x in Hits(rules, tier, p, s) <==> x in s && Meets(rules, tier, p, x) {
      TierExactly(rules, tier, p, x);
    }
    HasMember(Hits(rules, tier, p, s));
  }

  lemma HasHits(rules: Rules, tier: Tier, p: Payment, s: seq<Settlement>)
    requires DistinctSettlements(s)
    ensures Hits(rules, tier, p, s) != [] <==> SomeMeets(rules, tier, p, s)
  {
    HitsMeet(rules, tier, p, s);
  }

  lemma DecidingTierIsFirst(rules: Rules, p: Payment, s: seq<Settlement>)
    requires DistinctSettlements(s)
    ensures DecidingTier(rules, p, s).None? <==> NoneMet(rules, p, s)
    ensures forall tier :: DecidingTier(rules, p, s) == Some(tier) <==> FirstMet(rules, tier, p, s)
  {
    HasHits(rules, ByPaymentId, p, s);
    HasHits(rules, ByOrderRef, p, s);
    HasHits(rules, ByBankRef, p, s);
    HasHits(rules, ByAmountTime, p, s);
  }

  lemma CountHits(rules: Rules, tier: Tier, p: Payment, s: seq<Settlement>)
    requires DistinctSettlements(s)
    ensures |Hits(rules, tier, p, s)| > 1 <==> SeveralMeet(rules, tier, p, s)
    ensures forall x :: Hits(rules, tier, p, s) == [x] <==> OnlyMeets(rules, tier, p, s, x)
  {
    HitsMeet(rules, tier, p, s);
    SeveralMembers(Hits(rules, tier, p, s));
    forall x ensures Hits(rules, tier, p, s) == [x] <==> OnlyMeets(rules, tier, p, s, x) {
      OneMember(Hits(rules, tier, p, s), x);
    }
  }

  predicate Labelled(rules: Rules, d: Decision, tier: Tier) {
    match tier
    case ByPaymentId => d.via == ExactPaymentId && (d.matched ==> d.confidence == High)
    case ByOrderRef => d.via == OrderReference && (d.matched ==> d.confidence == High)
    case ByBankRef => d.via == UtrReference && (d.matched ==> d.confidence == High)
    case ByAmountTime =>
      d.via == (if d.matched && rules.amountTolerance > 0 then ToleranceMatch else AmountCurrencyTime)
      && (d.matched ==> d.confidence == Medium)
  }

  function OwnFigures(x: Settlement): Candidate {
    Candidate(x.id, x.net, Upper(if "currency" in x.raw then x.raw["currency"] else "INR"), x.settledAt)
  }

  // Each candidate listed is a settlement that meets the tier, with its own figures, and all are listed.
  ghost predicate Lists(rules: Rules, d: Decision, tier: Tier, p: Payment, s: seq<Settlement>) {
    forall c :: c in d.candidates <==>
      exists x :: x in s && Meets(rules, tier, p, x) && c == OwnFigures(x)
  }

  // The decision in full: no tier met, one settlement meeting the first tier met, or several.
  lemma DecisionExactly(rules: Rules, p: Payment, s: seq<Settlement>)
    requires DistinctSettlements(s)
    ensures var d := Scan(rules, p, s);
      && (NoneMet(rules, p, s) <==> d == Decision(false, NoMethod, NoConfidence, None, []))
      && (forall tier, x :: FirstMet(rules, tier, p, s) && OnlyMeets(rules, tier, p, s, x) ==>
            d.matched && d.recordId == Some(x.id) && d.candidates == [] && Labelled(rules, d, tier))
      && (forall tier :: FirstMet(rules, tier, p, s) && SeveralMeet(rules, tier, p, s) ==>
            !d.matched && d.recordId.None? && d.candidates != [] && d.confidence == NoConfidence
            && Labelled(rules, d, tier) && Lists(rules, d, tier, p, s))
  {
    DecidingTierIsFirst(rules, p, s);
    var tier := DecidingTier(rules, p, s);
    if tier.Some? {
      HitsMeet(rules, tier.value, p, s);
      CountHits(rules, tier.value, p, s);
      if |Hits(rules, tier.value, p, s)| > 1 { SeveralDecide(rules, tier.value, p, s); }
    }
  }

  lemma SeveralDecide(rules: Rules, tier: Tier, p: Payment, s: seq<Settlement>)
    requires DistinctSettlements(s) && |Hits(rules, tier, p, s)| > 1
    ensures var d := DecideTier(rules, tier, Hits(rules, tier, p, s));
      && !d.matched && d.recordId.None? && d.candidates != [] && d.confidence == NoConfidence
      && Labelled(rules, d, tier) && Lists(rules, d, tier, p, s)
  {
    var h := Hits(rules, tier, p, s);
    CandidateMember(h, CandidateOf(h[0]));
    HitsListed(rules, tier, p, s, DecideTier(rules, tier, h));
  }

  lemma SameFigures(x: Settlement)
    ensures CandidateOf(x) == OwnFigures(x)
  {
  }

  lemma HitsListed(rules: Rules, tier: Tier, p: Payment, s: seq<Settlement>, d: Decision)
    requires DistinctSettlements(s) && d.candidates == CandidatesOf(Hits(rules, tier, p, s))
    ensures Lists(rules, d, tier, p, s)
  {
    var h := Hits(rules, tier, p, s);
    HitsMeet(rules, tier, p, s);
    forall x { SameFigures(x); }
    forall c { CandidateMember(h, c); }
  }

  // ---------- spelling ----------

  predicate SameText(a: Option<string>, b: Option<string>) { Normalize(a) == Normalize(b) }

  predicate SameTexts(a: seq<Option<string>>, b: seq<Option<string>>) {
    |a| == |b| && forall k :: 0 <= k < |a| ==> SameText(a[k], b[k])
  }

  // Two payments that differ in the blanks around and the letter case of their references only.
  predicate AlikePayments(p: Payment, q: Payment) {
    && Lower(p.provider) == Lower(q.provider) && SameText(Some(p.providerPaymentId), Some(q.providerPaymentId))
    && SameTexts(OrderTexts(p), OrderTexts(q)) && SameTexts(BankTexts(p), BankTexts(q))
    && p.createdAt == q.createdAt && p.amount == q.amount && p.currency == q.currency
  }

  predicate AlikeSettlements(s: Settlement, t: Settlement) {
    && Lower(s.provider) == Lower(t.provider) && SameText(Some(s.providerPaymentId), Some(t.providerPaymentId))
    && SameTexts(SettlementOrderTexts(s), SettlementOrderTexts(t))
        && SameTexts(SettlementBankTexts(s), SettlementBankTexts(t))
    && s.id == t.id && s.settledAt == t.settledAt && s.net == t.net && Get(s.raw, "currency") == Get(t.raw, "currency")
  }

  lemma SameReferences(a: seq<Option<string>>, b: seq<Option<string>>, c: seq<Option<string>>, d: seq<Option<string>>)
    requires SameTexts(a, c) && SameTexts(b, d) && Share(a, b)
    ensures Share(c, d)
  {
    var j, k :| 0 <= j < |a| && 0 <= k < |b| && Names(a[j], b[k]);
    assert SameText(a[j], c[j]) && SameText(b[k], d[k]);
    assert Names(c[j], d[k]);
  }

  lemma MeetsAlike(rules: Rules, tier: Tier, p: Payment, q: Payment, s: Settlement, t: Settlement)
    requires AlikePayments(p, q) && AlikeSettlements(s, t) && Meets(rules, tier, p, s)
    ensures Meets(rules, tier, q, t)
  {
    match tier
    case ByOrderRef => SameReferences(OrderTexts(p), SettlementOrderTexts(s), OrderTexts(q), SettlementOrderTexts(t));
    case ByBankRef => SameReferences(BankTexts(p), SettlementBankTexts(s), BankTexts(q), SettlementBankTexts(t));
    case ByAmountTime =>
      assert ("currency" in s.raw <==> "currency" in t.raw) && CurrencyBeside(p, s) == CurrencyBeside(q, t);
    case _ =>
  }

  lemma AlikeBack(p: Payment, q: Payment, s: Settlement, t: Settlement)
    requires AlikePayments(p, q) && AlikeSettlements(s, t)
    ensures AlikePayments(q, p) && AlikeSettlements(t, s)
  {
  }

  lemma SatisfiesAlike(rules: Rules, tier: Tier, p: Payment, q: Payment, s: Settlement, t: Settlement)
    requires AlikePayments(p, q) && AlikeSettlements(s, t)
    ensures Satisfies(rules, tier, p, s) <==> Satisfies(rules, tier, q, t)
  {
    TierExactly(rules, tier, p, s);
    TierExactly(rules, tier, q, t);
    AlikeBack(p, q, s, t);
    if Meets(rules, tier, p, s) { MeetsAlike(rules, tier, p, q, s, t); }
    if Meets(rules, tier, q, t) { MeetsAlike(rules, tier, q, p, t, s); }
  }

  predicate AlikeLists(s: seq<Settlement>, t: seq<Settlement>) {
    |s| == |t| && forall k :: 0 <= k < |s| ==> AlikeSettlements(s[k], t[k])
  }

  lemma {:induction false} HitsAlike(rules: Rules, tier: Tier, p: Payment, q: Payment, s: seq<Settlement>,
      t: seq<Settlement>)
    requires AlikePayments(p, q) && AlikeLists(s, t)
    ensures AlikeLists(Hits(rules, tier, p, s), Hits(rules, tier, q, t))
  {
    if s != [] {
      var n := |s| - 1;
      assert AlikeLists(s[..n], t[..n]);
      HitsAlike(rules, tier, p, q, s[..n], t[..n]);
      SatisfiesAlike(rules, tier, p, q, s[n], t[n]);
    }
  }

  lemma {:induction false} CandidatesAlike(h: seq<Settlement>, g: seq<Settlement>)
    requires AlikeLists(h, g)
    ensures CandidatesOf(h) == CandidatesOf(g)
  {
    if h != [] {
      var n := |h| - 1;
      CandidatesAlike(h[..n], g[..n]);
      assert AlikeSettlements(h[n], g[n]);
      CandidateAlike(h[n], g[n]);
    }
  }

  lemma CandidateAlike(s: Settlement, t: Settlement)
    requires AlikeSettlements(s, t)
    ensures CandidateOf(s) == CandidateOf(t)
  {
    assert "currency" in s.raw <==> "currency" in t.raw;
  }

  lemma TierAlike(rules: Rules, tier: Tier, p: Payment, q: Payment, s: seq<Settlement>, t: seq<Settlement>)
    requires AlikePayments(p, q) && AlikeLists(s, t)
    ensures var h, g := Hits(rules, tier, p, s), Hits(rules, tier, q, t);
      |h| == |g| && (h != [] ==> DecideTier(rules, tier, h) == DecideTier(rules, tier, g))
  {
    HitsAlike(rules, tier, p, q, s, t);
    CandidatesAlike(Hits(rules, tier, p, s), Hits(rules, tier, q, t));
  }

  // Blanks around a reference and the case of its letters never change the decision.
  lemma ScanIgnoresSpelling(rules: Rules, p: Payment, q: Payment, s: seq<Settlement>, t: seq<Settlement>)
    requires AlikePayments(p, q) && AlikeLists(s, t)
    ensures Scan(rules, p, s) == Scan(rules, q, t)
  {
    TierAlike(rules, ByPaymentId, p, q, s, t);
    TierAlike(rules, ByOrderRef, p, q, s, t);
    TierAlike(rules, ByBankRef, p, q, s, t);
    TierAlike(rules, ByAmountTime, p, q, s, t);
  }

  // What counts as the same spelling: any letter case, any surrounding blanks.
  lemma Respelled(before: string, text: string, other: string, after: string)
    requires Blank(before) && Blank(after) && Lower(text) == Lower(other)
    ensures SameText(Some(text), Some(before + other + after))
  {
    StripPads(before, other, after);
    NormalizeIgnoresCase(text, other);
  }
}
