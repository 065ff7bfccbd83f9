/** Bank candidates are collected reference by reference from a set, so their order may differ from
    one process to the next. What depends on it: only which candidate an ambiguity case names. */
module CandidateOrder {
  import opened Prelude
  import opened Text
  import opened Records
  import opened CaseStore
  import opened ReconciliationSpec
  import opened ReconciliationTheorems
  import opened ReconciliationCoverage
  import opened CaseCoverage

  // The candidates when the settlement's references are tried in this order.
  function BankCandidatesIn(rules: Rules, i: Input, s: Settlement, refs: seq<string>): seq<Bank> {
    var referred := Distinct(FlatMap(ListingsFor(i, Lower(s.provider)), refs));
    if referred != [] then referred
    else Filter(FitsPayout(rules, s), Filter(WithCurrency(SettlementCurrency(s)), i.banks))
  }

  ghost predicate SameBanks(a: seq<Bank>, b: seq<Bank>) { NoDup(a) && NoDup(b) && forall x :: x in a <==> x in b }

  lemma ReferredInAnyOrder(i: Input, s: Settlement, refs: seq<string>)
    requires DistinctBanks(i.banks) && forall r :: r in refs <==> r in PayoutRefs(s)
    ensures SameBanks(Distinct(FlatMap(ListingsFor(i, Lower(s.provider)), refs)), RefCandidates(i, s))
  {
    var f := ListingsFor(i, Lower(s.provider));
    ReferredIsPlainScan(i, s);
    forall b ensures b in FlatMap(f, refs) <==> b in FlatMap(f, PayoutRefs(s)) {
      FlatMapMember(f, refs, b);
      FlatMapMember(f, PayoutRefs(s), b);
    }
    forall b | b in FlatMap(f, PayoutRefs(s)) ensures b in i.banks { ListedBank(i, s, b); }
    DistinctMembers(i.banks, FlatMap(f, refs));
    DistinctMembers(i.banks, FlatMap(f, PayoutRefs(s)));
    BankDistinctNoDup(RefCandidates(i, s));
    BankDistinctNoDup(Distinct(FlatMap(f, refs)));
  }

  lemma ListedBank(i: Input, s: Settlement, b: Bank)
    requires b in FlatMap(ListingsFor(i, Lower(s.provider)), PayoutRefs(s))
    ensures b in i.banks
  {
    FlatMapMember(ListingsFor(i, Lower(s.provider)), PayoutRefs(s), b);
    var ref :| ref in PayoutRefs(s) && b in ListingsFor(i, Lower(s.provider))(ref);
    RefListingMember(i, Lower(s.provider), ref, b);
  }

  // Whatever the order, the same rows are candidates.
  lemma CandidatesInAnyOrder(rules: Rules, i: Input, s: Settlement, refs: seq<string>)
    requires DistinctBanks(i.banks) && forall r :: r in refs <==> r in PayoutRefs(s)
    ensures SameBanks(BankCandidatesIn(rules, i, s, refs), BankCandidates(rules, i, s))
  {
    ReferredInAnyOrder(i, s, refs);
    HasMember(RefCandidates(i, s));
    HasMember(Distinct(FlatMap(ListingsFor(i, Lower(s.provider)), refs)));
    CandidatesArePlainScan(rules, i, s);
  }

  // ---------- two runs that differ in the order only ----------

  ghost predicate Reorders(other: Plan, plan: Plan) {
    other == plan.(candidates := other.candidates) && forall s :: SameBanks(other.candidates(s), plan.candidates(s))
  }

  lemma SameSole(a: seq<Bank>, b: seq<Bank>)
    requires SameBanks(a, b)
    ensures |a| == |b| && (|a| == 1 ==> a == b)
  {
    SameMembersSameBag(a, b);
    if |a| == 1 { assert a[0] in b; }
  }

  // One settlement's outcome differs exactly when it is ambiguous and another row comes first.
  lemma OutcomeByOrder(i: Input, s: Settlement, a: seq<Bank>, b: seq<Bank>)
    requires SameBanks(a, b)
    ensures |a| == |b| && SoleBank(i, s, a) == SoleBank(i, s, b)
    ensures BankDrafts(i, s, a) == BankDrafts(i, s, b) <==> !InScope(i, s) || |a| <= 1 || a[0].id == b[0].id
  {
    SameSole(a, b);
  }

  lemma SameBanksUsed(other: Plan, plan: Plan, i: Input)
    requires Reorders(other, plan)
    ensures BanksUsed(other, i, i.settlements) == BanksUsed(plan, i, i.settlements)
  {
    forall s ensures SoleBank(i, s, other.candidates(s)) == SoleBank(i, s, plan.candidates(s)) {
      OutcomeByOrder(i, s, other.candidates(s), plan.candidates(s));
    }
  }

  lemma SamePayouts(other: Plan, plan: Plan, i: Input, d: Draft)
    requires Reorders(other, plan) && d.caseType != BankAmbiguousMatch
    ensures d in BankLegDrafts(other, i) <==> d in BankLegDrafts(plan, i)
  {
    SameBanksUsed(other, plan, i);
    BankLegMembers(other, i, d);
    BankLegMembers(plan, i, d);
    forall s ensures d in BankDrafts(i, s, other.candidates(s)) <==> d in BankDrafts(i, s, plan.candidates(s)) {
      SameSole(other.candidates(s), plan.candidates(s));
    }
  }

  lemma SameMatching(other: Plan, plan: Plan, i: Input)
    requires Reorders(other, plan)
    ensures MatchingDrafts(other, i) == MatchingDrafts(plan, i) && LeftoverDrafts(other, i) == LeftoverDrafts(plan, i)
  {
    var f := (p: Payment) => plan.own(p) + plan.matching(p);
    SameMap((p: Payment) => other.own(p) + other.matching(p), f, i.payments);
  }

  // Every draft but the ambiguous payouts is independent of the order.
  lemma OnlyAmbiguityDepends(other: Plan, plan: Plan, i: Input, d: Draft)
    requires Reorders(other, plan) && d.caseType != BankAmbiguousMatch
    ensures d in DraftsOf(other, i) <==> d in DraftsOf(plan, i)
  {
    SameMatching(other, plan, i);
    SamePayouts(other, plan, i, d);
  }

  lemma AmbiguousDrafts(plan: Plan, i: Input, d: Draft)
    requires Typed(plan) && d.caseType == BankAmbiguousMatch
    ensures d in DraftsOf(plan, i) <==>
        exists s :: s in i.settlements && Doubtful(plan, i, s) && d == DoubtDraft(plan, i, s)
  {
    BankLegOnly(plan, i, d);
    PayoutInLeg(plan, i, d);
    forall s
      ensures d in BankDrafts(i, s, plan.candidates(s)) <==> Doubtful(plan, i, s) && d == DoubtDraft(plan, i, s)
    {
    }
  }

  // Repeating a run in another order leaves the table as it is if and only if every ambiguous payout
  // is on file under the candidate that now comes first.
  lemma RepeatedInOtherOrder(rules: Rules, i: Input, other: Plan, rows: seq<CaseRow>, year: int, later: int)
    requires Reorders(other, PlanFor(rules, i))
    ensures var after := InsertAll(rows, year, Drafts(rules, i));
      InsertAll(after, later, DraftsOf(other, i)) == after
      <==> forall s :: s in i.settlements && Doubtful(other, i, s) ==> OnFile(after, DoubtDraft(other, i, s))
  {
    var plan := PlanFor(rules, i);
    var after, again := InsertAll(rows, year, DraftsOf(plan, i)), DraftsOf(other, i);
    PlanTypes(rules, i);
    InsertAllKeys(rows, year, DraftsOf(plan, i));
    InsertAllKeys(after, later, again);
    OtherTyped(other, plan);
    if forall s :: s in i.settlements && Doubtful(other, i, s) ==> OnFile(after, DoubtDraft(other, i, s)) {
      forall d | d in again ensures OnFile(after, d) {
        if d.caseType == BankAmbiguousMatch {
          AmbiguousDrafts(other, i, d);
        } else {
          OnlyAmbiguityDepends(other, plan, i, d);
        }
      }
      InsertAllAbsorbs(after, later, again);
    }
    if InsertAll(after, later, again) == after {
      forall s | s in i.settlements && Doubtful(other, i, s) ensures OnFile(after, DoubtDraft(other, i, s)) {
        AmbiguousDrafts(other, i, DoubtDraft(other, i, s));
      }
    }
  }

  lemma OtherTyped(other: Plan, plan: Plan)
    requires Reorders(other, plan) && Typed(plan)
    ensures Typed(other)
  {
  }

  // ---------- an input on which the order shows ----------

  // A settlement whose reference and UTR point at two different bank rows.
  function TwoReferences(): Input {
    var s := Settlement(1, "razorpay", "a", "", None, None, 100, 0, 0, 100, 0, "settled", 0, Some("b"), map[]);
    var x := Bank(1, None, None, Some("a"), 100, "INR", 0, map[]);
    Input([], [], [], [s], [x, x.(id := 2, reference := Some("b"))], None)
  }

  lemma Letters()
    ensures Normalize(Some("a")) == Some("a") && Normalize(Some("b")) == Some("b")
  {
    OneLetter('a');
    OneLetter('b');
  }

  lemma TwoRefs(i: Input)
    requires i == TwoReferences()
    ensures PayoutRefs(i.settlements[0]) == ["a", "b"]
    ensures BankRefs(i.banks[0]) == {"a"} && BankRefs(i.banks[1]) == {"b"}
    ensures forall b :: b in i.banks ==> BankUtr(b) == None && BankProvider(b) == ""
  {
    Letters();
  }

  lemma ListedUnder(b: Bank, ref: string)
    requires BankProvider(b) == ""
    ensures ListingsUnder(("razorpay", ref))(b) == []
    ensures ListingsUnder(("*", ref))(b) == if ref in BankRefs(b) then [b] else []
  {
  }

  // Two rows without provider and UTR, only one of which carries the reference.
  lemma ListedOnce(i: Input, x: Bank, y: Bank, ref: string, own: Bank)
    requires i.banks == [x, y] && x != y && (own == x || own == y)
    requires BankProvider(x) == BankProvider(y) == "" && BankUtr(x) == BankUtr(y) == None
    requires (ref in BankRefs(x) <==> x == own) && (ref in BankRefs(y) <==> y == own)
    ensures RefListing(i, "razorpay", ref) == [own]
  {
    var f, g := ListingsUnder(("razorpay", ref)), ListingsUnder(("*", ref));
    ListedUnder(x, ref);
    ListedUnder(y, ref);
    PairMap(f, x, y);
    PairMap(g, x, y);
    FilterNone(WithUtr(ref), i.banks);
    assert FlatMap(f, [x, y]) == [];
    assert FlatMap(g, [x, y]) == (if x == own then [x] else []) + (if y == own then [y] else []);
  }

  lemma OneListed(i: Input, k: nat)
    requires i == TwoReferences() && k < 2
    ensures RefListing(i, "razorpay", ["a", "b"][k]) == [i.banks[k]]
  {
    TwoRefs(i);
    ListedOnce(i, i.banks[0], i.banks[1], ["a", "b"][k], i.banks[k]);
  }

  lemma PairMap<T, U>(f: T -> seq<U>, x: T, y: T)
    ensures FlatMap(f, [x, y]) == f(x) + f(y)
  {
    assert [x] + [y] == [x, y];
    FlatMapAppend(f, [x], [y]);
    FlatMapOne(f, x);
    FlatMapOne(f, y);
  }

  lemma DistinctPair(x: Bank, y: Bank)
    requires x.id != y.id
    ensures Distinct([x, y]) == [x, y]
  {
    assert [x, y][..1] == [x] && [x][..0] == [];
    assert Distinct([x]) == [x];
  }

  lemma BothOrders(rules: Rules, i: Input)
    requires i == TwoReferences()
    ensures BankCandidatesIn(rules, i, i.settlements[0], ["a", "b"]) == [i.banks[0], i.banks[1]]
    ensures BankCandidatesIn(rules, i, i.settlements[0], ["b", "a"]) == [i.banks[1], i.banks[0]]
  {
    var f := ListingsFor(i, "razorpay");
    assert Lower(i.settlements[0].provider) == "razorpay";
    OneListed(i, 0);
    OneListed(i, 1);
    PairMap(f, "a", "b");
    PairMap(f, "b", "a");
    DistinctPair(i.banks[0], i.banks[1]);
    DistinctPair(i.banks[1], i.banks[0]);
  }

  // The plan of a run that tries the UTR first.
  ghost function UtrFirst(rules: Rules, i: Input): Plan {
    PlanFor(rules, i).(candidates := (s: Settlement) =>
      if i.settlements != [] && s == i.settlements[0] then BankCandidatesIn(rules, i, s, ["b", "a"])
      else BankCandidates(rules, i, s))
  }

  lemma UtrFirstReorders(rules: Rules, i: Input)
    requires i == TwoReferences()
    ensures Reorders(UtrFirst(rules, i), PlanFor(rules, i))
  {
    var other, plan := UtrFirst(rules, i), PlanFor(rules, i);
    assert DistinctBanks(i.banks);
    forall s ensures SameBanks(other.candidates(s), plan.candidates(s)) {
      CandidatesArePlainScan(rules, i, s);
      if s == i.settlements[0] {
        TwoRefs(i);
        CandidatesInAnyOrder(rules, i, s, ["b", "a"]);
      }
    }
  }

  lemma FirstByReference(rules: Rules, i: Input)
    requires i == TwoReferences()
    ensures PlanFor(rules, i).candidates(i.settlements[0]) == [i.banks[0], i.banks[1]]
    ensures UtrFirst(rules, i).candidates(i.settlements[0]) == [i.banks[1], i.banks[0]]
  {
    TwoRefs(i);
    BothOrders(rules, i);
    assert BankCandidates(rules, i, i.settlements[0]) ==
        BankCandidatesIn(rules, i, i.settlements[0], PayoutRefs(i.settlements[0]));
  }

  lemma NotOnFile(rules: Rules, i: Input, year: int)
    requires i == TwoReferences() && Doubtful(UtrFirst(rules, i), i, i.settlements[0])
    ensures !OnFile(InsertAll([], year, Drafts(rules, i)), DoubtDraft(UtrFirst(rules, i), i, i.settlements[0]))
  {
    var plan, s := PlanFor(rules, i), i.settlements[0];
    var d := DoubtDraft(UtrFirst(rules, i), i, s);
    FirstByReference(rules, i);
    FiledExactly([], year, DraftsOf(plan, i), d);
    forall e | e in DraftsOf(plan, i) && e.caseType == BankAmbiguousMatch ensures e.matchedRecord == Some(1) {
      NamesFirst(rules, i, e);
    }
  }

  lemma NamesFirst(rules: Rules, i: Input, e: Draft)
    requires i == TwoReferences() && e in Drafts(rules, i) && e.caseType == BankAmbiguousMatch
    ensures e.matchedRecord == Some(1)
  {
    FirstByReference(rules, i);
    PlanTypes(rules, i);
    AmbiguousDrafts(PlanFor(rules, i), i, e);
  }

  // Repeated by a process that tries the UTR first, the run files the same ambiguity again.
  lemma OtherOrderFilesAgain(rules: Rules, year: int)
    ensures var i := TwoReferences();
      var after := InsertAll([], year, Drafts(rules, i));
      Reorders(UtrFirst(rules, i), PlanFor(rules, i))
          && InsertAll(after, year, DraftsOf(UtrFirst(rules, i), i)) != after
  {
    var i := TwoReferences();
    FirstByReference(rules, i);
    UtrFirstReorders(rules, i);
    RepeatedInOtherOrder(rules, i, UtrFirst(rules, i), [], year, year);
    NotOnFile(rules, i, year);
    assert i.settlements[0] in i.settlements;
  }
}
