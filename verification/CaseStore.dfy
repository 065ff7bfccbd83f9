/** The table of reconciliation cases: an insert-if-absent keyed by a fingerprint.
    The SHA-256 of the canonical payload is taken to be injective, so a fingerprint is its payload. */
module CaseStore {
  import opened Prelude
  import opened Matching

  datatype CaseType =
    | DuplicateSettlement | DuplicatePayment | StatusMismatch | DuplicateRefund | MissingRefund
    | AmbiguousMatch | PaymentWithoutSettlement | CurrencyMismatch | DelayedSettlement | SettlementMismatch
    | SettlementWithoutPayment | RefundWithoutPayment | RefundWithoutSettlement
    | BankAmbiguousMatch | BankSettlementMismatch | BankWithoutSettlement

  datatype RecordRef = PaymentRef(id: nat) | SettlementRef(id: nat) | RefundRef(id: nat) | BankRef(id: nat)
  datatype RecordType = PaymentType | SettlementType | RefundType

  // The arguments of one create_case call that identify the case.
  datatype Draft = Draft(
    payment: Option<nat>, record: RecordRef, caseType: CaseType, expected: int, actual: int,
    via: Method, confidence: Confidence, matchedRecord: Option<nat>)

  datatype Fingerprint = Fingerprint(
    source: nat, recordType: RecordType, caseType: CaseType, expected: int, actual: int, via: Method,
    matchedRecord: Option<nat>)

  // Rows opened elsewhere carry a fingerprint outside the reconciliation's namespace.
  datatype Key = FromRun(fingerprint: Fingerprint) | Elsewhere(text: string)

  datatype CaseNumber = CaseNumber(year: int, serial: nat)

  datatype CaseRow =
    | Opened(number: CaseNumber, draft: Draft)
    | Foreign(number: CaseNumber, text: string)

  function RecordTypeOf(d: Draft): RecordType {
    if d.payment.Some? then PaymentType else if d.record.SettlementRef? then SettlementType else RefundType
  }

  function FingerprintOf(d: Draft): Fingerprint {
    Fingerprint(if d.payment.Some? then d.payment.value else d.record.id,
                RecordTypeOf(d), d.caseType, d.expected, d.actual, d.via, d.matchedRecord)
  }

  // Two drafts share a case exactly when they agree on this much: of a linked payment only the
  // payment counts, and otherwise only the record.
  lemma SameCaseExactly(d: Draft, e: Draft)
    ensures FingerprintOf(d) == FingerprintOf(e) <==>
      && d.caseType == e.caseType && d.expected == e.expected && d.actual == e.actual && d.via == e.via
      && d.matchedRecord == e.matchedRecord && d.payment == e.payment
      && (d.payment.None? ==> d.record.id == e.record.id && (d.record.SettlementRef? <==> e.record.SettlementRef?))
  {
  }

  function KeyOf(row: CaseRow): Key {
    match row
    case Opened(_, draft) => FromRun(FingerprintOf(draft))
    case Foreign(_, text) => Elsewhere(text)
  }

  function Keys(rows: seq<CaseRow>): set<Key> { set r <- rows :: KeyOf(r) }

  // The count behind next_case_number: rows numbered in the year.
  function CountYear(rows: seq<CaseRow>, year: int): nat {
    if rows == [] then 0
    else CountYear(rows[..|rows| - 1], year) + if rows[|rows| - 1].number.year == year then 1 else 0
  }

  function Insert(rows: seq<CaseRow>, year: int, d: Draft): seq<CaseRow> {
    if FromRun(FingerprintOf(d)) in Keys(rows) then rows
    else rows + [Opened(CaseNumber(year, CountYear(rows, year) + 1), d)]
  }

  function InsertAll(rows: seq<CaseRow>, year: int, drafts: seq<Draft>): seq<CaseRow> {
    if drafts == [] then rows
    else Insert(InsertAll(rows, year, drafts[..|drafts| - 1]), year, drafts[|drafts| - 1])
  }

  ghost predicate UniqueFingerprints(rows: seq<CaseRow>) {
    forall i, j :: 0 <= i < j < |rows| ==> KeyOf(rows[i]) != KeyOf(rows[j])
  }

  // Every row was numbered one past the rows of its year before it.
  ghost predicate Numbered(rows: seq<CaseRow>) {
    forall i :: 0 <= i < |rows| ==> rows[i].number.serial == CountYear(rows[..i], rows[i].number.year) + 1
  }

  function DraftKeys(drafts: seq<Draft>): set<Key> { set d <- drafts :: FromRun(FingerprintOf(d)) }

  lemma {:induction false} InsertAllAppend(rows: seq<CaseRow>, year: int, a: seq<Draft>, b: seq<Draft>)
    ensures InsertAll(rows, year, a + b) == InsertAll(InsertAll(rows, year, a), year, b)
  {
    if b == [] {
      assert a + b == a;
    } else {
      assert (a + b)[..|a + b| - 1] == a + b[..|b| - 1];
      InsertAllAppend(rows, year, a, b[..|b| - 1]);
    }
  }

  lemma {:induction false} InsertAllKeys(rows: seq<CaseRow>, year: int, drafts: seq<Draft>)
    ensures rows <= InsertAll(rows, year, drafts)
    ensures Keys(InsertAll(rows, year, drafts)) == Keys(rows) + DraftKeys(drafts)
  {
    if drafts != [] {
      var front, last := drafts[..|drafts| - 1], drafts[|drafts| - 1];
      InsertAllKeys(rows, year, front);
      assert drafts == front + [last];
      var before := InsertAll(rows, year, front);
      InsertKeys(before, year, last);
      assert DraftKeys(drafts) == DraftKeys(front) + {FromRun(FingerprintOf(last))};
    }
  }

  lemma InsertKeys(rows: seq<CaseRow>, year: int, d: Draft)
    ensures Keys(Insert(rows, year, d)) == Keys(rows) + {FromRun(FingerprintOf(d))}
  {
    if FromRun(FingerprintOf(d)) !in Keys(rows) {
      var row := Opened(CaseNumber(year, CountYear(rows, year) + 1), d);
      assert KeyOf(row) == FromRun(FingerprintOf(d)) && row in rows + [row];
      forall k | k in Keys(rows) ensures k in Keys(rows + [row]) {
        var r :| r in rows && KeyOf(r) == k;
        assert r in rows + [row];
      }
    }
  }

  lemma {:induction false} InsertAllUnique(rows: seq<CaseRow>, year: int, drafts: seq<Draft>)
    requires UniqueFingerprints(rows)
    ensures UniqueFingerprints(InsertAll(rows, year, drafts))
  {
    if drafts != [] {
      var before := InsertAll(rows, year, drafts[..|drafts| - 1]);
      InsertAllUnique(rows, year, drafts[..|drafts| - 1]);
      forall i | 0 <= i < |before| ensures KeyOf(before[i]) in Keys(before) { assert before[i] in before; }
    }
  }

  // A draft whose fingerprint is already stored changes nothing.
  lemma {:induction false} InsertAllAbsorbs(rows: seq<CaseRow>, year: int, drafts: seq<Draft>)
    requires DraftKeys(drafts) <= Keys(rows)
    ensures InsertAll(rows, year, drafts) == rows
  {
    if drafts != [] {
      var front, last := drafts[..|drafts| - 1], drafts[|drafts| - 1];
      assert drafts == front + [last];
      assert DraftKeys(front) <= DraftKeys(drafts);
      InsertAllAbsorbs(rows, year, front);
      assert last in drafts;
    }
  }

  lemma {:induction false} InsertAllNumbered(rows: seq<CaseRow>, year: int, drafts: seq<Draft>)
    requires Numbered(rows)
    ensures Numbered(InsertAll(rows, year, drafts))
  {
    if drafts != [] {
      var before := InsertAll(rows, year, drafts[..|drafts| - 1]);
      InsertAllNumbered(rows, year, drafts[..|drafts| - 1]);
      var after := InsertAll(rows, year, drafts);
      forall i | 0 <= i < |after| ensures after[i].number.serial == CountYear(after[..i], after[i].number.year) + 1 {
        if i < |before| { assert after[..i] == before[..i]; } else { assert after[..i] == before; }
      }
    }
  }

  lemma {:induction false} CountYearGrows(rows: seq<CaseRow>, i: nat, j: nat, year: int)
    requires i <= j <= |rows|
    ensures CountYear(rows[..i], year) <= CountYear(rows[..j], year)
  {
    if i < j {
      CountYearGrows(rows, i, j - 1, year);
      assert rows[..j][..j - 1] == rows[..j - 1];
    }
  }

  // The human-readable numbers never collide, so the unique constraint never fires.
  lemma NumbersDistinct(rows: seq<CaseRow>, i: nat, j: nat)
    requires Numbered(rows) && i < j < |rows|
    ensures rows[i].number != rows[j].number
  {
    var year := rows[i].number.year;
    assert rows[..i + 1][..i] == rows[..i];
    CountYearGrows(rows, i + 1, j, year);
  }

  lemma InsertAllStep(rows: seq<CaseRow>, year: int, log: seq<Draft>, d: Draft)
    ensures InsertAll(rows, year, log + [d]) == Insert(InsertAll(rows, year, log), year, d)
  {
    assert (log + [d])[..|log + [d]| - 1] == log;
  }

  // ---------- whose case it is ----------

  // A case of this kind about this record, whichever draft opened it.
  predicate SameSubject(e: Draft, d: Draft) { e.caseType == d.caseType && e.record == d.record }

  ghost predicate FiledFor(rows: seq<CaseRow>, caseType: CaseType, record: RecordRef) {
    exists r :: r in rows && r.Opened? && r.draft.caseType == caseType && r.draft.record == record
  }

  lemma {:induction false} RowsComeFrom(rows: seq<CaseRow>, year: int, ds: seq<Draft>, r: CaseRow)
    requires r in InsertAll(rows, year, ds)
    ensures r in rows || (r.Opened? && r.draft in ds)
  {
    if ds != [] {
      var front := ds[..|ds| - 1];
      if r in InsertAll(rows, year, front) { RowsComeFrom(rows, year, front, r); }
    }
  }

  lemma DraftHasRow(rows: seq<CaseRow>, year: int, ds: seq<Draft>, d: Draft)
    requires d in ds
    ensures exists r :: r in InsertAll(rows, year, ds) && r.Opened? && FingerprintOf(r.draft) == FingerprintOf(d)
  {
    InsertAllKeys(rows, year, ds);
    var after := InsertAll(rows, year, ds);
    assert FromRun(FingerprintOf(d)) in DraftKeys(ds);
    assert FromRun(FingerprintOf(d)) in Keys(after);
    var r :| r in after && KeyOf(r) == FromRun(FingerprintOf(d));
    assert r.Opened?;
  }

  lemma FreshInserted(rows: seq<CaseRow>, year: int, x: seq<Draft>, d: Draft, y: seq<Draft>)
    requires FromRun(FingerprintOf(d)) !in Keys(rows) + DraftKeys(x)
    ensures exists r :: r in InsertAll(rows, year, x + [d] + y) && r.Opened? && r.draft == d
  {
    InsertAllKeys(rows, year, x);
    InsertAllStep(rows, year, x, d);
    InsertAllAppend(rows, year, x + [d], y);
    InsertAllKeys(InsertAll(rows, year, x + [d]), year, y);
    var at := InsertAll(rows, year, x + [d]);
    var r := at[|at| - 1];
    assert r in InsertAll(rows, year, x + [d] + y);
  }

  lemma StaleSkipped(rows: seq<CaseRow>, year: int, x: seq<Draft>, d: Draft, y: seq<Draft>, r: CaseRow)
    requires FromRun(FingerprintOf(d)) in Keys(rows) + DraftKeys(x) && r in InsertAll(rows, year, x + [d] + y)
    ensures r in rows || (r.Opened? && (r.draft in x || r.draft in y))
  {
    InsertAllKeys(rows, year, x);
    InsertAllStep(rows, year, x, d);
    InsertAllAppend(rows, year, x + [d], y);
    RowsComeFrom(InsertAll(rows, year, x + [d]), year, y, r);
    if r in InsertAll(rows, year, x) { RowsComeFrom(rows, year, x, r); }
  }

  // Where one draft of a run speaks of its record: it makes that record's case exactly when its
  // fingerprint is neither on file nor among the drafts before it.
  lemma FiledExactlyWhenFresh(rows: seq<CaseRow>, year: int, x: seq<Draft>, d: Draft, y: seq<Draft>)
    requires !FiledFor(rows, d.caseType, d.record) && forall e :: e in x || e in y ==> !SameSubject(e, d)
    ensures FiledFor(InsertAll(rows, year, x + [d] + y), d.caseType, d.record) <==>
        FromRun(FingerprintOf(d)) !in Keys(rows) + DraftKeys(x)
  {
    var after := InsertAll(rows, year, x + [d] + y);
    if FromRun(FingerprintOf(d)) !in Keys(rows) + DraftKeys(x) {
      FreshInserted(rows, year, x, d, y);
    } else if FiledFor(after, d.caseType, d.record) {
      var r :| r in after && r.Opened? && r.draft.caseType == d.caseType && r.draft.record == d.record;
      StaleSkipped(rows, year, x, d, y, r);
    }
  }

  // ---------- one pass of a run ----------

  lemma Recut<T>(pre: seq<T>, a: seq<T>, d: seq<T>, b: seq<T>, post: seq<T>)
    ensures pre + (a + d + b) + post == (pre + a) + d + (b + post)
  {
  }

  // A pass reports drafts of type t, element by element, at most one about each record; nothing
  // else in the run reports that type.
  ghost predicate OnlyPass<T(!new)>(pre: seq<Draft>, f: T -> seq<Draft>, s: seq<T>, post: seq<Draft>, t: CaseType,
      k: nat, d: Draft)
    requires k < |s|
  {
    && f(s[k]) == [d] && d.caseType == t
    && (forall e :: e in pre || e in post ==> e.caseType != t)
    && (forall j, e :: 0 <= j < |s| && j != k && e in f(s[j]) ==> !SameSubject(e, d))
  }

  // Some element before k reports a draft with this fingerprint.
  ghost predicate ReportedBefore<T>(f: T -> seq<Draft>, s: seq<T>, k: nat, d: Draft)
    requires k <= |s|
  {
    exists j, e :: 0 <= j < k && e in f(s[j]) && FingerprintOf(e) == FingerprintOf(d)
  }

  lemma PassMember<T>(f: T -> seq<Draft>, s: seq<T>, e: Draft)
    ensures e in FlatMap(f, s) <==> exists j :: 0 <= j < |s| && e in f(s[j])
  {
    FlatMapMember(f, s, e);
  }

  lemma KeyBefore<T>(pre: seq<Draft>, f: T -> seq<Draft>, s: seq<T>, k: nat, d: Draft)
    requires k <= |s| && forall e :: e in pre ==> e.caseType != d.caseType
    ensures FromRun(FingerprintOf(d)) in DraftKeys(pre + FlatMap(f, s[..k])) <==> ReportedBefore(f, s, k, d)
  {
    var x := pre + FlatMap(f, s[..k]);
    if ReportedBefore(f, s, k, d) {
      var j, e :| 0 <= j < k && e in f(s[j]) && FingerprintOf(e) == FingerprintOf(d);
      assert s[..k][j] == s[j];
      PassMember(f, s[..k], e);
      assert e in x;
    }
    if FromRun(FingerprintOf(d)) in DraftKeys(x) {
      var e :| e in x && FingerprintOf(e) == FingerprintOf(d);
      PassMember(f, s[..k], e);
    }
  }

  lemma OthersElsewhere<T(!new)>(pre: seq<Draft>, f: T -> seq<Draft>, s: seq<T>, post: seq<Draft>, t: CaseType,
      k: nat, d: Draft, e: Draft)
    requires k < |s| && OnlyPass(pre, f, s, post, t, k, d)
    requires e in pre + FlatMap(f, s[..k]) || e in FlatMap(f, s[k + 1..]) + post
    ensures !SameSubject(e, d)
  {
    PassMember(f, s[..k], e);
    var rest := s[k + 1..];
    PassMember(f, rest, e);
    if j :| 0 <= j < |rest| && e in f(rest[j]) { assert rest[j] == s[k + 1 + j]; }
  }

  // Element k's record gets a case of its own from the run exactly when its fingerprint is neither
  // on file nor reported by an earlier element.
  lemma OwnCaseExactly<T(!new)>(rows: seq<CaseRow>, year: int, pre: seq<Draft>, f: T -> seq<Draft>, s: seq<T>,
                                post: seq<Draft>, t: CaseType, k: nat, d: Draft)
    requires k < |s| && OnlyPass(pre, f, s, post, t, k, d) && !FiledFor(rows, d.caseType, d.record)
    ensures FiledFor(InsertAll(rows, year, pre + FlatMap(f, s) + post), d.caseType, d.record)
            <==> FromRun(FingerprintOf(d)) !in Keys(rows) && !ReportedBefore(f, s, k, d)
  {
    FlatMapCut(f, s, s[..k], s[k], s[k + 1..]);
    Recut(pre, FlatMap(f, s[..k]), [d], FlatMap(f, s[k + 1..]), post);
    var x, y := pre + FlatMap(f, s[..k]), FlatMap(f, s[k + 1..]) + post;
    forall e | e in x || e in y ensures !SameSubject(e, d) { OthersElsewhere(pre, f, s, post, t, k, d, e); }
    FiledExactlyWhenFresh(rows, year, x, d, y);
    KeyBefore(pre, f, s, k, d);
  }
}
