/** Ingestion of a batch of normalized records: validate, deduplicate by provider key, count, and
    keep nothing if any record is bad. */
module Ingestion {
  import opened Prelude

  datatype RecordType = PaymentRecord | RefundRecord | SettlementRecord | BankRecord | UnknownRecord(text: string)

  // A decimal field as it parses: absent or malformed counts as invalid.
  datatype Amount = Valid(value: int) | Missing | Malformed

  datatype Record = Record(
    kind: RecordType, source: string, provider: Option<string>, externalId: string, paymentRef: Option<string>,
    amount: Amount, status: string, timestamp: Option<int>, gross: Amount, fee: Amount, tax: Amount)

  // The unique key of the table a record goes to.
  datatype Key =
    | ProviderKey(kind: RecordType, provider: Option<string>, externalId: string)
    | SourceKey(source: string, externalId: string)

  // A stored row: the record's fields and the payment it was linked to when it arrived.
  datatype Row = Row(record: Record, payment: Option<Key>)

  datatype Error = UnsupportedStatus | AmountRequired | NegativeAmount | TimestampRequired | BadDetail | NotNormalized

  const STATUSES: set<string> := {
    "created", "authorized", "captured", "failed", "refunded", "processed", "settled", "posted", "pending",
    "success", "successful"}

  function KeyOf(r: Record): Key {
    if r.kind == BankRecord then SourceKey(r.source, r.externalId) else ProviderKey(r.kind, r.provider, r.externalId)
  }

  // Bank rows are known by source and external id, all others by kind, provider and external id.
  lemma SameKeyExactly(a: Record, b: Record)
    ensures KeyOf(a) == KeyOf(b) <==>
      a.externalId == b.externalId &&
      if a.kind == BankRecord then b.kind == BankRecord && a.source == b.source
      else b.kind != BankRecord && a.kind == b.kind && a.provider == b.provider
  {
  }

  predicate Has(rows: seq<Row>, key: Key) { exists i :: 0 <= i < |rows| && KeyOf(rows[i].record) == key }

  // The checks every record passes before it is looked up.
  function Invalid(r: Record): Option<Error> {
    if r.status !in STATUSES then Some(UnsupportedStatus)
    else if !r.amount.Valid? then Some(AmountRequired)
    else if r.amount.value < 0 && r.kind != BankRecord then Some(NegativeAmount)
    else if r.timestamp.None? then Some(TimestampRequired)
    else None
  }

  // Settlement details are parsed only for a settlement that is not a duplicate.
  predicate BadDetails(r: Record) {
    r.kind == SettlementRecord && (BadDecimal(r.gross) || BadDecimal(r.fee) || BadDecimal(r.tax))
  }

  predicate BadDecimal(a: Amount) { a.Malformed? || (a.Valid? && a.value < 0) }

  function PaymentFor(rows: seq<Row>, r: Record): Option<Key> {
    if r.paymentRef.None? then None
    else
      var key := ProviderKey(PaymentRecord, r.provider, r.paymentRef.value);
      if Has(rows, key) then Some(key) else None
  }

  function RowOf(rows: seq<Row>, r: Record): Row {
    Row(r, if r.kind == RefundRecord || r.kind == SettlementRecord then PaymentFor(rows, r) else None)
  }

  datatype Progress = Progress(rows: seq<Row>, created: nat, duplicates: seq<string>)

  predicate Stored(r: Record) { !r.kind.UnknownRecord? }

  // One record: an error, a duplicate, or a new row. An unknown type passes the checks and is
  // neither stored nor counted.
  function Take(p: Progress, r: Record): Result<Progress, Error> {
    if Invalid(r).Some? then Err(Invalid(r).value)
    else if !Stored(r) then Ok(p)
    else if Has(p.rows, KeyOf(r)) then Ok(p.(duplicates := p.duplicates + [r.externalId]))
    else if BadDetails(r) then Err(BadDetail)
    else Ok(Progress(p.rows + [RowOf(p.rows, r)], p.created + 1, p.duplicates))
  }

  function TakeAll(p: Progress, records: seq<Record>): Result<Progress, Error> {
    if records == [] then Ok(p)
    else
      match TakeAll(p, records[..|records| - 1])
      case Err(e) => Err(e)
      case Ok(q) => Take(q, records[|records| - 1])
  }

  function Ingest(rows: seq<Row>, records: seq<Record>): Result<Progress, Error> {
    TakeAll(Progress(rows, 0, []), records)
  }

  // ---------- the entry points ----------

  // normalize_record for one kind of upload: an item that does not parse, or any item of an
  // unsupported kind, raises.
  function Normalize(kind: RecordType, item: Option<Record>): Option<Record> {
    if kind.UnknownRecord? || item.None? then None else Some(item.value.(kind := kind))
  }

  function NormalizeAll(kind: RecordType, items: seq<Option<Record>>): Option<seq<Record>> {
    if items == [] then Some([])
    else
      var before, last := NormalizeAll(kind, items[..|items| - 1]), Normalize(kind, items[|items| - 1]);
      if before.None? || last.None? then None else Some(before.value + [last.value])
  }

  datatype Report = Report(received: nat, created: nat, duplicates: nat)

  class RecordStore {
    var rows: seq<Row>

    constructor ()
      ensures rows == []
    {
      rows := [];
    }

    method FindExisting(key: Key) returns (found: bool)
      ensures found <==> Has(rows, key)
    {
      for i := 0 to |rows|
        invariant forall k :: 0 <= k < i ==> KeyOf(rows[k].record) != key
      {
        if KeyOf(rows[i].record) == key { return true; }
      }
      return false;
    }

    // persist_normalized: rows are added to the session as the loop goes; an error rolls back.
    method Persist(records: seq<Record>) returns (r: Result<Report, Error>)
      modifies this
      ensures var was := Ingest(old(rows), records);
        match was
        case Err(e) => r == Err(e) && rows == old(rows)
        case Ok(p) => r == Ok(Report(|records|, p.created, |p.duplicates|)) && rows == p.rows
    {
      var committed := rows;
      var created: nat := 0;
      var duplicates: seq<string> := [];
      for i := 0 to |records|
        invariant TakeAll(Progress(committed, 0, []), records[..i]) == Ok(Progress(rows, created, duplicates))
      {
        var record := records[i];
        assert records[..i + 1][..i] == records[..i];
        ghost var p := Progress(rows, created, duplicates);
        var invalid := Invalid(record);
        if invalid.Some? {
          FailsEarly(Progress(committed, 0, []), records, i + 1);
          rows := committed;
          return Err(invalid.value);
        }
        if Stored(record) {
          var existing := FindExisting(KeyOf(record));
          if existing {
            duplicates := duplicates + [record.externalId];
          } else {
            if BadDetails(record) {
              FailsEarly(Progress(committed, 0, []), records, i + 1);
              rows := committed;
              return Err(BadDetail);
            }
            var payment: Option<Key> := None;
            if record.kind == RefundRecord || record.kind == SettlementRecord {
              if record.paymentRef.Some? {
                var key := ProviderKey(PaymentRecord, record.provider, record.paymentRef.value);
                var known := FindExisting(key);
                if known { payment := Some(key); }
              }
            }
            rows := rows + [Row(record, payment)];
            created := created + 1;
          }
        }
        assert Take(p, record) == Ok(Progress(rows, created, duplicates));
      }
      assert records[..|records|] == records;
      return Ok(Report(|records|, created, |duplicates|));
    }

    // ingest_records and ingest_bank_csv: normalize everything first, then persist.
    method IngestRecords(kind: RecordType, items: seq<Option<Record>>) returns (r: Result<Report, Error>)
      modifies this
      ensures NormalizeAll(kind, items).None? ==> r == Err(NotNormalized) && rows == old(rows)
      ensures NormalizeAll(kind, items).Some? ==>
        match Ingest(old(rows), NormalizeAll(kind, items).value)
        case Err(e) => r == Err(e) && rows == old(rows)
        case Ok(p) => r == Ok(Report(|items|, p.created, |p.duplicates|)) && rows == p.rows
      ensures r.Ok? ==> r.value.received == r.value.created + r.value.duplicates
    {
      var records: seq<Record> := [];
      for i := 0 to |items|
        invariant NormalizeAll(kind, items[..i]) == Some(records) && |records| == i && rows == old(rows)
      {
        assert items[..i + 1][..i] == items[..i];
        var record := Normalize(kind, items[i]);
        if record.None? {
          NormalizeFailsEarly(kind, items, i + 1);
          return Err(NotNormalized);
        }
        records := records + [record.value];
      }
      assert items[..|items|] == items;
      EntryBatchAdds(rows, kind, items);
      r := Persist(records);
    }
  }

  // ---------- what a batch does ----------

  lemma {:induction false} FailsEarly(p: Progress, records: seq<Record>, k: nat)
    requires k <= |records| && TakeAll(p, records[..k]).Err?
    ensures TakeAll(p, records) == Err(TakeAll(p, records[..k]).error)
    decreases |records|
  {
    if k == |records| {
      assert records[..k] == records;
    } else {
      assert records[..|records| - 1][..k] == records[..k];
      FailsEarly(p, records[..|records| - 1], k);
    }
  }

  ghost predicate UniqueKeys(rows: seq<Row>) {
    forall i, j :: 0 <= i < j < |rows| ==> KeyOf(rows[i].record) != KeyOf(rows[j].record)
  }

  predicate Known(records: seq<Record>) { forall i :: 0 <= i < |records| ==> Stored(records[i]) }

  // Records of the four known types.
  function Counted(records: seq<Record>): nat { |Filter(Stored, records)| }

  lemma {:induction false} CountedExactly(records: seq<Record>)
    ensures Counted(records) <= |records|
    ensures Counted(records) == |records| <==> Known(records)
  {
    if records != [] {
      var n := |records| - 1;
      CountedExactly(records[..n]);
      FilterStep(Stored, records, n);
      assert records[..n + 1] == records;
      assert Known(records) <==> Known(records[..n]) && Stored(records[n]) by {
        assert forall i :: 0 <= i < n ==> records[..n][i] == records[i];
      }
    }
  }

  lemma {:induction false} Accepted(p: Progress, records: seq<Record>)
    requires TakeAll(p, records).Ok?
    ensures var q := TakeAll(p, records).value;
      && q.created + |q.duplicates| == p.created + |p.duplicates| + Counted(records)
      && p.rows <= q.rows && |q.rows| - |p.rows| == q.created - p.created
      && (UniqueKeys(p.rows) ==> UniqueKeys(q.rows))
  {
    if records != [] {
      var n := |records| - 1;
      Accepted(p, records[..n]);
      var q := TakeAll(p, records[..n]).value;
      FilterStep(Stored, records, n);
      assert records[..n + 1] == records;
      var t := Take(q, records[n]).value;
      assert q.rows <= t.rows;
    }
  }

  // An accepted batch counts every record of a known type once, so the counts add up to what was
  // received exactly when all are; it changes no existing row and keeps keys unique.
  lemma BatchAccounting(rows: seq<Row>, records: seq<Record>)
    requires Ingest(rows, records).Ok?
    ensures var p := Ingest(rows, records).value;
      && p.created + |p.duplicates| == Counted(records)
      && (p.created + |p.duplicates| == |records| <==> Known(records))
      && rows <= p.rows && |p.rows| == |rows| + p.created
      && (UniqueKeys(rows) ==> UniqueKeys(p.rows))
  {
    Accepted(Progress(rows, 0, []), records);
    CountedExactly(records);
  }

  lemma {:induction false} NormalizeFailsEarly(kind: RecordType, items: seq<Option<Record>>, k: nat)
    requires k <= |items| && NormalizeAll(kind, items[..k]).None?
    ensures NormalizeAll(kind, items).None?
    decreases |items|
  {
    if k == |items| {
      assert items[..k] == items;
    } else {
      assert items[..|items| - 1][..k] == items[..k];
      NormalizeFailsEarly(kind, items[..|items| - 1], k);
    }
  }

  lemma {:induction false} NormalizedAreKnown(kind: RecordType, items: seq<Option<Record>>)
    requires NormalizeAll(kind, items).Some?
    ensures Known(NormalizeAll(kind, items).value) && |NormalizeAll(kind, items).value| == |items|
  {
    if items != [] { NormalizedAreKnown(kind, items[..|items| - 1]); }
  }

  // Every batch the entry points accept has received = created + duplicates.
  lemma EntryBatchAdds(rows: seq<Row>, kind: RecordType, items: seq<Option<Record>>)
    requires NormalizeAll(kind, items).Some?
    ensures |NormalizeAll(kind, items).value| == |items|
    ensures Ingest(rows, NormalizeAll(kind, items).value).Ok? ==>
      var p := Ingest(rows, NormalizeAll(kind, items).value).value; p.created + |p.duplicates| == |items|
  {
    NormalizedAreKnown(kind, items);
    if Ingest(rows, NormalizeAll(kind, items).value).Ok? { BatchAccounting(rows, NormalizeAll(kind, items).value); }
  }

  // The counters only ride along: rows and errors do not depend on them.
  function Shift(p: Progress, created: nat, duplicates: seq<string>): Progress {
    Progress(p.rows, created + p.created, duplicates + p.duplicates)
  }

  lemma {:induction false} TakeAllShift(p: Progress, created: nat, duplicates: seq<string>, records: seq<Record>)
    ensures TakeAll(Shift(p, created, duplicates), records) ==
      match TakeAll(p, records)
      case Err(e) => Err(e)
      case Ok(q) => Ok(Shift(q, created, duplicates))
  {
    if records != [] {
      var n := |records| - 1;
      TakeAllShift(p, created, duplicates, records[..n]);
      if TakeAll(p, records[..n]).Ok? {
        var q := TakeAll(p, records[..n]).value;
        var more := [records[n].externalId];
        assert duplicates + (q.duplicates + more) == duplicates + q.duplicates + more;
      }
    }
  }

  lemma {:induction false} TakeAllAppend(p: Progress, a: seq<Record>, b: seq<Record>)
    ensures TakeAll(p, a + b) == match TakeAll(p, a) case Err(e) => Err(e) case Ok(q) => TakeAll(q, b)
  {
    if b == [] {
      assert a + b == a;
    } else {
      assert (a + b)[..|a + b| - 1] == a + b[..|b| - 1];
      TakeAllAppend(p, a, b[..|b| - 1]);
    }
  }

  // Splitting an accepted batch in two stores the same rows and the counts add up; and the parts
  // are accepted exactly when the whole is.
  lemma SplitBatch(rows: seq<Row>, a: seq<Record>, b: seq<Record>)
    ensures Ingest(rows, a + b).Ok? <==> Ingest(rows, a).Ok? && Ingest(Ingest(rows, a).value.rows, b).Ok?
    ensures Ingest(rows, a + b).Ok? ==>
      var whole, first := Ingest(rows, a + b).value, Ingest(rows, a).value;
      var second := Ingest(first.rows, b).value;
      && whole.rows == second.rows && whole.created == first.created + second.created
      && whole.duplicates == first.duplicates + second.duplicates
  {
    TakeAllAppend(Progress(rows, 0, []), a, b);
    if Ingest(rows, a).Ok? {
      var q := Ingest(rows, a).value;
      var zero := Progress(q.rows, 0, []);
      assert q.duplicates + [] == q.duplicates;
      assert Shift(zero, q.created, q.duplicates) == q;
      TakeAllShift(zero, q.created, q.duplicates, b);
    }
  }

  lemma {:induction false} AllKnownAfter(p: Progress, records: seq<Record>, k: nat)
    requires TakeAll(p, records).Ok? && k < |records|
    ensures Invalid(records[k]).None? && (Stored(records[k]) ==> Has(TakeAll(p, records).value.rows, KeyOf(records[k])))
    decreases |records|
  {
    var n := |records| - 1;
    var q := TakeAll(p, records[..n]).value;
    var t := Take(q, records[n]).value;
    if k < n {
      AllKnownAfter(p, records[..n], k);
      if Stored(records[k]) {
        var i :| 0 <= i < |q.rows| && KeyOf(q.rows[i].record) == KeyOf(records[k]);
        assert KeyOf(t.rows[i].record) == KeyOf(records[k]);
      }
    } else if Stored(records[n]) && !Has(q.rows, KeyOf(records[n])) {
      assert KeyOf(t.rows[|q.rows|].record) == KeyOf(records[n]);
    }
  }

  lemma {:induction false} NothingNew(p: Progress, records: seq<Record>)
    requires forall k :: 0 <= k < |records| ==>
        Invalid(records[k]).None? && (Stored(records[k]) ==> Has(p.rows, KeyOf(records[k])))
    ensures TakeAll(p, records).Ok? && TakeAll(p, records).value.rows == p.rows
    ensures TakeAll(p, records).value.created == p.created
    ensures |TakeAll(p, records).value.duplicates| == |p.duplicates| + Counted(records)
  {
    if records != [] {
      var n := |records| - 1;
      NothingNew(p, records[..n]);
      FilterStep(Stored, records, n);
      assert records[..n + 1] == records;
    }
  }

  // Ingesting an accepted batch again creates nothing, and every record of a known type is reported
  // as a duplicate.
  lemma ReingestCreatesNothing(rows: seq<Row>, records: seq<Record>)
    requires Ingest(rows, records).Ok?
    ensures var after := Ingest(rows, records).value.rows;
      && Ingest(after, records).Ok? && Ingest(after, records).value.rows == after
      && Ingest(after, records).value.created == 0 && |Ingest(after, records).value.duplicates| == Counted(records)
  {
    forall k | 0 <= k < |records|
      ensures Invalid(records[k]).None?
          && (Stored(records[k]) ==> Has(Ingest(rows, records).value.rows, KeyOf(records[k])))
    {
      AllKnownAfter(Progress(rows, 0, []), records, k);
    }
    NothingNew(Progress(Ingest(rows, records).value.rows, 0, []), records);
  }

  // A batch is refused exactly when some record is invalid, or is a settlement with bad details
  // whose key is neither stored nor earlier in the batch.
  predicate Supported(status: string) {
    || status == "created" || status == "authorized" || status == "captured" || status == "failed"
    || status == "refunded" || status == "processed" || status == "settled" || status == "posted"
    || status == "pending" || status == "success" || status == "successful"
  }

  // A supported status, an amount that is not negative but for bank rows, and a time.
  predicate WellFormed(r: Record) {
    && Supported(r.status) && r.timestamp.Some?
    && r.amount.Valid? && (r.amount.value >= 0 || r.kind == BankRecord)
  }

  // A settlement whose gross, fee or tax is given and is not an amount of zero or more.
  predicate WrongFigure(a: Amount) { a != Missing && (a == Malformed || a.value < 0) }

  lemma InvalidExactly(r: Record)
    ensures Invalid(r).None? <==> WellFormed(r)
    ensures BadDetails(r) <==>
        r.kind == SettlementRecord && (WrongFigure(r.gross) || WrongFigure(r.fee) || WrongFigure(r.tax))
    ensures Invalid(r) == Some(UnsupportedStatus) <==> !Supported(r.status)
    ensures Invalid(r) == Some(AmountRequired) <==> Supported(r.status) && !r.amount.Valid?
  {
  }

  ghost predicate Offends(rows: seq<Row>, records: seq<Record>, k: nat)
    requires k < |records|
  {
    || !WellFormed(records[k])
    || (records[k].kind == SettlementRecord
        && (WrongFigure(records[k].gross) || WrongFigure(records[k].fee) || WrongFigure(records[k].tax))
        && !Has(rows, KeyOf(records[k]))
        && forall m :: 0 <= m < k && Stored(records[m]) ==> KeyOf(records[m]) != KeyOf(records[k]))
  }

  lemma {:induction false} KeysAfter(p: Progress, records: seq<Record>, key: Key)
    requires TakeAll(p, records).Ok?
    ensures Has(TakeAll(p, records).value.rows, key) <==>
            Has(p.rows, key) || exists m :: 0 <= m < |records| && Stored(records[m]) && KeyOf(records[m]) == key
  {
    if records != [] {
      var n := |records| - 1;
      KeysAfter(p, records[..n], key);
      var q, t := TakeAll(p, records[..n]).value, Take(TakeAll(p, records[..n]).value, records[n]).value;
      HasAppend(q.rows, RowOf(q.rows, records[n]), key);
      if m :| 0 <= m < |records| && Stored(records[m]) && KeyOf(records[m]) == key && m < n {
        assert records[..n][m] == records[m];
      }
    }
  }

  lemma HasAppend(rows: seq<Row>, row: Row, key: Key)
    ensures Has(rows + [row], key) <==> Has(rows, key) || KeyOf(row.record) == key
  {
    if Has(rows, key) {
      var i :| 0 <= i < |rows| && KeyOf(rows[i].record) == key;
      assert (rows + [row])[i] == rows[i];
    }
    assert (rows + [row])[|rows|] == row;
  }

  lemma {:induction false} RefusedExactly(rows: seq<Row>, records: seq<Record>)
    ensures Ingest(rows, records).Err? <==> exists k :: 0 <= k < |records| && Offends(rows, records, k)
  {
    if records != [] {
      var n := |records| - 1;
      var before := records[..n];
      RefusedExactly(rows, before);
      forall k | 0 <= k < n ensures Offends(rows, records, k) <==> Offends(rows, before, k) {
        assert before[k] == records[k];
      }
      InvalidExactly(records[n]);
      if Ingest(rows, before).Ok? {
        KeysAfter(Progress(rows, 0, []), before, KeyOf(records[n]));
        assert forall m :: 0 <= m < n ==> before[m] == records[m];
        assert Offends(rows, records, n) <==> Ingest(rows, records).Err?;
      }
    }
  }

  // ---------- the link to the payment ----------

  predicate NeedsPayment(r: Record) { (r.kind == RefundRecord || r.kind == SettlementRecord) && r.paymentRef.Some? }

  // The payment a record refers to: its provider's, by its reference.
  predicate RefersTo(r: Record, p: Row) {
    p.record.kind == PaymentRecord && p.record.provider == r.provider && Some(p.record.externalId) == r.paymentRef
  }

  // Row k is linked exactly when it is a refund or settlement whose payment was stored before it.
  ghost predicate LinkedRightly(rows: seq<Row>, k: nat)
    requires k < |rows|
  {
    var r := rows[k].record;
    && (rows[k].payment.Some? <==> NeedsPayment(r) && exists m :: 0 <= m < k && RefersTo(r, rows[m]))
    && (rows[k].payment.Some? ==> rows[k].payment == Some(ProviderKey(PaymentRecord, r.provider, r.paymentRef.value)))
  }

  lemma PaymentKeyIs(r: Record, p: Row)
    requires r.paymentRef.Some?
    ensures KeyOf(p.record) == ProviderKey(PaymentRecord, r.provider, r.paymentRef.value) <==> RefersTo(r, p)
  {
  }

  lemma TakenIsLinked(rows: seq<Row>, r: Record)
    ensures LinkedRightly(rows + [RowOf(rows, r)], |rows|) && RowOf(rows, r).record == r
  {
    var after := rows + [RowOf(rows, r)];
    if NeedsPayment(r) {
      forall m | 0 <= m < |rows|
        ensures KeyOf(rows[m].record) == ProviderKey(PaymentRecord, r.provider, r.paymentRef.value) <==>
            RefersTo(r, after[m])
      {
        PaymentKeyIs(r, rows[m]);
      }
    }
  }

  // In an accepted batch every new row is linked exactly when it is a refund or settlement whose
  // payment was stored before it, in the batch or earlier; rows already stored keep their links.
  lemma {:induction false} LinksExactly(p: Progress, records: seq<Record>, k: nat)
    requires TakeAll(p, records).Ok?
    ensures p.rows <= TakeAll(p, records).value.rows
    ensures |p.rows| <= k < |TakeAll(p, records).value.rows| ==> LinkedRightly(TakeAll(p, records).value.rows, k)
  {
    if records != [] {
      var n := |records| - 1;
      var q := TakeAll(p, records[..n]).value;
      var t := Take(q, records[n]).value;
      LinksExactly(p, records[..n], k);
      if t.rows != q.rows {
        TakenIsLinked(q.rows, records[n]);
        if |p.rows| <= k < |q.rows| { LinkStays(q.rows, RowOf(q.rows, records[n]), k); }
      }
    }
  }

  lemma LinkStays(rows: seq<Row>, row: Row, k: nat)
    requires k < |rows| && LinkedRightly(rows, k)
    ensures LinkedRightly(rows + [row], k)
  {
    var after := rows + [row];
    assert forall m :: 0 <= m <= k ==> after[m] == rows[m];
  }

  // What is stored: the first record of each new key, as it came.
  lemma {:induction false} StoredAsGiven(p: Progress, records: seq<Record>, k: nat)
    requires TakeAll(p, records).Ok? && |p.rows| <= k < |TakeAll(p, records).value.rows|
    ensures exists m ::
      0 <= m < |records| && Stored(records[m]) && TakeAll(p, records).value.rows[k].record == records[m]
  {
    var n := |records| - 1;
    var q := TakeAll(p, records[..n]).value;
    if k < |q.rows| {
      Accepted(p, records[..n]);
      StoredAsGiven(p, records[..n], k);
      var m :| 0 <= m < n && Stored(records[..n][m]) && q.rows[k].record == records[..n][m];
      assert records[m] == records[..n][m];
    }
  }
}
