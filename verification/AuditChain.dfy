/** The audit log: events chained by hash, appended one at a time and verified in (timestamp, id)
    order. The digest is a parameter, assumed injective where a theorem needs it. */
module AuditChain {
  import opened Prelude
  import opened Text

  // ---------- sanitized JSON ----------

  datatype Json =
    | Null | Flag(flag: bool) | Num(num: int) | Str(text: string)
    | Moment(iso: string) // a datetime object, known by its ISO text in UTC
    | Arr(items: seq<Json>)
    | Obj(fields: map<string, Json>)

  const SENSITIVE: set<string> := {
    "password", "password_hash", "jwt", "token", "access_token", "api_key",
    "apikey", "webhook_secret", "private_key", "ai_api_key", "authorization"}

  predicate Sensitive(key: string) { Lower(key) in SENSITIVE }

  // Drops sensitive keys at every depth and writes datetimes as text.
  function Safe(j: Json): Json {
    match j
    case Obj(fields) => Obj(map k | k in fields && !Sensitive(k) :: Safe(fields[k]))
    case Arr(items) => Arr(seq(|items|, i requires 0 <= i < |items| => Safe(items[i])))
    case Moment(iso) => Str(iso)
    case _ => j
  }

  // Keys whose values must not be kept, in any letter case.
  predicate Secret(key: string) {
    var k := Lower(key);
    || k == "password" || k == "password_hash" || k == "private_key" || k == "webhook_secret"
    || k == "jwt" || k == "token" || k == "access_token" || k == "authorization"
    || k == "api_key" || k == "apikey" || k == "ai_api_key"
  }

  lemma SecretExactly(key: string)
    ensures Sensitive(key) <==> Secret(key)
  {
  }

  predicate Clean(j: Json) {
    match j
    case Obj(fields) => forall k :: k in fields ==> !Secret(k) && Clean(fields[k])
    case Arr(items) => forall i :: 0 <= i < |items| ==> Clean(items[i])
    case Moment(_) => false
    case _ => true
  }

  lemma {:induction false} SafeIsClean(j: Json)
    ensures Clean(Safe(j))
  {
    match j
    case Obj(fields) =>
      forall k { SecretExactly(k); }
      forall k | k in fields && !Sensitive(k) ensures Clean(Safe(fields[k])) { SafeIsClean(fields[k]); }
    case Arr(items) =>
      forall i | 0 <= i < |items| ensures Clean(Safe(items[i])) { SafeIsClean(items[i]); }
    case _ =>
  }

  // Sanitizing changes exactly the values that are not clean.
  lemma {:induction false} SafeFixesExactlyClean(j: Json)
    ensures Safe(j) == j <==> Clean(j)
  {
    SafeIsClean(j);
    if Clean(j) {
      match j
      case Obj(fields) =>
        forall k | k in fields ensures !Sensitive(k) && Safe(fields[k]) == fields[k] {
          SecretExactly(k);
          SafeFixesExactlyClean(fields[k]);
        }
      case Arr(items) =>
        forall i | 0 <= i < |items| ensures Safe(items[i]) == items[i] { SafeFixesExactlyClean(items[i]); }
        assert Safe(j).items == items;
      case _ =>
    }
  }

  // ---------- events ----------

  datatype Outcome = Success | Failure | Denied | Unknown(text: string)

  datatype Fields = Fields(
    eventId: nat, merchant: Option<string>, actorUser: Option<string>, actorRole: Option<string>, actorType: string,
    action: string, resourceType: string, resourceId: Option<string>, requestId: Option<string>, outcome: Outcome,
    ip: Option<string>)

  datatype Event = Event(
    id: nat, timestamp: int, fields: Fields, metadata: Json, before: Json, after: Json,
    previousHash: Option<string>, hash: string)

  // Everything the hash covers.
  datatype Payload = Payload(
    fields: Fields, timestamp: int, metadata: Json, before: Json, after: Json, previousHash: Option<string>)

  type Digest = (string, Payload) -> string

  function PayloadOf(e: Event): Payload {
    Payload(e.fields, e.timestamp, Safe(e.metadata), Safe(e.before), Safe(e.after), e.previousHash)
  }

  function HashOf(digest: Digest, previous: Option<string>, payload: Payload): string {
    digest(if previous.Some? then previous.value else "", payload)
  }

  ghost predicate Injective(digest: Digest) {
    forall a, b, x, y :: digest(a, x) == digest(b, y) ==> x == y
  }

  predicate Earlier(a: Event, b: Event) { a.timestamp < b.timestamp || (a.timestamp == b.timestamp && a.id < b.id) }

  predicate Ordered(events: seq<Event>) { forall i, j :: 0 <= i < j < |events| ==> Earlier(events[i], events[j]) }

  ghost predicate DistinctKeys(events: seq<Event>) {
    forall i, j :: 0 <= i < j < |events| ==> Earlier(events[i], events[j]) || Earlier(events[j], events[i])
  }

  ghost predicate DistinctEventIds(events: seq<Event>) {
    forall i, j :: 0 <= i < j < |events| ==> events[i].fields.eventId != events[j].fields.eventId
  }

  // ORDER BY timestamp, id
  function Place(e: Event, sorted: seq<Event>): seq<Event> {
    if sorted == [] then [e]
    else
      var last := sorted[|sorted| - 1];
      if Earlier(e, last) then Place(e, sorted[..|sorted| - 1]) + [last] else sorted + [e]
  }

  function Sorted(events: seq<Event>): seq<Event> {
    if events == [] then [] else Place(events[|events| - 1], Sorted(events[..|events| - 1]))
  }

  // The event _latest returns: greatest (timestamp, id).
  ghost predicate IsLatest(events: seq<Event>, e: Event) {
    e in events && forall x :: x in events ==> x == e || Earlier(x, e)
  }

  function Latest(events: seq<Event>): Option<Event> {
    if events == [] then None
    else
      var before, last := Latest(events[..|events| - 1]), events[|events| - 1];
      if before.Some? && !Earlier(before.value, last) then before else Some(last)
  }

  lemma {:induction false} LatestIsGreatest(events: seq<Event>)
    requires DistinctKeys(events) && events != []
    ensures Latest(events).Some? && IsLatest(events, Latest(events).value)
  {
    var front, last := events[..|events| - 1], events[|events| - 1];
    assert events == front + [last];
    if front != [] { LatestIsGreatest(front); }
  }

  function NewEvent(digest: Digest, events: seq<Event>, id: nat, timestamp: int, fields: Fields,
                    metadata: Json, before: Json, after: Json): Event {
    var latest := Latest(events);
    var previous := if latest.Some? then Some(latest.value.hash) else None;
    var e := Event(id, timestamp, fields, Safe(metadata), Safe(before), Safe(after), previous, "");
    e.(hash := HashOf(digest, previous, PayloadOf(e)))
  }

  // ---------- verification ----------

  predicate LinkOk(digest: Digest, events: seq<Event>, k: nat)
    requires k < |events|
  {
    var previous := if k == 0 then None else Some(events[k - 1].hash);
    events[k].previousHash == previous && events[k].hash == HashOf(digest, previous, PayloadOf(events[k]))
  }

  ghost predicate Verifies(digest: Digest, events: seq<Event>) {
    forall k :: 0 <= k < |events| ==> LinkOk(digest, events, k)
  }

  // Where verification stops: the first event whose link or hash does not fit.
  ghost predicate FailsAt(digest: Digest, events: seq<Event>, k: nat) {
    k < |events| && !LinkOk(digest, events, k) && forall m :: 0 <= m < k ==> LinkOk(digest, events, m)
  }

  class AuditLog {
    const digest: Digest
    var events: seq<Event> // in insertion order

    constructor (digest: Digest)
      ensures this.digest == digest && events == []
    {
      this.digest, events := digest, [];
    }

    method FindLatest() returns (latest: Option<Event>)
      ensures latest == Latest(events)
      ensures events == [] ==> latest.None?
      ensures DistinctKeys(events) && events != [] ==> latest.Some? && IsLatest(events, latest.value)
    {
      latest := None;
      for k := 0 to |events|
        invariant latest == Latest(events[..k])
      {
        assert events[..k + 1][..k] == events[..k];
        if latest.None? || Earlier(latest.value, events[k]) { latest := Some(events[k]); }
      }
      assert events[..|events|] == events;
      if DistinctKeys(events) && events != [] { LatestIsGreatest(events); }
    }

    method RecordEvent(id: nat, timestamp: int, fields: Fields, metadata: Json, before: Json, after: Json)
      returns (r: Result<Event, string>)
      modifies this`events
      ensures r.Err? <==> fields.outcome.Unknown?
      ensures r.Ok? ==> r.value == NewEvent(digest, old(events), id, timestamp, fields, metadata, before, after)
      ensures events == if r.Ok? then old(events) + [r.value] else old(events)
      ensures r.Ok? ==>
        && r.value.id == id && r.value.timestamp == timestamp && r.value.fields == fields
        && r.value.metadata == Safe(metadata) && r.value.before == Safe(before) && r.value.after == Safe(after)
        && r.value.hash == HashOf(digest, r.value.previousHash, PayloadOf(r.value))
        && (old(events) == [] ==> r.value.previousHash.None?)
        && (old(events) != [] && DistinctKeys(old(events)) ==>
              exists e :: IsLatest(old(events), e) && r.value.previousHash == Some(e.hash))
    {
      if fields.outcome.Unknown? { return Err("Invalid audit outcome"); }
      var event := Event(id, timestamp, fields, Safe(metadata), Safe(before), Safe(after), None, "");
      var previous := FindLatest();
      event := event.(previousHash := if previous.Some? then Some(previous.value.hash) else None);
      event := event.(hash := HashOf(digest, event.previousHash, PayloadOf(event)));
      if DistinctKeys(events) && events != [] { LatestIsGreatest(events); }
      events := events + [event];
      return Ok(event);
    }

    method VerifyHashChain() returns (ok: bool, bad: Option<nat>)
      ensures ok <==> Verifies(digest, Sorted(events))
      ensures ok ==> bad.None?
      ensures !ok ==> exists k: nat ::
          FailsAt(digest, Sorted(events), k) && bad == Some(Sorted(events)[k].fields.eventId)
    {
      var ordered := Sorted(events);
      var previous: Option<string> := None;
      for k := 0 to |ordered|
        invariant previous == if k == 0 then None else Some(ordered[k - 1].hash)
        invariant forall m :: 0 <= m < k ==> LinkOk(digest, ordered, m)
      {
        var event := ordered[k];
        if event.previousHash != previous || event.hash != HashOf(digest, previous, PayloadOf(event)) {
          assert FailsAt(digest, ordered, k);
          return false, Some(event.fields.eventId);
        }
        previous := Some(event.hash);
      }
      return true, None;
    }
  }
}
