/** What the chain commits to: the head determines the log, built logs verify exactly when appended
    in order, and which alterations and deletions verification notices. */
module AuditTheorems {
  import opened Prelude
  import opened AuditChain

  lemma SameHashSamePayload(digest: Digest, s: seq<Event>, k: nat, t: seq<Event>, m: nat)
    requires Injective(digest) && k < |s| && m < |t|
    requires LinkOk(digest, s, k) && LinkOk(digest, t, m) && s[k].hash == t[m].hash
    ensures PayloadOf(s[k]) == PayloadOf(t[m])
  {
    var p := if k == 0 then None else Some(s[k - 1].hash);
    var q := if m == 0 then None else Some(t[m - 1].hash);
    assert digest(if p.Some? then p.value else "", PayloadOf(s[k])) ==
        digest(if q.Some? then q.value else "", PayloadOf(t[m]));
  }

  lemma VerifiesPrefix(digest: Digest, s: seq<Event>, n: nat)
    requires n <= |s| && Verifies(digest, s)
    ensures Verifies(digest, s[..n])
  {
    forall k | 0 <= k < n ensures LinkOk(digest, s[..n], k) { assert LinkOk(digest, s, k); }
  }

  // ---------- the head commits to the whole log ----------

  lemma {:induction false} HeadCommits(digest: Digest, a: seq<Event>, b: seq<Event>)
    requires Injective(digest) && Verifies(digest, a) && Verifies(digest, b)
    requires a != [] && b != [] && a[|a| - 1].hash == b[|b| - 1].hash
    ensures |a| == |b| && forall k :: 0 <= k < |a| ==> PayloadOf(a[k]) == PayloadOf(b[k]) && a[k].hash == b[k].hash
    decreases |a|
  {
    var n, m := |a| - 1, |b| - 1;
    assert LinkOk(digest, a, n) && LinkOk(digest, b, m);
    SameHashSamePayload(digest, a, n, b, m);
    if n > 0 && m > 0 {
      VerifiesPrefix(digest, a, n);
      VerifiesPrefix(digest, b, m);
      HeadCommits(digest, a[..n], b[..m]);
      forall k | 0 <= k < n ensures PayloadOf(a[k]) == PayloadOf(b[k]) && a[k].hash == b[k].hash {
        assert a[..n][k] == a[k] && b[..m][k] == b[k];
      }
    }
  }

  // ---------- sorting ----------

  lemma {:induction false} OrderedSorted(events: seq<Event>)
    requires Ordered(events)
    ensures Sorted(events) == events
  {
    if events != [] { OrderedSorted(events[..|events| - 1]); }
  }

  lemma {:induction false} PlaceKeeps(e: Event, sorted: seq<Event>)
    requires Ordered(sorted) && forall x :: x in sorted ==> Earlier(x, e) || Earlier(e, x)
    ensures Ordered(Place(e, sorted)) && forall x :: x in Place(e, sorted) <==> x == e || x in sorted
  {
    if sorted != [] {
      var front, last := sorted[..|sorted| - 1], sorted[|sorted| - 1];
      assert sorted == front + [last];
      if Earlier(e, last) {
        PlaceKeeps(e, front);
        forall x | x in Place(e, front) ensures Earlier(x, last) { }
      } else {
        forall x | x in sorted ensures Earlier(x, e) { }
      }
    }
  }

  lemma {:induction false} SortedIsOrdered(events: seq<Event>)
    requires DistinctKeys(events)
    ensures Ordered(Sorted(events)) && forall x :: x in Sorted(events) <==> x in events
  {
    if events != [] {
      var front, last := events[..|events| - 1], events[|events| - 1];
      assert events == front + [last];
      SortedIsOrdered(front);
      PlaceKeeps(last, Sorted(front));
    }
  }

  lemma FrontMember(s: seq<Event>, x: Event)
    requires Ordered(s) && s != []
    ensures x in s[..|s| - 1] <==> x in s && x != s[|s| - 1]
  {
    var front, last := s[..|s| - 1], s[|s| - 1];
    assert s == front + [last];
    if x in front {
      var k :| 0 <= k < |front| && front[k] == x;
      assert Earlier(s[k], last);
    }
  }

  lemma {:induction false} OrderedUnique(a: seq<Event>, b: seq<Event>)
    requires Ordered(a) && Ordered(b) && forall x :: x in a <==> x in b
    ensures a == b
  {
    HasMember(a);
    HasMember(b);
    if a != [] {
      SameLast(a, b);
      var front, rest := a[..|a| - 1], b[..|b| - 1];
      forall x ensures x in front <==> x in rest { FrontMember(a, x); FrontMember(b, x); }
      OrderedUnique(front, rest);
      assert a == front + [a[|a| - 1]] && b == rest + [b[|b| - 1]];
    }
  }

  lemma SameLast(a: seq<Event>, b: seq<Event>)
    requires Ordered(a) && Ordered(b) && a != [] && b != [] && forall x :: x in a <==> x in b
    ensures a[|a| - 1] == b[|b| - 1]
  {
    assert a[|a| - 1] in b && b[|b| - 1] in a;
  }

  // ---------- altering one event ----------

  // Rewriting entry i of a list in place, keeping its hash: noticed exactly when a hashed field
  // changes, and then exactly at that entry.
  lemma AlteredEntry(digest: Digest, log: seq<Event>, i: nat, forged: Event)
    requires Injective(digest) && Verifies(digest, log) && i < |log| && forged.hash == log[i].hash
    ensures PayloadOf(forged) != PayloadOf(log[i]) ==> FailsAt(digest, log[i := forged], i)
    ensures PayloadOf(forged) == PayloadOf(log[i]) ==> Verifies(digest, log[i := forged])
  {
    var s := log[i := forged];
    assert LinkOk(digest, log, i);
    forall k | 0 <= k < |s| && k != i ensures LinkOk(digest, s, k) { assert LinkOk(digest, log, k); }
    if PayloadOf(forged) != PayloadOf(log[i]) && LinkOk(digest, s, i) {
      SameHashSamePayload(digest, s, i, log, i);
      assert false;
    }
  }

  // The rewritten row stands where the old one stood among the other rows.
  ghost predicate SamePlace(events: seq<Event>, j: nat, forged: Event)
    requires j < |events|
  {
    forall x :: x in events && x != events[j] ==>
      (Earlier(x, forged) <==> Earlier(x, events[j])) && (Earlier(forged, x) <==> Earlier(events[j], x))
  }

  lemma OthersStay(events: seq<Event>, j: nat, forged: Event, x: Event)
    requires DistinctKeys(events) && j < |events|
    ensures x in events[j := forged] <==> x == forged || (x in events && x != events[j])
  {
    var after := events[j := forged];
    if x in after && x != forged {
      var k :| 0 <= k < |after| && after[k] == x;
      assert events[k] == x;
    }
    if x in events && x != events[j] {
      var k :| 0 <= k < |events| && events[k] == x;
      assert after[k] == x;
    }
    assert after[j] == forged;
  }

  lemma RewriteKeepsKeys(events: seq<Event>, j: nat, forged: Event)
    requires DistinctKeys(events) && j < |events| && SamePlace(events, j, forged)
    ensures DistinctKeys(events[j := forged])
  {
    var after := events[j := forged];
    forall k | 0 <= k < |events| && k != j
      ensures events[k] in events && events[k] != events[j] && after[k] == events[k]
      ensures Earlier(events[k], forged) || Earlier(forged, events[k])
    {
      assert events[k] in events;
    }
  }

  lemma RewriteKeepsOrder(s: seq<Event>, i: nat, forged: Event)
    requires Ordered(s) && i < |s| && SamePlace(s, i, forged)
    ensures Ordered(s[i := forged]) && DistinctKeys(s)
  {
    forall k | 0 <= k < |s| && k != i
      ensures if k < i then Earlier(s[k], forged) else Earlier(forged, s[k])
    {
      assert s[k] in s;
    }
  }

  // Rewriting a row in place rewrites its entry of the sorted log and moves nothing.
  lemma SortedRewrite(events: seq<Event>, j: nat, i: nat, forged: Event)
    requires DistinctKeys(events) && j < |events| && SamePlace(events, j, forged)
    requires i < |Sorted(events)| && Sorted(events)[i] == events[j]
    ensures Sorted(events[j := forged]) == Sorted(events)[i := forged]
  {
    var s, after := Sorted(events), events[j := forged];
    SortedIsOrdered(events);
    RewriteKeepsKeys(events, j, forged);
    SortedIsOrdered(after);
    RewriteKeepsOrder(s, i, forged);
    forall x ensures x in Sorted(after) <==> x in s[i := forged] {
      OthersStay(events, j, forged, x);
      OthersStay(s, i, forged, x);
    }
    OrderedUnique(Sorted(after), s[i := forged]);
  }

  lemma PlaceOf(events: seq<Event>, j: nat) returns (i: nat)
    requires DistinctKeys(events) && j < |events|
    ensures i < |Sorted(events)| && Sorted(events)[i] == events[j]
  {
    SortedIsOrdered(events);
    assert events[j] in events;
    i :| 0 <= i < |Sorted(events)| && Sorted(events)[i] == events[j];
  }

  // Rewriting a row of a verifying table, keeping its hash and its place in the order: noticed
  // exactly when a hashed field changes, and then exactly at that event.
  lemma AlterationNoticed(digest: Digest, events: seq<Event>, j: nat, forged: Event)
    requires Injective(digest) && DistinctKeys(events) && Verifies(digest, Sorted(events))
    requires j < |events| && SamePlace(events, j, forged) && forged.hash == events[j].hash
    ensures PayloadOf(forged) != PayloadOf(events[j]) ==>
      exists i: nat :: i < |Sorted(events)| && Sorted(events)[i] == events[j]
          && FailsAt(digest, Sorted(events[j := forged]), i)
    ensures PayloadOf(forged) == PayloadOf(events[j]) ==> Verifies(digest, Sorted(events[j := forged]))
  {
    var i := PlaceOf(events, j);
    SortedRewrite(events, j, i, forged);
    AlteredEntry(digest, Sorted(events), i, forged);
  }

  // ---------- deleting events ----------

  lemma {:induction false} HashesDiffer(digest: Digest, log: seq<Event>, i: nat, j: nat)
    requires Injective(digest) && Verifies(digest, log) && DistinctEventIds(log) && i < j < |log|
    ensures log[i].hash != log[j].hash
  {
    if log[i].hash == log[j].hash {
      assert LinkOk(digest, log, i) && LinkOk(digest, log, j);
      SameHashSamePayload(digest, log, i, log, j);
      assert false;
    }
  }

  // Entry k of the sub-log is entry m of the log, and the entries before it are the log's first k.
  lemma FirstGap(s: seq<Event>, t: seq<Event>, k: nat) returns (m: nat)
    requires Ordered(s) && Ordered(t) && (forall x :: x in t ==> x in s)
    requires k < |t| && k <= |s| && t[..k] == s[..k] && (k < |s| ==> t[k] != s[k])
    ensures k < m < |s| && s[m] == t[k]
  {
    assert t[k] in t;
    m :| 0 <= m < |s| && s[m] == t[k];
    forall q | 0 <= q < k ensures s[q] == t[q] { assert s[..k][q] == t[..k][q]; }
  }

  lemma {:induction false} SharedPrefix(s: seq<Event>, t: seq<Event>) returns (k: nat)
    requires !(t <= s)
    ensures k < |t| && k <= |s| && t[..k] == s[..k] && (k < |s| ==> t[k] != s[k])
  {
    k := 0;
    while k < |t| && k < |s| && t[k] == s[k]
      invariant k <= |t| && k <= |s| && t[..k] == s[..k]
    {
      assert t[..k + 1] == t[..k] + [t[k]] && s[..k + 1] == s[..k] + [s[k]];
      k := k + 1;
    }
  }

  lemma SubLogVerifies(digest: Digest, s: seq<Event>, t: seq<Event>)
    requires Injective(digest) && Verifies(digest, s) && DistinctEventIds(s)
    requires Ordered(s) && Ordered(t) && forall x :: x in t ==> x in s
    ensures Verifies(digest, t) <==> t <= s
  {
    if t <= s {
      assert t == s[..|t|];
      VerifiesPrefix(digest, s, |t|);
    } else {
      var k := SharedPrefix(s, t);
      var m := FirstGap(s, t, k);
      assert LinkOk(digest, s, m);
      if k > 0 {
        assert t[k - 1] == t[..k][k - 1] == s[..k][k - 1] == s[k - 1];
        HashesDiffer(digest, s, k - 1, m - 1);
      }
      assert !LinkOk(digest, t, k);
    }
  }

  // Deleting any rows of a verifying table goes unnoticed exactly when the rows that are left are
  // the oldest ones: what was cut off is a tail of the log.
  lemma DeletionNoticed(digest: Digest, events: seq<Event>, left: seq<Event>)
    requires Injective(digest) && DistinctKeys(events) && DistinctEventIds(events) && Verifies(digest, Sorted(events))
    requires DistinctKeys(left) && forall x :: x in left ==> x in events
    ensures Verifies(digest, Sorted(left)) <==> Sorted(left) <= Sorted(events)
  {
    SortedIsOrdered(events);
    SortedIsOrdered(left);
    SortedDistinct(events);
    SubLogVerifies(digest, Sorted(events), Sorted(left));
  }

  // ---------- logs built by appending ----------

  datatype Entry = Entry(id: nat, timestamp: int, fields: Fields, metadata: Json, before: Json, after: Json)

  function Build(digest: Digest, entries: seq<Entry>): seq<Event> {
    if entries == [] then []
    else
      var events, e := Build(digest, entries[..|entries| - 1]), entries[|entries| - 1];
      events + [NewEvent(digest, events, e.id, e.timestamp, e.fields, e.metadata, e.before, e.after)]
  }

  lemma {:induction false} BuildLength(digest: Digest, entries: seq<Entry>)
    ensures |Build(digest, entries)| == |entries|
  {
    if entries != [] { BuildLength(digest, entries[..|entries| - 1]); }
  }

  lemma BuildFront(digest: Digest, entries: seq<Entry>, n: nat)
    requires entries != [] && n < |entries|
    ensures |Build(digest, entries)| == |entries| && |Build(digest, entries[..|entries| - 1])| == |entries| - 1
    ensures Build(digest, entries)[..n] == Build(digest, entries[..|entries| - 1])[..n]
  {
    BuildLength(digest, entries);
    BuildLength(digest, entries[..|entries| - 1]);
  }

  lemma {:induction false} BuildPrefix(digest: Digest, entries: seq<Entry>, n: nat)
    requires n <= |entries|
    ensures |Build(digest, entries)| == |entries| && Build(digest, entries)[..n] == Build(digest, entries[..n])
  {
    BuildLength(digest, entries);
    if n == |entries| {
      assert entries[..n] == entries;
      assert Build(digest, entries)[..n] == Build(digest, entries);
    } else {
      var front := entries[..|entries| - 1];
      BuildFront(digest, entries, n);
      BuildPrefix(digest, front, n);
      assert front[..n] == entries[..n];
    }
  }

  lemma BuiltEvent(digest: Digest, entries: seq<Entry>, n: nat)
    requires n < |entries|
    ensures |Build(digest, entries)| == |entries|
    ensures var e := entries[n];
      Build(digest, entries)[n]
      == NewEvent(digest, Build(digest, entries)[..n], e.id, e.timestamp, e.fields, e.metadata, e.before, e.after)
  {
    BuildPrefix(digest, entries, n);
    BuildPrefix(digest, entries, n + 1);
    assert entries[..n + 1][..n] == entries[..n];
    assert Build(digest, entries)[..n + 1][n] == Build(digest, entries)[n];
  }

  lemma {:induction false} OrderedLatest(events: seq<Event>)
    requires Ordered(events) && events != []
    ensures Latest(events) == Some(events[|events| - 1])
  {
    if |events| > 1 { OrderedLatest(events[..|events| - 1]); }
  }

  lemma InOrderVerifies(digest: Digest, entries: seq<Entry>)
    requires Ordered(Build(digest, entries))
    ensures Verifies(digest, Build(digest, entries))
  {
    var log := Build(digest, entries);
    BuildPrefix(digest, entries, 0);
    forall k | 0 <= k < |log| ensures LinkOk(digest, log, k) {
      BuiltEvent(digest, entries, k);
      if k > 0 {
        OrderedLatest(log[..k]);
        assert log[..k][k - 1] == log[k - 1];
      }
    }
  }

  // The hash of an appended event covers everything that was stored with it.
  lemma StoredIsHashed(digest: Digest, entries: seq<Entry>, n: nat)
    requires n < |entries| == |Build(digest, entries)|
    ensures var e := Build(digest, entries)[n];
      PayloadOf(e) == Payload(e.fields, e.timestamp, e.metadata, e.before, e.after, e.previousHash)
  {
    BuiltEvent(digest, entries, n);
    SafeIsClean(entries[n].metadata);
    SafeIsClean(entries[n].before);
    SafeIsClean(entries[n].after);
    SafeFixesExactlyClean(Safe(entries[n].metadata));
    SafeFixesExactlyClean(Safe(entries[n].before));
    SafeFixesExactlyClean(Safe(entries[n].after));
  }

  // An event appended behind a later one points at an event that is sorted after it.
  lemma PointsAhead(digest: Digest, entries: seq<Entry>, m: nat, n: nat) returns (latest: Event)
    requires DistinctKeys(Build(digest, entries)) && m < n < |entries| == |Build(digest, entries)|
    requires Earlier(Build(digest, entries)[n], Build(digest, entries)[m])
    ensures latest in Build(digest, entries) && Earlier(Build(digest, entries)[n], latest)
    ensures Build(digest, entries)[n].previousHash == Some(latest.hash)
  {
    var before := Build(digest, entries)[..n];
    BuiltEvent(digest, entries, n);
    LatestIsGreatest(before);
    latest := Latest(before).value;
    assert before[m] == Build(digest, entries)[m];
    assert before[m] in before;
    assert latest in before;
  }

  lemma AheadNotLinked(digest: Digest, s: seq<Event>, k: nat, l: nat)
    requires Injective(digest) && DistinctEventIds(s) && k < l < |s| && s[k].previousHash == Some(s[l].hash)
    ensures !Verifies(digest, s)
  {
    if Verifies(digest, s) {
      assert LinkOk(digest, s, k);
      assert k > 0 && s[k - 1].hash == s[l].hash;
      HashesDiffer(digest, s, k - 1, l);
      assert false;
    }
  }

  lemma SortedDistinct(log: seq<Event>)
    requires DistinctKeys(log) && DistinctEventIds(log)
    ensures DistinctEventIds(Sorted(log))
  {
    SortedIsOrdered(log);
    var s := Sorted(log);
    forall i, j | 0 <= i < j < |s| ensures s[i].fields.eventId != s[j].fields.eventId {
      assert s[i] in s && s[j] in s;
      if s[i].fields.eventId == s[j].fields.eventId {
        SameEventId(log, s[i], s[j]);
        assert false;
      }
    }
  }

  lemma OutOfOrderFails(digest: Digest, entries: seq<Entry>, m: nat, n: nat)
    requires Injective(digest) && DistinctKeys(Build(digest, entries)) && DistinctEventIds(Build(digest, entries))
    requires m < n < |entries| == |Build(digest, entries)|
    requires Earlier(Build(digest, entries)[n], Build(digest, entries)[m])
    ensures !Verifies(digest, Sorted(Build(digest, entries)))
  {
    var log := Build(digest, entries);
    var latest := PointsAhead(digest, entries, m, n);
    SortedDistinct(log);
    var k, l := PlacesInOrder(log, n, latest);
    AheadNotLinked(digest, Sorted(log), k, l);
  }

  lemma PlacesInOrder(log: seq<Event>, n: nat, later: Event) returns (k: nat, l: nat)
    requires DistinctKeys(log) && n < |log| && later in log && Earlier(log[n], later)
    ensures k < l < |Sorted(log)| && Sorted(log)[k] == log[n] && Sorted(log)[l] == later
  {
    SortedIsOrdered(log);
    var s := Sorted(log);
    assert log[n] in log;
    k :| 0 <= k < |s| && s[k] == log[n];
    l :| 0 <= l < |s| && s[l] == later;
  }

  lemma SameEventId(log: seq<Event>, a: Event, b: Event)
    requires DistinctEventIds(log) && a in log && b in log && a.fields.eventId == b.fields.eventId
    ensures a == b
  {
    var i :| 0 <= i < |log| && log[i] == a;
    var j :| 0 <= j < |log| && log[j] == b;
  }

  // A log built by record_event verifies if and only if every event was appended after all earlier
  // ones in (timestamp, id) order.
  lemma BuiltVerifiesExactlyInOrder(digest: Digest, entries: seq<Entry>)
    requires Injective(digest) && DistinctKeys(Build(digest, entries)) && DistinctEventIds(Build(digest, entries))
    ensures Verifies(digest, Sorted(Build(digest, entries))) <==> Ordered(Build(digest, entries))
  {
    var log := Build(digest, entries);
    BuildPrefix(digest, entries, 0);
    if Ordered(log) {
      OrderedSorted(log);
      InOrderVerifies(digest, entries);
    } else {
      var m, n :| 0 <= m < n < |log| && !Earlier(log[m], log[n]);
      OutOfOrderFails(digest, entries, m, n);
    }
  }

  // The smallest log that fails although nothing was altered: the second append carries an earlier
  // timestamp than the first. Appended the other way round, the same two entries verify.
  lemma LateEntryFails(digest: Digest) returns (entries: seq<Entry>)
    requires Injective(digest)
    ensures |entries| == 2 && !Verifies(digest, Sorted(Build(digest, entries)))
    ensures Verifies(digest, Sorted(Build(digest, [entries[1], entries[0]])))
  {
    var fields := Fields(1, None, None, None, "SYSTEM", "JOB_CREATED", "JOB", None, None, Success, None);
    var first := Entry(1, 20, fields, Obj(map[]), Null, Null);
    var late := Entry(2, 10, fields.(eventId := 2), Obj(map[]), Null, Null);
    entries := [first, late];
    PairVerifies(digest, first, late);
    PairVerifies(digest, late, first);
  }

  lemma PairVerifies(digest: Digest, x: Entry, y: Entry)
    requires Injective(digest) && x.timestamp != y.timestamp && x.fields.eventId != y.fields.eventId
    ensures Verifies(digest, Sorted(Build(digest, [x, y]))) <==> x.timestamp < y.timestamp
  {
    BuiltPair(digest, x, y);
    BuiltVerifiesExactlyInOrder(digest, [x, y]);
  }

  lemma BuiltPair(digest: Digest, x: Entry, y: Entry)
    ensures var log := Build(digest, [x, y]);
      && |log| == 2 && log[0].id == x.id && log[0].timestamp == x.timestamp && log[0].fields == x.fields
      && log[1].id == y.id && log[1].timestamp == y.timestamp && log[1].fields == y.fields
  {
    BuildPrefix(digest, [x, y], 0);
    BuiltEvent(digest, [x, y], 0);
    BuiltEvent(digest, [x, y], 1);
  }
}
