/** The fixed-window rate limiter: one row per key, holding the window's start, its count, and until
    when further calls are refused. */
module RateLimit {
  import opened Prelude

  datatype Row = Row(start: int, count: nat, blockedUntil: Option<int>)

  // Allowed, or refused with a Retry-After in whole seconds.
  datatype Verdict = Allowed | Refused(retryAfter: int)

  function RetryAfter(until: int, now: int): int { Max(1, (until - now) / SECOND) }

  function Decide(row: Option<Row>, limit: int, window: int, now: int): (Option<Row>, Verdict) {
    if limit <= 0 then (row, Allowed)
    else if row.None? then (Some(Row(now, 1, None)), Allowed)
    else
      var r := row.value;
      if r.blockedUntil.Some? && r.blockedUntil.value > now then (row, Refused(RetryAfter(r.blockedUntil.value, now)))
      else if now - r.start >= window then (Some(Row(now, 1, None)), Allowed)
      else if r.count + 1 > limit then
        (Some(Row(r.start, r.count + 1, Some(r.start + window))), Refused(RetryAfter(r.start + window, now)))
      else (Some(r.(count := r.count + 1)), Allowed)
  }

  class Limiter {
    var row: Option<Row>

    constructor ()
      ensures row == None
    {
      row := None;
    }

    method Enforce(limit: int, window: int, now: int) returns (v: Verdict)
      modifies this
      ensures (row, v) == Decide(old(row), limit, window, now)
    {
      if limit <= 0 { return Allowed; }
      if row.None? {
        row := Some(Row(now, 1, None));
        return Allowed;
      }
      var r := row.value;
      if r.blockedUntil.Some? && r.blockedUntil.value > now {
        return Refused(Max(1, (r.blockedUntil.value - now) / SECOND));
      }
      if now - r.start >= window {
        r := r.(start := now);
        r := r.(count := 1);
        r := r.(blockedUntil := None);
        row := Some(r);
        return Allowed;
      }
      r := r.(count := r.count + 1);
      if r.count > limit {
        r := r.(blockedUntil := Some(r.start + window));
        row := Some(r);
        return Refused(Max(1, (r.blockedUntil.value - now) / SECOND));
      }
      row := Some(r);
      return Allowed;
    }

    method Reset()
      modifies this
      ensures row == None
    {
      row := None;
    }
  }

  // ---------- a key's calls, with no reset ----------

  function RowAfter(limit: int, window: int, calls: seq<int>): Option<Row> {
    if calls == [] then None
    else Decide(RowAfter(limit, window, calls[..|calls| - 1]), limit, window, calls[|calls| - 1]).0
  }

  predicate Passes(limit: int, window: int, calls: seq<int>, k: nat)
    requires k < |calls|
  {
    Decide(RowAfter(limit, window, calls[..k]), limit, window, calls[k]).1.Allowed?
  }

  // Allowed calls at times in [from, to).
  function AllowedIn(limit: int, window: int, calls: seq<int>, from: int, to: int): nat {
    if calls == [] then 0
    else
      var n := |calls| - 1;
      AllowedIn(limit, window, calls[..n], from, to)
      + if from <= calls[n] < to && Passes(limit, window, calls, n) then 1 else 0
  }

  predicate Monotone(calls: seq<int>) { forall i, j :: 0 <= i < j < |calls| ==> calls[i] <= calls[j] }

  // ---------- the state after any run ----------

  ghost predicate RowOk(limit: int, window: int, calls: seq<int>) {
    var row := RowAfter(limit, window, calls);
    if calls == [] then row.None?
    else
      && row.Some? && 1 <= row.value.count <= limit + 1
      && row.value.start <= calls[|calls| - 1]
      && (row.value.blockedUntil.None? <==> row.value.count <= limit)
      && (row.value.blockedUntil.Some? ==> row.value.blockedUntil.value == row.value.start + window)
  }

  lemma MonotonePrefix(calls: seq<int>)
    requires calls != [] && Monotone(calls)
    ensures Monotone(calls[..|calls| - 1])
    ensures |calls| > 1 ==> calls[..|calls| - 1][|calls| - 2] <= calls[|calls| - 1]
  {
  }

  lemma {:induction false} BlockedUntilWindowEnd(limit: int, window: int, calls: seq<int>)
    requires limit >= 1 && window >= 1 && Monotone(calls)
    ensures RowOk(limit, window, calls)
  {
    if calls != [] {
      MonotonePrefix(calls);
      BlockedUntilWindowEnd(limit, window, calls[..|calls| - 1]);
    }
  }

  // ---------- how many calls get through ----------

  lemma {:induction false} SplitInterval(limit: int, window: int, calls: seq<int>, a: int, b: int, c: int)
    requires a <= b <= c
    ensures AllowedIn(limit, window, calls, a, c) == AllowedIn(limit, window, calls, a, b)
        + AllowedIn(limit, window, calls, b, c)
  {
    if calls != [] { SplitInterval(limit, window, calls[..|calls| - 1], a, b, c); }
  }

  // Allowed calls counted by the row.
  function Granted(row: Row, limit: int): int { Min(row.count, limit) }

  // The current window's allowed calls are what the row counts; its first one is at its start; none
  // lies beyond its end.
  ghost predicate WindowCounted(limit: int, window: int, calls: seq<int>) {
    var row := RowAfter(limit, window, calls);
    && row.Some?
    && (forall to :: AllowedIn(limit, window, calls, row.value.start, to) <= Granted(row.value, limit))
    && (forall to :: to > calls[|calls| - 1] ==>
        AllowedIn(limit, window, calls, row.value.start, to) == Granted(row.value, limit))
    && (forall a, to :: a > row.value.start ==> AllowedIn(limit, window, calls, a, to) <= Granted(row.value, limit) - 1)
    && (forall a, to :: a >= row.value.start + window ==> AllowedIn(limit, window, calls, a, to) == 0)
  }

  // Before the current window, an interval that reaches into it holds at most limit - 1; and no
  // interval of one window's length holds more than 2 * limit - 1.
  ghost predicate Bounded(limit: int, window: int, calls: seq<int>) {
    var row := RowAfter(limit, window, calls);
    && row.Some?
    && (forall a :: a <= row.value.start < a + window ==>
        AllowedIn(limit, window, calls, a, row.value.start) <= limit - 1)
    && (forall a, to :: to <= a + window ==> AllowedIn(limit, window, calls, a, to) <= 2 * limit - 1)
  }

  lemma OneMore(limit: int, window: int, calls: seq<int>, t: int, a: int, b: int)
    ensures RowAfter(limit, window, calls + [t]) == Decide(RowAfter(limit, window, calls), limit, window, t).0
    ensures AllowedIn(limit, window, calls + [t], a, b) == AllowedIn(limit, window, calls, a, b)
            + if a <= t < b && Decide(RowAfter(limit, window, calls), limit, window, t).1.Allowed? then 1 else 0
  {
    assert (calls + [t])[..|calls|] == calls;
  }

  ghost predicate LimitsOk(limit: int, window: int, calls: seq<int>) {
    WindowCounted(limit, window, calls) && Bounded(limit, window, calls)
  }

  lemma FirstCall(limit: int, window: int, t: int)
    requires limit >= 1 && window >= 1
    ensures LimitsOk(limit, window, [t])
  {
    assert [] + [t] == [t];
    forall a, b
      ensures RowAfter(limit, window, [t]) == Some(Row(t, 1, None))
      ensures AllowedIn(limit, window, [t], a, b) == if a <= t < b then 1 else 0
    {
      OneMore(limit, window, [], t, a, b);
    }
  }

  lemma WindowStep(limit: int, window: int, calls: seq<int>, t: int)
    requires limit >= 1 && window >= 1 && calls != [] && calls[|calls| - 1] <= t
    requires RowOk(limit, window, calls) && WindowCounted(limit, window, calls)
    ensures WindowCounted(limit, window, calls + [t])
  {
    var was := RowAfter(limit, window, calls).value;
    OneMore(limit, window, calls, t, 0, 0);
    var row := RowAfter(limit, window, calls + [t]).value;
    forall a, b
      ensures AllowedIn(limit, window, calls + [t], a, b) == AllowedIn(limit, window, calls, a, b)
              + if a <= t < b && Decide(Some(was), limit, window, t).1.Allowed? then 1 else 0
    {
      OneMore(limit, window, calls, t, a, b);
    }
  }

  lemma BoundStep(limit: int, window: int, calls: seq<int>, t: int)
    requires limit >= 1 && window >= 1 && calls != [] && calls[|calls| - 1] <= t
    requires RowOk(limit, window, calls) && LimitsOk(limit, window, calls)
    ensures Bounded(limit, window, calls + [t])
  {
    var was := RowAfter(limit, window, calls).value;
    OneMore(limit, window, calls, t, 0, 0);
    forall a, b
      ensures AllowedIn(limit, window, calls + [t], a, b) == AllowedIn(limit, window, calls, a, b)
              + if a <= t < b && Decide(Some(was), limit, window, t).1.Allowed? then 1 else 0
    {
      OneMore(limit, window, calls, t, a, b);
    }
    forall a, b | a <= was.start < b
      ensures AllowedIn(limit, window, calls, a, b)
              == AllowedIn(limit, window, calls, a, was.start) + AllowedIn(limit, window, calls, was.start, b)
    {
      SplitInterval(limit, window, calls, a, was.start, b);
    }
  }

  lemma {:induction false} LimitsHold(limit: int, window: int, calls: seq<int>)
    requires limit >= 1 && window >= 1 && Monotone(calls) && calls != []
    ensures LimitsOk(limit, window, calls)
  {
    var before, t := calls[..|calls| - 1], calls[|calls| - 1];
    assert calls == before + [t];
    if before == [] {
      FirstCall(limit, window, t);
    } else {
      MonotonePrefix(calls);
      LimitsHold(limit, window, before);
      BlockedUntilWindowEnd(limit, window, before);
      WindowStep(limit, window, before, t);
      BoundStep(limit, window, before, t);
    }
  }

  // In any run with a monotone clock and no reset, a half-open interval as long as a window grants
  // at most 2 * limit - 1 calls, wherever it starts.
  lemma RateBound(limit: int, window: int, calls: seq<int>, from: int)
    requires limit >= 1 && window >= 1 && Monotone(calls)
    ensures AllowedIn(limit, window, calls, from, from + window) <= 2 * limit - 1
  {
    if calls != [] { LimitsHold(limit, window, calls); }
  }

  // Whichever window was current after k calls, over the whole run it grants at most `limit` calls;
  // a later window starts no earlier than its end.
  lemma {:induction false} FixedWindowLimit(limit: int, window: int, calls: seq<int>, k: nat)
    requires limit >= 1 && window >= 1 && Monotone(calls) && 1 <= k <= |calls|
    ensures RowAfter(limit, window, calls[..k]).Some? && RowAfter(limit, window, calls).Some?
    ensures var start, now := RowAfter(limit, window, calls[..k]).value.start,
        RowAfter(limit, window, calls).value.start;
      && AllowedIn(limit, window, calls, start, start + window) <= limit
      && (now == start || now >= start + window)
    decreases |calls|
  {
    LimitsHold(limit, window, calls);
    if k == |calls| {
      assert calls[..k] == calls;
    } else {
      var before := calls[..|calls| - 1];
      assert before[..k] == calls[..k];
      MonotonePrefix(calls);
      FixedWindowLimit(limit, window, before, k);
      BlockedUntilWindowEnd(limit, window, before);
    }
  }

  // A call is refused exactly when the window it falls in has already granted `limit` calls.
  lemma RefusedExactlyWhenFull(limit: int, window: int, calls: seq<int>, now: int)
    requires limit >= 1 && window >= 1 && Monotone(calls + [now]) && calls != []
    ensures var start := RowAfter(limit, window, calls).value.start;
      Decide(RowAfter(limit, window, calls), limit, window, now).1.Refused?
      <==> now < start + window && AllowedIn(limit, window, calls, start, now + 1) == limit
  {
    assert Monotone(calls) by { assert forall i :: 0 <= i < |calls| ==> (calls + [now])[i] == calls[i]; }
    assert calls[|calls| - 1] <= now by {
      assert (calls + [now])[|calls| - 1] == calls[|calls| - 1] && (calls + [now])[|calls|] == now;
    }
    LimitsHold(limit, window, calls);
    BlockedUntilWindowEnd(limit, window, calls);
  }

  // ---------- how long to wait ----------

  // A refusal in a run names whole seconds: at least one, and otherwise the time left, rounded down.
  // A call after exactly that wait is refused again unless the time left was whole or under a second.
  lemma RetryAfterExactly(limit: int, window: int, calls: seq<int>, now: int)
    requires limit >= 1 && window >= 1 && Monotone(calls + [now]) && calls != []
    requires Decide(RowAfter(limit, window, calls), limit, window, now).1.Refused?
    ensures var left := RowAfter(limit, window, calls).value.start + window - now;
      var wait := Decide(RowAfter(limit, window, calls), limit, window, now).1.retryAfter;
      && 0 < left < (wait + 1) * 1_000_000 && wait >= 1 && (wait == 1 || wait * 1_000_000 <= left)
      && (Decide(RowAfter(limit, window, calls + [now]), limit, window, now + wait * 1_000_000).1.Allowed?
          <==> left <= wait * 1_000_000)
  {
    assert Monotone(calls) by { assert forall i :: 0 <= i < |calls| ==> (calls + [now])[i] == calls[i]; }
    BlockedUntilWindowEnd(limit, window, calls);
    OneMore(limit, window, calls, now, 0, 0);
  }

  // ---------- the bound is reached ----------

  ghost predicate HasRoom(limit: int, window: int, row: Option<Row>, n: nat, at: int) {
    && row.Some? && row.value.blockedUntil.None?
    && row.value.start <= at < row.value.start + window && row.value.count + n <= limit
  }

  lemma OnePasses(limit: int, window: int, calls: seq<int>, at: int, from: int, to: int)
    requires limit >= 1 && from <= at < to && HasRoom(limit, window, RowAfter(limit, window, calls), 1, at)
    ensures var row := RowAfter(limit, window, calls).value;
      RowAfter(limit, window, calls + [at]) == Some(Row(row.start, row.count + 1, None))
    ensures AllowedIn(limit, window, calls + [at], from, to) == AllowedIn(limit, window, calls, from, to) + 1
  {
    OneMore(limit, window, calls, at, from, to);
  }

  // n more calls at one moment of a window that still has room for them all get through.
  lemma {:induction false} BurstPasses(limit: int, window: int, first: seq<int>, row: Row, n: nat, at: int, from: int,
      to: int)
    returns (calls: seq<int>)
    requires limit >= 1 && from <= at < to
    requires RowAfter(limit, window, first) == Some(row) && HasRoom(limit, window, Some(row), n, at)
    requires Monotone(first) && forall i :: 0 <= i < |first| ==> first[i] <= at
    ensures RowAfter(limit, window, calls) == Some(Row(row.start, row.count + n, None))
    ensures AllowedIn(limit, window, calls, from, to) == AllowedIn(limit, window, first, from, to) + n
    ensures Monotone(calls) && forall i :: 0 <= i < |calls| ==> calls[i] <= at
  {
    if n == 0 {
      calls := first;
    } else {
      var before := BurstPasses(limit, window, first, row, n - 1, at, from, to);
      OnePasses(limit, window, before, at, from, to);
      calls := before + [at];
    }
  }

  // limit - 1 calls just before a window ends and limit more just after all get through.
  lemma BoundIsReached(limit: int, window: int) returns (calls: seq<int>)
    requires limit >= 1 && window >= 2
    ensures Monotone(calls) && AllowedIn(limit, window, calls, window - 1, 2 * window - 1) == 2 * limit - 1
  {
    var late, to := window - 1, 2 * window - 1;
    assert [] + [0] == [0];
    OneMore(limit, window, [], 0, late, to);
    var one := BurstPasses(limit, window, [0], Row(0, 1, None), limit - 1, late, late, to);
    OneMore(limit, window, one, window, late, to);
    calls := BurstPasses(limit, window, one + [window], Row(window, 1, None), limit - 1, window, late, to);
  }
}
