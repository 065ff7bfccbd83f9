/** Subscription webhooks: events arrive in any order and any number of times; event ids deduplicate
    them and provider timestamps decide whose status counts. */
module Webhooks {
  import opened Prelude

  datatype ProviderStatus =
    | Authenticated | Active | Pending | Halted | Cancelled | Completed | Expired | Created
    | Unmapped(text: string)

  datatype Status = Trial | PendingActivation | ActiveStatus | PastDue | CancelledStatus

  datatype EventType = SubCharged | SubCompleted | SubCancelled | SubPending | SubHalted | OtherType

  // The fields copied from an event whenever it carries them.
  datatype Details = Details(
    customer: Option<string>, plan: Option<string>, periodStart: Option<int>, periodEnd: Option<int>,
    payment: Option<nat>)

  const NO_DETAILS := Details(None, None, None, None, None)

  // createdAt: the provider's timestamp; paid: a captured payment is attached.
  datatype Event = Event(
    id: nat, kind: EventType, status: ProviderStatus, createdAt: Option<int>, paid: bool, details: Details)

  datatype Subscription = Subscription(
    status: Status, providerStatus: Option<ProviderStatus>, providerEventAt: Option<int>, cancelAtPeriodEnd: bool,
    details: Details)

  function Newer<T>(known: Option<T>, given: Option<T>): Option<T> { if given.Some? then given else known }

  function Merge(d: Details, given: Details): Details {
    Details(Newer(d.customer, given.customer), Newer(d.plan, given.plan), Newer(d.periodStart, given.periodStart),
            Newer(d.periodEnd, given.periodEnd), Newer(d.payment, given.payment))
  }

  function StatusMap(p: ProviderStatus): Option<Status> {
    match p
    case Authenticated => Some(PendingActivation)
    case Active => Some(ActiveStatus)
    case Pending => Some(PastDue)
    case Halted => Some(PastDue)
    case Cancelled => Some(CancelledStatus)
    case Completed => Some(CancelledStatus)
    case Expired => Some(CancelledStatus)
    case Created => Some(PendingActivation)
    case Unmapped(_) => None
  }

  predicate Charges(e: Event) { (e.kind == SubCharged || e.kind == SubCompleted) && e.paid }

  predicate Applies(sub: Subscription, e: Event) {
    && StatusMap(e.status).Some?
    && (e.createdAt.None? || sub.providerEventAt.None? || e.createdAt.value >= sub.providerEventAt.value)
  }

  function Process(sub: Subscription, e: Event): Subscription {
    var s1 := if Applies(sub, e)
              then sub.(status := StatusMap(e.status).value, providerStatus := Some(e.status),
                        providerEventAt := if e.createdAt.Some? then e.createdAt else sub.providerEventAt)
              else sub;
    var s2 := if e.kind == SubCancelled then s1.(cancelAtPeriodEnd := true) else s1;
    var s3 := s2.(details := Merge(s2.details, e.details));
    if Charges(e) then s3.(status := ActiveStatus) else s3
  }

  // One subscription and the ids of the events recorded so far.
  datatype State = State(sub: Subscription, seen: set<nat>)

  function Deliver(s: State, e: Event): State {
    if e.id in s.seen then s else State(Process(s.sub, e), s.seen + {e.id})
  }

  class WebhookEndpoint {
    var status: Status
    var providerStatus: Option<ProviderStatus>
    var providerEventAt: Option<int>
    var cancelAtPeriodEnd: bool
    var customer: Option<string>
    var plan: Option<string>
    var periodStart: Option<int>
    var periodEnd: Option<int>
    var lastPayment: Option<nat>
    var seen: set<nat>

    function Now(): State
      reads this
    {
      State(Subscription(status, providerStatus, providerEventAt, cancelAtPeriodEnd,
                         Details(customer, plan, periodStart, periodEnd, lastPayment)), seen)
    }

    constructor (sub: Subscription)
      ensures Now() == State(sub, {})
    {
      status, providerStatus, providerEventAt := sub.status, sub.providerStatus, sub.providerEventAt;
      cancelAtPeriodEnd := sub.cancelAtPeriodEnd;
      customer, plan := sub.details.customer, sub.details.plan;
      periodStart, periodEnd, lastPayment := sub.details.periodStart, sub.details.periodEnd, sub.details.payment;
      seen := {};
    }

    // Every field the event carries, whatever its timestamp.
    method CopyDetails(d: Details)
      modifies `customer, `plan, `periodStart, `periodEnd, `lastPayment
      ensures Now() == old(Now()).(sub := old(Now()).sub.(details := Merge(old(Now()).sub.details, d)))
    {
      if d.customer.Some? { customer := d.customer; }
      if d.plan.Some? { plan := d.plan; }
      if d.periodStart.Some? { periodStart := d.periodStart; }
      if d.periodEnd.Some? { periodEnd := d.periodEnd; }
      if d.payment.Some? { lastPayment := d.payment; }
    }

    method Receive(e: Event) returns (duplicate: bool)
      modifies this
      ensures duplicate <==> e.id in old(seen)
      ensures Now() == Deliver(old(Now()), e)
    {
      if e.id in seen { return true; }
      var mapped := StatusMap(e.status);
      if mapped.Some? && (e.createdAt.None? || providerEventAt.None? || e.createdAt.value >= providerEventAt.value) {
        status := mapped.value;
        providerStatus := Some(e.status);
        if e.createdAt.Some? { providerEventAt := e.createdAt; }
      }
      CopyDetails(e.details);
      if e.kind == SubCancelled { cancelAtPeriodEnd := true; }
      if (e.kind == SubCharged || e.kind == SubCompleted) && e.paid { status := ActiveStatus; }
      seen := seen + {e.id};
      return false;
    }
  }

  // ---------- delivery sequences ----------

  function After(start: Subscription, deliveries: seq<Event>): State {
    if deliveries == [] then State(start, {})
    else Deliver(After(start, deliveries[..|deliveries| - 1]), deliveries[|deliveries| - 1])
  }

  ghost predicate OneEventPerId(events: set<Event>) {
    forall a, b :: a in events && b in events && a.id == b.id ==> a == b
  }

  // A set of events in scope of the promise: each id names one event, statuses are mapped,
  // timestamps are present and distinct.
  ghost predicate Orderly(events: set<Event>) {
    && OneEventPerId(events)
    && (forall e :: e in events ==> StatusMap(e.status).Some? && e.createdAt.Some?)
    && (forall a, b :: a in events && b in events && a != b ==> a.createdAt != b.createdAt)
  }

  function Events(deliveries: seq<Event>): set<Event> { set e <- deliveries :: e }

  lemma EventsAppend(deliveries: seq<Event>, e: Event)
    ensures Events(deliveries + [e]) == Events(deliveries) + {e}
  {
    forall x ensures x in Events(deliveries + [e]) <==> x in Events(deliveries) + {e} {
      assert x in deliveries + [e] <==> x in deliveries || x == e;
    }
  }

  ghost predicate IsNewest(events: set<Event>, e: Event) {
    && e in events && e.createdAt.Some?
    && forall x :: x in events ==> x.createdAt.Some? && x.createdAt.value <= e.createdAt.value
  }

  // The subscription knows nothing newer than this event.
  predicate Behind(sub: Subscription, e: Event) {
    sub.providerEventAt.None? || (e.createdAt.Some? && sub.providerEventAt.value <= e.createdAt.value)
  }

  // The timestamp kept by the subscription never goes back, whatever is delivered.
  lemma {:induction false} TimestampNeverDecreases(start: Subscription, deliveries: seq<Event>, k: nat)
    requires k <= |deliveries|
    ensures var earlier, later := After(start, deliveries[..k]).sub.providerEventAt,
        After(start, deliveries).sub.providerEventAt;
      earlier.Some? ==> later.Some? && earlier.value <= later.value
  {
    if k == |deliveries| {
      assert deliveries[..k] == deliveries;
    } else {
      var before := deliveries[..|deliveries| - 1];
      assert before[..k] == deliveries[..k];
      TimestampNeverDecreases(start, before, k);
    }
  }

  // The subscription follows the newest delivered event, unless it already knew something newer.
  predicate Follows(start: Subscription, sub: Subscription, newest: Event) {
    if Behind(start, newest) then sub.providerStatus == Some(newest.status) && sub.providerEventAt == newest.createdAt
    else sub.providerStatus == start.providerStatus && sub.providerEventAt == start.providerEventAt
  }

  // What is known after any deliveries of an orderly set: exactly the delivered ids, and the status
  // and timestamp of the newest delivered event.
  ghost predicate Tracks(start: Subscription, s: State, delivered: set<Event>) {
    && s.seen == (set e <- delivered :: e.id)
    && (delivered == {} ==> s.sub == start)
    && (delivered != {} ==> exists e :: IsNewest(delivered, e) && Follows(start, s.sub, e))
  }

  lemma DeliverTracks(start: Subscription, s: State, delivered: set<Event>, e: Event)
    requires Orderly(delivered + {e}) && Tracks(start, s, delivered)
    ensures Tracks(start, Deliver(s, e), delivered + {e})
  {
    var all := delivered + {e};
    if e.id in s.seen {
      var x :| x in delivered && x.id == e.id;
      assert x in all && e in all;
      assert x == e;
      assert all == delivered;
    } else if delivered == {} {
      assert IsNewest(all, e);
    } else {
      var n :| IsNewest(delivered, n) && Follows(start, s.sub, n);
      NewerFollows(start, s, delivered, n, e);
    }
  }

  lemma NewerFollows(start: Subscription, s: State, delivered: set<Event>, n: Event, e: Event)
    requires Orderly(delivered + {e}) && IsNewest(delivered, n) && Follows(start, s.sub, n)
    requires e.id !in s.seen && e !in delivered
    ensures exists x :: IsNewest(delivered + {e}, x) && Follows(start, Deliver(s, e).sub, x)
  {
    var all := delivered + {e};
    assert e in all && n in all;
    if n.createdAt.value <= e.createdAt.value {
      assert IsNewest(all, e) && Follows(start, Deliver(s, e).sub, e);
    } else {
      assert IsNewest(all, n) && Follows(start, Deliver(s, e).sub, n);
    }
  }

  lemma {:induction false} DeliveriesTrack(start: Subscription, deliveries: seq<Event>)
    requires Orderly(Events(deliveries))
    ensures Tracks(start, After(start, deliveries), Events(deliveries))
  {
    if deliveries != [] {
      var before, e := deliveries[..|deliveries| - 1], deliveries[|deliveries| - 1];
      assert deliveries == before + [e];
      EventsAppend(before, e);
      DeliveriesTrack(start, before);
      DeliverTracks(start, After(start, before), Events(before), e);
    }
  }

  // Any two delivery sequences of the same events, in any order and with any repetitions, end with
  // the same provider status and timestamp: those of the newest event, unless the subscription
  // already knew something newer.
  lemma ProviderStatusConverges(start: Subscription, a: seq<Event>, b: seq<Event>, newest: Event)
    requires Orderly(Events(a)) && Events(a) == Events(b) && IsNewest(Events(a), newest)
    ensures Follows(start, After(start, a).sub, newest) && Follows(start, After(start, b).sub, newest)
    ensures After(start, a).sub.providerStatus == After(start, b).sub.providerStatus
    ensures After(start, a).seen == After(start, b).seen
  {
    DeliveriesTrack(start, a);
    DeliveriesTrack(start, b);
    OneNewest(Events(a), newest);
  }

  lemma OneNewest(events: set<Event>, e: Event)
    requires Orderly(events) && IsNewest(events, e)
    ensures forall x :: IsNewest(events, x) ==> x == e
  {
    forall x | IsNewest(events, x) ensures x == e {
      assert x.createdAt == e.createdAt;
    }
  }

  // ---------- the billing status: which sets of events converge ----------

  ghost predicate Delivers(deliveries: seq<Event>, events: set<Event>) { Events(deliveries) == events }

  ghost predicate StatusConverges(start: Subscription, events: set<Event>) {
    forall a, b :: Delivers(a, events) && Delivers(b, events) ==>
        After(start, a).sub.status == After(start, b).sub.status
  }

  // The status under every order: ACTIVE once something charges, or else what the newest event says
  // or, if the subscription already knew something newer, what it was.
  function Agreed(start: Subscription, newest: Event, charged: bool): Status {
    if charged then ActiveStatus
    else if Behind(start, newest) && StatusMap(newest.status).Some? then StatusMap(newest.status).value
    else start.status
  }

  // A captured payment of a charged or completed subscription.
  predicate Captures(e: Event) { e.paid && (e.kind == SubCharged || e.kind == SubCompleted) }

  lemma ChargesExactly(e: Event)
    ensures Charges(e) <==> Captures(e)
  {
  }

  ghost predicate Charged(events: set<Event>) { exists e :: e in events && Captures(e) }

  // Nothing newer than n has been delivered, and nothing as new but n itself. Once n is in, only a
  // charge moves the status; before that the subscription stays behind n.
  ghost predicate Bounded(start: Subscription, s: State, delivered: set<Event>, n: Event) {
    && s.seen == (set e <- delivered :: e.id)
    && if !Behind(start, n) then
         s.sub.providerEventAt == start.providerEventAt && s.sub.status == Agreed(start, n, Charged(delivered))
       else if n in delivered then
         && s.sub.providerEventAt == n.createdAt
         && (s.sub.status == ActiveStatus || (!Charges(n) && Some(s.sub.status) == StatusMap(n.status)))
         && (!Charged(delivered) ==> Some(s.sub.status) == StatusMap(n.status))
       else Behind(s.sub, n)
  }

  lemma BoundedStep(start: Subscription, s: State, delivered: set<Event>, n: Event, e: Event)
    requires Orderly(delivered + {e, n}) && IsNewest(delivered + {e, n}, n) && Bounded(start, s, delivered, n)
    ensures Bounded(start, Deliver(s, e), delivered + {e}, n)
  {
    var all := delivered + {e, n};
    assert e in all && n in all;
    if e.id in s.seen {
      var x :| x in delivered && x.id == e.id;
      assert x in all;
      assert delivered + {e} == delivered;
    } else {
      ChargedMore(delivered, e);
      assert e != n ==> e.createdAt.value < n.createdAt.value;
    }
  }

  lemma ChargedMore(delivered: set<Event>, e: Event)
    ensures Charged(delivered + {e}) <==> Charged(delivered) || Charges(e)
  {
    if Charges(e) { assert e in delivered + {e}; }
    if x :| x in delivered && Charges(x) { assert x in delivered + {e}; }
  }

  lemma {:induction false} DeliveriesBounded(start: Subscription, deliveries: seq<Event>, n: Event)
    requires Orderly(Events(deliveries) + {n}) && IsNewest(Events(deliveries) + {n}, n)
    ensures Bounded(start, After(start, deliveries), Events(deliveries), n)
  {
    if deliveries != [] {
      var before, e := deliveries[..|deliveries| - 1], deliveries[|deliveries| - 1];
      assert deliveries == before + [e];
      EventsAppend(before, e);
      assert Events(before) + {e, n} == Events(deliveries) + {n};
      assert Events(before) + {n} <= Events(deliveries) + {n};
      DeliveriesBounded(start, before, n);
      BoundedStep(start, After(start, before), Events(before), n, e);
    }
  }

  lemma {:induction false} Enumeration(events: set<Event>) returns (list: seq<Event>)
    ensures Delivers(list, events)
    decreases events
  {
    if events == {} {
      list := [];
    } else {
      var e :| e in events;
      var rest := Enumeration(events - {e});
      EventsAppend(rest, e);
      list := rest + [e];
    }
  }

  // All other events first, then e.
  lemma WithLast(start: Subscription, events: set<Event>, e: Event) returns (list: seq<Event>, before: State)
    requires OneEventPerId(events) && e in events
    ensures Delivers(list, events) && After(start, list) == Deliver(before, e) && e.id !in before.seen
    ensures exists rest :: Delivers(rest, events - {e}) && before == After(start, rest)
  {
    var rest := Enumeration(events - {e});
    EventsAppend(rest, e);
    OneMore(start, rest, e);
    SeenAre(start, rest);
    list, before := rest + [e], After(start, rest);
  }

  lemma {:induction false} SeenAre(start: Subscription, deliveries: seq<Event>)
    ensures After(start, deliveries).seen == (set e <- Events(deliveries) :: e.id)
  {
    if deliveries != [] {
      var before, e := deliveries[..|deliveries| - 1], deliveries[|deliveries| - 1];
      assert deliveries == before + [e];
      EventsAppend(before, e);
      SeenAre(start, before);
    }
  }

  // Delivered last, the newest event decides the status, and so does a charge.
  lemma NewestLast(start: Subscription, events: set<Event>, n: Event) returns (list: seq<Event>)
    requires Orderly(events) && IsNewest(events, n) && Behind(start, n) && !Charges(n)
    ensures Delivers(list, events) && Some(After(start, list).sub.status) == StatusMap(n.status)
  {
    var before;
    list, before := WithLast(start, events, n);
    var rest :| Delivers(rest, events - {n}) && before == After(start, rest);
    assert Events(rest) + {n} == events;
    DeliveriesBounded(start, rest, n);
  }

  lemma ChargeLast(start: Subscription, events: set<Event>, c: Event) returns (list: seq<Event>)
    requires Orderly(events) && c in events && Charges(c)
    ensures Delivers(list, events) && After(start, list).sub.status == ActiveStatus
  {
    var before;
    list, before := WithLast(start, events, c);
  }

  predicate ActiveAnyway(n: Event) { Captures(n) || StatusMap(n.status) == Some(ActiveStatus) }

  // Exactly when every delivery of a set of events ends with the same billing status: the
  // subscription already knew something newer, or nothing charges, or the newest event makes it
  // ACTIVE anyway.
  lemma StatusConvergesExactly(start: Subscription, events: set<Event>, newest: Event)
    requires Orderly(events) && IsNewest(events, newest)
    ensures StatusConverges(start, events) <==> !Behind(start, newest) || !Charged(events) || ActiveAnyway(newest)
  {
    if !Behind(start, newest) || !Charged(events) || ActiveAnyway(newest) {
      forall a, b | Delivers(a, events) && Delivers(b, events)
        ensures After(start, a).sub.status == After(start, b).sub.status
      {
        AgreedStatus(start, events, newest, a);
        AgreedStatus(start, events, newest, b);
      }
    } else {
      var c :| c in events && Captures(c);
      ChargesExactly(c);
      ChargesExactly(newest);
      var a := NewestLast(start, events, newest);
      var b := ChargeLast(start, events, c);
    }
  }

  // And then it is this one.
  lemma AgreedStatus(start: Subscription, events: set<Event>, newest: Event, deliveries: seq<Event>)
    requires Orderly(events) && IsNewest(events, newest) && Delivers(deliveries, events)
    requires !Behind(start, newest) || !Charged(events) || ActiveAnyway(newest)
    ensures After(start, deliveries).sub.status == Agreed(start, newest, Charged(events))
  {
    assert events + {newest} == events;
    DeliveriesBounded(start, deliveries, newest);
  }

  // ---------- the fields no ordering guards ----------

  // A field that each event either carries or leaves alone.
  ghost predicate Fieldwise<T(!new)>(field: Details -> Option<T>) {
    forall d, given :: field(Merge(d, given)) == if field(given).Some? then field(given) else field(d)
  }

  ghost predicate FieldConverges<T>(field: Details -> Option<T>, start: Subscription, events: set<Event>) {
    forall a, b :: Delivers(a, events) && Delivers(b, events) ==>
      field(After(start, a).sub.details) == field(After(start, b).sub.details)
  }

  ghost predicate OneValue<T>(field: Details -> Option<T>, events: set<Event>) {
    forall x, y :: x in events && y in events && field(x.details).Some? && field(y.details).Some? ==>
      field(x.details) == field(y.details)
  }

  ghost predicate Carried<T>(field: Details -> Option<T>, events: set<Event>) {
    exists e :: e in events && field(e.details).Some?
  }

  ghost predicate SaidByOne<T>(field: Details -> Option<T>, events: set<Event>, value: Option<T>) {
    exists e :: e in events && field(e.details).Some? && value == field(e.details)
  }

  // A field holds what some delivered event said, or what it held if none said anything.
  lemma {:induction false} FieldIsDelivered<T(!new)>(field: Details -> Option<T>, start: Subscription,
      deliveries: seq<Event>)
    requires Fieldwise(field) && OneEventPerId(Events(deliveries))
    ensures var value := field(After(start, deliveries).sub.details);
      if Carried(field, Events(deliveries)) then SaidByOne(field, Events(deliveries), value)
      else value == field(start.details)
  {
    if deliveries != [] {
      var before, e := deliveries[..|deliveries| - 1], deliveries[|deliveries| - 1];
      assert deliveries == before + [e];
      EventsAppend(before, e);
      assert Events(before) <= Events(deliveries) && e in Events(deliveries);
      FieldIsDelivered(field, start, before);
      SeenAre(start, before);
      DetailsStep(After(start, before), e);
      if e.id in After(start, before).seen {
        var x :| x in Events(before) && x.id == e.id;
        assert x == e;
      }
    }
  }

  lemma DetailsStep(s: State, e: Event)
    ensures Deliver(s, e).sub.details == if e.id in s.seen then s.sub.details else Merge(s.sub.details, e.details)
  {
  }

  // Such a field is whatever the last processed delivery said, new or old: it converges exactly when
  // all events that carry it say the same.
  lemma FieldConvergesExactly<T(!new)>(field: Details -> Option<T>, start: Subscription, events: set<Event>)
    requires Fieldwise(field) && OneEventPerId(events)
    ensures FieldConverges(field, start, events) <==> OneValue(field, events)
  {
    if OneValue(field, events) {
      forall a, b | Delivers(a, events) && Delivers(b, events)
        ensures field(After(start, a).sub.details) == field(After(start, b).sub.details)
      {
        FieldIsDelivered(field, start, a);
        FieldIsDelivered(field, start, b);
      }
    } else {
      var x, y :| x in events && y in events && field(x.details).Some? && field(y.details).Some?
                  && field(x.details) != field(y.details);
      var a, s := WithLast(start, events, x);
      var b, t := WithLast(start, events, y);
      DetailsStep(s, x);
      DetailsStep(t, y);
    }
  }

  // The five fields are such fields.
  lemma FiveFields()
    ensures Fieldwise((d: Details) => d.customer) && Fieldwise((d: Details) => d.plan)
    ensures Fieldwise((d: Details) => d.periodStart) && Fieldwise((d: Details) => d.periodEnd)
    ensures Fieldwise((d: Details) => d.payment)
  {
  }

  // The end of the period, for one: it converges exactly when all events that carry one carry the same.
  lemma PeriodEndConvergesExactly(start: Subscription, events: set<Event>)
    requires OneEventPerId(events)
    ensures FieldConverges((d: Details) => d.periodEnd, start, events) <==>
        OneValue((d: Details) => d.periodEnd, events)
  {
    FiveFields();
    FieldConvergesExactly((d: Details) => d.periodEnd, start, events);
  }

  // ---------- the status map and the cancel flag ----------

  // Which provider statuses lead to each billing status; the rest lead nowhere.
  lemma StatusMapExactly(p: ProviderStatus)
    ensures StatusMap(p) == Some(ActiveStatus) <==> p == Active
    ensures StatusMap(p) == Some(PastDue) <==> p == Pending || p == Halted
    ensures StatusMap(p) == Some(CancelledStatus) <==> p == Cancelled || p == Completed || p == Expired
    ensures StatusMap(p) == Some(PendingActivation) <==> p == Authenticated || p == Created
    ensures StatusMap(p).None? <==> p.Unmapped?
    ensures StatusMap(p) != Some(Trial)
  {
  }

  // The subscription is set to end with its period if and only if it was, or a cancellation has been
  // delivered: in whatever order, and for good.
  lemma {:induction false} CancelsExactly(start: Subscription, deliveries: seq<Event>)
    requires OneEventPerId(Events(deliveries))
    ensures After(start, deliveries).sub.cancelAtPeriodEnd <==>
            start.cancelAtPeriodEnd || exists e :: e in Events(deliveries) && e.kind == SubCancelled
  {
    if deliveries != [] {
      var before, e := deliveries[..|deliveries| - 1], deliveries[|deliveries| - 1];
      assert deliveries == before + [e];
      EventsAppend(before, e);
      assert Events(before) <= Events(deliveries) && e in Events(deliveries);
      CancelsExactly(start, before);
      SeenAre(start, before);
      if e.id in After(start, before).seen {
        var x :| x in Events(before) && x.id == e.id;
        assert x == e;
      }
    }
  }

  // ---------- one run ----------

  // The delivery that last set the status.
  function LastWord(start: Subscription, deliveries: seq<Event>): Option<Event> {
    if deliveries == [] then None
    else
      var before, e := deliveries[..|deliveries| - 1], deliveries[|deliveries| - 1];
      var s := After(start, before);
      if e.id !in s.seen && (Applies(s.sub, e) || Charges(e)) then Some(e) else LastWord(start, before)
  }

  // In any run, orderly or not, the status agrees with the provider's status exactly when that maps
  // to ACTIVE or the delivery that last set the status was not a charge.
  lemma {:induction false} StatusFollowsProvider(start: Subscription, deliveries: seq<Event>)
    requires LastWord(start, deliveries).Some? && After(start, deliveries).sub.providerStatus.Some?
    ensures var sub := After(start, deliveries).sub;
      var mapped := StatusMap(sub.providerStatus.value);
      Some(sub.status) == mapped <==> mapped == Some(ActiveStatus) || !Charges(LastWord(start, deliveries).value)
  {
    var before, e := deliveries[..|deliveries| - 1], deliveries[|deliveries| - 1];
    var s := After(start, before);
    if e.id in s.seen || !(Applies(s.sub, e) || Charges(e)) { StatusFollowsProvider(start, before); }
  }

  // ---------- the smallest divergence ----------

  // Two orders of the same two events that leave different billing statuses.
  lemma StatusDiverges(start: Subscription) returns (a: seq<Event>, b: seq<Event>)
    requires start.providerEventAt.None?
    ensures Orderly(Events(a)) && Events(a) == Events(b)
    ensures After(start, a).sub.providerStatus == After(start, b).sub.providerStatus == Some(Cancelled)
    ensures After(start, a).sub.status == CancelledStatus && After(start, b).sub.status == ActiveStatus
  {
    var charge := Event(1, SubCharged, Active, Some(1), true, NO_DETAILS);
    var cancel := Event(2, SubCancelled, Cancelled, Some(2), false, NO_DETAILS);
    a, b := [charge, cancel], [cancel, charge];
    TwoDeliveries(start, charge, cancel);
    TwoDeliveries(start, cancel, charge);
  }

  lemma OneMore(start: Subscription, deliveries: seq<Event>, e: Event)
    ensures After(start, deliveries + [e]) == Deliver(After(start, deliveries), e)
  {
    assert (deliveries + [e])[..|deliveries|] == deliveries;
  }

  lemma TwoDeliveries(start: Subscription, x: Event, y: Event)
    ensures After(start, [x, y]) == Deliver(Deliver(State(start, {}), x), y)
    ensures Events([x, y]) == {x, y}
  {
    assert [] + [x] == [x] && [x] + [y] == [x, y];
    OneMore(start, [], x);
    OneMore(start, [x], y);
    assert Events([]) == {};
    EventsAppend([], x);
    EventsAppend([x], y);
  }
}
