/** Domain events as the outbox stores them, and per-payment views of an event log. */
module Events {
  import opened Basics
  import opened Payments

  type EventId = string

  /** The event type, which is also the routing key the relay publishes under. */
  datatype EventType = PaymentCreated | PaymentAuthorized | PaymentCompleted | PaymentFailed | PaymentRefunded

  datatype Payload = Payload(id: PaymentId, amount: int64, currency: string, status: Status, createdAt: Time)

  datatype Event = Event(id: EventId, aggregateId: PaymentId, eventType: EventType, payload: Payload, createdAt: Time)

  function EventOf(row: Row, eventType: EventType, id: EventId, at: Time): Event {
    Event(id, row.id, eventType, Payload(row.id, row.money.amount, row.money.currency, row.status, row.createdAt), at)
  }

  /** The event type tells the truth about the status its payload carries. */
  predicate TypeFitsStatus(eventType: EventType, status: Status) {
    match eventType
    case PaymentCreated => status == Pending
    case PaymentAuthorized => status == Authorized
    case PaymentCompleted => status == Completed
    case PaymentFailed => status == Failed
    case PaymentRefunded => status == Refunded || status == PartiallyRefunded
  }

  /** The events of one payment, in log order. */
  function History(log: seq<Event>, id: PaymentId): seq<Event> {
    if log == [] then [] else
      var h := History(Front(log), id);
      if Last(log).aggregateId == id then h + [Last(log)] else h
  }

  lemma HistoryAppend(log: seq<Event>, e: Event, id: PaymentId)
    ensures History(log + [e], id) ==
            if e.aggregateId == id then History(log, id) + [e] else History(log, id)
  {
  }

  /** A longer log only extends the history of every payment. */
  lemma {:induction false} HistoryGrows(a: seq<Event>, b: seq<Event>, id: PaymentId)
    requires a <= b
    ensures History(a, id) <= History(b, id)
    decreases |b|
  {
    if a != b {
      HistoryGrows(a, Front(b), id);
      assert Front(b) + [Last(b)] == b;
      HistoryAppend(Front(b), Last(b), id);
    }
  }

  ghost predicate DistinctIds(log: seq<Event>) {
    forall i, j | 0 <= i < j < |log| :: log[i].id != log[j].id
  }

  ghost predicate FreshId(log: seq<Event>, id: EventId) {
    forall i | 0 <= i < |log| :: log[i].id != id
  }

  // ----- The lifecycle a payment's history must follow -----

  /** Created; then nothing, or failed, or, through authorized exactly when capture is
      manual, completed and any number of refunds, only the last of which may be the full
      one. Every payload carries the status its type announces. */
  ghost predicate IsLifecycle(h: seq<Event>, manual: bool) {
    var settled := if manual then 3 else 2;
    && h != [] && h[0].eventType == PaymentCreated
    && (forall i | 0 <= i < |h| :: TypeFitsStatus(h[i].eventType, h[i].payload.status))
    && (|| (|h| == 2 && h[1].eventType == PaymentFailed)
        || (&& (manual && |h| > 1 ==> h[1].eventType == PaymentAuthorized)
            && (|h| >= settled ==> h[settled - 1].eventType == PaymentCompleted)
            && (forall i | settled <= i < |h| ::
                  && h[i].eventType == PaymentRefunded
                  && (h[i].payload.status == Refunded ==> i == |h| - 1))))
  }

  /** The lifecycle is prefix closed: whoever has seen only part of a history has seen a lifecycle. */
  lemma LifecyclePrefix(h: seq<Event>, n: nat, manual: bool)
    requires IsLifecycle(h, manual) && 1 <= n <= |h|
    ensures IsLifecycle(h[..n], manual)
  {
  }
}
