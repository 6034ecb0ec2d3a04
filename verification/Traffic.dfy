/** The message consumer with the other use cases running between its messages. */
module Traffic {
  import opened Basics
  import opened Payments
  import opened Events
  import opened Broker
  import opened Lifecycle
  import opened UseCases
  import opened Messaging

  /** The event says how the processing of the payment came out. */
  predicate SaysOutcome(e: Event, id: PaymentId, manual: bool) {
    e.aggregateId == id && e.eventType in {PaymentFailed, if manual then PaymentAuthorized else PaymentCompleted}
  }

  function Outcomes(log: seq<Event>, id: PaymentId, manual: bool): nat {
    if log == [] then 0 else Outcomes(Front(log), id, manual) + if SaysOutcome(Last(log), id, manual) then 1 else 0
  }

  lemma OutcomesAppend(log: seq<Event>, e: Event, id: PaymentId, manual: bool)
    ensures Outcomes(log + [e], id, manual) == Outcomes(log, id, manual) + if SaysOutcome(e, id, manual) then 1 else 0
  {
    assert Front(log + [e]) == log;
  }

  /** What the stores of a running service satisfy: rows are filed under their ids, only manual
      capture authorises, and events are of stored payments. */
  ghost predicate Sane(s: State) {
    && (forall id | id in s.rows :: s.rows[id].id == id && (s.rows[id].status == Authorized ==> s.rows[id].captureMethod == Manual))
    && (forall i | 0 <= i < |s.log| :: s.log[i].aggregateId in s.rows)
  }

  lemma {:induction false} NoOutcomes(log: seq<Event>, id: PaymentId, manual: bool)
    requires forall i | 0 <= i < |log| :: log[i].aggregateId != id
    ensures Outcomes(log, id, manual) == 0
  {
    if log != [] {
      NoOutcomes(Front(log), id, manual);
    }
  }

  /** The payment was yet to be processed, or yet to be created. */
  ghost predicate Unprocessed(s: State, id: PaymentId) {
    id !in s.rows || s.rows[id].status == Pending
  }

  ghost predicate HandledOne(a: State, b: State, ids: seq<PaymentId>, id: PaymentId)
    requires id in b.rows
  {
    var manual := b.rows[id].captureMethod == Manual;
    && (id in a.rows ==> a.rows[id].captureMethod == b.rows[id].captureMethod)
    && (!Unprocessed(a, id) ==> !Unprocessed(b, id))
    && (id in ids <==> Unprocessed(a, id) && !Unprocessed(b, id))
    && Outcomes(b.log, id, manual) == Outcomes(a.log, id, manual) + if id in ids then 1 else 0
  }

  /** Between the two states exactly these payments, all different, were processed, each with
      exactly one event that says so, whatever else happened. */
  ghost predicate Handled(a: State, b: State, ids: seq<PaymentId>) {
    && (forall i, j | 0 <= i < j < |ids| :: ids[i] != ids[j])
    && (forall i | 0 <= i < |ids| :: ids[i] in b.rows)
    && a.rows.Keys <= b.rows.Keys && a.log <= b.log
    && (forall id | id in b.rows :: HandledOne(a, b, ids, id))
  }

  lemma HandledOneThenOne(a: State, b: State, c: State, xs: seq<PaymentId>, ys: seq<PaymentId>, id: PaymentId)
    requires Sane(a) && Sane(b) && Handled(a, b, xs) && Handled(b, c, ys) && id in c.rows
    ensures HandledOne(a, c, xs + ys, id)
  {
    assert HandledOne(b, c, ys, id);
    if id in b.rows {
      assert HandledOne(a, b, xs, id);
    } else {
      NoOutcomes(a.log, id, c.rows[id].captureMethod == Manual);
      NoOutcomes(b.log, id, c.rows[id].captureMethod == Manual);
    }
  }

  lemma NoneHandledTwice(a: State, b: State, c: State, xs: seq<PaymentId>, ys: seq<PaymentId>, i: nat, j: nat)
    requires Handled(a, b, xs) && Handled(b, c, ys) && i < |xs| && j < |ys|
    ensures xs[i] != ys[j]
  {
    assert HandledOne(a, b, xs, xs[i]) && HandledOne(b, c, ys, ys[j]);
    assert xs[i] in xs && ys[j] in ys;
  }

  lemma HandledThenHandled(a: State, b: State, c: State, xs: seq<PaymentId>, ys: seq<PaymentId>)
    requires Sane(a) && Sane(b) && Handled(a, b, xs) && Handled(b, c, ys)
    ensures Handled(a, c, xs + ys)
  {
    forall i, j | 0 <= i < j < |xs + ys| ensures (xs + ys)[i] != (xs + ys)[j] {
      if i < |xs| <= j {
        NoneHandledTwice(a, b, c, xs, ys, i, j - |xs|);
      }
    }
    forall id | id in c.rows ensures HandledOne(a, c, xs + ys, id) {
      HandledOneThenOne(a, b, c, xs, ys, id);
    }
  }

  lemma StillWaiting(a: State, b: State, ids: seq<PaymentId>, id: PaymentId)
    requires Handled(a, b, ids)
    ensures Waiting(a, id) ==> id in ids || Waiting(b, id)
  {
    if Waiting(a, id) {
      assert HandledOne(a, b, ids, id);
    }
  }

  // ----- Single calls -----

  lemma CreationHandlesNothing(s: State, row: Row, eventId: EventId, at: Time)
    requires Sane(s) && row.id !in s.rows && row.status == Pending
    ensures Sane(Created(s, row, eventId, at)) && Handled(s, Created(s, row, eventId, at), [])
  {
    var t := Created(s, row, eventId, at);
    forall id | id in t.rows ensures HandledOne(s, t, [], id) {
      OutcomesAppend(s.log, EventOf(row, PaymentCreated, eventId, at), id, t.rows[id].captureMethod == Manual);
    }
  }

  lemma WriteIsHandled(s: State, t: State, next: Row, e: Event, ids: seq<PaymentId>)
    requires Sane(s) && next.id in s.rows && t.rows == s.rows[next.id := next] && t.log == s.log + [e]
    requires e.aggregateId == next.id && next.captureMethod == s.rows[next.id].captureMethod
    requires next.status == Authorized ==> next.captureMethod == Manual
    requires next.status != Pending
    requires ids == if SaysOutcome(e, next.id, next.captureMethod == Manual) then [next.id] else []
    requires SaysOutcome(e, next.id, next.captureMethod == Manual) <==> s.rows[next.id].status == Pending
    ensures Sane(t) && Handled(s, t, ids)
  {
    forall id | id in t.rows ensures HandledOne(s, t, ids, id) {
      OutcomesAppend(s.log, e, id, t.rows[id].captureMethod == Manual);
    }
    assert forall i | 0 <= i < |s.log| :: t.log[i] == s.log[i];
  }

  /** A capture or a refund, however it ends, processes nothing. */
  lemma OthersHandleNothing(s: State, t: State, id: PaymentId, op: Op, answer: Answer, eventId: EventId, at: Time,
                            err: Option<Error>)
    requires Sane(s) && Answered(s, t, id, op, answer, eventId, at, err) && !op.Process?
    ensures Sane(t) && Handled(s, t, [])
  {
    if err == None {
      var (next, eventType) := Conclude(op, Prepare(op, s.rows[id]).value, answer).value;
      WriteIsHandled(s, t, next, EventOf(next, eventType, eventId, at), []);
    } else {
      assert t.rows == s.rows && t.log == s.log;
    }
  }

  lemma MovedIsHandled(s: State, t: State, id: PaymentId)
    requires Sane(s) && Moved(s, t, [id])
    ensures Sane(t) && Handled(s, t, [id])
  {
    assert IsOutcome(t.log[|s.log| + 0], [id][0], t.rows[[id][0]]) && [id][0] in [id];
    var e := t.log[|s.log|];
    assert t.log == s.log + [e];
    assert t.rows == s.rows[id := t.rows[id]];
    WriteIsHandled(s, t, t.rows[id], e, [id]);
  }

  lemma NothingHandled(s: State)
    requires Sane(s)
    ensures Handled(s, s, [])
  {
  }

  // ----- The consumer among the other calls -----

  class Deployment {
    const service: PaymentService
    const consumer: PaymentConsumer

    constructor (consumer: PaymentConsumer)
      ensures this.consumer == consumer && service == consumer.service
    {
      this.consumer, service := consumer, consumer.service;
    }

    /** One creation, capture or refund, of any payment, with any outcome. */
    method OtherCall(eventId: EventId, at: Time)
      requires service.Valid() && Sane(service.View())
      modifies service`persisted, service`lost, service`faults, service.repo, service.outbox, service.gateway
      ensures service.Valid() && Sane(service.View()) && Handled(old(service.View()), service.View(), [])
      ensures service.Faults() >= old(service.Faults())
    {
      ghost var before := service.View();
      var which: int, id: PaymentId, requested: int64, req: Request := *, *, *, *;
      NothingHandled(before);
      if which == 0 {
        if id !in service.repo.payments {
          var err := service.Create(req, id, eventId, at);
          if err == None {
            NewRowExact(req, id, at);
            CreationHandlesNothing(before, NewRow(req, id, at).value, eventId, at);
          }
        }
      } else if which == 1 {
        var err, answer := service.CapturePayment(id, eventId, at);
        OthersHandleNothing(before, service.View(), id, Lifecycle.Capture, answer, eventId, at, err);
      } else {
        var err, answer := service.RefundPayment(id, requested, eventId, at);
        OthersHandleNothing(before, service.View(), id, Lifecycle.Refund(requested), answer, eventId, at, err);
      }
    }

    /** Any number of such calls, one after another. */
    method OtherCalls(eventIds: nat -> EventId, at: Time)
      requires service.Valid() && Sane(service.View())
      modifies service`persisted, service`lost, service`faults, service.repo, service.outbox, service.gateway
      ensures service.Valid() && Sane(service.View()) && Handled(old(service.View()), service.View(), [])
      ensures service.Faults() >= old(service.Faults())
    {
      ghost var before, none: seq<PaymentId> := service.View(), [];
      var calls: int := *;
      var i := 0;
      assert none + none == none;
      NothingHandled(before);
      while i < calls
        invariant 0 <= i
        invariant service.Valid() && Sane(service.View()) && Handled(before, service.View(), none)
        invariant service.Faults() >= old(service.Faults())
      {
        ghost var here := service.View();
        OtherCall(eventIds(i), at);
        HandledThenHandled(before, here, service.View(), none, none);
        i := i + 1;
      }
    }

    method HandleAfter(ghost before: State, ghost ids: seq<PaymentId>, msg: Body, eventId: EventId, at: Time,
                       stops: nat -> bool)
      returns (fate: Fate)
      requires consumer.service == service && service.Valid() && Sane(before) && Sane(service.View())
      requires Handled(before, service.View(), ids)
      modifies service`persisted, service`lost, service`faults, service.repo, service.outbox, service.gateway
      ensures service.Valid() && Sane(service.View()) && service.Faults() >= old(service.Faults())
      ensures var moved := msg.Snapshot? && fate.Acked? && consumer.maxRetries >= 0;
              && Handled(before, service.View(), if moved then ids + [msg.payload.id] else ids)
              && (msg.Snapshot? && Waiting(before, msg.payload.id) && service.Faults() == old(service.Faults()) && consumer.maxRetries >= 0 ==>
                    moved || msg.payload.id in ids)
    {
      ghost var here := service.View();
      if msg.Snapshot? {
        StillWaiting(before, here, ids, msg.payload.id);
      }
      fate := consumer.Handle(msg, eventId, at, stops);
      if msg.Snapshot? && fate.Acked? && consumer.maxRetries >= 0 {
        MovedIsHandled(here, service.View(), msg.payload.id);
        HandledThenHandled(before, here, service.View(), ids, [msg.payload.id]);
      }
    }

    /** Other calls, then one message. */
    method Turn(ghost before: State, ghost faults: nat, ghost msgs: seq<Body>, ghost fates: seq<Fate>, msg: Body,
                eventIds: nat -> EventId, at: Time, stops: nat -> bool)
      returns (fate: Fate)
      requires consumer.service == service && service.Valid() && |msgs| == |fates|
      requires Sane(before) && Sane(service.View())
      requires Handled(before, service.View(), HandledIds(consumer.maxRetries, msgs, fates))
      requires service.Faults() >= faults
      requires service.Faults() == faults && consumer.maxRetries >= 0 ==>
                 AllServed(before, msgs, HandledIds(consumer.maxRetries, msgs, fates))
      modifies service`persisted, service`lost, service`faults, service.repo, service.outbox, service.gateway
      ensures service.Valid() && Sane(service.View())
      ensures Handled(before, service.View(), HandledIds(consumer.maxRetries, msgs + [msg], fates + [fate]))
      ensures service.Faults() >= faults
      ensures service.Faults() == faults && consumer.maxRetries >= 0 ==>
                AllServed(before, msgs + [msg], HandledIds(consumer.maxRetries, msgs + [msg], fates + [fate]))
    {
      ghost var ids, first := HandledIds(consumer.maxRetries, msgs, fates), service.View();
      OtherCalls(eventIds, at);
      ghost var here := service.View();
      HandledThenHandled(before, first, here, ids, []);
      assert ids + [] == ids;
      fate := HandleAfter(before, ids, msg, eventIds(0), at, stops);
      AckedAppend(msgs, fates, msg, fate);
      if service.Faults() == faults && consumer.maxRetries >= 0 {
        AllServedMore(before, msgs, msg, ids, HandledIds(consumer.maxRetries, msgs + [msg], fates + [fate]));
      }
    }

    /** The receive loop with any number of creations, captures and refunds before each message:
        the payments of the handled messages are all different, and are exactly those that were
        pending, or not yet there, and were processed since; each has exactly one event that says
        how its processing came out. Without faults, they include every payment that was pending
        at first and is named by a message. */
    method Serve(msgs: seq<Body>, eventIds: (nat, nat) -> EventId, at: Time, stops: (nat, nat) -> bool) returns (fates: seq<Fate>)
      requires consumer.service == service && service.Valid() && Sane(service.View())
      modifies service`persisted, service`lost, service`faults, service.repo, service.outbox, service.gateway
      ensures service.Valid() && Sane(service.View()) && |fates| == |msgs|
      ensures Handled(old(service.View()), service.View(), HandledIds(consumer.maxRetries, msgs, fates))
      ensures service.Faults() == old(service.Faults()) && consumer.maxRetries >= 0 ==>
                AllServed(old(service.View()), msgs, HandledIds(consumer.maxRetries, msgs, fates))
    {
      ghost var before, faults := service.View(), service.Faults();
      fates := [];
      var i := 0;
      NothingHandled(before);
      while i < |msgs|
        invariant 0 <= i <= |msgs| && |fates| == i
        invariant service.Valid() && Sane(service.View())
        invariant Handled(before, service.View(), HandledIds(consumer.maxRetries, msgs[..i], fates))
        invariant service.Faults() >= faults
        invariant service.Faults() == faults && consumer.maxRetries >= 0 ==>
                    AllServed(before, msgs[..i], HandledIds(consumer.maxRetries, msgs[..i], fates))
      {
        var fate := Turn(before, faults, msgs[..i], fates, msgs[i], (k: nat) => eventIds(i, k), at, (n: nat) => stops(i, n));
        assert msgs[..i + 1] == msgs[..i] + [msgs[i]];
        fates := fates + [fate];
        i := i + 1;
      }
      assert msgs[..i] == msgs;
    }
  }
}
