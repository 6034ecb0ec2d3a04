/** The payment store, the gateway, the transaction, and the four use cases as they run. */
module UseCases {
  import opened Basics
  import opened Payments
  import opened Events
  import opened Outbox
  import opened Lifecycle
  import A = Authorisations

  /** Keeps its own copy of every payment: what callers hold is never what is stored. */
  class PaymentRepository {
    var payments: map<PaymentId, Payment>

    ghost predicate Valid()
      reads this, payments.Values
    {
      forall id | id in payments :: payments[id].id == id
    }

    ghost function Rows(): map<PaymentId, Row>
      reads this, payments.Values
    {
      map id | id in payments :: payments[id].Snapshot()
    }

    constructor ()
      ensures Valid() && Rows() == map[]
    {
      payments := map[];
    }

    method Save(p: Payment)
      requires Valid()
      modifies this
      ensures Valid() && Rows() == old(Rows())[p.id := p.Snapshot()]
      ensures p.id in payments && fresh(payments[p.id]) && payments == old(payments)[p.id := payments[p.id]]
    {
      var copy := p.Clone();
      payments := payments[p.id := copy];
    }

    method Update(p: Payment) returns (err: Option<Error>)
      requires Valid()
      modifies this
      ensures Valid()
      ensures p.id !in old(payments) ==> err == Some(NotFound) && payments == old(payments)
      ensures p.id in old(payments) ==>
                && err == None && Rows() == old(Rows())[p.id := p.Snapshot()]
                && p.id in payments && fresh(payments[p.id]) && payments == old(payments)[p.id := payments[p.id]]
    {
      if p.id !in payments {
        return Some(NotFound);
      }
      var copy := p.Clone();
      payments := payments[p.id := copy];
      return None;
    }

    method FindByID(id: PaymentId) returns (p: Payment?, err: Option<Error>)
      requires Valid()
      ensures id !in payments ==> err == Some(NotFound) && p == null
      ensures id in payments ==> err == None && p != null && fresh(p) && p.Snapshot() == Rows()[id]
    {
      if id !in payments {
        return null, Some(NotFound);
      }
      p := payments[id].Clone();
      return p, None;
    }
  }

  /** The payment provider: it answers as it likes, or not at all. It keeps the refunds it has
      confirmed, the authorisations and captures it has granted, and the payments it declined;
      asked counts the authorisations asked for, faults the times it did not answer. */
  class Gateway {
    var confirmed: seq<Entry>
    var granted: seq<A.Grant>
    var declined: seq<PaymentId>
    ghost var asked: nat
    ghost var faults: nat

    constructor ()
      ensures confirmed == [] && granted == [] && declined == [] && asked == faults == 0
    {
      confirmed, granted, declined, asked, faults := [], [], [], 0, 0;
    }

    method Authorize(p: Payment) returns (answer: Answer, err: Option<Error>)
      modifies this`granted, this`declined, this`asked, this`faults
      ensures asked == old(asked) + 1
      ensures err == None && answer == Approved ==>
                granted == old(granted) + [A.Grant(p.id, A.Authorisation)] && declined == old(declined)
      ensures err == None && answer == Declined ==> granted == old(granted) && declined == old(declined) + [p.id]
      ensures err != None ==> err == Some(Unavailable) && granted == old(granted) && declined == old(declined)
      ensures faults == old(faults) + if err == None then 0 else 1
    {
      var approves: bool, answers: bool := *, *;
      asked := asked + 1;
      answer := if approves then Approved else Declined;
      if !answers {
        faults := faults + 1;
        return answer, Some(Unavailable);
      }
      if approves {
        granted := granted + [A.Grant(p.id, A.Authorisation)];
      } else {
        declined := declined + [p.id];
      }
      err := None;
    }

    method Capture(p: Payment) returns (err: Option<Error>)
      modifies this`granted, this`faults
      ensures err == None ==> granted == old(granted) + [A.Grant(p.id, A.Captured)]
      ensures err != None ==> err == Some(Unavailable) && granted == old(granted)
      ensures faults == old(faults) + if err == None then 0 else 1
    {
      var answers: bool := *;
      if !answers {
        faults := faults + 1;
        return Some(Unavailable);
      }
      granted := granted + [A.Grant(p.id, A.Captured)];
      return None;
    }

    method Refund(p: Payment, amount: int64) returns (err: Option<Error>)
      modifies this`confirmed, this`faults
      ensures err == None ==> confirmed == old(confirmed) + [Entry(p.id, amount)]
      ensures err != None ==> err == Some(Unavailable) && confirmed == old(confirmed)
      ensures faults == old(faults) + if err == None then 0 else 1
    {
      var answers: bool := *;
      if !answers {
        faults := faults + 1;
        return Some(Unavailable);
      }
      confirmed := confirmed + [Entry(p.id, amount)];
      return None;
    }
  }

  /** How a call of a use case may end, between the states before and after it. */
  ghost predicate Answered(before: State, after: State, id: PaymentId, op: Op, answer: Answer,
                           eventId: EventId, at: Time, err: Option<Error>)
  {
    if id !in before.rows then err == Some(NotFound) && after == before
    else match Prepare(op, before.rows[id])
      case Err(e) => err == Some(e) && after == before
      case Ok(copy) =>
        || (err == Some(Unavailable) && after == before)
        || match Conclude(op, copy, answer)
           case Err(e) => err == Some(e) && after == before
           case Ok(_) =>
             || (err == None && after == Executed(before, id, op, answer, eventId, at))
             || (err == Some(Unavailable) && after == Unsettled(before, id, op))
  }

  /** What the gateway grants in a call, besides refunds. For processing the state is checked
      after the gateway was asked, for captures before. */
  ghost predicate Granted(before: seq<A.Grant>, after: seq<A.Grant>, id: PaymentId, op: Op, answer: Answer,
                          err: Option<Error>) {
    var more := A.GrantIn(op, id, answer);
    match err
    case None => after == before + more
    case Some(InvalidTransition) => after == if op.Process? then before + more else before
    case Some(Unavailable) => after == before || after == before + more
    case Some(_) => after == before
  }

  /** Whether the gateway declined the payment in a processing: it did if that is the outcome. */
  ghost predicate Declines(before: seq<PaymentId>, after: seq<PaymentId>, id: PaymentId, answer: Answer, err: Option<Error>) {
    var more := if answer == Declined then [id] else [];
    match err
    case Some(Unavailable) => after == before || after == before + more
    case Some(NotFound) => after == before
    case _ => after == before + more
  }

  /** A call that reaches its transaction ends in one of the two ways the transaction can. */
  lemma Settles(before: State, asked: State, after: State, id: PaymentId, op: Op, answer: Answer, next: Row,
                eventType: EventType, eventId: EventId, at: Time, refund: seq<Entry>, err: Option<Error>)
    requires id in before.rows && Prepare(op, before.rows[id]).Ok?
    requires Conclude(op, Prepare(op, before.rows[id]).value, answer) == Ok((next, eventType))
    requires refund == if op.Refund? then [Entry(id, RefundAmount(before.rows[id], op.requested))] else []
    requires asked == before.(confirmed := Extend(before.confirmed, refund))
    requires err == None ==>
               after == asked.(rows := asked.rows[id := next], log := asked.log + [EventOf(next, eventType, eventId, at)],
                               persisted := Extend(asked.persisted, refund))
    requires err != None ==> err == Some(Unavailable) && after == asked.(lost := Extend(asked.lost, refund))
    ensures Answered(before, after, id, op, answer, eventId, at, err)
  {
  }

  /** A call on its own is a run of the transition system, so all that holds of its runs
      holds of the code; and a call that reports an error changed neither rows nor log. */
  lemma AnsweredIsRun(before: State, after: State, id: PaymentId, op: Op, answer: Answer,
                      eventId: EventId, at: Time, err: Option<Error>) returns (steps: seq<Step>)
    requires before.calls == map[] && FreshId(before.log, eventId)
    requires id in before.rows ==> before.rows[id].id == id
    requires Answered(before, after, id, op, answer, eventId, at, err)
    ensures IsRun(OneCallPerPayment, before, steps, after)
    ensures err != None ==> after.rows == before.rows && after.log == before.log
    ensures err == None ==> id in before.rows && |after.log| == |before.log| + 1
  {
    if after == before {
      steps := [];
    } else {
      ExecuteIsRun(OneCallPerPayment, before, 0, id, op, answer, eventId, at);
      steps := if err == None then ExecuteSteps(0, id, op, answer, eventId, at) else FailedSteps(0, id, op, answer);
    }
  }

  // ----- What a call does, in terms of the row and the request alone -----

  /** A payment that is not there is not found, whatever is asked. */
  lemma UnknownIsNotFound(before: State, after: State, id: PaymentId, op: Op, answer: Answer, eventId: EventId, at: Time,
                          err: Option<Error>)
    requires Answered(before, after, id, op, answer, eventId, at, err)
    ensures err == Some(NotFound) <==> id !in before.rows
    ensures err == Some(NotFound) ==> after == before
  {
  }

  /** A refund: a payment that is not captured is refused, and so is a request for more than is
      left, both before the gateway is asked. Otherwise the gateway refunds exactly what was
      requested, or all that is left if nothing positive was, and the row and its event say so,
      unless the gateway or the transaction fails. */
  lemma RefundAnswered(before: State, after: State, id: PaymentId, requested: int64, answer: Answer, eventId: EventId,
                       at: Time, err: Option<Error>)
    requires id in before.rows && WellFormed(before.rows[id])
    requires Answered(before, after, id, Lifecycle.Refund(requested), answer, eventId, at, err)
    ensures before.rows[id].status !in {Completed, PartiallyRefunded} ==> err == Some(InvalidTransition) && after == before
    ensures var row := before.rows[id];
            row.status in {Completed, PartiallyRefunded} && requested > row.money.amount - row.refunded ==>
              err == Some(RefundExceedsAmount) && after == before
    ensures var row := before.rows[id];
            row.status in {Completed, PartiallyRefunded} && requested <= row.money.amount - row.refunded ==>
              err in {None, Some(Unavailable)}
    ensures var row := before.rows[id];
            var left := row.money.amount - row.refunded;
            var share := if requested > 0 then requested else left;
            err == Some(Unavailable) ==>
              after in {before, before.(confirmed := before.confirmed + [Entry(id, share)], lost := before.lost + [Entry(id, share)])}
    ensures var row := before.rows[id];
            var left := row.money.amount - row.refunded;
            var share := if requested > 0 then requested else left;
            var status := if share == left then Refunded else PartiallyRefunded;
            err == None ==>
              after == before.(rows := before.rows[id := row.(status := status, refunded := row.refunded + share)],
                               log := before.log + [Event(eventId, row.id, PaymentRefunded,
                                 Payload(row.id, row.money.amount, row.money.currency, status, row.createdAt), at)],
                               confirmed := before.confirmed + [Entry(id, share)],
                               persisted := before.persisted + [Entry(id, share)])
  {
    RefundExact(before.rows[id], if requested > 0 then requested else before.rows[id].money.amount - before.rows[id].refunded);
  }

  /** A processing: a payment that is not pending is refused. A pending one fails if the gateway
      declines, and otherwise is authorized or completed as its capture method says, with the
      event that says so, unless the gateway or the transaction fails. */
  lemma ProcessAnswered(before: State, after: State, id: PaymentId, answer: Answer, eventId: EventId, at: Time,
                        err: Option<Error>)
    requires id in before.rows && Answered(before, after, id, Process, answer, eventId, at, err)
    ensures before.rows[id].status != Pending ==> err in {Some(InvalidTransition), Some(Unavailable)}
    ensures before.rows[id].status == Pending ==> err in {None, Some(Unavailable)}
    ensures err != None ==> after == before
    ensures var row := before.rows[id];
            var (status, eventType) :=
              if answer == Declined then (Failed, PaymentFailed)
              else if row.captureMethod == Manual then (Authorized, PaymentAuthorized)
              else (Completed, PaymentCompleted);
            err == None ==>
              after == before.(rows := before.rows[id := row.(status := status)],
                               log := before.log + [Event(eventId, row.id, eventType,
                                 Payload(row.id, row.money.amount, row.money.currency, status, row.createdAt), at)])
  {
  }

  /** A capture: a payment that is not authorized is refused, before the gateway is asked; an
      authorized one is completed, with its event, unless the gateway or the transaction fails. */
  lemma CaptureAnswered(before: State, after: State, id: PaymentId, answer: Answer, eventId: EventId, at: Time,
                        err: Option<Error>)
    requires id in before.rows && Answered(before, after, id, Lifecycle.Capture, answer, eventId, at, err)
    ensures before.rows[id].status != Authorized ==> err == Some(InvalidTransition)
    ensures before.rows[id].status == Authorized ==> err in {None, Some(Unavailable)}
    ensures err != None ==> after == before
    ensures var row := before.rows[id];
            err == None ==>
              after == before.(rows := before.rows[id := row.(status := Completed)],
                               log := before.log + [Event(eventId, row.id, PaymentCompleted,
                                 Payload(row.id, row.money.amount, row.money.currency, Completed, row.createdAt), at)])
  {
  }

  /** A creation adds the payment as requested, with the defaults, pending, and its event. */
  lemma CreationAdds(before: State, req: Request, id: PaymentId, eventId: EventId, at: Time)
    requires NewRow(req, id, at).Ok?
    ensures var row := Row(id, Money(req.amount, req.currency), Pending,
                           if req.captureMethod == Unset then Automatic else req.captureMethod,
                           if req.installments == 0 then 1 else req.installments, 0, at);
            Created(before, NewRow(req, id, at).value, eventId, at)
            == before.(rows := before.rows[id := row],
                       log := before.log + [Event(eventId, id, PaymentCreated, Payload(id, req.amount, req.currency, Pending, at), at)])
  {
  }

  /** A processing or a capture on its own, with what the gateway granted in it, is a history of
      the grants; so every grant of the code is used or wasted as told there. */
  lemma AnsweredIsHistory(s: A.Ledgers, after: State, granted: seq<A.Grant>, id: PaymentId, op: Op, answer: Answer,
                          eventId: EventId, at: Time, err: Option<Error>) returns (moves: seq<A.Move>, t: A.Ledgers)
    requires s.life.calls == map[] && FreshId(s.life.log, eventId) && !op.Refund?
    requires id in s.life.rows ==> s.life.rows[id].id == id
    requires Answered(s.life, after, id, op, answer, eventId, at, err) && Granted(s.granted, granted, id, op, answer, err)
    ensures A.IsHistory(OneCallPerPayment, s, moves, t) && t.life == after && t.granted == granted
  {
    if after == s.life && granted == s.granted {
      moves, t := [], s;
    } else if Conclude(op, Prepare(op, s.life.rows[id]).value, answer).Err? {
      moves, t := A.LateCallIsHistory(OneCallPerPayment, s, 0, id, answer);
    } else {
      moves, t := A.CallIsHistory(OneCallPerPayment, s, 0, id, op, answer, if err == None then Commit(0, eventId, at) else Stop(0));
    }
  }

  /** A creation on its own is a run of the transition system too, or changed nothing. */
  lemma CreationIsRun(before: State, after: State, req: Request, id: PaymentId, eventId: EventId, at: Time,
                      err: Option<Error>)
    returns (steps: seq<Step>)
    requires id !in before.rows && FreshId(before.log, eventId)
    requires match NewRow(req, id, at)
             case Err(e) => err == Some(e) && after == before
             case Ok(row) => (err == None && after == Created(before, row, eventId, at)) || (err == Some(Unavailable) && after == before)
    ensures IsRun(OneCallPerPayment, before, steps, after)
    ensures err == None <==> steps == [Step.Create(req, id, eventId, at)]
    ensures err != None <==> steps == []
  {
    if err == None {
      steps := [Step.Create(req, id, eventId, at)];
      assert IsRun(OneCallPerPayment, after, steps[1..], after);
    } else {
      steps := [];
    }
  }

  /** The four use cases over one store, one outbox and one gateway; faults counts the
      transactions that failed. */
  class PaymentService {
    const repo: PaymentRepository
    const outbox: OutboxRepository
    const gateway: Gateway
    ghost var persisted: seq<Entry>
    ghost var lost: seq<Entry>
    ghost var faults: nat

    ghost predicate Valid()
      reads this, repo, repo.payments.Values
    {
      repo.Valid()
    }

    ghost function View(): State
      reads this, repo, repo.payments.Values, outbox, gateway
    {
      State(repo.Rows(), Log(outbox.events), map[], gateway.confirmed, persisted, lost)
    }

    /** How often a transaction failed or the gateway did not answer. */
    ghost function Faults(): nat
      reads this, gateway
    {
      faults + gateway.faults
    }

    constructor (repo: PaymentRepository, outbox: OutboxRepository, gateway: Gateway)
      requires repo.Valid()
      ensures this.repo == repo && this.outbox == outbox && this.gateway == gateway
      ensures Valid() && persisted == [] && lost == [] && faults == 0
    {
      this.repo, this.outbox, this.gateway := repo, outbox, gateway;
      persisted, lost, faults := [], [], 0;
    }

    /** Writes the payment and its event in one transaction; it can fail at its start, after
        either write, or at its end, and then nothing is left of it. The refund the gateway
        has confirmed for this call, if any, is thereby persisted or lost. */
    method WithinTx(create: bool, p: Payment, event: Event, ghost refund: seq<Entry>) returns (err: Option<Error>)
      requires Valid()
      modifies this`persisted, this`lost, this`faults, repo, outbox
      ensures Valid() && faults == old(faults) + if err == Some(Unavailable) then 1 else 0
      ensures err == None ==>
                && (create || p.id in old(repo.payments))
                && outbox.events == old(outbox.events) + [Stored(event, None)]
                && View() == old(View()).(rows := old(repo.Rows())[p.id := p.Snapshot()],
                                          log := old(View().log) + [event], persisted := Extend(old(persisted), refund))
      ensures err != None ==>
                && (err == Some(Unavailable) || (err == Some(NotFound) && !create && p.id !in old(repo.payments)))
                && outbox.events == old(outbox.events)
                && View() == old(View()).(lost := Extend(old(lost), refund))
    {
      err := WriteBoth(create, p, event);
      if err == Some(Unavailable) {
        faults := faults + 1;
      }
      if err == None {
        persisted := Extend(persisted, refund);
        assert Log(outbox.events) == Log(old(outbox.events)) + [event];
      } else {
        lost := Extend(lost, refund);
      }
    }

    method Write(create: bool, p: Payment) returns (err: Option<Error>)
      requires Valid()
      modifies repo
      ensures Valid()
      ensures err == (if create || p.id in old(repo.payments) then None else Some(NotFound))
      ensures err == None ==> repo.Rows() == old(repo.Rows())[p.id := p.Snapshot()]
      ensures err != None ==> repo.payments == old(repo.payments)
    {
      if create {
        repo.Save(p);
        return None;
      }
      err := repo.Update(p);
    }

    /** The writes of a transaction, either of which can fail; what was written stays to be undone. */
    method WriteInTx(create: bool, p: Payment, event: Event) returns (err: Option<Error>)
      requires Valid()
      modifies repo, outbox
      ensures err == None ==>
                && Valid() && (create || p.id in old(repo.payments))
                && repo.Rows() == old(repo.Rows())[p.id := p.Snapshot()]
                && outbox.events == old(outbox.events) + [Stored(event, None)]
      ensures err == None || err == Some(Unavailable) || (err == Some(NotFound) && !create && p.id !in old(repo.payments))
    {
      var saveFails: bool, addFails: bool := *, *;
      err := Write(create, p);
      if err != None {
        return;
      }
      if saveFails {
        return Some(Unavailable);
      }
      outbox.Add(event);
      if addFails {
        return Some(Unavailable);
      }
    }

    method WriteBoth(create: bool, p: Payment, event: Event) returns (err: Option<Error>)
      requires Valid()
      modifies repo, outbox
      ensures Valid()
      ensures err == None ==>
                && (create || p.id in old(repo.payments))
                && repo.Rows() == old(repo.Rows())[p.id := p.Snapshot()]
                && outbox.events == old(outbox.events) + [Stored(event, None)]
      ensures err != None ==>
                && (err == Some(Unavailable) || (err == Some(NotFound) && !create && p.id !in old(repo.payments)))
                && repo.Rows() == old(repo.Rows()) && outbox.events == old(outbox.events)
    {
      var payments, events := repo.payments, outbox.events;
      var beginFails: bool, commitFails: bool := *, *;
      if beginFails {
        return Some(Unavailable);
      }
      err := WriteInTx(create, p, event);
      if err == None && commitFails {
        err := Some(Unavailable);
      }
      if err != None {
        repo.payments, outbox.events := payments, events;
      }
    }

    method Create(req: Request, id: PaymentId, eventId: EventId, at: Time) returns (err: Option<Error>)
      requires Valid()
      modifies this`persisted, this`lost, this`faults, repo, outbox
      ensures Valid() && faults == old(faults) + if err == Some(Unavailable) then 1 else 0
      ensures match NewRow(req, id, at)
              case Err(e) => err == Some(e) && View() == old(View())
              case Ok(row) =>
                || (err == None && View() == Created(old(View()), row, eventId, at))
                || (err == Some(Unavailable) && View() == old(View()))
      ensures outbox.events == old(outbox.events) ||
              outbox.events == old(outbox.events) + [Stored(Last(View().log), None)]
    {
      var p, invalid := NewPayment(req, id, at);
      if p == null {
        return invalid;
      }
      err := WithinTx(true, p, BuildEvent(p, PaymentCreated, eventId, at), []);
    }

    function BuildEvent(p: Payment, eventType: EventType, eventId: EventId, at: Time): (e: Event)
      reads p
      ensures e == EventOf(p.Snapshot(), eventType, eventId, at)
    {
      Event(eventId, p.id, eventType, Payload(p.id, p.money.amount, p.money.currency, p.status, p.createdAt), at)
    }

    /** Turns the gateway's answer into a move of the payment and the type of its event. */
    method ApplyOutcome(p: Payment, answer: Answer) returns (eventType: EventType, err: Option<Error>)
      modifies p
      ensures match Conclude(Process, old(p.Snapshot()), answer)
              case Ok((next, t)) => err == None && p.Snapshot() == next && eventType == t
              case Err(e) => err == Some(e) && p.Snapshot() == old(p.Snapshot())
    {
      if answer == Approved {
        if p.captureMethod == Manual {
          err := p.MarkAuthorized();
          return PaymentAuthorized, err;
        }
        err := p.Complete();
        return PaymentCompleted, err;
      }
      err := p.Fail();
      return PaymentFailed, err;
    }

    /** Asks the gateway, and moves the payment as its answer says, if its state allows. */
    method Decide(p: Payment) returns (eventType: EventType, answer: Answer, err: Option<Error>)
      modifies p, gateway`granted, gateway`declined, gateway`asked, gateway`faults
      ensures gateway.asked == old(gateway.asked) + 1
      ensures err == None ==> Conclude(Process, old(p.Snapshot()), answer) == Ok((p.Snapshot(), eventType))
      ensures err != None && err != Some(Unavailable) ==> Conclude(Process, old(p.Snapshot()), answer) == Err(err.value)
      ensures p.id == old(p.id) && err != Some(NotFound)
      ensures Granted(old(gateway.granted), gateway.granted, p.id, Process, answer, err)
      ensures Declines(old(gateway.declined), gateway.declined, p.id, answer, err)
      ensures gateway.faults == old(gateway.faults) + if err == Some(Unavailable) then 1 else 0
    {
      var askErr;
      answer, askErr := gateway.Authorize(p);
      if askErr != None {
        return PaymentFailed, answer, askErr;
      }
      eventType, err := ApplyOutcome(p, answer);
    }

    method ProcessPayment(id: PaymentId, eventId: EventId, at: Time)
      returns (err: Option<Error>, ghost answer: Answer)
      requires Valid()
      modifies this`persisted, this`lost, this`faults, repo, outbox, gateway`granted, gateway`declined, gateway`asked, gateway`faults
      ensures Valid() && Faults() == old(Faults()) + if err == Some(Unavailable) then 1 else 0
      ensures Answered(old(View()), View(), id, Process, answer, eventId, at, err)
      ensures Granted(old(gateway.granted), gateway.granted, id, Process, answer, err)
      ensures Declines(old(gateway.declined), gateway.declined, id, answer, err)
      ensures gateway.asked == old(gateway.asked) + if err == Some(NotFound) then 0 else 1
    {
      ghost var before := View();
      answer := Approved;
      var p, findErr := repo.FindByID(id);
      if p == null {
        return findErr, answer;
      }
      assert View() == before && p.Snapshot() == before.rows[id] && p.id == id;
      var eventType, result, decideErr := Decide(p);
      answer := result;
      assert View() == before;
      if decideErr != None {
        return decideErr, answer;
      }
      ghost var next := p.Snapshot();
      err := WithinTx(false, p, BuildEvent(p, eventType, eventId, at), []);
      Settles(before, before, View(), id, Process, answer, next, eventType, eventId, at, [], err);
    }

    method CapturePayment(id: PaymentId, eventId: EventId, at: Time)
      returns (err: Option<Error>, ghost answer: Answer)
      requires Valid()
      modifies this`persisted, this`lost, this`faults, repo, outbox, gateway`granted, gateway`faults
      ensures Valid() && Faults() == old(Faults()) + if err == Some(Unavailable) then 1 else 0
      ensures Answered(old(View()), View(), id, Lifecycle.Capture, answer, eventId, at, err)
      ensures Granted(old(gateway.granted), gateway.granted, id, Lifecycle.Capture, answer, err)
    {
      ghost var before := View();
      answer := Approved;
      var p, findErr := repo.FindByID(id);
      if p == null {
        return findErr, answer;
      }
      assert View() == before;
      var moveErr := p.Capture();
      assert View() == before;
      if moveErr != None {
        return moveErr, answer;
      }
      var askErr := gateway.Capture(p);
      assert View() == before;
      if askErr != None {
        return askErr, answer;
      }
      ghost var next := p.Snapshot();
      err := WithinTx(false, p, BuildEvent(p, PaymentCompleted, eventId, at), []);
      Settles(before, before, View(), id, Lifecycle.Capture, answer, next, PaymentCompleted, eventId, at, [], err);
    }

    /** Fixes the amount to refund and takes it off the payment's balance. */
    method Deduct(p: Payment, requested: int64) returns (amount: int64, err: Option<Error>)
      modifies p
      ensures p.id == old(p.id) && amount == RefundAmount(old(p.Snapshot()), requested)
      ensures Took(Prepare(Lifecycle.Refund(requested), old(p.Snapshot())), old(p.Snapshot()), p.Snapshot(), err)
    {
      amount := requested;
      if amount <= 0 {
        amount := p.RefundableAmount();
      }
      err := p.Refund(amount);
    }

    method RefundPayment(id: PaymentId, requested: int64, eventId: EventId, at: Time)
      returns (err: Option<Error>, ghost answer: Answer)
      requires Valid()
      modifies this`persisted, this`lost, this`faults, repo, outbox, gateway`confirmed, gateway`faults
      ensures Valid() && Faults() == old(Faults()) + if err == Some(Unavailable) then 1 else 0
      ensures Answered(old(View()), View(), id, Lifecycle.Refund(requested), answer, eventId, at, err)
    {
      ghost var before := View();
      answer := Approved;
      var p, findErr := repo.FindByID(id);
      if p == null {
        return findErr, answer;
      }
      assert View() == before && p.Snapshot() == before.rows[id];
      var amount, moveErr := Deduct(p, requested);
      assert View() == before;
      ghost var next := p.Snapshot();
      if moveErr != None {
        return moveErr, answer;
      }
      var askErr := gateway.Refund(p, amount);
      if askErr != None {
        assert View() == before;
        return askErr, answer;
      }
      ghost var asked := View();
      assert asked == before.(confirmed := Extend(before.confirmed, [Entry(id, amount)]));
      err := WithinTx(false, p, BuildEvent(p, PaymentRefunded, eventId, at), [Entry(id, amount)]);
      Settles(before, asked, View(), id, Lifecycle.Refund(requested), answer, next, PaymentRefunded, eventId, at, [Entry(id, amount)], err);
    }
  }
}
