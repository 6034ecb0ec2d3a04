/** Message handling: retries around a handler, then acknowledgement or the dead-letter queue. */
module Messaging {
  import opened Basics
  import opened Payments
  import opened Events
  import opened Broker
  import opened Lifecycle
  import opened UseCases
  import A = Authorisations
  import Audit

  datatype Fate = Acked | DeadLettered

  /** The payments of the acknowledged messages, in order. */
  function AckedIds(msgs: seq<Body>, fates: seq<Fate>): seq<PaymentId>
    requires |msgs| == |fates|
  {
    if msgs == [] then []
    else
      AckedIds(Front(msgs), Front(fates))
      + if Last(fates).Acked? && Last(msgs).Snapshot? then [Last(msgs).payload.id] else []
  }

  /** The payments whose messages were acknowledged because they were handled. */
  function HandledIds(maxRetries: int, msgs: seq<Body>, fates: seq<Fate>): seq<PaymentId>
    requires |msgs| == |fates|
  {
    if maxRetries < 0 then [] else AckedIds(msgs, fates)
  }

  lemma AckedAppend(msgs: seq<Body>, fates: seq<Fate>, msg: Body, fate: Fate)
    requires |msgs| == |fates|
    ensures AckedIds(msgs + [msg], fates + [fate]) ==
            AckedIds(msgs, fates) + if fate.Acked? && msg.Snapshot? then [msg.payload.id] else []
  {
  }

  /** The event that announces how the processing of a payment came out. */
  predicate IsOutcome(e: Event, id: PaymentId, row: Row) {
    && e.eventType in {PaymentFailed, if row.captureMethod == Manual then PaymentAuthorized else PaymentCompleted}
    && e.aggregateId == id && e.payload.status == row.status && TypeFitsStatus(e.eventType, row.status)
  }

  /** Handling moved exactly these payments out of pending, each once and each announced by one
      outcome event in that order, and touched nothing else. */
  ghost predicate Moved(before: State, after: State, moved: seq<PaymentId>) {
    && (forall i, j | 0 <= i < j < |moved| :: moved[i] != moved[j])
    && before.rows.Keys == after.rows.Keys
    && (forall id | id in before.rows ::
          if id in moved then
            before.rows[id].status == Pending && after.rows[id].status != Pending && SameTerms(before.rows[id], after.rows[id])
          else after.rows[id] == before.rows[id])
    && (forall i | 0 <= i < |moved| :: moved[i] in before.rows)
    && |after.log| == |before.log| + |moved| && before.log <= after.log
    && (forall i | 0 <= i < |moved| ::
          IsOutcome(after.log[|before.log| + i], moved[i], after.rows[moved[i]]))
    && after.calls == before.calls && after.confirmed == before.confirmed
    && after.persisted == before.persisted && after.lost == before.lost
  }

  /** A processing that committed moved its payment, which was pending. */
  lemma ProcessedIsMoved(before: State, id: PaymentId, answer: Answer, eventId: EventId, at: Time)
    requires id in before.rows && before.rows[id].id == id
    requires Conclude(Process, before.rows[id], answer).Ok?
    ensures Moved(before, Executed(before, id, Process, answer, eventId, at), [id])
  {
  }

  lemma MovedThenMoved(a: State, b: State, c: State, first: seq<PaymentId>, second: seq<PaymentId>)
    requires Moved(a, b, first) && Moved(b, c, second)
    ensures Moved(a, c, first + second)
  {
    var moved := first + second;
    forall i, j | 0 <= i < j < |moved| ensures moved[i] != moved[j] {
      if i < |first| <= j {
        assert moved[i] in first && moved[j] in second;
        assert b.rows[moved[i]].status != Pending;
      }
    }
    forall i | 0 <= i < |moved| ensures IsOutcome(c.log[|a.log| + i], moved[i], c.rows[moved[i]]) {
      if i < |first| {
        assert c.log[|a.log| + i] == b.log[|a.log| + i];
        assert IsOutcome(b.log[|a.log| + i], first[i], b.rows[first[i]]) && first[i] in first;
        assert c.rows[first[i]] == b.rows[first[i]];
      } else {
        assert IsOutcome(c.log[|b.log| + (i - |first|)], second[i - |first|], c.rows[second[i - |first|]]);
      }
    }
  }

  ghost predicate Waiting(s: State, id: PaymentId) {
    id in s.rows && s.rows[id].status == Pending
  }

  /** Every payment that was pending and is named by a message is among these. */
  ghost predicate AllServed(before: State, msgs: seq<Body>, ids: seq<PaymentId>) {
    forall i | 0 <= i < |msgs| && msgs[i].Snapshot? && Waiting(before, msgs[i].payload.id) :: msgs[i].payload.id in ids
  }

  lemma AllServedMore(before: State, msgs: seq<Body>, msg: Body, ids: seq<PaymentId>, more: seq<PaymentId>)
    requires AllServed(before, msgs, ids) && ids <= more
    requires msg.Snapshot? && Waiting(before, msg.payload.id) ==> msg.payload.id in more
    ensures AllServed(before, msgs + [msg], more)
  {
    forall i | 0 <= i < |msgs + [msg]| && (msgs + [msg])[i].Snapshot? && Waiting(before, (msgs + [msg])[i].payload.id)
      ensures (msgs + [msg])[i].payload.id in more
    {
      if i < |msgs| {
        var k :| 0 <= k < |ids| && ids[k] == msgs[i].payload.id;
        assert more[k] == ids[k];
      }
    }
  }

  // ----- What handling costs at the gateway -----

  /** At most n more authorisations were granted, all for the payment. */
  ghost predicate GrantsUpTo(before: seq<A.Grant>, after: seq<A.Grant>, id: PaymentId, n: nat) {
    && before <= after && |after| <= |before| + n
    && forall i | |before| <= i < |after| :: after[i] == A.Grant(id, A.Authorisation)
  }

  lemma OneMoreAttempt(first: seq<A.Grant>, before: seq<A.Grant>, after: seq<A.Grant>, id: PaymentId, n: nat,
                       answer: Answer, err: Option<Error>)
    requires GrantsUpTo(first, before, id, n) && Granted(before, after, id, Process, answer, err)
    ensures GrantsUpTo(first, after, id, n + 1)
  {
  }

  predicate Names(msgs: seq<Body>, id: PaymentId) {
    exists i | 0 <= i < |msgs| :: msgs[i].Snapshot? && msgs[i].payload.id == id
  }

  /** At most n more authorisations were granted for each message, all for payments they name. */
  ghost predicate GrantsFor(before: seq<A.Grant>, after: seq<A.Grant>, msgs: seq<Body>, n: nat) {
    && before <= after && |after| <= |before| + |msgs| * n
    && forall i | |before| <= i < |after| :: after[i].kind == A.Authorisation && Names(msgs, after[i].id)
  }

  lemma NamesMore(msgs: seq<Body>, msg: Body, id: PaymentId)
    ensures Names(msgs, id) ==> Names(msgs + [msg], id)
    ensures msg.Snapshot? && msg.payload.id == id ==> Names(msgs + [msg], id)
  {
    if Names(msgs, id) {
      var i :| 0 <= i < |msgs| && msgs[i].Snapshot? && msgs[i].payload.id == id;
      assert (msgs + [msg])[i] == msgs[i];
    }
    assert (msgs + [msg])[|msgs|] == msg;
  }

  lemma OneMoreMessage(first: seq<A.Grant>, before: seq<A.Grant>, after: seq<A.Grant>, msgs: seq<Body>, msg: Body, n: nat)
    requires GrantsFor(first, before, msgs, n)
    requires after == before || (msg.Snapshot? && GrantsUpTo(before, after, msg.payload.id, n))
    ensures GrantsFor(first, after, msgs + [msg], n)
  {
    assert (|msgs| + 1) * n == |msgs| * n + n;
    forall i | |first| <= i < |after| ensures after[i].kind == A.Authorisation && Names(msgs + [msg], after[i].id) {
      NamesMore(msgs, msg, after[i].id);
      assert i < |before| ==> after[i] == before[i];
    }
  }

  /** How often a message is tried at most. */
  function Attempts(maxRetries: int): nat {
    if maxRetries < 0 then 0 else maxRetries + 1
  }

  class PaymentConsumer {
    const service: PaymentService
    const maxRetries: int

    constructor (service: PaymentService, maxRetries: int)
      ensures this.service == service && this.maxRetries == maxRetries
    {
      this.service, this.maxRetries := service, maxRetries;
    }

    method Attempt(ghost first: seq<A.Grant>, ghost n: nat, id: PaymentId, eventId: EventId, at: Time)
      returns (err: Option<Error>)
      requires service.Valid() && GrantsUpTo(first, service.gateway.granted, id, n)
      modifies service`persisted, service`lost, service`faults, service.repo, service.outbox, service.gateway
      ensures service.Valid() && GrantsUpTo(first, service.gateway.granted, id, n + 1)
      ensures err == None ==> Moved(old(service.View()), service.View(), [id])
      ensures err != None ==> service.View() == old(service.View())
      ensures service.Faults() == old(service.Faults()) + if err == Some(Unavailable) then 1 else 0
      ensures Waiting(old(service.View()), id) ==> err in {None, Some(Unavailable)}
      ensures id in old(service.View()).rows ==> service.gateway.asked == old(service.gateway.asked) + 1
    {
      ghost var before, granted := service.View(), service.gateway.granted;
      ghost var answer;
      err, answer := service.ProcessPayment(id, eventId, at);
      OneMoreAttempt(first, granted, service.gateway.granted, id, n, answer, err);
      UnknownIsNotFound(before, service.View(), id, Process, answer, eventId, at, err);
      if id in before.rows {
        ProcessAnswered(before, service.View(), id, answer, eventId, at, err);
      }
      if err == None {
        ProcessedIsMoved(before, id, answer, eventId, at);
      }
    }

    /** Tries until the first success, at most once plus the retries, or until it is told to
        stop while waiting, which stops says after how many attempts. A negative number of retries means no attempt and no error. For a
        stored payment the gateway is asked at every attempt; and only faults, of the gateway or
        of the transaction, can keep the first attempt on a pending one from succeeding. */
    method ProcessWithRetry(id: PaymentId, eventId: EventId, at: Time, stops: nat -> bool)
      returns (err: Option<Error>, attempts: nat, cancelled: bool)
      requires service.Valid()
      modifies service`persisted, service`lost, service`faults, service.repo, service.outbox, service.gateway
      ensures service.Valid()
      ensures maxRetries < 0 ==> attempts == 0 && err == None && !cancelled
      ensures maxRetries >= 0 ==> 1 <= attempts <= maxRetries + 1
      ensures err != None && !cancelled ==> attempts == maxRetries + 1
      ensures cancelled ==> err != None && 0 < attempts <= maxRetries && stops(attempts)
      ensures err != None || attempts == 0 ==> service.View() == old(service.View())
      ensures err == None && attempts > 0 ==> Moved(old(service.View()), service.View(), [id])
      ensures GrantsUpTo(old(service.gateway.granted), service.gateway.granted, id, attempts)
      ensures id in old(service.View()).rows ==> service.gateway.asked == old(service.gateway.asked) + attempts
      ensures Waiting(old(service.View()), id) ==>
                service.Faults() == old(service.Faults()) + attempts - if err == None && attempts > 0 then 1 else 0
      ensures service.Faults() >= old(service.Faults())
    {
      ghost var before, first := service.View(), service.gateway.granted;
      err, attempts, cancelled := None, 0, false;
      var attempt := 0;
      while attempt <= maxRetries
        invariant 0 <= attempt && (if maxRetries < 0 then attempt == 0 else attempt <= maxRetries)
        invariant attempts == attempt && !cancelled
        invariant attempts == 0 <==> err == None
        invariant service.Valid() && service.View() == before
        invariant GrantsUpTo(first, service.gateway.granted, id, attempts)
        invariant id in before.rows ==> service.gateway.asked == old(service.gateway.asked) + attempts
        invariant Waiting(before, id) ==> service.Faults() == old(service.Faults()) + attempts
        invariant service.Faults() >= old(service.Faults())
        decreases maxRetries + 1 - attempt
      {
        err := Attempt(first, attempts, id, eventId, at);
        attempts := attempts + 1;
        if err == None {
          return;
        }
        if attempt == maxRetries {
          break;
        }
        if stops(attempts) {
          cancelled := true;
          return;
        }
        attempt := attempt + 1;
      }
    }

    /** A message that does not parse goes to the dead-letter queue at once. Any other is
        acknowledged exactly when its last attempt committed, provided at least one attempt is
        made; a message that is not acknowledged changed neither rows nor log. Every attempt may
        have left an authorisation at the gateway, whatever came of it. A message of a pending
        payment is only given up after faults, and one of any stored payment only after every
        retry, unless the consumer is told to stop. */
    method Handle(msg: Body, eventId: EventId, at: Time, stops: nat -> bool) returns (fate: Fate)
      requires service.Valid()
      modifies service`persisted, service`lost, service`faults, service.repo, service.outbox, service.gateway
      ensures service.Valid()
      ensures msg.Malformed? || fate.DeadLettered? ==> service.View() == old(service.View())
      ensures msg.Malformed? ==> fate == DeadLettered
      ensures msg.Snapshot? && fate.Acked? && maxRetries >= 0 ==>
                Moved(old(service.View()), service.View(), [msg.payload.id])
      ensures msg.Snapshot? && maxRetries < 0 ==> fate == Acked && service.View() == old(service.View())
      ensures msg.Malformed? ==> service.gateway.granted == old(service.gateway.granted)
      ensures msg.Snapshot? ==>
                GrantsUpTo(old(service.gateway.granted), service.gateway.granted, msg.payload.id, Attempts(maxRetries))
      ensures service.Faults() >= old(service.Faults())
      ensures msg.Snapshot? && Waiting(old(service.View()), msg.payload.id) && fate.DeadLettered? ==>
                service.Faults() > old(service.Faults())
      ensures msg.Snapshot? && msg.payload.id in old(service.View()).rows && maxRetries >= 0 ==>
                service.gateway.asked > old(service.gateway.asked)
      ensures msg.Snapshot? && msg.payload.id in old(service.View()).rows && maxRetries >= 0
              && fate.DeadLettered? && (forall n :: !stops(n)) ==>
                service.gateway.asked == old(service.gateway.asked) + maxRetries + 1
    {
      if msg.Malformed? {
        return DeadLettered;
      }
      var err, attempts, cancelled := ProcessWithRetry(msg.payload.id, eventId, at, stops);
      if err != None {
        return DeadLettered;
      }
      return Acked;
    }

    /** One message after others whose handling moved their payments. */
    method HandleNext(ghost before: State, ghost first: seq<A.Grant>, ghost faults: nat, ghost msgs: seq<Body>,
                      ghost fates: seq<Fate>, msg: Body, eventId: EventId, at: Time, stops: nat -> bool)
      returns (fate: Fate)
      requires service.Valid() && |msgs| == |fates|
      requires Moved(before, service.View(), HandledIds(maxRetries, msgs, fates))
      requires GrantsFor(first, service.gateway.granted, msgs, Attempts(maxRetries))
      requires service.Faults() >= faults
      requires service.Faults() == faults && maxRetries >= 0 ==> AllServed(before, msgs, HandledIds(maxRetries, msgs, fates))
      modifies service`persisted, service`lost, service`faults, service.repo, service.outbox, service.gateway
      ensures service.Valid()
      ensures msg.Malformed? ==> fate == DeadLettered
      ensures msg.Snapshot? && maxRetries < 0 ==> fate == Acked
      ensures Moved(before, service.View(), HandledIds(maxRetries, msgs + [msg], fates + [fate]))
      ensures GrantsFor(first, service.gateway.granted, msgs + [msg], Attempts(maxRetries))
      ensures service.Faults() >= faults
      ensures service.Faults() == faults && maxRetries >= 0 ==>
                AllServed(before, msgs + [msg], HandledIds(maxRetries, msgs + [msg], fates + [fate]))
    {
      ghost var here, granted := service.View(), service.gateway.granted;
      fate := Handle(msg, eventId, at, stops);
      OneMoreMessage(first, granted, service.gateway.granted, msgs, msg, Attempts(maxRetries));
      AckedAppend(msgs, fates, msg, fate);
      ghost var moved := HandledIds(maxRetries, msgs, fates);
      if fate.Acked? && maxRetries >= 0 {
        MovedThenMoved(before, here, service.View(), moved, [msg.payload.id]);
      } else {
        assert moved + [] == moved;
      }
      if service.Faults() == faults && maxRetries >= 0 {
        AllServedMore(before, msgs, msg, moved, HandledIds(maxRetries, msgs + [msg], fates + [fate]));
      }
    }

    /** The receive loop over any sequence of messages, redeliveries included: the payments of
        the acknowledged messages are all different, and are exactly those moved out of pending;
        without faults these are all the pending ones that are named. With a negative number of
        retries every message that parses is acknowledged, unhandled. */
    method Start(msgs: seq<Body>, eventIds: nat -> EventId, at: Time, stops: (nat, nat) -> bool) returns (fates: seq<Fate>)
      requires service.Valid()
      modifies service`persisted, service`lost, service`faults, service.repo, service.outbox, service.gateway
      ensures service.Valid()
      ensures |fates| == |msgs|
      ensures Moved(old(service.View()), service.View(), HandledIds(maxRetries, msgs, fates))
      ensures forall i | 0 <= i < |msgs| :: msgs[i].Malformed? ==> fates[i] == DeadLettered
      ensures forall i | 0 <= i < |msgs| :: msgs[i].Snapshot? && maxRetries < 0 ==> fates[i] == Acked
      ensures GrantsFor(old(service.gateway.granted), service.gateway.granted, msgs, Attempts(maxRetries))
      ensures service.Faults() == old(service.Faults()) && maxRetries >= 0 ==>
                AllServed(old(service.View()), msgs, HandledIds(maxRetries, msgs, fates))
    {
      ghost var faults := service.Faults();
      ghost var before, first := service.View(), service.gateway.granted;
      fates := [];
      var i := 0;
      while i < |msgs|
        invariant 0 <= i <= |msgs| && |fates| == i
        invariant service.Valid() && Moved(before, service.View(), HandledIds(maxRetries, msgs[..i], fates))
        invariant GrantsFor(first, service.gateway.granted, msgs[..i], Attempts(maxRetries))
        invariant service.Faults() >= faults
        invariant service.Faults() == faults && maxRetries >= 0 ==>
                    AllServed(before, msgs[..i], HandledIds(maxRetries, msgs[..i], fates))
        invariant forall k | 0 <= k < i :: msgs[k].Malformed? ==> fates[k] == DeadLettered
        invariant forall k | 0 <= k < i :: msgs[k].Snapshot? && maxRetries < 0 ==> fates[k] == Acked
      {
        var fate := HandleNext(before, first, faults, msgs[..i], fates, msgs[i], eventIds(i), at, (n: nat) => stops(i, n));
        assert msgs[..i + 1] == msgs[..i] + [msgs[i]];
        fates := fates + [fate];
        i := i + 1;
      }
      assert msgs[..i] == msgs;
    }
  }

  /** The generic subscriber, here with the audit trail as its handler. */
  class AuditSubscriber {
    const repo: Audit.AuditRepository
    const maxRetries: int

    constructor (repo: Audit.AuditRepository, maxRetries: int)
      ensures this.repo == repo && this.maxRetries == maxRetries
    {
      this.repo, this.maxRetries := repo, maxRetries;
    }

    /** With at least one attempt, an acknowledged message is in the trail and a dead-lettered
        one left the trail alone. Only a body that does not parse, or a fault of the store, keeps
        a message out. */
    method Handle(m: Message, hash: (EventType, Payload) -> EventId, at: Time, stops: nat -> bool) returns (fate: Fate)
      requires repo.Valid()
      modifies repo
      ensures repo.Valid()
      ensures fate.DeadLettered? || maxRetries < 0 ==> repo.Trail() == old(repo.Trail())
      ensures fate.Acked? && maxRetries >= 0 ==>
                m.body.Snapshot? && repo.Trail() == Audit.Appended(old(repo.Trail()), Audit.EntryOf(m, hash, at))
      ensures fate.DeadLettered? && m.body.Snapshot? ==> repo.faults > old(repo.faults)
      ensures fate.DeadLettered? && m.body.Snapshot? && (forall n :: !stops(n)) ==> repo.faults == old(repo.faults) + maxRetries + 1
    {
      var attempt := 0;
      while attempt <= maxRetries
        invariant 0 <= attempt
        invariant repo.Valid() && repo.Trail() == old(repo.Trail()) && repo.faults >= old(repo.faults)
        invariant attempt > 0 ==> attempt <= maxRetries
        invariant m.body.Snapshot? ==> repo.faults == old(repo.faults) + attempt
        decreases maxRetries + 1 - attempt
      {
        var ok := repo.Record(m, hash, at);
        if ok {
          return Acked;
        }
        if attempt == maxRetries || stops(attempt + 1) {
          return DeadLettered;
        }
        attempt := attempt + 1;
      }
      return Acked;
    }
  }
}
