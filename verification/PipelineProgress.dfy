/**
 What the pipeline can still do from any state it may get into: relay and audit alone can
 always make the trail the whole log; and what it delivers to the consumer can be processed.
 */
module PipelineProgress {
  import opened Basics
  import opened Payments
  import opened Events
  import opened Broker
  import opened Pipeline
  import Audit
  import Interleavings
  import Lifecycle
  import Outbox
  import R = Relaying
  import RelayService
  import UseCases

  lemma RunFirst(g: Setting, s: State, step: Step, rest: seq<Step>, t: State)
    requires Enabled(g, s, step) && IsRun(g, Apply(g, s, step), rest, t)
    ensures IsRun(g, s, [step] + rest, t)
  {
    assert ([step] + rest)[1..] == rest;
  }

  lemma {:induction false} RunConcat(g: Setting, s: State, a: seq<Step>, t: State, b: seq<Step>, u: State)
    requires IsRun(g, s, a, t) && IsRun(g, t, b, u)
    ensures IsRun(g, s, a + b, u)
    decreases |a|
  {
    if a == [] {
      assert a + b == b;
    } else {
      RunConcat(g, Apply(g, s, a[0]), a[1..], t, b, u);
      assert a[1..] + b == (a + b)[1..];
    }
  }

  /** Only relays and the audit subscriber move. */
  predicate Behind(steps: seq<Step>) {
    forall i | 0 <= i < |steps| :: !steps[i].Life?
  }

  lemma {:induction false} FreeRelay(taken: set<R.RelayId>) returns (r: R.RelayId)
    ensures forall q | q in taken :: q < r
  {
    if taken == {} {
      r := 0;
    } else {
      var q :| q in taken;
      var rest := FreeRelay(taken - {q});
      r := if rest <= q then q + 1 else rest;
      forall p | p in taken ensures p < r {
        assert p == q || p in taken - {q};
      }
    }
  }

  // ----- The relay -----

  /** A new relay publishes and marks the oldest pending event, and stops. */
  lemma SendOldest(g: Setting, s: State) returns (steps: seq<Step>, t: State)
    requires DistinctIds(Outbox.Log(s.relay.outbox)) && Outbox.Pending(s.relay.outbox) != []
    ensures IsRun(g, s, steps, t) && Behind(steps)
    ensures t.life == s.life && t.audit == s.audit
    ensures Outbox.Pending(t.relay.outbox) == Outbox.Pending(s.relay.outbox)[1..]
  {
    var r := FreeRelay(s.relay.relays.Keys);
    var e := Outbox.Pending(s.relay.outbox)[0];
    RelayService.MarkFirstPending(s.relay.outbox, 0);
    var fetch, publish, mark, stop := Relay(R.Fetch(r, 1)), Relay(R.Publish(r)), Relay(R.Mark(r, 0)), Relay(R.Stop(r));
    var s1 := Apply(g, s, fetch);
    assert s1.relay.relays[r].todo == [e];
    var s2 := Apply(g, s1, publish);
    var s3 := Apply(g, s2, mark);
    t := Apply(g, s3, stop);
    RunFirst(g, s3, stop, [], t);
    RunFirst(g, s2, mark, [stop] + [], t);
    RunFirst(g, s1, publish, [mark] + ([stop] + []), t);
    RunFirst(g, s, fetch, [publish] + ([mark] + ([stop] + [])), t);
    steps := [fetch] + ([publish] + ([mark] + ([stop] + [])));
  }

  /** Event by event, whatever is pending is published and marked. */
  lemma {:induction false} Drain(g: Setting, s: State, w: R.Progress) returns (steps: seq<Step>, t: State)
    requires Inv(g, s, w)
    ensures IsRun(g, s, steps, t) && Behind(steps)
    ensures t.life == s.life && t.audit == s.audit && Outbox.Pending(t.relay.outbox) == []
    decreases |Outbox.Pending(s.relay.outbox)|
  {
    if Outbox.Pending(s.relay.outbox) == [] {
      steps, t := [], s;
    } else {
      var first, next := SendOldest(g, s);
      var u := RunKeepsInv(g, s, w, first, next);
      var rest;
      rest, t := Drain(g, next, u);
      RunConcat(g, s, first, next, rest, t);
      steps := first + rest;
    }
  }

  lemma {:induction false} NothingPending(outbox: seq<Outbox.Stored>)
    requires Outbox.Pending(outbox) == []
    ensures forall i | 0 <= i < |outbox| :: outbox[i].publishedAt != None
  {
    if outbox != [] {
      NothingPending(Front(outbox));
      forall i | 0 <= i < |outbox| ensures outbox[i].publishedAt != None {
        assert i < |outbox| - 1 ==> outbox[i] == Front(outbox)[i];
      }
    }
  }

  // ----- The audit subscriber -----

  /** Message by message, the rest of the stream is consumed. */
  lemma {:induction false} Consume(g: Setting, s: State) returns (steps: seq<Step>, t: State)
    requires Audit.Genuine(s.relay.stream) && s.audit.position <= |s.relay.stream|
    ensures IsRun(g, s, steps, t) && Behind(steps)
    ensures t.life == s.life && t.relay == s.relay && t.audit.position == |s.relay.stream|
    decreases |s.relay.stream| - s.audit.position
  {
    if s.audit.position == |s.relay.stream| {
      steps, t := [], s;
    } else {
      var step := Audited(Audit.Consume(0));
      var rest;
      rest, t := Consume(g, Apply(g, s, step));
      RunFirst(g, s, step, rest, t);
      steps := [step] + rest;
    }
  }

  // ----- Together -----

  /** Whatever has happened, crashed relays and lost marks included: with reliable delivery there
      is a continuation of relay and audit steps alone after which the trail is the whole log. */
  lemma CanCatchUp(g: Setting, past: seq<Step>, s: State) returns (steps: seq<Step>, t: State)
    requires g.delivery.Reliable? && IsRun(g, INITIAL, past, s)
    ensures IsRun(g, s, steps, t) && Behind(steps) && t.life == s.life
    ensures |t.audit.trail| == |s.life.log|
    ensures forall i | 0 <= i < |t.audit.trail| :: var entry, e := t.audit.trail[i], s.life.log[i];
              entry.id == e.id && entry.eventType == e.eventType && entry.payload == e.payload && entry.aggregateId == e.payload.id
  {
    var w := RunKeepsInv(g, INITIAL, R.Progress(0, 0, map[]), past, s);
    var drain, mid := Drain(g, s, w);
    var u := RunKeepsInv(g, s, w, drain, mid);
    StreamIsGenuine(g, mid, u);
    var consume;
    consume, t := Consume(g, mid);
    NothingPending(t.relay.outbox);
    RunConcat(g, s, drain, mid, consume, t);
    steps := drain + consume;
    RunConcat(g, INITIAL, past, s, steps, t);
    TrailCatchesUp(g, past + steps, t);
  }

  // ----- What the consumer is given -----

  ghost predicate TrueTerms(payload: Payload, rows: map<PaymentId, Row>) {
    && payload.id in rows
    && payload.amount == rows[payload.id].money.amount && payload.currency == rows[payload.id].money.currency
    && payload.createdAt == rows[payload.id].createdAt
  }

  lemma LogHasTrueTerms(mode: Lifecycle.Mode, life: seq<Lifecycle.Step>, t: Lifecycle.State, k: nat)
    requires Lifecycle.IsRun(mode, Lifecycle.INITIAL, life, t) && k < |t.log|
    ensures TrueTerms(t.log[k].payload, t.rows) && TypeFitsStatus(t.log[k].eventType, t.log[k].payload.status)
  {
    Interleavings.StatusIsLastAnnounced(mode, life, t);
    assert Lifecycle.Announces(t.log[k], t.rows[t.log[k].aggregateId]);
  }

  lemma StreamIsOfLog(log: seq<Event>, stream: seq<Message>, n: nat, i: nat) returns (k: nat)
    requires n <= |log| && R.Streamed(log, stream, n) && i < |stream|
    ensures k < |log| && stream[i] == MessageOf(log[k])
  {
    var ms := Messages(log[..n]);
    k :| 0 <= k < |ms| && ms[k] == stream[i];
  }

  /** Every message of the stream names a stored payment, with its true terms, under an event
      type that fits the status it carries. */
  lemma StreamNamesPayments(g: Setting, past: seq<Step>, s: State, i: nat)
    requires IsRun(g, INITIAL, past, s) && i < |s.relay.stream|
    ensures s.relay.stream[i].body.Snapshot? && TrueTerms(s.relay.stream[i].body.payload, s.life.rows)
    ensures TypeFitsStatus(s.relay.stream[i].routingKey, s.relay.stream[i].body.payload.status)
  {
    var w := RunKeepsInv(g, INITIAL, R.Progress(0, 0, map[]), past, s);
    var life := LifeOfRun(g, INITIAL, past, s);
    var k := StreamIsOfLog(s.life.log, s.relay.stream, w.published, i);
    LogHasTrueTerms(g.mode, life, s.life, k);
  }

  /** So processing what a relayed message names never ends in "not found", and if it succeeds
      it moves that payment. */
  lemma RelayedIsFound(g: Setting, past: seq<Step>, s: State, i: nat, after: Lifecycle.State, answer: Lifecycle.Answer,
                       eventId: EventId, at: Time, err: Option<Error>)
    requires IsRun(g, INITIAL, past, s) && i < |s.relay.stream| && s.relay.stream[i].body.Snapshot?
    requires UseCases.Answered(s.life, after, s.relay.stream[i].body.payload.id, Lifecycle.Process, answer, eventId, at, err)
    ensures err in {None, Some(InvalidTransition), Some(Unavailable)}
    ensures var id := s.relay.stream[i].body.payload.id;
            && id in s.life.rows
            && (err == Some(InvalidTransition) ==> s.life.rows[id].status != Pending)
            && (err == None ==> s.life.rows[id].status == Pending)
  {
    StreamNamesPayments(g, past, s, i);
  }
}
