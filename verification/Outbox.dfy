/** The outbox store: an append-only log of events, each marked once it has been published. */
module Outbox {
  import opened Basics
  import opened Events

  datatype Stored = Stored(event: Event, publishedAt: Option<Time>)

  function Log(outbox: seq<Stored>): (log: seq<Event>)
    ensures |log| == |outbox|
  {
    seq(|outbox|, i requires 0 <= i < |outbox| => outbox[i].event)
  }

  /** The events still to be published, oldest first. */
  function Pending(outbox: seq<Stored>): seq<Event> {
    if outbox == [] then []
    else
      var p := Pending(Front(outbox));
      if Last(outbox).publishedAt == None then p + [Last(outbox).event] else p
  }

  /** What a fetch answers: the oldest pending events, no more than the limit. A limit of
      zero is never reached by a growing batch, so it bounds nothing. */
  function Batch(outbox: seq<Stored>, limit: nat): seq<Event> {
    var p := Pending(outbox);
    if limit == 0 || |p| <= limit then p else p[..limit]
  }

  /** Marks the first event with the given id, if there is one. */
  function Marked(outbox: seq<Stored>, id: EventId, at: Time): seq<Stored> {
    if outbox == [] then []
    else if outbox[0].event.id == id then [outbox[0].(publishedAt := Some(at))] + outbox[1..]
    else [outbox[0]] + Marked(outbox[1..], id, at)
  }

  // ----- Properties of the three operations -----

  lemma {:induction false} PendingOfPrefix(outbox: seq<Stored>, n: nat)
    requires n <= |outbox|
    ensures Pending(outbox[..n]) <= Pending(outbox)
    decreases |outbox|
  {
    if n < |outbox| {
      PendingOfPrefix(Front(outbox), n);
      assert Front(outbox)[..n] == outbox[..n];
    } else {
      assert outbox[..n] == outbox;
    }
  }

  /** A fetch never exceeds a positive limit; the limit zero is exceeded by every pending event. */
  lemma BatchWithinLimit(outbox: seq<Stored>, limit: nat)
    ensures |Batch(outbox, limit)| <= limit <==> limit > 0 || Pending(outbox) == []
  {
  }

  /** Marking touches no event, marks exactly the named one, and is undone by nothing else. */
  lemma {:induction false} MarkedExact(outbox: seq<Stored>, id: EventId, at: Time)
    requires DistinctIds(Log(outbox))
    ensures |Marked(outbox, id, at)| == |outbox|
    ensures forall i | 0 <= i < |outbox| ::
              Marked(outbox, id, at)[i] == if outbox[i].event.id == id then outbox[i].(publishedAt := Some(at)) else outbox[i]
    ensures Log(Marked(outbox, id, at)) == Log(outbox)
  {
    if outbox != [] {
      var log := Log(outbox);
      assert forall i | 0 < i < |outbox| :: log[i].id != log[0].id;
      assert forall i | 0 <= i < |outbox| :: log[i] == outbox[i].event;
      if outbox[0].event.id != id {
        assert log[1..] == Log(outbox[1..]);
        MarkedExact(outbox[1..], id, at);
        assert forall i | 0 < i < |outbox| :: outbox[i] == outbox[1..][i - 1];
      }
    }
  }

  /** The same events in the same order; some of them have been marked, at the given time. */
  ghost predicate MarkedSince(before: seq<Stored>, after: seq<Stored>, now: Time) {
    && |after| == |before|
    && forall i | 0 <= i < |before| :: after[i] == before[i] || after[i] == Stored(before[i].event, Some(now))
  }

  lemma OneMoreMark(before: seq<Stored>, here: seq<Stored>, id: EventId, now: Time)
    requires MarkedSince(before, here, now) && DistinctIds(Log(here))
    ensures MarkedSince(before, Marked(here, id, now), now)
  {
    MarkedExact(here, id, now);
  }

  class OutboxRepository {
    var events: seq<Stored>

    constructor ()
      ensures events == []
    {
      events := [];
    }

    method Add(event: Event)
      modifies this
      ensures events == old(events) + [Stored(event, None)]
    {
      events := events + [Stored(event, None)];
    }

    method FetchUnpublished(limit: nat) returns (pending: seq<Event>)
      ensures pending == Batch(events, limit)
    {
      pending := [];
      var i := 0;
      while i < |events|
        invariant 0 <= i <= |events|
        invariant pending == Pending(events[..i])
        invariant limit > 0 ==> |pending| < limit || i == 0
      {
        var e := events[i];
        assert Front(events[..i + 1]) == events[..i];
        PendingOfPrefix(events, i + 1);
        i := i + 1;
        if e.publishedAt != None {
          continue;
        }
        pending := pending + [e.event];
        if |pending| == limit {
          assert pending == Pending(events)[..limit];
          return;
        }
      }
      assert events[..i] == events;
    }

    method MarkPublished(id: EventId, now: Time)
      modifies this
      ensures events == Marked(old(events), id, now)
    {
      var i := 0;
      while i < |events|
        invariant 0 <= i <= |events|
        invariant events == old(events)
        invariant Marked(events, id, now) == events[..i] + Marked(events[i..], id, now)
      {
        if events[i].event.id == id {
          assert events[i := events[i].(publishedAt := Some(now))] == events[..i] + Marked(events[i..], id, now);
          events := events[i := events[i].(publishedAt := Some(now))];
          return;
        }
        i := i + 1;
      }
      assert Marked(events, id, now) == events;
    }
  }
}
