/** The relay as it runs: one dispatch, and the polling loop around it. */
module RelayService {
  import opened Basics
  import opened Events
  import opened Outbox
  import opened Broker
  import opened Relaying

  // ----- What marking does to the pending events -----

  function Without(events: seq<Event>, id: EventId): seq<Event> {
    if events == [] then []
    else if Last(events).id == id then Without(Front(events), id)
    else Without(Front(events), id) + [Last(events)]
  }

  lemma {:induction false} WithoutFirst(events: seq<Event>)
    requires DistinctIds(events) && events != []
    ensures Without(events, events[0].id) == events[1..]
  {
    if |events| > 1 {
      WithoutFirst(Front(events));
      assert Front(events)[1..] + [Last(events)] == events[1..];
    }
  }

  lemma {:induction false} PendingAfterMark(a: seq<Stored>, b: seq<Stored>, id: EventId, at: Time)
    requires |a| == |b|
    requires forall i | 0 <= i < |a| :: b[i] == if a[i].event.id == id then a[i].(publishedAt := Some(at)) else a[i]
    ensures Pending(b) == Without(Pending(a), id)
  {
    if a != [] {
      PendingAfterMark(Front(a), Front(b), id, at);
      assert Last(a) == a[|a| - 1] && Last(b) == b[|a| - 1];
    }
  }

  lemma {:induction false} PendingDistinct(outbox: seq<Stored>)
    requires DistinctIds(Log(outbox))
    ensures DistinctIds(Pending(outbox))
    ensures forall id :: FreshId(Log(outbox), id) ==> FreshId(Pending(outbox), id)
  {
    if outbox != [] {
      var log := Log(outbox);
      assert Log(Front(outbox)) == Front(log) && Last(outbox).event == Last(log);
      assert FreshId(Front(log), Last(log).id);
      PendingDistinct(Front(outbox));
      forall id | FreshId(log, id) ensures FreshId(Pending(outbox), id) {
        assert FreshId(Front(log), id);
      }
    }
  }

  /** Marking the oldest pending event leaves exactly the others pending. */
  lemma MarkFirstPending(outbox: seq<Stored>, at: Time)
    requires DistinctIds(Log(outbox)) && Pending(outbox) != []
    ensures Pending(Marked(outbox, Pending(outbox)[0].id, at)) == Pending(outbox)[1..]
    ensures Log(Marked(outbox, Pending(outbox)[0].id, at)) == Log(outbox)
  {
    var id := Pending(outbox)[0].id;
    MarkedExact(outbox, id, at);
    PendingAfterMark(outbox, Marked(outbox, id, at), id, at);
    PendingDistinct(outbox);
    WithoutFirst(Pending(outbox));
  }

  // ----- One relay alone, step by step -----

  lemma PublishNext(before: State, steps: seq<Step>, outbox: seq<Stored>, stream: seq<Message>, todo: seq<Event>)
    requires todo != [] && IsRun(before, steps, State(outbox, stream, map[0 := Sending(todo, false)]))
    ensures IsRun(before, steps + [Publish(0)],
                  State(outbox, stream + [MessageOf(todo[0])], map[0 := Sending(todo, true)]))
  {
    RunExtend(before, steps, State(outbox, stream, map[0 := Sending(todo, false)]), Publish(0));
    assert map[0 := Sending(todo, false)][0 := Sending(todo, true)] == map[0 := Sending(todo, true)];
  }

  lemma MarkNext(before: State, steps: seq<Step>, outbox: seq<Stored>, stream: seq<Message>, todo: seq<Event>, at: Time)
    requires todo != [] && IsRun(before, steps, State(outbox, stream, map[0 := Sending(todo, true)]))
    ensures IsRun(before, steps + [Mark(0, at)],
                  State(Marked(outbox, todo[0].id, at), stream, map[0 := Sending(todo[1..], false)]))
  {
    RunExtend(before, steps, State(outbox, stream, map[0 := Sending(todo, true)]), Mark(0, at));
    assert map[0 := Sending(todo, true)][0 := Sending(todo[1..], false)] == map[0 := Sending(todo[1..], false)];
  }

  lemma StopNow(before: State, steps: seq<Step>, outbox: seq<Stored>, stream: seq<Message>, sending: Sending)
    requires IsRun(before, steps, State(outbox, stream, map[0 := sending]))
    ensures IsRun(before, steps + [Stop(0)], State(outbox, stream, map[]))
  {
    RunExtend(before, steps, State(outbox, stream, map[0 := sending]), Stop(0));
    assert map[0 := sending] - {0} == map[];
  }

  lemma NextInBatch(pending: seq<Event>, batch: seq<Event>, done: nat)
    requires batch <= pending && done < |batch|
    ensures Messages(batch)[..done + 1] == Messages(batch)[..done] + [MessageOf(batch[done])]
    ensures batch[done] == pending[done..][0] == batch[done..][0]
    ensures pending[done..][1..] == pending[done + 1..] && batch[done..][1..] == batch[done + 1..]
  {
  }

  // ----- Draining -----

  /** How many of n pending events are gone after a number of rounds of b. */
  function Gone(n: nat, b: nat, rounds: nat): nat {
    Min(n, rounds * b)
  }

  /** What is left and what was sent after a number of rounds of b. */
  ghost predicate AfterRounds(all: seq<Event>, b: nat, rounds: nat, left: seq<Event>, before: seq<Message>, stream: seq<Message>) {
    && left == all[Gone(|all|, b, rounds)..]
    && stream == before + Messages(all[..Gone(|all|, b, rounds)])
  }

  lemma NoRounds(all: seq<Event>, b: nat, stream: seq<Message>)
    ensures AfterRounds(all, b, 0, all, stream, stream)
  {
    assert Gone(|all|, b, 0) == 0 && all[0..] == all && Messages(all[..0]) == [] && stream + [] == stream;
  }

  /** A round that sends the first of what is left, up to b events, advances the count. */
  lemma OneMoreRound(all: seq<Event>, b: nat, rounds: nat, left: seq<Event>, batch: seq<Event>,
                     before: seq<Message>, stream: seq<Message>, next: seq<Message>)
    requires AfterRounds(all, b, rounds, left, before, stream)
    requires batch == if |left| <= b then left else left[..b]
    requires next == stream + Messages(batch)[..|batch|]
    ensures AfterRounds(all, b, rounds + 1, left[|batch|..], before, next)
  {
    var gone := Gone(|all|, b, rounds);
    GoneNext(|all|, b, rounds);
    NextSlice(all, gone, |batch|);
    MessagesConcat(all[..gone], batch);
    assert Messages(batch)[..|batch|] == Messages(batch);
    assert before + Messages(all[..gone]) + Messages(batch) == before + (Messages(all[..gone]) + Messages(batch));
  }

  lemma GoneNext(n: nat, b: nat, rounds: nat)
    ensures Gone(n, b, rounds + 1) == Gone(n, b, rounds) + Min(b, n - Gone(n, b, rounds))
  {
  }

  lemma NextSlice(all: seq<Event>, i: nat, k: nat)
    requires i + k <= |all|
    ensures all[i..][k..] == all[i + k..] && all[..i] + all[i..][..k] == all[..i + k]
  {
  }

  lemma MessagesConcat(a: seq<Event>, b: seq<Event>)
    ensures Messages(a + b) == Messages(a) + Messages(b)
  {
  }

  lemma RoundedUp(n: nat, b: nat)
    requires b > 0
    ensures n <= (n + b - 1) / b * b < n + b
  {
  }

  lemma TimesMonotone(i: int, j: int, b: nat)
    requires i <= j
    ensures i * b <= j * b
  {
  }

  /** n pending events are drained in exactly n/b rounds, rounded up. */
  lemma RoundsToDrain(n: nat, b: nat, rounds: nat)
    requires b > 0
    ensures Gone(n, b, rounds) == n <==> rounds >= (n + b - 1) / b
  {
    var q := (n + b - 1) / b;
    assert n <= q * b < n + b by {
      RoundedUp(n, b);
    }
    if rounds >= q {
      TimesMonotone(q, rounds, b);
    } else {
      TimesMonotone(rounds, q - 1, b);
      assert (q - 1) * b == q * b - b;
    }
  }

  lemma RoundsDrain(all: seq<Event>, b: nat, rounds: nat, left: seq<Event>, before: seq<Message>, stream: seq<Message>)
    requires b > 0 && AfterRounds(all, b, rounds, left, before, stream)
    ensures left == [] <==> rounds >= (|all| + b - 1) / b
    ensures forall i | 0 <= i < Gone(|all|, b, rounds) ::
              stream[|before| + i] == Message(all[i].id, all[i].eventType, Snapshot(all[i].payload))
  {
    RoundsToDrain(|all|, b, rounds);
    MessagesSay(before, stream, all, Gone(|all|, b, rounds));
  }

  /** faults counts the fetches and marks that failed. */
  class Relay {
    const repo: OutboxRepository
    const exchange: Exchange
    const batchSize: nat
    ghost var faults: nat

    constructor (repo: OutboxRepository, exchange: Exchange, batchSize: nat)
      ensures this.repo == repo && this.exchange == exchange && this.batchSize == batchSize && faults == 0
    {
      this.repo, this.exchange, this.batchSize, faults := repo, exchange, batchSize, 0;
    }

    ghost function Faults(): nat
      reads this, exchange
    {
      faults + exchange.faults
    }

    ghost function View(relays: map<RelayId, Sending>): State
      reads repo, exchange
    {
      State(repo.events, exchange.stream, relays)
    }

    /** Publishes and marks the first event of what is left of the batch. */
    method Send(event: Event, now: Time, ghost before: State, ghost past: seq<Step>, ghost todo: seq<Event>)
      returns (ok: bool, ghost steps: seq<Step>)
      requires DistinctIds(Log(repo.events)) && todo != [] && todo[0] == event
      requires Pending(repo.events) != [] && Pending(repo.events)[0] == event
      requires IsRun(before, past, View(map[0 := Sending(todo, false)]))
      modifies this`faults, repo, exchange
      ensures Log(repo.events) == Log(old(repo.events))
      ensures Faults() == old(Faults()) + if ok then 0 else 1
      ensures ok ==>
                && IsRun(before, steps, View(map[0 := Sending(todo[1..], false)]))
                && Pending(repo.events) == Pending(old(repo.events))[1..]
                && exchange.stream == old(exchange.stream) + [MessageOf(event)]
                && repo.events == Marked(old(repo.events), event.id, now)
      ensures !ok ==>
                && IsRun(before, steps, View(map[]))
                && repo.events == old(repo.events)
                && exchange.stream in {old(exchange.stream), old(exchange.stream) + [MessageOf(event)]}
    {
      ghost var outbox, stream := repo.events, exchange.stream;
      steps := past;
      var published := exchange.Publish(event.eventType, event.id, Snapshot(event.payload));
      if exchange.stream != stream {
        PublishNext(before, steps, outbox, stream, todo);
        steps := steps + [Publish(0)];
      }
      var fails: bool := *;
      if !published || fails {
        if published {
          faults := faults + 1;
        }
        StopNow(before, steps, outbox, exchange.stream, Sending(todo, exchange.stream != stream));
        steps := steps + [Stop(0)];
        return false, steps;
      }
      repo.MarkPublished(event.id, now);
      MarkFirstPending(outbox, now);
      MarkNext(before, steps, outbox, exchange.stream, todo, now);
      return true, steps + [Mark(0, now)];
    }

    method FetchBatch() returns (ok: bool, events: seq<Event>, ghost steps: seq<Step>)
      modifies this`faults
      ensures faults == old(faults) + if ok then 0 else 1
      ensures ok ==>
                && events == Batch(repo.events, batchSize) && events <= Pending(repo.events)
                && IsRun(View(map[]), steps, View(map[0 := Sending(events, false)]))
      ensures !ok ==> events == [] && IsRun(View(map[]), steps, View(map[]))
    {
      ok, events, steps := *, [], [];
      if ok {
        events := repo.FetchUnpublished(batchSize);
        RunExtend(View(map[]), [], View(map[]), Fetch(0, batchSize));
        steps := [] + [Fetch(0, batchSize)];
      } else {
        faults := faults + 1;
      }
    }

    /** Publishes a batch in order, marking each event before the next is published, and gives
        up at the first failure. */
    method SendAll(events: seq<Event>, now: Time, ghost before: State, ghost past: seq<Step>)
      returns (ok: bool, done: nat, ghost steps: seq<Step>)
      requires DistinctIds(Log(repo.events)) && events <= Pending(repo.events)
      requires IsRun(before, past, View(map[0 := Sending(events, false)]))
      modifies this`faults, repo, exchange
      ensures Faults() == old(Faults()) + if ok then 0 else 1
      ensures IsRun(before, steps, View(map[]))
      ensures Log(repo.events) == Log(old(repo.events))
      ensures if ok then done == |events| else done < |events|
      ensures MarkedSince(old(repo.events), repo.events, now)
      ensures Pending(repo.events) == Pending(old(repo.events))[done..]
      ensures exchange.stream == old(exchange.stream) + Messages(events)[..done]
              || (!ok && exchange.stream == old(exchange.stream) + Messages(events)[..done + 1])
    {
      ghost var pending := Pending(repo.events);
      steps, done := past, 0;
      assert pending[0..] == pending && exchange.stream + [] == exchange.stream;
      while done < |events|
        invariant 0 <= done <= |events| && events <= pending
        invariant Log(repo.events) == Log(old(repo.events))
        invariant Pending(repo.events) == pending[done..]
        invariant Faults() == old(Faults()) && MarkedSince(old(repo.events), repo.events, now)
        invariant exchange.stream == old(exchange.stream) + Messages(events)[..done]
        invariant IsRun(before, steps, State(repo.events, exchange.stream, map[0 := Sending(events[done..], false)]))
      {
        NextInBatch(pending, events, done);
        OneMoreMark(old(repo.events), repo.events, events[done].id, now);
        var sent;
        sent, steps := Send(events[done], now, before, steps, events[done..]);
        if !sent {
          return false, done, steps;
        }
        done := done + 1;
      }
      StopNow(before, steps, repo.events, exchange.stream, Sending(events[done..], false));
      steps := steps + [Stop(0)];
      ok := true;
    }

    /** Fetches a batch and sends it; it fails when a fetch, a publication or a mark does, and only
        then. done events were published and marked; on a failure the next one may have reached
        the broker, unmarked. Each goes out under its own id and type, with its own payload. */
    method Dispatch(now: Time) returns (ok: bool, done: nat, ghost steps: seq<Step>, ghost batch: seq<Event>)
      requires DistinctIds(Log(repo.events))
      modifies this`faults, repo, exchange
      ensures Faults() == old(Faults()) + if ok then 0 else 1
      ensures IsRun(old(View(map[])), steps, View(map[]))
      ensures Log(repo.events) == Log(old(repo.events)) && MarkedSince(old(repo.events), repo.events, now)
      ensures batch == Batch(old(repo.events), batchSize) && done <= |batch|
      ensures Pending(repo.events) == Pending(old(repo.events))[done..]
      ensures ok ==> done == |batch|
      ensures !ok ==> done < |batch| || batch == []
      ensures exchange.stream == old(exchange.stream) + Messages(batch)[..done]
              || (!ok && done < |batch| && exchange.stream == old(exchange.stream) + Messages(batch)[..done + 1])
      ensures var first := |old(exchange.stream)|;
              forall i | 0 <= i < |batch| && first + i < |exchange.stream| ::
                exchange.stream[first + i] == Message(batch[i].id, batch[i].eventType, Snapshot(batch[i].payload))
    {
      ghost var before := View(map[]);
      batch := Batch(repo.events, batchSize);
      var events;
      ok, events, steps := FetchBatch();
      if !ok {
        assert Pending(repo.events)[0..] == Pending(repo.events) && exchange.stream + [] == exchange.stream;
        return false, 0, steps, batch;
      }
      ok, done, steps := SendAll(events, now, before, steps);
      MessagesSay(old(exchange.stream), exchange.stream, batch, |exchange.stream| - |old(exchange.stream)|);
    }

    /** One tick; clean says that no round so far has failed. */
    method Tick(now: Time, ghost all: seq<Event>, ghost rounds: nat, ghost before: seq<Message>, ghost clean: bool) returns (ok: bool)
      requires DistinctIds(Log(repo.events)) && batchSize > 0
      requires clean ==> AfterRounds(all, batchSize, rounds, Pending(repo.events), before, exchange.stream)
      modifies this`faults, repo, exchange
      ensures Log(repo.events) == Log(old(repo.events))
      ensures Faults() == old(Faults()) + if ok then 0 else 1
      ensures clean && ok ==> AfterRounds(all, batchSize, rounds + 1, Pending(repo.events), before, exchange.stream)
    {
      ghost var left, stream := Pending(repo.events), exchange.stream;
      var done;
      ghost var steps, batch;
      ok, done, steps, batch := Dispatch(now);
      if clean && ok {
        OneMoreRound(all, batchSize, rounds, left, batch, before, stream, exchange.stream);
      }
    }

    /** The polling loop, for a given number of ticks: a failed dispatch does not end it. When
        none fails, the oldest pending events are gone, a batch per tick, each published once
        and as it is, and nothing is pending if and only if there were ticks enough. */
    method Run(ticks: nat, now: Time) returns (failures: nat)
      requires DistinctIds(Log(repo.events)) && batchSize > 0
      modifies this`faults, repo, exchange
      ensures Log(repo.events) == Log(old(repo.events))
      ensures Faults() == old(Faults()) + failures
      ensures failures == 0 ==>
                var pending := Pending(old(repo.events));
                var gone := Gone(|pending|, batchSize, ticks);
                && Pending(repo.events) == pending[gone..]
                && exchange.stream == old(exchange.stream) + Messages(pending[..gone])
                && (forall i | 0 <= i < gone ::
                      exchange.stream[|old(exchange.stream)| + i]
                      == Message(pending[i].id, pending[i].eventType, Snapshot(pending[i].payload)))
                && (Pending(repo.events) == [] <==> ticks >= (|pending| + batchSize - 1) / batchSize)
    {
      failures := 0;
      ghost var pending := Pending(repo.events);
      var tick := 0;
      NoRounds(pending, batchSize, exchange.stream);
      while tick < ticks
        invariant 0 <= tick <= ticks
        invariant Faults() == old(Faults()) + failures
        invariant Log(repo.events) == Log(old(repo.events))
        invariant failures == 0 ==>
                    AfterRounds(pending, batchSize, tick, Pending(repo.events), old(exchange.stream), exchange.stream)
      {
        var ok := Tick(now, pending, tick, old(exchange.stream), failures == 0);
        if !ok {
          failures := failures + 1;
        }
        tick := tick + 1;
      }
      if failures == 0 {
        RoundsDrain(pending, batchSize, ticks, Pending(repo.events), old(exchange.stream), exchange.stream);
      }
    }
  }
}
