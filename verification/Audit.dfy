/** The audit trail: an append-only, id-deduplicated record of what the broker delivered. */
module Audit {
  import opened Basics
  import opened Payments
  import opened Events
  import opened Broker

  datatype AggregateType = AggregatePayment

  datatype AuditEntry = AuditEntry(
    id: EventId,
    aggregateType: AggregateType,
    aggregateId: PaymentId,
    eventType: EventType,
    payload: Payload,
    recordedAt: Time)

  /** The entry a delivered message becomes. A message without an id is named by a hash of its
      content; any hash function may be given. */
  function EntryOf(m: Message, hash: (EventType, Payload) -> EventId, at: Time): AuditEntry
    requires m.body.Snapshot?
  {
    var payload := m.body.payload;
    AuditEntry(if m.id != "" then m.id else hash(m.routingKey, payload), AggregatePayment, payload.id,
               m.routingKey, payload, at)
  }

  /** The entry keeps the message's id, or a hash of type and content if it has none, and its type,
      payment and payload. */
  lemma EntryExact(m: Message, hash: (EventType, Payload) -> EventId, at: Time)
    requires m.body.Snapshot?
    ensures var e := EntryOf(m, hash, at);
            && (m.id != "" ==> e.id == m.id) && (m.id == "" ==> e.id == hash(m.routingKey, m.body.payload))
            && e.aggregateType == AggregatePayment && e.aggregateId == m.body.payload.id
            && e.eventType == m.routingKey && e.payload == m.body.payload && e.recordedAt == at
  {
  }

  /** What an entry says happened, in the terms of the message it came from. */
  function MessageIn(e: AuditEntry): Message {
    Message(e.id, e.eventType, Snapshot(e.payload))
  }

  function MessagesIn(trail: seq<AuditEntry>): (ms: seq<Message>)
    ensures |ms| == |trail|
  {
    seq(|trail|, i requires 0 <= i < |trail| => MessageIn(trail[i]))
  }

  predicate Recorded(trail: seq<AuditEntry>, id: EventId) {
    exists i | 0 <= i < |trail| :: trail[i].id == id
  }

  /** The first record of an id prevails. */
  function Appended(trail: seq<AuditEntry>, e: AuditEntry): seq<AuditEntry> {
    if Recorded(trail, e.id) then trail else trail + [e]
  }

  ghost predicate DistinctEntries(trail: seq<AuditEntry>) {
    forall i, j | 0 <= i < j < |trail| :: trail[i].id != trail[j].id
  }

  /** Recording a message that carries an id does to the trail what deduplication does to the stream. */
  lemma AppendIsDedup(trail: seq<AuditEntry>, m: Message, hash: (EventType, Payload) -> EventId, at: Time)
    requires m.body.Snapshot? && m.id != ""
    ensures MessageIn(EntryOf(m, hash, at)) == m
    ensures MessagesIn(Appended(trail, EntryOf(m, hash, at))) ==
            if Seen(MessagesIn(trail), m.id) then MessagesIn(trail) else MessagesIn(trail) + [m]
  {
    var ms := MessagesIn(trail);
    if Recorded(trail, m.id) {
      var i :| 0 <= i < |trail| && trail[i].id == m.id;
      assert ms[i].id == m.id;
    } else {
      assert forall i | 0 <= i < |ms| :: ms[i].id == trail[i].id;
    }
  }

  // ----- The subscriber as a transition system -----

  /** The stream position up to which messages have been acknowledged or dead-lettered, and the trail. */
  datatype State = State(position: nat, trail: seq<AuditEntry>)

  datatype Step =
    | Consume(at: Time)
    | Redeliver(index: nat, at: Time)
    | DeadLetter

  /** AnyOrder lets any message of the stream be handled at any time, or given up to the
      dead-letter queue. Reliable hands over the next message, or again one already handled. */
  datatype Delivery = AnyOrder | Reliable

  ghost predicate Enabled(mode: Delivery, stream: seq<Message>, s: State, step: Step) {
    match step
    case Consume(_) => s.position < |stream| && stream[s.position].body.Snapshot?
    case Redeliver(i, _) => i < |stream| && (mode.AnyOrder? || i < s.position) && stream[i].body.Snapshot?
    case DeadLetter => s.position < |stream| && mode.AnyOrder?
  }

  ghost function Apply(mode: Delivery, stream: seq<Message>, s: State, step: Step, hash: (EventType,
                       Payload) -> EventId): State
    requires Enabled(mode, stream, s, step)
  {
    match step
    case Consume(at) => State(s.position + 1, Appended(s.trail, EntryOf(stream[s.position], hash, at)))
    case Redeliver(i, at) => s.(trail := Appended(s.trail, EntryOf(stream[i], hash, at)))
    case DeadLetter => s.(position := s.position + 1)
  }

  /** Every message of the stream came from an event: it parses, and it has an id. */
  ghost predicate Genuine(stream: seq<Message>) {
    forall i | 0 <= i < |stream| :: stream[i].body.Snapshot? && stream[i].id != ""
  }

  /** Each id once, and each entry the faithful record of a message of the stream. */
  ghost predicate Faithful(stream: seq<Message>, trail: seq<AuditEntry>) {
    && DistinctEntries(trail)
    && forall i | 0 <= i < |trail| :: MessageIn(trail[i]) in stream && trail[i].aggregateId == trail[i].payload.id
  }

  ghost predicate Inv(mode: Delivery, stream: seq<Message>, s: State) {
    && s.position <= |stream|
    && Faithful(stream, s.trail)
    && (mode.Reliable? ==> MessagesIn(s.trail) == Dedup(stream[..s.position]))
  }

  lemma RecordKeepsFaithful(stream: seq<Message>, trail: seq<AuditEntry>, i: nat, hash: (EventType,
                            Payload) -> EventId, at: Time)
    requires Genuine(stream) && Faithful(stream, trail) && i < |stream|
    ensures Faithful(stream, Appended(trail, EntryOf(stream[i], hash, at)))
  {
    AppendIsDedup(trail, stream[i], hash, at);
  }

  /** Recording the next message is one step of dropping repeats. */
  lemma RecordNext(stream: seq<Message>, trail: seq<AuditEntry>, n: nat, hash: (EventType, Payload) -> EventId,
                   at: Time)
    requires Genuine(stream) && n < |stream| && MessagesIn(trail) == Dedup(stream[..n])
    ensures MessagesIn(Appended(trail, EntryOf(stream[n], hash, at))) == Dedup(stream[..n + 1])
  {
    AppendIsDedup(trail, stream[n], hash, at);
    assert stream[..n + 1] == stream[..n] + [stream[n]];
    DedupAppend(stream[..n], stream[n]);
  }

  /** Recording again a message that was already consumed changes nothing. */
  lemma RecordAgain(stream: seq<Message>, trail: seq<AuditEntry>, n: nat, i: nat, hash: (EventType,
                    Payload) -> EventId, at: Time)
    requires Genuine(stream) && i < n <= |stream| && MessagesIn(trail) == Dedup(stream[..n])
    ensures MessagesIn(Appended(trail, EntryOf(stream[i], hash, at))) == Dedup(stream[..n])
  {
    AppendIsDedup(trail, stream[i], hash, at);
    DedupExact(stream[..n]);
    assert stream[..n][i].id == stream[i].id;
  }

  lemma StepKeepsInv(mode: Delivery, stream: seq<Message>, s: State, step: Step, hash: (EventType, Payload) -> EventId)
    requires Genuine(stream) && Inv(mode, stream, s) && Enabled(mode, stream, s, step)
    ensures Inv(mode, stream, Apply(mode, stream, s, step, hash))
  {
    match step
    case Consume(at) =>
      RecordKeepsFaithful(stream, s.trail, s.position, hash, at);
      if mode.Reliable? {
        RecordNext(stream, s.trail, s.position, hash, at);
      }
    case Redeliver(i, at) =>
      RecordKeepsFaithful(stream, s.trail, i, hash, at);
      if mode.Reliable? {
        RecordAgain(stream, s.trail, s.position, i, hash, at);
      }
    case DeadLetter =>
  }

  /** The stream growing in the meantime changes nothing for what was consumed. */
  lemma StreamGrowthKeepsInv(mode: Delivery, before: seq<Message>, stream: seq<Message>, s: State)
    requires Inv(mode, before, s) && before <= stream
    ensures Inv(mode, stream, s)
  {
    assert stream[..s.position] == before[..s.position];
    forall i | 0 <= i < |s.trail| ensures MessageIn(s.trail[i]) in stream {
      var k :| 0 <= k < |before| && before[k] == MessageIn(s.trail[i]);
      assert stream[k] == MessageIn(s.trail[i]);
    }
  }

  // ----- The repository and the use case -----

  /** faults counts the appends that failed. */
  class AuditRepository {
    var entries: map<EventId, AuditEntry>
    var order: seq<EventId>
    ghost var faults: nat

    ghost predicate Valid()
      reads this
    {
      && (forall i | 0 <= i < |order| :: order[i] in entries)
      && (forall id | id in entries :: entries[id].id == id && id in order)
      && (forall i, j | 0 <= i < j < |order| :: order[i] != order[j])
    }

    ghost function Trail(): (trail: seq<AuditEntry>)
      requires Valid()
      reads this
      ensures DistinctEntries(trail)
    {
      InOrderOf(order, entries)
    }

    static ghost function InOrderOf(order: seq<EventId>, entries: map<EventId, AuditEntry>): (trail: seq<AuditEntry>)
      requires forall i | 0 <= i < |order| :: order[i] in entries
      ensures |trail| == |order| && forall i | 0 <= i < |order| :: trail[i] == entries[order[i]]
    {
      seq(|order|, i requires 0 <= i < |order| && order[i] in entries => entries[order[i]])
    }

    constructor ()
      ensures Valid() && Trail() == [] && faults == 0
    {
      entries, order, faults := map[], [], 0;
    }

    method Append(entry: AuditEntry)
      requires Valid()
      modifies this`entries, this`order
      ensures Valid() && Trail() == Appended(old(Trail()), entry)
    {
      ghost var before := Trail();
      if entry.id in entries {
        var i :| 0 <= i < |order| && order[i] == entry.id;
        assert before[i].id == entry.id;
        return;
      }
      assert forall i | 0 <= i < |order| :: before[i].id == order[i];
      entries := entries[entry.id := entry];
      order := order + [entry.id];
    }

    method All() returns (out: seq<AuditEntry>)
      requires Valid()
      ensures out == Trail()
    {
      out := [];
      var i := 0;
      while i < |order|
        invariant 0 <= i <= |order|
        invariant out == Trail()[..i]
      {
        out := out + [entries[order[i]]];
        i := i + 1;
      }
    }

    /** Records a delivered message: it fails for a body that does not parse, or when the
        store does, and only then, and then the trail is as it was. */
    method Record(m: Message, hash: (EventType, Payload) -> EventId, at: Time) returns (ok: bool)
      requires Valid()
      modifies this
      ensures Valid()
      ensures ok ==> m.body.Snapshot? && Trail() == Appended(old(Trail()), EntryOf(m, hash, at))
      ensures !ok ==> Trail() == old(Trail())
      ensures ok <==> m.body.Snapshot? && faults == old(faults)
      ensures faults == old(faults) + if ok || m.body.Malformed? then 0 else 1
    {
      if m.body.Malformed? {
        return false;
      }
      var fails: bool := *;
      if fails {
        faults := faults + 1;
        return false;
      }
      Append(EntryOf(m, hash, at));
      return true;
    }
  }
}
