/** The broker's stream of messages, and what is left of it when repeats are dropped. */
module Broker {
  import opened Basics
  import opened Events

  /** Snapshot is the serialised payload of an event; Malformed a body that does not parse. */
  datatype Body = Snapshot(payload: Payload) | Malformed(text: string)

  datatype Message = Message(id: EventId, routingKey: EventType, body: Body)

  function MessageOf(e: Event): Message {
    Message(e.id, e.eventType, Snapshot(e.payload))
  }

  function Messages(log: seq<Event>): (ms: seq<Message>)
    ensures |ms| == |log|
  {
    seq(|log|, i requires 0 <= i < |log| => MessageOf(log[i]))
  }

  predicate Seen(ms: seq<Message>, id: EventId) {
    exists i | 0 <= i < |ms| :: ms[i].id == id
  }

  /** The stream with repeated message ids dropped, keeping first occurrences. */
  function Dedup(ms: seq<Message>): seq<Message> {
    if ms == [] then []
    else
      var d := Dedup(Front(ms));
      if Seen(d, Last(ms).id) then d else d + [Last(ms)]
  }

  lemma DedupAppend(ms: seq<Message>, m: Message)
    ensures Dedup(ms + [m]) == if Seen(Dedup(ms), m.id) then Dedup(ms) else Dedup(ms) + [m]
  {
  }

  /** Dropping repeats invents nothing, loses no id, and keeps every id once. */
  lemma {:induction false} DedupExact(ms: seq<Message>)
    ensures forall i | 0 <= i < |Dedup(ms)| :: Dedup(ms)[i] in ms
    ensures forall id :: Seen(ms, id) <==> Seen(Dedup(ms), id)
    ensures forall i, j | 0 <= i < j < |Dedup(ms)| :: Dedup(ms)[i].id != Dedup(ms)[j].id
  {
    if ms != [] {
      DedupExact(Front(ms));
      var d := Dedup(Front(ms));
      assert ms == Front(ms) + [Last(ms)];
      forall id ensures Seen(ms, id) <==> Seen(Dedup(ms), id) {
        SeenAppend(Front(ms), Last(ms), id);
        SeenAppend(d, Last(ms), id);
      }
    }
  }

  lemma SeenAppend(ms: seq<Message>, m: Message, id: EventId)
    ensures Seen(ms + [m], id) <==> Seen(ms, id) || m.id == id
  {
    if Seen(ms, id) {
      var i :| 0 <= i < |ms| && ms[i].id == id;
      assert (ms + [m])[i].id == id;
    }
    if m.id == id {
      assert (ms + [m])[|ms|].id == id;
    }
  }

  /** Reading a stream further only extends what has been seen, in order. */
  lemma {:induction false} DedupOfPrefix(ms: seq<Message>, n: nat)
    requires n <= |ms|
    ensures Dedup(ms[..n]) <= Dedup(ms)
    decreases |ms|
  {
    if n == |ms| {
      assert ms[..n] == ms;
    } else {
      DedupOfPrefix(Front(ms), n);
      assert Front(ms)[..n] == ms[..n];
    }
  }

  /** An event travels under its own id and type, with its own payload. */
  lemma MessagesSay(before: seq<Message>, stream: seq<Message>, log: seq<Event>, n: nat)
    requires n <= |log| && (stream == before + Messages(log)[..n] || stream == before + Messages(log[..n]))
    ensures forall i | 0 <= i < n :: stream[|before| + i] == Message(log[i].id, log[i].eventType, Snapshot(log[i].payload))
  {
  }

  /** faults counts the publications that failed. */
  class Exchange {
    var stream: seq<Message>
    ghost var faults: nat

    constructor ()
      ensures stream == [] && faults == 0
    {
      stream, faults := [], 0;
    }

    /** Publishing may fail; a failure may be reported after the broker took the message. */
    method Publish(routingKey: EventType, id: EventId, body: Body) returns (ok: bool)
      modifies this
      ensures faults == old(faults) + if ok then 0 else 1
      ensures ok ==> stream == old(stream) + [Message(id, routingKey, body)]
      ensures !ok ==> stream == old(stream) || stream == old(stream) + [Message(id, routingKey, body)]
    {
      var arrives: bool, confirmed: bool := *, *;
      if arrives {
        stream := stream + [Message(id, routingKey, body)];
      }
      ok := arrives && confirmed;
      if !ok {
        faults := faults + 1;
      }
    }
  }
}
