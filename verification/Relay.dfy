/**
 Any number of outbox relays over one outbox and one broker, as a transition system: each
 fetches a batch, publishes and marks its events one at a time, and can stop anywhere.
 */
module Relaying {
  import opened Basics
  import opened Events
  import opened Outbox
  import opened Broker

  type RelayId = nat

  /** What is left of a relay's batch, and whether its first event has been published. */
  datatype Sending = Sending(todo: seq<Event>, sent: bool)

  datatype State = State(outbox: seq<Stored>, stream: seq<Message>, relays: map<RelayId, Sending>)

  const INITIAL := State([], [], map[])

  datatype Step =
    | Append(event: Event)
    | Fetch(relay: RelayId, limit: nat)
    | Publish(relay: RelayId)
    | Mark(relay: RelayId, at: Time)
    | Stop(relay: RelayId)

  ghost predicate Enabled(s: State, step: Step) {
    match step
    case Append(e) => FreshId(Log(s.outbox), e.id)
    case Fetch(r, _) => r !in s.relays
    case Publish(r) => r in s.relays && s.relays[r].todo != [] && !s.relays[r].sent
    case Mark(r, _) => r in s.relays && s.relays[r].todo != [] && s.relays[r].sent
    case Stop(r) => r in s.relays
  }

  ghost function Apply(s: State, step: Step): State
    requires Enabled(s, step)
  {
    match step
    case Append(e) => s.(outbox := s.outbox + [Stored(e, None)])
    case Fetch(r, limit) => s.(relays := s.relays[r := Sending(Batch(s.outbox, limit), false)])
    case Publish(r) =>
      s.(stream := s.stream + [MessageOf(s.relays[r].todo[0])], relays := s.relays[r := Sending(s.relays[r].todo, true)])
    case Mark(r, at) =>
      s.(outbox := Marked(s.outbox, s.relays[r].todo[0].id, at),
         relays := s.relays[r := Sending(s.relays[r].todo[1..], false)])
    case Stop(r) => s.(relays := s.relays - {r})
  }

  ghost predicate IsRun(s: State, steps: seq<Step>, t: State)
    decreases |steps|
  {
    if steps == [] then s == t
    else Enabled(s, steps[0]) && IsRun(Apply(s, steps[0]), steps[1..], t)
  }

  lemma {:induction false} RunExtend(s: State, steps: seq<Step>, t: State, step: Step)
    requires IsRun(s, steps, t) && Enabled(t, step)
    ensures IsRun(s, steps + [step], Apply(t, step))
    decreases |steps|
  {
    if steps == [] {
      assert (steps + [step])[1..] == [];
    } else {
      assert (steps + [step])[1..] == steps[1..] + [step];
      RunExtend(Apply(s, steps[0]), steps[1..], t, step);
    }
  }

  // ----- The invariant -----

  /** Where the system stands in the log: the events before marked are marked, those before
      published have been published, and each relay's batch starts at its position. */
  datatype Progress = Progress(marked: nat, published: nat, position: map<RelayId, nat>)

  ghost predicate RelayOk(log: seq<Event>, w: Progress, r: RelayId, sending: Sending) {
    && r in w.position
    && w.position[r] <= w.marked
    && w.position[r] + |sending.todo| <= |log|
    && sending.todo == log[w.position[r]..w.position[r] + |sending.todo|]
    && (sending.sent ==> sending.todo != [] && w.position[r] < w.published)
  }

  /** The stream, repeats dropped, holds the first n messages of the log. */
  ghost predicate Streamed(log: seq<Event>, stream: seq<Message>, n: nat)
    requires n <= |log|
  {
    && Dedup(stream) == Messages(log[..n])
    && forall i | 0 <= i < |stream| :: stream[i] in Messages(log[..n])
  }

  ghost predicate Inv(s: State, w: Progress) {
    var log := Log(s.outbox);
    && DistinctIds(log)
    && w.marked <= w.published <= |log| && w.published <= w.marked + 1
    && (forall i | 0 <= i < |s.outbox| :: s.outbox[i].publishedAt != None <==> i < w.marked)
    && Streamed(log, s.stream, w.published)
    && (forall r | r in s.relays :: RelayOk(log, w, r, s.relays[r]))
  }

  lemma {:induction false} PendingIsTail(outbox: seq<Stored>, marked: nat)
    requires marked <= |outbox|
    requires forall i | 0 <= i < |outbox| :: outbox[i].publishedAt != None <==> i < marked
    ensures Pending(outbox) == Log(outbox)[marked..]
  {
    if outbox != [] {
      if marked < |outbox| {
        PendingIsTail(Front(outbox), marked);
        assert Log(outbox)[marked..] == Log(Front(outbox))[marked..] + [Last(outbox).event];
      } else {
        PendingIsTail(Front(outbox), marked - 1);
      }
    }
  }

  lemma AppendKeepsInv(s: State, w: Progress, e: Event)
    requires Inv(s, w) && FreshId(Log(s.outbox), e.id)
    ensures Inv(Apply(s, Append(e)), w)
  {
    var log := Log(s.outbox);
    assert Log(s.outbox + [Stored(e, None)]) == log + [e];
    assert (log + [e])[..w.published] == log[..w.published];
    forall r | r in s.relays ensures RelayOk(log + [e], w, r, s.relays[r]) {
      assert RelayOk(log, w, r, s.relays[r]);
    }
  }

  lemma FetchKeepsInv(s: State, w: Progress, r: RelayId, limit: nat)
    requires Inv(s, w) && r !in s.relays
    ensures Inv(Apply(s, Fetch(r, limit)), w.(position := w.position[r := w.marked]))
  {
    var t, u := Apply(s, Fetch(r, limit)), w.(position := w.position[r := w.marked]);
    var log := Log(s.outbox);
    PendingIsTail(s.outbox, w.marked);
    assert log[w.marked..w.marked + |t.relays[r].todo|] == log[w.marked..][..|t.relays[r].todo|];
    forall q | q in t.relays ensures RelayOk(log, u, q, t.relays[q]) {
      assert q != r ==> RelayOk(log, w, q, s.relays[q]);
    }
  }

  /** Whether an event's id has been published depends only on its place in the log. */
  lemma SeenInPrefix(log: seq<Event>, n: nat, k: nat)
    requires DistinctIds(log) && n <= |log| && k < |log|
    ensures Seen(Messages(log[..n]), log[k].id) <==> k < n
  {
    var ms := Messages(log[..n]);
    assert forall i | 0 <= i < n :: ms[i].id == log[i].id;
    if k < n {
      assert ms[k].id == log[k].id;
    }
  }

  /** Publishing an event again changes nothing; publishing the next one adds it. */
  lemma PublishOne(log: seq<Event>, stream: seq<Message>, n: nat, k: nat)
    requires DistinctIds(log) && k <= n <= |log| && k < |log|
    requires Streamed(log, stream, n)
    ensures Streamed(log, stream + [MessageOf(log[k])], if k < n then n else n + 1)
  {
    var m := if k < n then n else n + 1;
    var all := Messages(log[..m]);
    DedupAppend(stream, MessageOf(log[k]));
    SeenInPrefix(log, n, k);
    assert all[..n] == Messages(log[..n]) && all[k] == MessageOf(log[k]);
    assert k == n ==> all == all[..n] + [MessageOf(log[k])];
  }

  lemma PublishKeepsInv(s: State, w: Progress, r: RelayId)
    requires Inv(s, w) && Enabled(s, Publish(r))
    ensures Inv(Apply(s, Publish(r)), if w.position[r] < w.published then w else w.(published := w.published + 1))
  {
    var t := Apply(s, Publish(r));
    var log, k := Log(s.outbox), w.position[r];
    var u := if k < w.published then w else w.(published := w.published + 1);
    assert RelayOk(log, w, r, s.relays[r]);
    assert s.relays[r].todo[0] == log[k];
    PublishOne(log, s.stream, w.published, k);
    forall q | q in t.relays ensures RelayOk(log, u, q, t.relays[q]) {
      assert RelayOk(log, w, q, s.relays[q]);
    }
  }

  lemma MarkKeepsInv(s: State, w: Progress, r: RelayId, at: Time)
    requires Inv(s, w) && Enabled(s, Mark(r, at))
    ensures var k := w.position[r];
            Inv(Apply(s, Mark(r, at)),
                Progress(if k == w.marked then k + 1 else w.marked, w.published, w.position[r := k + 1]))
  {
    var t := Apply(s, Mark(r, at));
    var log, k := Log(s.outbox), w.position[r];
    var u := Progress(if k == w.marked then k + 1 else w.marked, w.published, w.position[r := k + 1]);
    assert RelayOk(log, w, r, s.relays[r]);
    assert s.relays[r].todo[0] == log[k] == s.outbox[k].event;
    MarkedExact(s.outbox, log[k].id, at);
    forall i | 0 <= i < |s.outbox| ensures s.outbox[i].event.id == log[k].id <==> i == k {
      assert log[i] == s.outbox[i].event;
    }
    forall q | q in t.relays ensures RelayOk(log, u, q, t.relays[q]) {
      assert RelayOk(log, w, q, s.relays[q]);
    }
  }

  lemma StepKeepsInv(s: State, w: Progress, step: Step) returns (u: Progress)
    requires Inv(s, w) && Enabled(s, step)
    ensures Inv(Apply(s, step), u)
  {
    match step
    case Append(e) =>
      u := w;
      AppendKeepsInv(s, w, e);
    case Fetch(r, limit) =>
      u := w.(position := w.position[r := w.marked]);
      FetchKeepsInv(s, w, r, limit);
    case Publish(r) =>
      assert RelayOk(Log(s.outbox), w, r, s.relays[r]);
      u := if w.position[r] < w.published then w else w.(published := w.published + 1);
      PublishKeepsInv(s, w, r);
    case Mark(r, at) =>
      assert RelayOk(Log(s.outbox), w, r, s.relays[r]);
      var k := w.position[r];
      u := Progress(if k == w.marked then k + 1 else w.marked, w.published, w.position[r := k + 1]);
      MarkKeepsInv(s, w, r, at);
    case Stop(r) =>
      u := w;
  }

  lemma {:induction false} RunKeepsInv(s: State, w: Progress, steps: seq<Step>, t: State) returns (u: Progress)
    requires Inv(s, w) && IsRun(s, steps, t)
    ensures Inv(t, u)
    decreases |steps|
  {
    if steps == [] {
      u := w;
    } else {
      u := StepKeepsInv(s, w, steps[0]);
      u := RunKeepsInv(Apply(s, steps[0]), u, steps[1..], t);
    }
  }

  // ----- What holds of every run of any number of relays -----

  /** Dropping repeats, the broker has seen a prefix of the outbox log, in log order: each event
      under its own id and type, with its own payload. */
  lemma StreamIsPrefixOfLog(steps: seq<Step>, t: State)
    requires IsRun(INITIAL, steps, t)
    ensures Dedup(t.stream) <= Messages(Log(t.outbox))
    ensures forall i | 0 <= i < |Dedup(t.stream)| ::
              var e := t.outbox[i].event;
              Dedup(t.stream)[i] == Message(e.id, e.eventType, Snapshot(e.payload))
    ensures forall i | 0 <= i < |t.stream| :: t.stream[i] in Messages(Log(t.outbox))
  {
    var u := RunKeepsInv(INITIAL, Progress(0, 0, map[]), steps, t);
    assert Messages(Log(t.outbox)[..u.published]) == Messages(Log(t.outbox))[..u.published];
  }

  ghost predicate Published(s: State, i: nat)
    requires i < |s.outbox|
  {
    MessageOf(s.outbox[i].event) in s.stream
  }

  lemma PublishedExact(s: State, w: Progress, i: nat)
    requires Inv(s, w) && i < |s.outbox|
    ensures Published(s, i) <==> i < w.published
  {
    var log := Log(s.outbox);
    DedupExact(s.stream);
    SeenInPrefix(log, w.published, i);
    if Published(s, i) {
      assert Seen(s.stream, log[i].id);
    }
    if i < w.published {
      assert Dedup(s.stream)[i] == MessageOf(log[i]);
    }
  }

  /** The marked events are the oldest ones, each was published before it was marked, and at
      most one published event, the oldest unmarked one, awaits its mark. */
  lemma MarksFollowPublications(steps: seq<Step>, t: State)
    requires IsRun(INITIAL, steps, t)
    ensures forall i, j | 0 <= i < j < |t.outbox| :: t.outbox[j].publishedAt != None ==> t.outbox[i].publishedAt != None
    ensures forall i | 0 <= i < |t.outbox| :: t.outbox[i].publishedAt != None ==> Published(t, i)
    ensures forall i, j | 0 <= i < j < |t.outbox| :: Published(t, j) ==> Published(t, i) && t.outbox[i].publishedAt != None
  {
    var u := RunKeepsInv(INITIAL, Progress(0, 0, map[]), steps, t);
    forall i | 0 <= i < |t.outbox| ensures Published(t, i) <==> i < u.published {
      PublishedExact(t, u, i);
    }
  }

  /** Nothing that was published is ever forgotten: the log and the stream only grow. */
  lemma {:induction false} LogAndStreamGrow(s: State, w: Progress, steps: seq<Step>, t: State)
    requires Inv(s, w) && IsRun(s, steps, t)
    ensures Log(s.outbox) <= Log(t.outbox) && s.stream <= t.stream
    decreases |steps|
  {
    if steps != [] {
      var u := StepKeepsInv(s, w, steps[0]);
      if steps[0].Mark? {
        MarkedExact(s.outbox, s.relays[steps[0].relay].todo[0].id, steps[0].at);
      }
      LogAndStreamGrow(Apply(s, steps[0]), u, steps[1..], t);
    }
  }
}
