/**
 The whole pipeline: use cases write rows and events, relays publish the events, the audit
 subscriber records what arrives. The four views of a run, rows, log, stream and trail, agree.
 */
module Pipeline {
  import opened Basics
  import opened Payments
  import opened Events
  import opened Broker
  import Outbox
  import Lifecycle
  import Interleavings
  import Serial
  import Relaying
  import Audit

  datatype State = State(life: Lifecycle.State, relay: Relaying.State, audit: Audit.State)

  datatype Step =
    | Life(life: Lifecycle.Step)
    | Relay(relay: Relaying.Step)
    | Audited(audit: Audit.Step)

  /** How use cases may interleave, how messages may be delivered, and the audit's hash function. */
  datatype Setting = Setting(mode: Lifecycle.Mode, delivery: Audit.Delivery, hash: (EventType, Payload) -> EventId)

  const INITIAL := State(Lifecycle.INITIAL, Relaying.INITIAL, Audit.State(0, []))

  /** Generated event ids are never empty. */
  predicate Named(step: Lifecycle.Step) {
    match step
    case Create(_, _, eventId, _) => eventId != ""
    case Commit(_, eventId, _) => eventId != ""
    case _ => true
  }

  ghost predicate Enabled(g: Setting, s: State, step: Step) {
    match step
    case Life(st) => Named(st) && Lifecycle.Enabled(g.mode, s.life, st)
    case Relay(st) => !st.Append? && Relaying.Enabled(s.relay, st)
    case Audited(st) => Audit.Enabled(g.delivery, s.relay.stream, s.audit, st)
  }

  ghost function Apply(g: Setting, s: State, step: Step): State
    requires Enabled(g, s, step)
  {
    match step
    case Life(st) =>
      var life := Lifecycle.Apply(g.mode, s.life, st);
      var outbox := if life.log == s.life.log then s.relay.outbox
                    else s.relay.outbox + [Outbox.Stored(Last(life.log), None)];
      s.(life := life, relay := s.relay.(outbox := outbox))
    case Relay(st) => s.(relay := Relaying.Apply(s.relay, st))
    case Audited(st) => s.(audit := Audit.Apply(g.delivery, s.relay.stream, s.audit, st, g.hash))
  }

  ghost predicate IsRun(g: Setting, s: State, steps: seq<Step>, t: State)
    decreases |steps|
  {
    if steps == [] then s == t
    else Enabled(g, s, steps[0]) && IsRun(g, Apply(g, s, steps[0]), steps[1..], t)
  }

  // ----- The parts agree -----

  ghost predicate Inv(g: Setting, s: State, w: Relaying.Progress) {
    && Relaying.Inv(s.relay, w)
    && Outbox.Log(s.relay.outbox) == s.life.log
    && (forall i | 0 <= i < |s.life.log| :: s.life.log[i].id != "")
    && Audit.Inv(g.delivery, s.relay.stream, s.audit)
  }

  lemma StreamIsGenuine(g: Setting, s: State, w: Relaying.Progress)
    requires Inv(g, s, w)
    ensures Audit.Genuine(s.relay.stream)
  {
  }

  lemma LifeStepLog(mode: Lifecycle.Mode, s: Lifecycle.State, step: Lifecycle.Step)
    requires Lifecycle.Enabled(mode, s, step)
    ensures var t := Lifecycle.Apply(mode, s, step);
            || t.log == s.log
            || (t.log != [] && t.log == s.log + [Last(t.log)] && FreshId(s.log, Last(t.log).id)
                && (Named(step) ==> Last(t.log).id != ""))
  {
  }

  lemma LifeKeepsInv(g: Setting, s: State, w: Relaying.Progress, st: Lifecycle.Step)
    requires Inv(g, s, w) && Enabled(g, s, Life(st))
    ensures Inv(g, Apply(g, s, Life(st)), w)
  {
    var t := Apply(g, s, Life(st));
    LifeStepLog(g.mode, s.life, st);
    if t.life.log != s.life.log {
      var e := Last(t.life.log);
      Relaying.AppendKeepsInv(s.relay, w, e);
      assert t.relay == Relaying.Apply(s.relay, Relaying.Append(e));
      assert Outbox.Log(t.relay.outbox) == s.life.log + [e];
    }
  }

  lemma RelayKeepsInv(g: Setting, s: State, w: Relaying.Progress, st: Relaying.Step) returns (u: Relaying.Progress)
    requires Inv(g, s, w) && Enabled(g, s, Relay(st))
    ensures Inv(g, Apply(g, s, Relay(st)), u)
  {
    u := Relaying.StepKeepsInv(s.relay, w, st);
    if st.Mark? {
      Outbox.MarkedExact(s.relay.outbox, s.relay.relays[st.relay].todo[0].id, st.at);
    }
    Audit.StreamGrowthKeepsInv(g.delivery, s.relay.stream, Apply(g, s, Relay(st)).relay.stream, s.audit);
  }

  lemma AuditKeepsInv(g: Setting, s: State, w: Relaying.Progress, st: Audit.Step)
    requires Inv(g, s, w) && Enabled(g, s, Audited(st))
    ensures Inv(g, Apply(g, s, Audited(st)), w)
  {
    StreamIsGenuine(g, s, w);
    Audit.StepKeepsInv(g.delivery, s.relay.stream, s.audit, st, g.hash);
  }

  lemma StepKeepsInv(g: Setting, s: State, w: Relaying.Progress, step: Step) returns (u: Relaying.Progress)
    requires Inv(g, s, w) && Enabled(g, s, step)
    ensures Inv(g, Apply(g, s, step), u)
  {
    u := w;
    match step
    case Life(st) => LifeKeepsInv(g, s, w, st);
    case Relay(st) => u := RelayKeepsInv(g, s, w, st);
    case Audited(st) => AuditKeepsInv(g, s, w, st);
  }

  lemma {:induction false} RunKeepsInv(g: Setting, s: State, w: Relaying.Progress, steps: seq<Step>, t: State)
    returns (u: Relaying.Progress)
    requires Inv(g, s, w) && IsRun(g, s, steps, t)
    ensures Inv(g, t, u)
    decreases |steps|
  {
    u := w;
    if steps != [] {
      u := StepKeepsInv(g, s, w, steps[0]);
      u := RunKeepsInv(g, Apply(g, s, steps[0]), u, steps[1..], t);
    }
  }

  /** Forgetting relays and audit, a run of the pipeline is a run of the use cases. */
  lemma {:induction false} LifeOfRun(g: Setting, s: State, steps: seq<Step>, t: State)
    returns (life: seq<Lifecycle.Step>)
    requires IsRun(g, s, steps, t)
    ensures Lifecycle.IsRun(g.mode, s.life, life, t.life)
    decreases |steps|
  {
    life := [];
    if steps != [] {
      var rest := LifeOfRun(g, Apply(g, s, steps[0]), steps[1..], t);
      life := rest;
      if steps[0].Life? {
        life := [steps[0].life] + rest;
        assert life[1..] == rest;
      }
    }
  }

  // ----- End to end -----

  /** With messages consumed in order, redelivered at will and never dead-lettered, the audit
      trail is exactly the log up to some point: same events, same order, same payloads. */
  lemma TrailIsPrefixOfLog(g: Setting, steps: seq<Step>, t: State)
    requires g.delivery.Reliable? && IsRun(g, INITIAL, steps, t)
    ensures |t.audit.trail| <= |t.life.log|
    ensures Audit.MessagesIn(t.audit.trail) == Messages(t.life.log[..|t.audit.trail|])
    ensures forall i | 0 <= i < |t.audit.trail| :: var entry, e := t.audit.trail[i], t.life.log[i];
              entry.id == e.id && entry.eventType == e.eventType && entry.payload == e.payload && entry.aggregateId == e.payload.id
  {
    var u := RunKeepsInv(g, INITIAL, Relaying.Progress(0, 0, map[]), steps, t);
    DedupOfPrefix(t.relay.stream, t.audit.position);
    var n := |t.audit.trail|;
    assert Messages(t.life.log[..n]) == Messages(t.life.log[..u.published])[..n];
    forall i | 0 <= i < n ensures Audit.MessageIn(t.audit.trail[i]) == MessageOf(t.life.log[i]) {
      assert Audit.MessagesIn(t.audit.trail)[i] == Messages(t.life.log[..n])[i];
    }
  }

  /** Once every event is marked and the subscriber has caught up, the trail is the whole log. */
  lemma TrailCatchesUp(g: Setting, steps: seq<Step>, t: State)
    requires g.delivery.Reliable? && IsRun(g, INITIAL, steps, t)
    requires forall i | 0 <= i < |t.relay.outbox| :: t.relay.outbox[i].publishedAt != None
    requires t.audit.position == |t.relay.stream|
    ensures Audit.MessagesIn(t.audit.trail) == Messages(t.life.log) && |t.audit.trail| == |t.life.log|
    ensures forall i | 0 <= i < |t.audit.trail| :: var entry, e := t.audit.trail[i], t.life.log[i];
              entry.id == e.id && entry.eventType == e.eventType && entry.payload == e.payload && entry.aggregateId == e.payload.id
  {
    TrailIsPrefixOfLog(g, steps, t);
    var u := RunKeepsInv(g, INITIAL, Relaying.Progress(0, 0, map[]), steps, t);
    if t.relay.outbox != [] {
      assert t.relay.outbox[|t.relay.outbox| - 1].publishedAt != None;
    }
    assert t.relay.stream[..t.audit.position] == t.relay.stream;
    assert t.life.log[..u.published] == t.life.log;
  }

  /** The entry is the record of the event: same id, type and payload, under its payment. */
  ghost predicate Records(entry: Audit.AuditEntry, e: Event) {
    entry.id == e.id && entry.eventType == e.eventType && entry.payload == e.payload && entry.aggregateId == e.aggregateId
  }

  ghost predicate RecordsOneOf(entry: Audit.AuditEntry, log: seq<Event>) {
    exists k :: 0 <= k < |log| && Records(entry, log[k])
  }

  lemma EntryIsInLog(stream: seq<Message>, log: seq<Event>, n: nat, entry: Audit.AuditEntry)
    requires Audit.MessageIn(entry) in stream && entry.aggregateId == entry.payload.id
    requires n <= |log| && forall i | 0 <= i < |stream| :: stream[i] in Messages(log[..n])
    requires forall k | 0 <= k < |log| :: log[k].aggregateId == log[k].payload.id
    ensures RecordsOneOf(entry, log)
  {
    var j :| 0 <= j < |stream| && stream[j] == Audit.MessageIn(entry);
    var ms := Messages(log[..n]);
    var k :| 0 <= k < |ms| && ms[k] == stream[j];
    assert Records(entry, log[k]);
  }

  lemma PayloadsNameAggregates(mode: Lifecycle.Mode, life: seq<Lifecycle.Step>, t: Lifecycle.State)
    requires Lifecycle.IsRun(mode, Lifecycle.INITIAL, life, t)
    ensures forall k | 0 <= k < |t.log| :: t.log[k].aggregateId == t.log[k].payload.id
  {
    Interleavings.StatusIsLastAnnounced(mode, life, t);
    forall k | 0 <= k < |t.log| ensures t.log[k].aggregateId == t.log[k].payload.id {
      assert Lifecycle.Announces(t.log[k], t.rows[t.log[k].aggregateId]);
    }
  }

  /** However messages are reordered, redelivered or dead-lettered, the trail holds no event
      twice and nothing that is not in the log, under the payment it belongs to. */
  lemma TrailIsPartOfLog(g: Setting, steps: seq<Step>, t: State)
    requires IsRun(g, INITIAL, steps, t)
    ensures Audit.DistinctEntries(t.audit.trail)
    ensures forall i | 0 <= i < |t.audit.trail| :: RecordsOneOf(t.audit.trail[i], t.life.log)
  {
    var u := RunKeepsInv(g, INITIAL, Relaying.Progress(0, 0, map[]), steps, t);
    var life := LifeOfRun(g, INITIAL, steps, t);
    PayloadsNameAggregates(g.mode, life, t.life);
    forall i | 0 <= i < |t.audit.trail| ensures RecordsOneOf(t.audit.trail[i], t.life.log) {
      EntryIsInLog(t.relay.stream, t.life.log, u.published, t.audit.trail[i]);
    }
  }

  /** Every beginning of the log shows, for every payment in it, a proper lifecycle. */
  lemma BeginningIsLifecycle(mode: Lifecycle.Mode, life: seq<Lifecycle.Step>, t: Lifecycle.State, n: nat, id: PaymentId)
    requires !mode.AnyInterleaving? && Lifecycle.IsRun(mode, Lifecycle.INITIAL, life, t) && n <= |t.log|
    ensures var seen := History(t.log[..n], id);
            && seen <= History(t.log, id)
            && (seen != [] ==> id in t.rows && IsLifecycle(seen, t.rows[id].captureMethod == Manual))
  {
    var h := History(t.log, id);
    HistoryGrows(t.log[..n], t.log, id);
    if h != [] {
      Interleavings.StatusIsLastAnnounced(mode, life, t);
      if id !in t.rows {
        Lifecycle.NoHistory(t.log, id);
      }
      Serial.LifecycleOrder(mode, life, t, id);
      if History(t.log[..n], id) != [] {
        LifecyclePrefix(h, |History(t.log[..n], id)|, t.rows[id].captureMethod == Manual);
      }
    }
  }

  /** An auditor who reads the trail sees, for every payment it mentions, a beginning of that
      payment's history, and that beginning is itself a proper lifecycle. */
  lemma TrailTellsLifecycles(g: Setting, steps: seq<Step>, t: State, id: PaymentId)
    requires g.delivery.Reliable? && !g.mode.AnyInterleaving? && IsRun(g, INITIAL, steps, t)
    ensures |t.audit.trail| <= |t.life.log|
    ensures var seen := t.life.log[..|t.audit.trail|];
            && Audit.MessagesIn(t.audit.trail) == Messages(seen)
            && History(seen, id) <= History(t.life.log, id)
            && (History(seen, id) != [] ==>
                  id in t.life.rows && IsLifecycle(History(seen, id), t.life.rows[id].captureMethod == Manual))
  {
    TrailIsPrefixOfLog(g, steps, t);
    var life := LifeOfRun(g, INITIAL, steps, t);
    BeginningIsLifecycle(g.mode, life, t.life, |t.audit.trail|, id);
  }
}
