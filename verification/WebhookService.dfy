/** Webhook delivery as it runs: dispatch of an event to its subscribers, and the retry poller. */
module WebhookService {
  import opened Basics
  import opened Webhooks

  datatype Subscription = Subscription(id: string, url: string, secret: string, eventType: string, active: bool)

  /** A due delivery together with the current destination of its subscription. */
  datatype Retriable = Retriable(record: Record, url: string, secret: string)

  /** The delivery object that an attempt updates; the stores keep its value. */
  class Delivery {
    const id: string
    const subscriptionId: string
    const eventId: string
    const eventType: string
    const payload: string
    const createdAt: Time
    var status: DeliveryStatus
    var attempts: int
    var lastError: Reason
    var nextAttemptAt: Time
    var updatedAt: Time

    constructor FromRecord(r: Record)
      ensures Snapshot() == r
    {
      id, subscriptionId, eventId, eventType := r.id, r.subscriptionId, r.eventId, r.eventType;
      payload, status, attempts, lastError := r.payload, r.status, r.attempts, r.lastError;
      nextAttemptAt, createdAt, updatedAt := r.nextAttemptAt, r.createdAt, r.updatedAt;
    }

    function Snapshot(): Record
      reads this
    {
      Record(id, subscriptionId, eventId, eventType, payload, status, attempts, lastError, nextAttemptAt, createdAt, updatedAt)
    }

    method MarkDelivered(stamp: Time)
      modifies this
      ensures Snapshot() == old(Snapshot()).(status := Delivered, attempts := old(attempts) + 1, lastError := NoReason,
                                             nextAttemptAt := 0, updatedAt := stamp)
    {
      status, attempts, lastError, nextAttemptAt, updatedAt := Delivered, attempts + 1, NoReason, 0, stamp;
    }

    method MarkForRetry(reason: Reason, next: Time, stamp: Time)
      modifies this
      ensures Snapshot() == old(Snapshot()).(status := Failed, attempts := old(attempts) + 1, lastError := reason,
                                             nextAttemptAt := next, updatedAt := stamp)
    {
      status, attempts, lastError, nextAttemptAt, updatedAt := Failed, attempts + 1, reason, next, stamp;
    }

    method MarkExhausted(reason: Reason, stamp: Time)
      modifies this
      ensures Snapshot() == old(Snapshot()).(status := Exhausted, attempts := old(attempts) + 1, lastError := reason,
                                             nextAttemptAt := 0, updatedAt := stamp)
    {
      status, attempts, lastError, nextAttemptAt, updatedAt := Exhausted, attempts + 1, reason, 0, stamp;
    }
  }

  method ApplyAttemptOutcome(policy: Policy, d: Delivery, reply: Reply, now: Time, stamp: Time)
    modifies d
    ensures d.Snapshot() == Attempted(policy, old(d.Snapshot()), reply, now, stamp)
  {
    if Succeeded(reply) {
      d.MarkDelivered(stamp);
      return;
    }
    var reason := FailureReason(reply);
    if d.attempts + 1 >= policy.maxAttempts {
      d.MarkExhausted(reason, stamp);
      return;
    }
    d.MarkForRetry(reason, now + NextDelay(policy, d.attempts + 1), stamp);
  }

  class Clock {
    var now: Time

    constructor ()
      ensures now == UNIX_EPOCH
    {
      now := UNIX_EPOCH;
    }

    /** The clock never runs backwards. */
    method Now() returns (t: Time)
      modifies this
      ensures old(now) <= t == now
    {
      var elapsed: int := *;
      if elapsed > 0 {
        now := now + elapsed;
      }
      t := now;
    }
  }

  /** One request to an endpoint, signed with the subscription's secret. */
  datatype Post = Post(url: string, secret: string, eventType: string, webhookId: string, body: string)

  class Sender {
    ghost var sent: seq<Key>
    ghost var posts: seq<Post>
    ghost var replies: seq<Reply>

    constructor ()
      ensures sent == [] && posts == [] && replies == []
    {
      sent, posts, replies := [], [], [];
    }

    /** Posts a webhook; the endpoint may answer anything, or not at all. */
    method Send(url: string, secret: string, eventType: string, webhookId: string, body: string, ghost key: Key)
      returns (reply: Reply)
      modifies this
      ensures sent == old(sent) + [key]
      ensures posts == old(posts) + [Post(url, secret, eventType, webhookId, body)]
      ensures replies == old(replies) + [reply]
    {
      sent, posts := sent + [key], posts + [Post(url, secret, eventType, webhookId, body)];
      var code: int, text: string, answers: bool := *, *, *;
      reply := if answers then Status(code) else SendError(text);
      replies := replies + [reply];
    }
  }

  class SubscriptionRepository {
    var subs: seq<Subscription>

    constructor ()
      ensures subs == []
    {
      subs := [];
    }

    method Save(sub: Subscription)
      modifies this
      ensures subs == old(subs) + [sub]
    {
      subs := subs + [sub];
    }

    method FindActiveByEventType(eventType: string) returns (out: seq<Subscription>)
      ensures out == ActiveOf(subs, eventType)
    {
      out := [];
      var i := 0;
      while i < |subs|
        invariant 0 <= i <= |subs|
        invariant out == ActiveOf(subs[..i], eventType)
      {
        assert Front(subs[..i + 1]) == subs[..i];
        if subs[i].active && subs[i].eventType == eventType {
          out := out + [subs[i]];
        }
        i := i + 1;
      }
      assert subs[..i] == subs;
    }

    method FindActiveById(id: string) returns (found: Option<Subscription>)
      ensures found.Some? ==> found.value in subs && found.value.id == id && found.value.active
      ensures found.None? ==> forall i | 0 <= i < |subs| :: subs[i].id == id ==> !subs[i].active
    {
      var i := 0;
      while i < |subs|
        invariant 0 <= i <= |subs|
        invariant forall j | 0 <= j < i :: subs[j].id == id ==> !subs[j].active
      {
        if subs[i].id == id && subs[i].active {
          return Some(subs[i]);
        }
        i := i + 1;
      }
      return None;
    }
  }

  /** The active subscriptions to an event type, in order of subscription. */
  function ActiveOf(subs: seq<Subscription>, eventType: string): seq<Subscription> {
    if subs == [] then []
    else
      var a := ActiveOf(Front(subs), eventType);
      if Last(subs).active && Last(subs).eventType == eventType then a + [Last(subs)] else a
  }

  /** The item carries the destination of an active subscription, the one its delivery is for. */
  predicate Addressed(subs: seq<Subscription>, item: Retriable) {
    exists i | 0 <= i < |subs| ::
      && subs[i].id == item.record.subscriptionId && subs[i].active
      && subs[i].url == item.url && subs[i].secret == item.secret
  }

  lemma SubscriptionAddresses(subs: seq<Subscription>, sub: Subscription, item: Retriable)
    requires sub in subs && sub.active && sub.id == item.record.subscriptionId
    requires item.url == sub.url && item.secret == sub.secret
    ensures Addressed(subs, item) && HasActive(subs, item.record.subscriptionId)
  {
  }

  predicate ToActive(subs: seq<Subscription>, post: Post) {
    exists i | 0 <= i < |subs| :: subs[i].active && subs[i].url == post.url && subs[i].secret == post.secret
  }

  predicate HasActive(subs: seq<Subscription>, id: string) {
    exists i | 0 <= i < |subs| :: subs[i].id == id && subs[i].active
  }

  class DeliveryRepository {
    var deliveries: map<Key, Record>
    const subs: SubscriptionRepository

    constructor (subs: SubscriptionRepository)
      ensures this.subs == subs && deliveries == map[]
    {
      this.subs, deliveries := subs, map[];
    }

    ghost predicate Valid()
      reads this
    {
      forall k | k in deliveries :: k == KeyOf(deliveries[k].subscriptionId, deliveries[k].eventId)
    }

    method Save(d: Delivery)
      requires Valid()
      modifies this
      ensures Valid()
      ensures deliveries == old(deliveries)[KeyOf(d.subscriptionId, d.eventId) := d.Snapshot()]
    {
      deliveries := deliveries[KeyOf(d.subscriptionId, d.eventId) := d.Snapshot()];
    }

    /** Copies of deliveries that are due and whose subscription is active, with its destination,
        in no particular order, up to the limit: all of them unless the limit was reached. */
    method FetchRetriable(limit: nat, now: Time) returns (items: seq<Retriable>)
      requires Valid()
      ensures forall i | 0 <= i < |items| :: Eligible(items[i].record, now) && Addressed(subs.subs, items[i])
      ensures Distinct(items)
      ensures limit > 0 ==> |items| <= limit
      ensures limit == 0 || |items| < limit ==>
                forall k | k in deliveries && Eligible(deliveries[k], now) :: Fetched(items, deliveries[k])
    {
      items := [];
      var remaining := deliveries.Keys;
      while remaining != {}
        invariant remaining <= deliveries.Keys
        invariant forall i | 0 <= i < |items| ::
                    Eligible(items[i].record, now) && KeyOf(items[i].record.subscriptionId, items[i].record.eventId) !in remaining
        invariant forall i | 0 <= i < |items| :: Addressed(subs.subs, items[i])
        invariant Distinct(items)
        invariant limit > 0 ==> |items| < limit
        invariant forall k | k in deliveries && k !in remaining && Eligible(deliveries[k], now) :: Fetched(items, deliveries[k])
        decreases remaining
      {
        var k :| k in remaining;
        remaining := remaining - {k};
        var d := deliveries[k];
        if d.status != Failed || d.nextAttemptAt == 0 || d.nextAttemptAt > now {
          continue;
        }
        var sub := subs.FindActiveById(d.subscriptionId);
        if sub.None? {
          continue;
        }
        var item := Retriable(d, sub.value.url, sub.value.secret);
        SubscriptionAddresses(subs.subs, sub.value, item);
        FetchedMore(items, item);
        DistinctMore(items, item);
        items := items + [item];
        if |items| == limit {
          return;
        }
      }
    }

    ghost predicate Eligible(r: Record, now: Time)
      reads this, subs
    {
      var k := KeyOf(r.subscriptionId, r.eventId);
      k in deliveries && deliveries[k] == r && Due(r, now) && HasActive(subs.subs, r.subscriptionId)
    }
  }

  ghost predicate Fetched(items: seq<Retriable>, r: Record) {
    exists i | 0 <= i < |items| :: items[i].record == r
  }

  lemma FetchedMore(items: seq<Retriable>, item: Retriable)
    ensures Fetched(items + [item], item.record)
    ensures forall r :: Fetched(items, r) ==> Fetched(items + [item], r)
  {
    assert (items + [item])[|items|] == item;
    forall r | Fetched(items, r) ensures Fetched(items + [item], r) {
      var i :| 0 <= i < |items| && items[i].record == r;
      assert (items + [item])[i].record == r;
    }
  }

  /** No record is fetched twice. */
  ghost predicate Distinct(items: seq<Retriable>) {
    forall i, j | 0 <= i < j < |items| ::
      KeyOf(items[i].record.subscriptionId, items[i].record.eventId) != KeyOf(items[j].record.subscriptionId, items[j].record.eventId)
  }

  lemma DistinctMore(items: seq<Retriable>, item: Retriable)
    requires Distinct(items)
    requires forall i | 0 <= i < |items| ::
               KeyOf(items[i].record.subscriptionId, items[i].record.eventId) != KeyOf(item.record.subscriptionId, item.record.eventId)
    ensures Distinct(items + [item])
  {
  }

  /** A retry that is not saved, and the time it took, as two steps. */
  lemma UnsavedNext(policy: Policy, before: State, steps: seq<Step>, here: State, k: Key, fetched: Time, now: Time,
                    later: Time)
    requires IsRun(policy, before, steps, here) && Enabled(here, RetryUnsaved(k, fetched, now)) && now <= later
    ensures IsRun(policy, before, steps + [RetryUnsaved(k, fetched, now)] + [Tick(later)],
                  here.(clock := later, sent := here.sent + [k], unsaved := here.unsaved + 1))
  {
    var step := RetryUnsaved(k, fetched, now);
    RunExtend(policy, before, steps, here, step);
    RunExtend(policy, before, steps + [step], Apply(policy, here, step), Tick(later));
  }

  lemma RetryNext(policy: Policy, before: State, steps: seq<Step>, here: State, k: Key, fetched: Time, reply: Reply,
                  now: Time, stamp: Time)
    requires IsRun(policy, before, steps, here) && Enabled(here, Retry(k, fetched, reply, now, stamp))
    ensures IsRun(policy, before, steps + [Retry(k, fetched, reply, now, stamp)],
                  here.(records := here.records[k := Attempted(policy, here.records[k], reply, now, stamp)],
                        times := here.times[k := (if k in here.times then here.times[k] else []) + [now]],
                        clock := stamp, sent := here.sent + [k], saved := here.saved + 1))
  {
    RunExtend(policy, before, steps, here, Retry(k, fetched, reply, now, stamp));
  }

  function KeyAt(item: Retriable): Key {
    KeyOf(item.record.subscriptionId, item.record.eventId)
  }

  function KeysOf(items: seq<Retriable>): (keys: seq<Key>)
    ensures |keys| == |items|
  {
    seq(|items|, i requires 0 <= i < |items| => KeyAt(items[i]))
  }

  /** The delivery failed, is scheduled, its time has come, and its subscription is active. */
  ghost predicate DueAndActive(records: map<Key, Record>, subs: seq<Subscription>, k: Key, now: Time) {
    && k in records && records[k].status == Failed && records[k].nextAttemptAt != 0 && records[k].nextAttemptAt <= now
    && exists i :: 0 <= i < |subs| && subs[i].id == records[k].subscriptionId && subs[i].active
  }

  /** The same delivery with one more attempt, delivered if and only if it was answered so. */
  ghost predicate TriedAgain(r: Record, next: Record, reply: Reply) {
    && next.id == r.id && next.payload == r.payload && next.attempts == r.attempts + 1
    && (next.status == Delivered <==> reply.Status? && 200 <= reply.code <= 299)
  }

  ghost predicate TriedSoFar(items: seq<Retriable>, n: nat, records: map<Key, Record>)
    requires n <= |items|
  {
    forall j | 0 <= j < n :: KeyAt(items[j]) in records && records[KeyAt(items[j])].attempts == items[j].record.attempts + 1
  }

  lemma TriedOneMore(items: seq<Retriable>, i: nat, before: map<Key, Record>, after: map<Key, Record>)
    requires i < |items| && Distinct(items) && TriedSoFar(items, i, before)
    requires forall k | k in before && k != KeyAt(items[i]) :: k in after && after[k] == before[k]
    requires KeyAt(items[i]) in after && after[KeyAt(items[i])].attempts == items[i].record.attempts + 1
    ensures TriedSoFar(items, i + 1, after)
  {
  }

  /** Every delivery that was due is among those sent, and has one attempt more. */
  ghost predicate AllTried(before: map<Key, Record>, after: map<Key, Record>, subs: seq<Subscription>, now: Time, sent: seq<Key>) {
    forall k | DueAndActive(before, subs, k, now) :: k in sent && k in after && after[k].attempts == before[k].attempts + 1
  }

  lemma BatchTriesAll(items: seq<Retriable>, before: map<Key, Record>, after: map<Key, Record>, subs: seq<Subscription>,
                      now: Time, fetched: Time)
    requires now <= fetched && TriedSoFar(items, |items|, after)
    requires forall k | k in before :: k == KeyOf(before[k].subscriptionId, before[k].eventId)
    requires forall k | DueAndActive(before, subs, k, fetched) :: Fetched(items, before[k])
    ensures AllTried(before, after, subs, now, KeysOf(items))
  {
    forall k | DueAndActive(before, subs, k, now)
      ensures k in KeysOf(items) && k in after && after[k].attempts == before[k].attempts + 1
    {
      assert DueAndActive(before, subs, k, fetched);
      var i :| 0 <= i < |items| && items[i].record == before[k];
      assert KeysOf(items)[i] == k;
    }
  }

  ghost predicate AllSent(records: map<Key, Record>, subs: seq<Subscription>, now: Time, before: seq<Key>, sent: seq<Key>) {
    before <= sent && forall k | DueAndActive(records, subs, k, now) :: k in sent[|before|..]
  }

  lemma TriedIsSent(records: map<Key, Record>, after: map<Key, Record>, subs: seq<Subscription>, now: Time,
                    before: seq<Key>, sent: seq<Key>)
    requires before <= sent && AllTried(records, after, subs, now, sent[|before|..])
    ensures AllSent(records, subs, now, before, sent)
  {
  }

  lemma SentStays(records: map<Key, Record>, subs: seq<Subscription>, now: Time, before: seq<Key>, sent: seq<Key>, more: seq<Key>)
    requires AllSent(records, subs, now, before, sent) && sent <= more
    ensures AllSent(records, subs, now, before, more)
  {
    assert more[|before|..] == sent[|before|..] + more[|sent|..];
  }

  /** The dispatcher and the retry poller over one store, one sender and one clock. */
  class WebhookDelivery {
    const subs: SubscriptionRepository
    const deliveries: DeliveryRepository
    const sender: Sender
    const clock: Clock
    const policy: Policy
    ghost var times: map<Key, seq<Time>>
    ghost var saved: nat
    ghost var unsaved: nat

    constructor (subs: SubscriptionRepository, deliveries: DeliveryRepository, sender: Sender, clock: Clock,
                 policy: Policy)
      requires deliveries.Valid() && deliveries.subs == subs
      ensures this.subs == subs && this.deliveries == deliveries && this.sender == sender
      ensures this.clock == clock && this.policy == policy && Valid()
      ensures times == map[] && saved == unsaved == 0
    {
      this.subs, this.deliveries, this.sender, this.clock, this.policy := subs, deliveries, sender, clock, policy;
      times, saved, unsaved := map[], 0, 0;
    }

    ghost predicate Valid()
      reads this, deliveries
    {
      deliveries.Valid() && deliveries.subs == subs
    }

    ghost function View(): State
      reads this, deliveries, clock, sender
    {
      State(deliveries.deliveries, times, clock.now, sender.sent, saved, unsaved)
    }

    /** One attempt of a delivery: send, record the outcome, save. */
    method Attempt(d: Delivery, url: string, secret: string, ghost k: Key)
      returns (ok: bool, ghost reply: Reply, ghost now: Time)
      requires Valid() && k == KeyOf(d.subscriptionId, d.eventId)
      modifies d, deliveries, clock, sender
      ensures Valid()
      ensures sender.sent == old(sender.sent) + [k]
      ensures sender.posts == old(sender.posts) + [Post(url, secret, d.eventType, d.eventId, d.payload)]
      ensures sender.replies == old(sender.replies) + [reply]
      ensures old(clock.now) <= now <= clock.now
      ensures ok ==> deliveries.deliveries ==
                     old(deliveries.deliveries)[k := Attempted(policy, old(d.Snapshot()), reply, now, clock.now)]
      ensures !ok ==> deliveries.deliveries == old(deliveries.deliveries)
    {
      var r := sender.Send(url, secret, d.eventType, d.eventId, d.payload, k);
      var t := clock.Now();
      var stamp := clock.Now();
      reply, now := r, t;
      ApplyAttemptOutcome(policy, d, r, t, stamp);
      var fails: bool := *;
      if fails {
        return false, reply, now;
      }
      deliveries.Save(d);
      return true, reply, now;
    }

    /** Delivers one event to one subscription, starting its record afresh. */
    method DispatchOne(sub: Subscription, webhookId: string, eventType: string, payload: string, id: string)
      returns (ok: bool, ghost more: seq<Step>)
      requires Valid()
      modifies this`times, deliveries, clock, sender
      ensures Valid()
      ensures IsRun(policy, old(View()), more, View())
      ensures sender.sent == old(sender.sent) + [KeyOf(sub.id, webhookId)]
      ensures sender.posts == old(sender.posts) + [Post(sub.url, sub.secret, eventType, webhookId, payload)]
      ensures |sender.replies| == |old(sender.replies)| + 1
      ensures ok ==>
                && KeyOf(sub.id, webhookId) in deliveries.deliveries
                && Begun(deliveries.deliveries[KeyOf(sub.id, webhookId)], sub.id, webhookId, eventType, payload, id, Last(sender.replies))
                && old(clock.now) <= deliveries.deliveries[KeyOf(sub.id, webhookId)].createdAt <= clock.now
    {
      ghost var before := View();
      var at := clock.Now();
      more := [Tick(at)];
      assert IsRun(policy, View(), [Tick(at)][1..], View());
      var first := NewRecord(id, sub.id, webhookId, eventType, payload, at);
      var d := new Delivery.FromRecord(first);
      ghost var here, k := View(), KeyOf(sub.id, webhookId);
      ghost var reply, now;
      ok, reply, now := Attempt(d, sub.url, sub.secret, k);
      if !ok {
        RunExtend(policy, before, more, here, DispatchUnsaved(k, now));
        more := more + [DispatchUnsaved(k, now)];
        RunExtend(policy, before, more, here.(clock := now, sent := here.sent + [k]), Tick(clock.now));
        more := more + [Tick(clock.now)];
        return;
      }
      times := times[k := [now]];
      AttemptExact(policy, first, reply, now, clock.now);
      RunExtend(policy, before, more, here, Step.Dispatch(first, reply, now, clock.now));
      more := more + [Step.Dispatch(first, reply, now, clock.now)];
    }

    /** Delivers an event to these subscribers, one by one, and gives up when a record cannot be
        saved, and only then; n of them were sent to, the i-th under the i-th fresh record id. */
    method DispatchAll(active: seq<Subscription>, eventType: string, payload: string, aggregateId: string,
                       digest: string -> string, ids: nat -> string)
      returns (ok: bool, ghost n: nat, ghost steps: seq<Step>)
      requires Valid()
      modifies this`times, deliveries, clock, sender
      ensures Valid() && IsRun(policy, old(View()), steps, View())
      ensures if ok then n == |active| else 0 < n <= |active|
      ensures ok && active != [] ==>
                var k := Targets(active, eventType, aggregateId, digest)[|active| - 1];
                k in deliveries.deliveries && deliveries.deliveries[k].id == ids(|active| - 1)
      ensures sender.sent == old(sender.sent) + Targets(active, eventType, aggregateId, digest)[..n]
      ensures sender.posts == old(sender.posts) + Posts(active, eventType, payload, aggregateId, digest)[..n]
    {
      ghost var before := View();
      ghost var targets := Targets(active, eventType, aggregateId, digest);
      ghost var posts := Posts(active, eventType, payload, aggregateId, digest);
      steps, n := [], 0;
      var i := 0;
      while i < |active|
        invariant 0 <= i == n <= |active|
        invariant i > 0 ==> targets[i - 1] in deliveries.deliveries && deliveries.deliveries[targets[i - 1]].id == ids(i - 1)
        invariant Valid() && IsRun(policy, before, steps, View())
        invariant sender.sent == old(sender.sent) + targets[..i]
        invariant sender.posts == old(sender.posts) + posts[..i]
      {
        ghost var here := View();
        ghost var more;
        var webhookId := DeliveryId(active[i].id, eventType, aggregateId, digest);
        assert targets[..i + 1] == targets[..i] + [KeyOf(active[i].id, webhookId)];
        assert posts[..i + 1] == posts[..i] + [Post(active[i].url, active[i].secret, eventType, webhookId, payload)];
        ok, more := DispatchOne(active[i], webhookId, eventType, payload, ids(i));
        RunConcat(policy, before, steps, here, more, View());
        steps, n := steps + more, i + 1;
        if !ok {
          return;
        }
        i := i + 1;
      }
      ok := true;
    }

    /** Delivers an event to its active subscribers. A run of the transition system. What it sends
        goes to active subscribers of the event type, in their order, each with its own id; on
        success to all of them. */
    method Dispatch(eventType: string, payload: string, aggregateIdOf: string -> string, digest: string -> string,
                    ids: nat -> string)
      returns (ok: bool, ghost steps: seq<Step>)
      requires Valid()
      modifies this`times, deliveries, clock, sender
      ensures Valid()
      ensures IsRun(policy, old(View()), steps, View())
      ensures old(sender.sent) <= sender.sent
      ensures ok ==> sender.sent == old(sender.sent)
                                    + Targets(ActiveOf(subs.subs, eventType), eventType, aggregateIdOf(payload), digest)
      ensures ok ==> sender.posts == old(sender.posts)
                                     + Posts(ActiveOf(subs.subs, eventType), eventType, payload, aggregateIdOf(payload), digest)
      ensures old(sender.posts) <= sender.posts
      ensures !ok ==> |sender.posts| > |old(sender.posts)|
      ensures forall i | |old(sender.posts)| <= i < |sender.posts| ::
                ToSubscriber(subs.subs, sender.posts[i], eventType, payload, aggregateIdOf(payload), digest)
      ensures ok ==>
                forall s | s in subs.subs && s.active && s.eventType == eventType ::
                  Post(s.url, s.secret, eventType, digest(s.id + ":" + eventType + ":" + aggregateIdOf(payload)), payload)
                  in sender.posts[|old(sender.posts)|..]
    {
      var active := subs.FindActiveByEventType(eventType);
      var aggregateId := aggregateIdOf(payload);
      ghost var n;
      ok, n, steps := DispatchAll(active, eventType, payload, aggregateId, digest, ids);
      PostsReach(subs.subs, eventType, payload, aggregateId, digest);
      ghost var posts := Posts(active, eventType, payload, aggregateId, digest);
      assert sender.posts[|old(sender.posts)|..] == posts[..n];
      assert ok ==> posts[..n] == posts;
    }

    /** Retries one fetched delivery whose record has not changed since. */
    method RetryOne(item: Retriable, fetched: Time) returns (ok: bool, ghost more: seq<Step>)
      requires Valid() && deliveries.Eligible(item.record, fetched) && fetched <= clock.now
      modifies this`times, this`saved, this`unsaved, deliveries, clock, sender
      ensures Valid() && old(clock.now) <= clock.now
      ensures sender.sent == old(sender.sent) + [KeyAt(item)]
      ensures sender.posts == old(sender.posts)
                + [Post(item.url, item.secret, item.record.eventType, item.record.eventId, item.record.payload)]
      ensures |sender.replies| == |old(sender.replies)| + 1
      ensures unsaved == old(unsaved) + if ok then 0 else 1
      ensures KeyAt(item) in deliveries.deliveries
      ensures ok ==> TriedAgain(item.record, deliveries.deliveries[KeyAt(item)], Last(sender.replies))
      ensures IsRun(policy, old(View()), more, View()) && AllRetries(more)
      ensures forall k | k in old(deliveries.deliveries) && k != KeyAt(item) ::
                k in deliveries.deliveries && deliveries.deliveries[k] == old(deliveries.deliveries)[k]
    {
      var d := new Delivery.FromRecord(item.record);
      ghost var k := KeyOf(d.subscriptionId, d.eventId);
      ghost var here := View();
      assert IsRun(policy, here, [], here);
      ghost var reply, now;
      ok, reply, now := Attempt(d, item.url, item.secret, k);
      if !ok {
        unsaved := unsaved + 1;
        UnsavedNext(policy, here, [], here, k, fetched, now, clock.now);
        more := [] + [RetryUnsaved(k, fetched, now)] + [Tick(clock.now)];
        return;
      }
      times := times[k := (if k in times then times[k] else []) + [now]];
      saved := saved + 1;
      AttemptExact(policy, item.record, reply, now, clock.now);
      RetryNext(policy, here, [], here, k, fetched, reply, now, clock.now);
      more := [] + [Retry(k, fetched, reply, now, clock.now)];
    }

    /** Fetches a batch: what it holds, in terms of the records alone. */
    method FetchDue(batchSize: nat, now: Time) returns (items: seq<Retriable>)
      requires Valid()
      ensures Valid() && Distinct(items) && (batchSize > 0 ==> |items| <= batchSize)
      ensures forall i | 0 <= i < |items| :: deliveries.Eligible(items[i].record, now) && Addressed(subs.subs, items[i])
      ensures forall i | 0 <= i < |items| ::
                DueAndActive(deliveries.deliveries, subs.subs, KeyAt(items[i]), now)
                && deliveries.deliveries[KeyAt(items[i])] == items[i].record
      ensures batchSize == 0 || |items| < batchSize ==>
                forall k | DueAndActive(deliveries.deliveries, subs.subs, k, now) :: Fetched(items, deliveries.deliveries[k])
    {
      items := deliveries.FetchRetriable(batchSize, now);
      assert forall i | 0 <= i < |items| :: deliveries.Eligible(items[i].record, now);
      if batchSize == 0 || |items| < batchSize {
        forall k | DueAndActive(deliveries.deliveries, subs.subs, k, now) ensures Fetched(items, deliveries.deliveries[k]) {
          assert deliveries.Eligible(deliveries.deliveries[k], now);
        }
      }
    }

    /** Retries fetched deliveries, one by one, and gives up when one cannot be saved, and only then. */
    method RetryAll(items: seq<Retriable>, fetched: Time) returns (ok: bool, ghost steps: seq<Step>)
      requires Valid() && fetched <= clock.now && Distinct(items)
      requires forall i | 0 <= i < |items| :: deliveries.Eligible(items[i].record, fetched) && Addressed(subs.subs, items[i])
      modifies this`times, this`saved, this`unsaved, deliveries, clock, sender
      ensures Valid() && old(clock.now) <= clock.now
      ensures IsRun(policy, old(View()), steps, View()) && AllRetries(steps)
      ensures unsaved == old(unsaved) + if ok then 0 else 1
      ensures old(sender.sent) <= sender.sent && old(sender.posts) <= sender.posts
      ensures forall i | |old(sender.posts)| <= i < |sender.posts| :: ToActive(subs.subs, sender.posts[i])
      ensures ok ==> sender.sent == old(sender.sent) + KeysOf(items) && TriedSoFar(items, |items|, deliveries.deliveries)
    {
      ghost var before := View();
      steps := [];
      var i := 0;
      while i < |items|
        invariant 0 <= i <= |items|
        invariant Valid() && fetched <= clock.now && old(clock.now) <= clock.now && unsaved == old(unsaved)
        invariant IsRun(policy, before, steps, View()) && AllRetries(steps)
        invariant forall j | i <= j < |items| :: deliveries.Eligible(items[j].record, fetched)
        invariant TriedSoFar(items, i, deliveries.deliveries)
        invariant sender.sent == old(sender.sent) + KeysOf(items)[..i]
        invariant old(sender.posts) <= sender.posts
        invariant forall j | |old(sender.posts)| <= j < |sender.posts| :: ToActive(subs.subs, sender.posts[j])
      {
        ghost var here := View();
        ghost var more;
        assert Addressed(subs.subs, items[i]);
        assert KeysOf(items)[..i + 1] == KeysOf(items)[..i] + [KeyAt(items[i])];
        ok, more := RetryOne(items[i], fetched);
        RunConcat(policy, before, steps, here, more, View());
        steps := steps + more;
        if !ok {
          return;
        }
        TriedOneMore(items, i, here.records, deliveries.deliveries);
        i := i + 1;
      }
      ok := true;
    }

    /** Retries a batch of due deliveries. A run of retries, each sent to an active subscription:
        only due records change. It fails when one cannot be saved, and only then; otherwise, when
        the batch was not full, every delivery that was due has been tried once more. */
    method RetryBatch(batchSize: nat) returns (ok: bool, ghost steps: seq<Step>)
      requires Valid()
      modifies this`times, this`saved, this`unsaved, deliveries, clock, sender
      ensures Valid() && old(clock.now) <= clock.now
      ensures IsRun(policy, old(View()), steps, View()) && AllRetries(steps)
      ensures unsaved == old(unsaved) + if ok then 0 else 1
      ensures old(sender.sent) <= sender.sent && old(sender.posts) <= sender.posts
      ensures forall i | |old(sender.posts)| <= i < |sender.posts| :: ToActive(subs.subs, sender.posts[i])
      ensures ok && (batchSize == 0 || |sender.sent| - |old(sender.sent)| < batchSize) ==>
                AllTried(old(deliveries.deliveries), deliveries.deliveries, subs.subs, old(clock.now), sender.sent[|old(sender.sent)|..])
    {
      ghost var before := View();
      var fetched := clock.Now();
      ghost var here, tick := View(), [Tick(fetched)];
      assert IsRun(policy, here, tick[1..], here);
      var items := FetchDue(batchSize, fetched);
      ok, steps := RetryAll(items, fetched);
      RunConcat(policy, before, tick, here, steps, View());
      steps := tick + steps;
      if ok && (batchSize == 0 || |items| < batchSize) {
        BatchTriesAll(items, before.records, deliveries.deliveries, subs.subs, before.clock, fetched);
        assert sender.sent[|old(sender.sent)|..] == KeysOf(items);
      }
    }

    /** The polling loop, for a given number of ticks, failed batches included: however it goes,
        the sends are bounded by the attempts left at its start plus the saves that failed. It
        fails only when a save does; and if none does and batches are not bounded, everything
        that was due at its start has been sent. */
    method Run(ticks: nat, batchSize: nat) returns (failures: nat)
      requires Valid() && Inv(policy, View())
      modifies this`times, this`saved, this`unsaved, deliveries, clock, sender
      ensures Valid() && Inv(policy, View())
      ensures old(sender.sent) <= sender.sent
      ensures |sender.sent| - |old(sender.sent)| <= Potential(policy, old(deliveries.deliveries)) + (unsaved - old(unsaved))
      ensures forall k | k in old(deliveries.deliveries) && old(deliveries.deliveries)[k].status in {Delivered, Exhausted} ::
                && k in deliveries.deliveries && deliveries.deliveries[k] == old(deliveries.deliveries)[k]
                && k !in sender.sent[|old(sender.sent)|..]
      ensures unsaved == old(unsaved) + failures
      ensures ticks > 0 && failures == 0 && batchSize == 0 ==>
                AllSent(old(deliveries.deliveries), subs.subs, old(clock.now), old(sender.sent), sender.sent)
    {
      ghost var before := View();
      ghost var steps := [];
      failures := 0;
      var tick := 0;
      while tick < ticks
        invariant 0 <= tick <= ticks
        invariant Valid() && IsRun(policy, before, steps, View()) && AllRetries(steps)
        invariant unsaved == old(unsaved) + failures
        invariant tick == 0 ==> View() == before
        invariant before.sent <= sender.sent
        invariant tick > 0 && failures == 0 && batchSize == 0 ==>
                    AllSent(before.records, subs.subs, before.clock, before.sent, sender.sent)
      {
        ghost var here := View();
        var ok, more := RetryBatch(batchSize);
        RunConcat(policy, before, steps, here, more, View());
        steps := steps + more;
        if !ok {
          failures := failures + 1;
        }
        if failures == 0 && batchSize == 0 {
          if tick == 0 {
            TriedIsSent(before.records, deliveries.deliveries, subs.subs, before.clock, before.sent, sender.sent);
          } else {
            SentStays(before.records, subs.subs, before.clock, before.sent, here.sent, sender.sent);
          }
        }
        tick := tick + 1;
      }
      RunKeepsInv(policy, before, steps, View());
      RetriesAreBounded(policy, before, steps, View());
      forall k | k in before.records && before.records[k].status in {Delivered, Exhausted}
        ensures && k in deliveries.deliveries && deliveries.deliveries[k] == before.records[k]
                && before.sent <= sender.sent && k !in sender.sent[|before.sent|..]
      {
        TerminalRecordsRest(policy, before, steps, View(), k);
      }
    }
  }

  /** A record after its first attempt: everything as dispatched, and delivered if and only if
      the answer was a status from 200 to 299. */
  ghost predicate Begun(r: Record, subscriptionId: string, webhookId: string, eventType: string, payload: string, id: string, reply: Reply) {
    && r.id == id && r.subscriptionId == subscriptionId && r.eventId == webhookId && r.eventType == eventType
    && r.payload == payload && r.attempts == 1
    && (r.status == Delivered <==> reply.Status? && 200 <= reply.code <= 299)
  }

  lemma {:induction false} ActiveOfConcat(a: seq<Subscription>, b: seq<Subscription>, eventType: string)
    ensures ActiveOf(a + b, eventType) == ActiveOf(a, eventType) + ActiveOf(b, eventType)
  {
    if b == [] {
      assert a + b == a;
    } else {
      assert Front(a + b) == a + Front(b);
      ActiveOfConcat(a, Front(b), eventType);
    }
  }

  /** Exactly the active subscriptions to the type, each as often as it is stored. */
  lemma {:induction false} ActiveOfExact(subs: seq<Subscription>, eventType: string, s: Subscription)
    ensures multiset(ActiveOf(subs, eventType))[s] == if s.active && s.eventType == eventType then multiset(subs)[s] else 0
  {
    if subs != [] {
      ActiveOfExact(Front(subs), eventType, s);
      assert subs == Front(subs) + [Last(subs)];
    }
  }

  lemma {:induction false} ActiveOfSelects(subs: seq<Subscription>, eventType: string)
    ensures forall s :: s in ActiveOf(subs, eventType) <==> s in subs && s.active && s.eventType == eventType
  {
    forall s ensures s in ActiveOf(subs, eventType) <==> s in subs && s.active && s.eventType == eventType {
      ActiveOfExact(subs, eventType, s);
      assert s in multiset(subs) <==> s in subs;
      assert s in multiset(ActiveOf(subs, eventType)) <==> s in ActiveOf(subs, eventType);
    }
  }

  /** The post takes the event to some active subscriber of its type. */
  predicate ToSubscriber(subs: seq<Subscription>, post: Post, eventType: string, payload: string, aggregateId: string,
                         digest: string -> string) {
    exists i | 0 <= i < |subs| ::
      && subs[i].active && subs[i].eventType == eventType
      && post == Post(subs[i].url, subs[i].secret, eventType, digest(subs[i].id + ":" + eventType + ":" + aggregateId), payload)
  }

  lemma PostsReach(subs: seq<Subscription>, eventType: string, payload: string, aggregateId: string, digest: string -> string)
    ensures var posts := Posts(ActiveOf(subs, eventType), eventType, payload, aggregateId, digest);
            && (forall i | 0 <= i < |posts| :: ToSubscriber(subs, posts[i], eventType, payload, aggregateId, digest))
            && (forall s | s in subs && s.active && s.eventType == eventType ::
                  Post(s.url, s.secret, eventType, digest(s.id + ":" + eventType + ":" + aggregateId), payload) in posts)
  {
    var active := ActiveOf(subs, eventType);
    var posts := Posts(active, eventType, payload, aggregateId, digest);
    ActiveOfSelects(subs, eventType);
    forall i | 0 <= i < |posts| ensures ToSubscriber(subs, posts[i], eventType, payload, aggregateId, digest) {
      assert active[i] in active;
      var j :| 0 <= j < |subs| && subs[j] == active[i];
    }
    forall s | s in subs && s.active && s.eventType == eventType
      ensures Post(s.url, s.secret, eventType, digest(s.id + ":" + eventType + ":" + aggregateId), payload) in posts
    {
      assert s in active;
      var i :| 0 <= i < |active| && active[i] == s;
      assert posts[i] == Post(s.url, s.secret, eventType, DeliveryId(s.id, eventType, aggregateId, digest), payload);
    }
  }

  /** With a digest that tells inputs apart, deliveries to different subscriptions, of different
      event types or of different payments never share an id. */
  lemma DeliveryIdsAreDistinct(s1: string, t1: string, p1: string, s2: string, t2: string, p2: string, digest: string -> string)
    requires forall x, y :: digest(x) == digest(y) ==> x == y
    requires ':' !in s1 && ':' !in s2 && ':' !in t1 && ':' !in t2
    ensures DeliveryId(s1, t1, p1, digest) == DeliveryId(s2, t2, p2, digest) <==> s1 == s2 && t1 == t2 && p1 == p2
  {
    if DeliveryId(s1, t1, p1, digest) == DeliveryId(s2, t2, p2, digest) {
      assert s1 + ":" + t1 + ":" + p1 == s1 + ":" + (t1 + ":" + p1) && s2 + ":" + t2 + ":" + p2 == s2 + ":" + (t2 + ":" + p2);
      SplitAtColon(s1, t1 + ":" + p1, s2, t2 + ":" + p2);
      SplitAtColon(t1, p1, t2, p2);
    }
  }

  /** The same for every delivery of an event type of one payment to one subscription. */
  function DeliveryId(subscriptionId: string, eventType: string, aggregateId: string,
                      digest: string -> string): string {
    digest(subscriptionId + ":" + eventType + ":" + aggregateId)
  }

  /** The requests that deliver one event to these subscriptions. */
  function Posts(subs: seq<Subscription>, eventType: string, payload: string, aggregateId: string,
                 digest: string -> string): (posts: seq<Post>)
    ensures |posts| == |subs|
  {
    seq(|subs|, i requires 0 <= i < |subs| =>
      Post(subs[i].url, subs[i].secret, eventType, DeliveryId(subs[i].id, eventType, aggregateId, digest), payload))
  }

  /** The keys of the deliveries of one event to these subscriptions. */
  function Targets(subs: seq<Subscription>, eventType: string, aggregateId: string,
                   digest: string -> string): (keys: seq<Key>)
    ensures |keys| == |subs|
  {
    seq(|subs|, i requires 0 <= i < |subs| => KeyOf(subs[i].id, DeliveryId(subs[i].id, eventType, aggregateId, digest)))
  }

  /** The record that the delivery of a payment's refund event to a subscription starts from. */
  function RefundRecord(id: string, subscriptionId: string, paymentId: string, payload: string,
                        digest: string -> string): Record {
    NewRecord(id, subscriptionId, DeliveryId(subscriptionId, "payment.refunded", paymentId, digest), "payment.refunded", payload, UNIX_EPOCH)
  }

  /** When every record is delivered or exhausted, the poller sends and changes nothing. */
  lemma {:induction false} AllAtRest(policy: Policy, s: State, steps: seq<Step>, t: State)
    requires IsRun(policy, s, steps, t) && AllRetries(steps)
    requires forall k | k in s.records :: s.records[k].status in {Delivered, Exhausted}
    ensures t.records == s.records && t.sent == s.sent
    decreases |steps|
  {
    if steps != [] {
      assert IsRetry(steps[0]);
      AllAtRest(policy, Apply(policy, s, steps[0]), steps[1..], t);
    }
  }

  /** Two partial refunds of one payment: the delivery of the first fails and is scheduled for a
      retry, that of the second succeeds. They share a key, so however the poller goes on, the
      first is never sent again, and nothing of it is left in the store. */
  lemma SecondRefundSilencesFirst(policy: Policy, subscriptionId: string, paymentId: string, digest: string -> string,
                                  firstPayload: string, secondPayload: string)
    returns (fail: Step, s: State, pass: Step, t: State, k: Key)
    requires policy.maxAttempts > 1
    ensures fail.Dispatch? && fail.first == RefundRecord("1", subscriptionId, paymentId, firstPayload, digest)
    ensures pass.Dispatch? && pass.first == RefundRecord("2", subscriptionId, paymentId, secondPayload, digest)
    ensures IsRun(policy, INITIAL, [fail], s) && IsRun(policy, s, [pass], t)
    ensures s.records.Keys == {k} && s.records[k].status == Failed && s.records[k].payload == firstPayload
    ensures t.records.Keys == {k} && t.records[k].status == Delivered && t.records[k].payload == secondPayload
    ensures t.sent == [k, k]
    ensures forall more, u | AllRetries(more) && IsRun(policy, t, more, u) :: u.records == t.records && u.sent == t.sent
  {
    k := KeyOf(subscriptionId, DeliveryId(subscriptionId, "payment.refunded", paymentId, digest));
    fail := Step.Dispatch(RefundRecord("1", subscriptionId, paymentId, firstPayload, digest), Status(500), UNIX_EPOCH, UNIX_EPOCH);
    pass := Step.Dispatch(RefundRecord("2", subscriptionId, paymentId, secondPayload, digest), Status(200), UNIX_EPOCH, UNIX_EPOCH);
    s := Apply(policy, INITIAL, fail);
    t := Apply(policy, s, pass);
    assert IsRun(policy, s, [fail][1..], s) && IsRun(policy, t, [pass][1..], t);
    forall more, u | AllRetries(more) && IsRun(policy, t, more, u) ensures u.records == t.records && u.sent == t.sent {
      AllAtRest(policy, t, more, u);
    }
  }
}
