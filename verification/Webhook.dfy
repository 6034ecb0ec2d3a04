/**
 Webhook delivery with retries, as a transition system over the delivery records: the
 backoff arithmetic, the record invariant, the bound on sends, and the spacing of attempts.
 */
module Webhooks {
  import opened Basics

  type Key = string

  datatype DeliveryStatus = Pending | Delivered | Failed | Exhausted

  /** Why the last attempt failed. */
  datatype Reason = NoReason | Transport(text: string) | UnexpectedStatus(code: int)

  /** The value of a delivery; a nextAttemptAt of zero is the zero time: no retry is scheduled. */
  datatype Record = Record(
    id: string,
    subscriptionId: string,
    eventId: string,
    eventType: string,
    payload: string,
    status: DeliveryStatus,
    attempts: int,
    lastError: Reason,
    nextAttemptAt: Time,
    createdAt: Time,
    updatedAt: Time)

  datatype Policy = Policy(maxAttempts: int, baseDelay: int64)

  /** What a send reports: a status code, or a transport error. */
  datatype Reply = Status(code: int) | SendError(text: string)

  // ----- Backoff -----

  /** A left shift of a 64-bit value: bits beyond the 64th are lost. */
  function Shl64(x: int64, n: nat): int64 {
    Wrap64(x * Pow2(n))
  }

  function NextDelay(policy: Policy, attempt: int): int64 {
    Shl64(policy.baseDelay, (if attempt < 1 then 1 else attempt) - 1)
  }

  /** The longest delay the policy ever schedules fits in 64 bits. */
  predicate Fits(policy: Policy) {
    policy.maxAttempts < 2 || FitsInt64(policy.baseDelay * Pow2(policy.maxAttempts - 2))
  }

  lemma {:induction false} Pow2Grows(x: int, m: nat, n: nat)
    requires m <= n && FitsInt64(x * Pow2(n))
    ensures FitsInt64(x * Pow2(m))
    decreases n
  {
    if m < n {
      var y := x * Pow2(n - 1);
      assert x * Pow2(n) == 2 * y;
      Pow2Grows(x, m, n - 1);
    }
  }

  /** Every delay the policy schedules is the base doubled once per earlier attempt, if and
      only if the longest one fits in 64 bits. */
  lemma DelaysExactIffFits(policy: Policy)
    ensures (forall n | 1 <= n < policy.maxAttempts :: NextDelay(policy, n) == policy.baseDelay * Pow2(n - 1))
            <==> Fits(policy)
  {
    if Fits(policy) {
      forall n | 1 <= n < policy.maxAttempts ensures NextDelay(policy, n) == policy.baseDelay * Pow2(n - 1) {
        Pow2Grows(policy.baseDelay, n - 1, policy.maxAttempts - 2);
      }
    } else {
      assert NextDelay(policy, policy.maxAttempts - 1) != policy.baseDelay * Pow2(policy.maxAttempts - 2);
    }
  }

  // ----- One attempt -----

  function NewRecord(id: string, subscriptionId: string, eventId: string, eventType: string, payload: string,
                     at: Time): Record {
    Record(id, subscriptionId, eventId, eventType, payload, Pending, 0, NoReason, 0, at, at)
  }

  function Succeeded(reply: Reply): bool {
    reply.Status? && 200 <= reply.code < 300
  }

  function FailureReason(reply: Reply): Reason {
    match reply
    case Status(code) => UnexpectedStatus(code)
    case SendError(text) => Transport(text)
  }

  /** The record after an attempt: delivered, exhausted, or failed and scheduled again. */
  function Attempted(policy: Policy, r: Record, reply: Reply, now: Time, stamp: Time): Record {
    var n := r.attempts + 1;
    if Succeeded(reply) then
      r.(status := Delivered, attempts := n, lastError := NoReason, nextAttemptAt := 0, updatedAt := stamp)
    else if n >= policy.maxAttempts then
      r.(status := Exhausted, attempts := n, lastError := FailureReason(reply), nextAttemptAt := 0, updatedAt := stamp)
    else
      r.(status := Failed, attempts := n, lastError := FailureReason(reply),
         nextAttemptAt := now + NextDelay(policy, n), updatedAt := stamp)
  }

  /** An attempt delivers if and only if the endpoint answered with a status from 200 to 299. Any
      other answer is recorded as the reason, and is final if it used up the attempts, else
      scheduled. The rest of the record stays. */
  lemma AttemptExact(policy: Policy, r: Record, reply: Reply, now: Time, stamp: Time)
    ensures var next := Attempted(policy, r, reply, now, stamp);
            && (next.status == Delivered <==> reply.Status? && 200 <= reply.code <= 299)
            && (next.status == Exhausted <==> !(reply.Status? && 200 <= reply.code <= 299) && r.attempts + 1 >= policy.maxAttempts)
            && (next.status == Failed <==> !(reply.Status? && 200 <= reply.code <= 299) && r.attempts + 1 < policy.maxAttempts)
            && (next.status == Delivered ==> next.lastError == NoReason && next.nextAttemptAt == 0)
            && (next.status != Delivered ==>
                  next.lastError == match reply case Status(code) => UnexpectedStatus(code) case SendError(text) => Transport(text))
            && (next.status == Exhausted ==> next.nextAttemptAt == 0)
            && (next.status == Failed ==> next.nextAttemptAt == now + NextDelay(policy, r.attempts + 1))
            && next.attempts == r.attempts + 1 && next.updatedAt == stamp
            && next.id == r.id && next.subscriptionId == r.subscriptionId && next.eventId == r.eventId
            && next.eventType == r.eventType && next.payload == r.payload && next.createdAt == r.createdAt
  {
  }

  /** The delay after the n-th attempt, as computed, differs from the base doubled n - 1 times by
      a multiple of 2 to the 64th. */
  lemma DelayModulo(policy: Policy, n: nat)
    requires n >= 1
    ensures (NextDelay(policy, n) - policy.baseDelay * Pow2(n - 1)) % TWO_TO_THE_64 == 0
  {
    Wrap64Exact(policy.baseDelay * Pow2(n - 1), NextDelay(policy, n));
    var d := policy.baseDelay * Pow2(n - 1) - NextDelay(policy, n);
    assert -d == TWO_TO_THE_64 * -(d / TWO_TO_THE_64);
  }

  /** After an attempt the record is due from the scheduled time on if it failed with attempts
      left, and never otherwise. */
  lemma DueFromSchedule(policy: Policy, r: Record, reply: Reply, now: Time, stamp: Time, at: Time)
    requires UNIX_EPOCH <= now
    ensures Due(Attempted(policy, r, reply, now, stamp), at) <==>
            !(reply.Status? && 200 <= reply.code <= 299) && r.attempts + 1 < policy.maxAttempts
            && now + NextDelay(policy, r.attempts + 1) <= at
  {
  }

  lemma {:induction false} SplitAtColon(a: string, b: string, c: string, d: string)
    requires ':' !in a && ':' !in c && a + ":" + b == c + ":" + d
    ensures a == c && b == d
    decreases a
  {
    var s, t := a + ":" + b, c + ":" + d;
    assert s[0] == if a == [] then ':' else a[0];
    assert t[0] == if c == [] then ':' else c[0];
    if a == [] {
      assert b == s[1..] == t[1..] == d;
    } else {
      assert s[1..] == a[1..] + ":" + b && t[1..] == c[1..] + ":" + d;
      SplitAtColon(a[1..], b, c[1..], d);
    }
  }

  /** Records of different subscriptions or events never share a key, as long as subscription ids
      hold no colon. */
  lemma KeysAreDistinct(s1: string, e1: string, s2: string, e2: string)
    requires ':' !in s1 && ':' !in s2
    ensures KeyOf(s1, e1) == KeyOf(s2, e2) <==> s1 == s2 && e1 == e2
  {
    if KeyOf(s1, e1) == KeyOf(s2, e2) {
      SplitAtColon(s1, e1, s2, e2);
    }
  }

  function KeyOf(subscriptionId: string, eventId: string): Key {
    subscriptionId + ":" + eventId
  }

  /** The retry poller's choice: failed, scheduled, and due. */
  predicate Due(r: Record, now: Time) {
    r.status == Failed && r.nextAttemptAt != 0 && r.nextAttemptAt <= now
  }

  // ----- The transition system -----

  /** times: for each record, when its attempts since the last dispatch were recorded.
      sent: the key of every send, in order. saved, unsaved: retries by whether they were saved. */
  datatype State = State(
    records: map<Key, Record>,
    times: map<Key, seq<Time>>,
    clock: Time,
    sent: seq<Key>,
    saved: nat,
    unsaved: nat)

  /** The Unix epoch, counted from the zero time; the clock never reads earlier. */
  const UNIX_EPOCH: Time := 62_135_596_800_000_000_000

  const INITIAL := State(map[], map[], UNIX_EPOCH, [], 0, 0)

  datatype Step =
    | Dispatch(first: Record, reply: Reply, now: Time, stamp: Time)
    | DispatchUnsaved(key: Key, now: Time)
    | Retry(key: Key, fetched: Time, reply: Reply, now: Time, stamp: Time)
    | RetryUnsaved(key: Key, fetched: Time, now: Time)
    | Tick(now: Time)

  /** Everything but a dispatch: retries, and time passing. */
  predicate IsRetry(step: Step) {
    step.Retry? || step.RetryUnsaved? || step.Tick?
  }

  predicate AllRetries(steps: seq<Step>) {
    forall i | 0 <= i < |steps| :: IsRetry(steps[i])
  }

  ghost predicate Enabled(s: State, step: Step) {
    match step
    case Dispatch(first, _, now, stamp) => s.clock <= now <= stamp && first.status == Pending && first.attempts == 0
    case DispatchUnsaved(_, now) => s.clock <= now
    case Retry(k, fetched, _, now, stamp) => s.clock <= now <= stamp && fetched <= now && k in s.records && Due(s.records[k], fetched)
    case RetryUnsaved(k, fetched, now) => s.clock <= now && fetched <= now && k in s.records && Due(s.records[k], fetched)
    case Tick(now) => s.clock <= now
  }

  ghost function Apply(policy: Policy, s: State, step: Step): State
    requires Enabled(s, step)
  {
    match step
    case Dispatch(first, reply, now, stamp) =>
      var k := KeyOf(first.subscriptionId, first.eventId);
      s.(records := s.records[k := Attempted(policy, first, reply, now, stamp)], times := s.times[k := [now]],
         clock := stamp, sent := s.sent + [k])
    case DispatchUnsaved(k, now) => s.(clock := now, sent := s.sent + [k])
    case Retry(k, _, reply, now, stamp) =>
      s.(records := s.records[k := Attempted(policy, s.records[k], reply, now, stamp)],
         times := s.times[k := (if k in s.times then s.times[k] else []) + [now]],
         clock := stamp, sent := s.sent + [k], saved := s.saved + 1)
    case RetryUnsaved(k, _, now) => s.(clock := now, sent := s.sent + [k], unsaved := s.unsaved + 1)
    case Tick(now) => s.(clock := now)
  }

  ghost predicate IsRun(policy: Policy, s: State, steps: seq<Step>, t: State)
    decreases |steps|
  {
    if steps == [] then s == t
    else Enabled(s, steps[0]) && IsRun(policy, Apply(policy, s, steps[0]), steps[1..], t)
  }

  lemma {:induction false} RunExtend(policy: Policy, s: State, steps: seq<Step>, t: State, step: Step)
    requires IsRun(policy, s, steps, t) && Enabled(t, step)
    ensures IsRun(policy, s, steps + [step], Apply(policy, t, step))
    decreases |steps|
  {
    if steps == [] {
      assert (steps + [step])[1..] == [];
    } else {
      assert (steps + [step])[1..] == steps[1..] + [step];
      RunExtend(policy, Apply(policy, s, steps[0]), steps[1..], t, step);
    }
  }

  lemma {:induction false} RunConcat(policy: Policy, s: State, a: seq<Step>, t: State, b: seq<Step>, u: State)
    requires IsRun(policy, s, a, t) && IsRun(policy, t, b, u)
    ensures IsRun(policy, s, a + b, u)
    decreases |a|
  {
    if a == [] {
      assert a + b == b;
    } else {
      assert (a + b)[1..] == a[1..] + b;
      RunConcat(policy, Apply(policy, s, a[0]), a[1..], t, b, u);
    }
  }

  // ----- The record invariant -----

  /** A cap below one acts as a cap of one: the first attempt is always made. */
  function Cap(policy: Policy): int {
    if policy.maxAttempts < 1 then 1 else policy.maxAttempts
  }

  predicate RecordOk(policy: Policy, r: Record) {
    match r.status
    case Pending => false
    case Failed => 1 <= r.attempts < Cap(policy) && r.nextAttemptAt != 0
    case Exhausted => r.attempts == Cap(policy) && r.nextAttemptAt == 0
    case Delivered => 1 <= r.attempts <= Cap(policy) && r.nextAttemptAt == 0
  }

  /** The attempts of a record are spaced by at least the delay scheduled after each. */
  ghost predicate TimesOk(policy: Policy, r: Record, times: seq<Time>, clock: Time) {
    && |times| == r.attempts > 0
    && times[|times| - 1] <= clock
    && (forall i | 0 <= i < |times| - 1 :: times[i] + NextDelay(policy, i + 1) <= times[i + 1])
    && (r.status == Failed ==> r.nextAttemptAt == times[|times| - 1] + NextDelay(policy, r.attempts))
  }

  ghost predicate KeyOk(policy: Policy, s: State, k: Key)
    requires k in s.records
  {
    k in s.times && RecordOk(policy, s.records[k]) && TimesOk(policy, s.records[k], s.times[k], s.clock)
  }

  ghost predicate Inv(policy: Policy, s: State) {
    UNIX_EPOCH <= s.clock && forall k | k in s.records :: KeyOk(policy, s, k)
  }

  lemma AttemptKeepsRecordOk(policy: Policy, r: Record, reply: Reply, now: Time, stamp: Time)
    requires UNIX_EPOCH <= now
    requires (r.status == Pending && r.attempts == 0) || (r.status == Failed && RecordOk(policy, r))
    ensures RecordOk(policy, Attempted(policy, r, reply, now, stamp))
  {
  }

  /** Retrying a due record records an attempt that is late enough. */
  lemma RetryKeepsTimes(policy: Policy, r: Record, times: seq<Time>, clock: Time, reply: Reply, fetched: Time,
                        now: Time, stamp: Time)
    requires TimesOk(policy, r, times, clock) && Due(r, fetched) && fetched <= now <= stamp
    ensures TimesOk(policy, Attempted(policy, r, reply, now, stamp), times + [now], stamp)
  {
  }

  lemma OthersKeepKeyOk(policy: Policy, s: State, t: State, k: Key)
    requires k in s.records && KeyOk(policy, s, k)
    requires k in t.records && k in t.times && t.records[k] == s.records[k] && t.times[k] == s.times[k]
    requires s.clock <= t.clock
    ensures KeyOk(policy, t, k)
  {
  }

  lemma StepKeepsInv(policy: Policy, s: State, step: Step)
    requires Inv(policy, s) && Enabled(s, step)
    ensures Inv(policy, Apply(policy, s, step))
  {
    var t := Apply(policy, s, step);
    var written := match step
      case Dispatch(first, _, _, _) => KeyOf(first.subscriptionId, first.eventId)
      case DispatchUnsaved(k, _) => k
      case Retry(k, _, _, _, _) => k
      case RetryUnsaved(k, _, _) => k
      case Tick(_) => "";
    if step.Dispatch? {
      AttemptKeepsRecordOk(policy, step.first, step.reply, step.now, step.stamp);
    } else if step.Retry? {
      assert KeyOk(policy, s, written);
      AttemptKeepsRecordOk(policy, s.records[written], step.reply, step.now, step.stamp);
      RetryKeepsTimes(policy, s.records[written], s.times[written], s.clock, step.reply, step.fetched, step.now, step.stamp);
    }
    forall k | k in t.records ensures KeyOk(policy, t, k) {
      if k != written || (!step.Dispatch? && !step.Retry?) {
        OthersKeepKeyOk(policy, s, t, k);
      }
    }
  }

  lemma {:induction false} RunKeepsInv(policy: Policy, s: State, steps: seq<Step>, t: State)
    requires Inv(policy, s) && IsRun(policy, s, steps, t)
    ensures Inv(policy, t)
    decreases |steps|
  {
    if steps != [] {
      StepKeepsInv(policy, s, steps[0]);
      RunKeepsInv(policy, Apply(policy, s, steps[0]), steps[1..], t);
    }
  }

  /** In every run, whatever the policy: failed records have attempts left and a schedule, and
      only they have one; exhausted records have used up the cap; delivered ones kept to it. */
  lemma RecordsAreSound(policy: Policy, steps: seq<Step>, t: State, k: Key)
    requires IsRun(policy, INITIAL, steps, t) && k in t.records
    ensures var r := t.records[k];
            && r.status != Pending
            && (r.status == Failed <==> r.nextAttemptAt != 0)
            && (r.status == Failed ==> 1 <= r.attempts < policy.maxAttempts)
            && (r.status == Exhausted ==> r.attempts == Cap(policy))
            && 1 <= r.attempts <= Cap(policy)
  {
    RunKeepsInv(policy, INITIAL, steps, t);
    assert KeyOk(policy, t, k);
  }

  // ----- Between dispatches -----

  function AttemptsLeft(policy: Policy, r: Record): int {
    if r.status == Failed then policy.maxAttempts - r.attempts else 0
  }

  ghost function Weights(policy: Policy, records: map<Key, Record>): map<Key, int> {
    map k | k in records :: AttemptsLeft(policy, records[k])
  }

  ghost function Potential(policy: Policy, records: map<Key, Record>): int {
    MapSum(Weights(policy, records))
  }

  lemma PotentialDrops(policy: Policy, s: State, step: Step)
    requires Inv(policy, s) && Enabled(s, step) && step.Retry?
    ensures Potential(policy, Apply(policy, s, step).records) <= Potential(policy, s.records) - 1
  {
    var t, k := Apply(policy, s, step), step.key;
    assert KeyOk(policy, s, k);
    MapSumPut(Weights(policy, s.records), k, AttemptsLeft(policy, t.records[k]));
    assert Weights(policy, t.records) == Weights(policy, s.records)[k := AttemptsLeft(policy, t.records[k])];
  }

  lemma {:induction false} PotentialNonNegative(policy: Policy, weights: map<Key, int>)
    requires forall k | k in weights :: weights[k] >= 0
    ensures MapSum(weights) >= 0
    decreases |weights|
  {
    if weights != map[] {
      var k :| k in weights;
      MapSumTake(weights, k);
      PotentialNonNegative(policy, weights - {k});
    }
  }

  /** The retries of a run without dispatches: each saved one uses up an attempt, so the sends
      are bounded by the attempts that were left plus the saves that failed. */
  lemma {:induction false} RetriesAreBounded(policy: Policy, s: State, steps: seq<Step>, t: State)
    requires Inv(policy, s) && IsRun(policy, s, steps, t)
    requires AllRetries(steps)
    ensures Potential(policy, t.records) + (t.saved - s.saved) <= Potential(policy, s.records)
    ensures s.sent <= t.sent && |t.sent| - |s.sent| == (t.saved - s.saved) + (t.unsaved - s.unsaved)
    ensures |t.sent| - |s.sent| <= Potential(policy, s.records) + (t.unsaved - s.unsaved)
    decreases |steps|
  {
    RunKeepsInv(policy, s, steps, t);
    forall k | k in Weights(policy, t.records) ensures Weights(policy, t.records)[k] >= 0 {
      assert KeyOk(policy, t, k);
    }
    PotentialNonNegative(policy, Weights(policy, t.records));
    if steps != [] {
      StepKeepsInv(policy, s, steps[0]);
      if steps[0].Retry? {
        PotentialDrops(policy, s, steps[0]);
      } else {
        assert IsRetry(steps[0]);
      }
      RetriesAreBounded(policy, Apply(policy, s, steps[0]), steps[1..], t);
    }
  }

  /** The step does not dispatch under the key. */
  predicate Spares(step: Step, k: Key) {
    match step
    case Dispatch(first, _, _, _) => KeyOf(first.subscriptionId, first.eventId) != k
    case DispatchUnsaved(key, _) => key != k
    case _ => true
  }

  /** Until it is dispatched again, a delivered or exhausted record never changes and is never sent. */
  lemma {:induction false} TerminalRecordsRest(policy: Policy, s: State, steps: seq<Step>, t: State, k: Key)
    requires IsRun(policy, s, steps, t) && k in s.records && s.records[k].status in {Delivered, Exhausted}
    requires forall i | 0 <= i < |steps| :: Spares(steps[i], k)
    ensures k in t.records && t.records[k] == s.records[k]
    ensures s.sent <= t.sent && k !in t.sent[|s.sent|..]
    decreases |steps|
  {
    if steps != [] {
      var next := Apply(policy, s, steps[0]);
      assert Spares(steps[0], k);
      TerminalRecordsRest(policy, next, steps[1..], t, k);
      assert t.sent[|s.sent|..] == next.sent[|s.sent|..] + t.sent[|next.sent|..];
    }
  }

  // ----- When an event loses its record to another -----

  predicate Replaces(step: Step, k: Key) {
    step.Dispatch? && KeyOf(step.first.subscriptionId, step.first.eventId) == k
  }

  predicate NoneReplaces(steps: seq<Step>, k: Key) {
    forall i | 0 <= i < |steps| :: !Replaces(steps[i], k)
  }

  /** Record identifiers are generated afresh, so no dispatch of the run reuses this one. */
  predicate Fresh(steps: seq<Step>, id: string) {
    forall i | 0 <= i < |steps| && steps[i].Dispatch? :: steps[i].first.id != id
  }

  /** An event keeps its record, with its payload and whatever retries it has left, if and only
      if no dispatch under the same key is saved in the meantime, delivered or not. */
  lemma {:induction false} RecordSurvivesIff(policy: Policy, s: State, steps: seq<Step>, t: State, k: Key, id: string)
    requires IsRun(policy, s, steps, t) && k in s.records && Fresh(steps, id)
    ensures k in t.records
    ensures t.records[k].id == id <==> s.records[k].id == id && NoneReplaces(steps, k)
    ensures t.records[k].id == id ==>
              t.records[k].payload == s.records[k].payload && s.records[k].attempts <= t.records[k].attempts
    decreases |steps|
  {
    if steps != [] {
      assert steps[0].Dispatch? ==> steps[0].first.id != id;
      RecordSurvivesIff(policy, Apply(policy, s, steps[0]), steps[1..], t, k, id);
      assert NoneReplaces(steps, k) <==> !Replaces(steps[0], k) && NoneReplaces(steps[1..], k);
    }
  }

  // ----- How long a delivery is tried -----

  /** The delays scheduled after the first n attempts, as computed, together. */
  function TotalDelay(policy: Policy, n: nat): int {
    if n == 0 then 0 else TotalDelay(policy, n - 1) + NextDelay(policy, n)
  }

  lemma {:induction false} AttemptsSpread(policy: Policy, times: seq<Time>, n: nat)
    requires n < |times|
    requires forall i | 0 <= i < |times| - 1 :: times[i] + NextDelay(policy, i + 1) <= times[i + 1]
    ensures times[n] - times[0] >= TotalDelay(policy, n)
  {
    if n > 0 {
      AttemptsSpread(policy, times, n - 1);
      assert times[n - 1] + NextDelay(policy, n) <= times[n];
    }
  }

  lemma DoubledOnce(base: int, power: int)
    ensures base * (power - 1) + base * power == base * (2 * power - 1)
  {
  }

  /** Without overflow the delays add up to the base times a power of two, less one base. */
  lemma {:induction false} TotalDelayExact(policy: Policy, n: nat)
    requires Fits(policy) && n < Cap(policy)
    ensures TotalDelay(policy, n) == policy.baseDelay * (Pow2(n) - 1)
  {
    if n > 0 {
      TotalDelayExact(policy, n - 1);
      DelaysExactIffFits(policy);
      DoubledOnce(policy.baseDelay, Pow2(n - 1));
    }
  }

  /** A delivery that is given up was tried over at least the sum of all the delays scheduled
      for it: without overflow, the base times a power of two, less one base. */
  lemma ExhaustionTakesTime(policy: Policy, steps: seq<Step>, t: State, k: Key)
    requires IsRun(policy, INITIAL, steps, t) && k in t.records && t.records[k].status == Exhausted
    ensures k in t.times && |t.times[k]| == Cap(policy)
    ensures Last(t.times[k]) - t.times[k][0] >= TotalDelay(policy, Cap(policy) - 1)
    ensures Fits(policy) ==> TotalDelay(policy, Cap(policy) - 1) == policy.baseDelay * (Pow2(Cap(policy) - 1) - 1)
  {
    RunKeepsInv(policy, INITIAL, steps, t);
    assert KeyOk(policy, t, k);
    AttemptsSpread(policy, t.times[k], Cap(policy) - 1);
    if Fits(policy) {
      TotalDelayExact(policy, Cap(policy) - 1);
    }
  }
}
