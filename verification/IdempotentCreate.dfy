/** Idempotent calls one after the other, and the create endpoint that makes them. */
module IdempotentCreate {
  import opened Basics
  import opened Idempotency
  import Payments
  import Events
  import Lifecycle
  import UseCases

  // ----- A call on its own -----

  datatype Store = Store(data: map<Key, Response>, locks: set<Key>)

  datatype Reply = Given(response: Response) | Refusal(error: Error)

  /** Which of a call's requests to the store fail, if it gets that far; the environment decides. */
  datatype Faults = Faults(find: bool, lock: bool, again: bool, save: bool, unlock: bool)

  /** A request, what the operation would do if it were run, and what the store would. */
  datatype Req = Req(key: Key, hash: string, outcome: Outcome, faults: Faults)

  datatype Served = Served(store: Store, reply: Reply, ran: bool)

  const EMPTY := Store(map[], {})

  /** A response saved without a hash matches every request. */
  function MatchOrConflict(cached: Response, hash: string): Reply {
    if cached.requestHash != "" && cached.requestHash != hash then Refusal(KeyAlreadyExists) else Given(cached)
  }

  /** The answer to a call that did not get the lock, after its second look. */
  function WithoutLock(cached: Option<Response>, hash: string): Reply {
    match cached
    case Some(response) => MatchOrConflict(response, hash)
    case None => Refusal(AlreadyProcessing)
  }

  /** Whether a call gets to run the operation. */
  predicate RunsIn(store: Store, key: Key, faults: Faults) {
    ValidKey(key) && !faults.find && key !in store.data && !faults.lock && key !in store.locks
  }

  /** The lock is taken, the operation run, a success saved, and the lock given back; the error
      of a failing unlock is dropped, that of a failing save reported. */
  function RunUnderLock(store: Store, req: Req): Served {
    var unlocked := if req.faults.unlock then store.(locks := store.locks + {req.key}) else store;
    match req.outcome
    case Fails => Served(unlocked, Refusal(OperationFailed), true)
    case Answers(status, body) =>
      var r := Response(status, body, req.hash);
      if !IsSuccess(req.outcome) then Served(unlocked, Given(r), true)
      else if req.faults.save then Served(unlocked, Refusal(StoreFailed), true)
      else Served(unlocked.(data := store.data[req.key := r]), Given(r), true)
  }

  function Serve(store: Store, req: Req): Served {
    if RunsIn(store, req.key, req.faults) then RunUnderLock(store, req)
    else
      var refusal :=
        if !ValidKey(req.key) then Refusal(InvalidKey)
        else if req.faults.find then Refusal(StoreFailed)
        else if req.key in store.data then MatchOrConflict(store.data[req.key], req.hash)
        else if req.faults.lock || req.faults.again then Refusal(StoreFailed)
        else Refusal(AlreadyProcessing);
      Served(store, refusal, false)
  }

  /** What a call is answered and what it leaves: the operation runs if and only if the key is
      valid, the store answers, nothing is saved and the lock is free; only an answer from 200 to
      299 is saved, if the store can; the lock is given back, if the store can. */
  lemma ServeExact(store: Store, req: Req)
    ensures var served, k, f := Serve(store, req), req.key, req.faults;
            && (served.reply == Refusal(InvalidKey) <==> !ValidKey(k))
            && (served.ran <==> ValidKey(k) && !f.find && k !in store.data && !f.lock && k !in store.locks)
            && (!served.ran ==> served.store == store)
    ensures var served, k, f := Serve(store, req), req.key, req.faults;
            ValidKey(k) && !served.ran ==>
              served.reply ==
                if f.find then Refusal(StoreFailed)
                else if k in store.data then
                  (if store.data[k].requestHash in {"", req.hash} then Given(store.data[k]) else Refusal(KeyAlreadyExists))
                else if f.lock || f.again then Refusal(StoreFailed)
                else Refusal(AlreadyProcessing)
    ensures var served, k, f := Serve(store, req), req.key, req.faults;
            served.ran ==>
              && served.store.locks == (if f.unlock then store.locks + {k} else store.locks)
              && match req.outcome
                 case Fails => served.reply == Refusal(OperationFailed) && served.store.data == store.data
                 case Answers(status, body) =>
                   var r := Response(status, body, req.hash);
                   if 200 <= status <= 299 && f.save then served.reply == Refusal(StoreFailed) && served.store.data == store.data
                   else served.reply == Given(r)
                        && served.store.data == if 200 <= status <= 299 then store.data[k := r] else store.data
  {
  }

  /** What a call is told that did not get the lock. */
  lemma WithoutLockExact(cached: Option<Response>, hash: string)
    ensures WithoutLock(cached, hash) ==
            if cached == None then Refusal(AlreadyProcessing)
            else if cached.value.requestHash in {"", hash} then Given(cached.value) else Refusal(KeyAlreadyExists)
  {
  }

  /** The rest of a call that has the lock, as a run of the transition system: run, save a
      success or fail to, and unlock, or stop before that. */
  lemma HoldingIsRun(s: State, c: CallId, req: Req) returns (steps: seq<Step>, t: State)
    requires c in s.calls && s.calls[c].phase.Holding? && s.calls[c].key == req.key && s.calls[c].hash == req.hash
    ensures IsRun(s, steps, t) && t.calls == s.calls - {c}
    ensures t.locks == if req.faults.unlock then s.locks else s.locks - {req.key}
    ensures t.data == if IsSuccess(req.outcome) && !req.faults.save
                      then s.data[req.key := Response(req.outcome.status, req.outcome.body, req.hash)] else s.data
    ensures t.executed == if IsSuccess(req.outcome) then s.executed + [Mark(c, req.key)] else s.executed
  {
    var run, save := Run(c, req.outcome), if req.faults.save then SaveFails(c) else Save(c);
    var end := if req.faults.unlock then Crash(c) else Unlock(c);
    var s1 := Apply(s, run);
    var s2 := if IsSuccess(req.outcome) then Apply(s1, save) else s1;
    t := Apply(s2, end);
    RunFirst(s2, end, [], t);
    steps := [end] + [];
    if IsSuccess(req.outcome) {
      RunFirst(s1, save, steps, t);
      steps := [save] + steps;
    }
    RunFirst(s, run, steps, t);
    steps := [run] + steps;
  }

  /** Served alone, a request is a run of the transition system, with the same result. */
  lemma ServeIsRun(s: State, c: CallId, req: Req) returns (steps: seq<Step>, t: State)
    requires s.calls == map[] && ValidKey(req.key) && forall m | m in s.missed :: m.call != c
    ensures IsRun(s, steps, t) && t.calls == map[]
    ensures var served := Serve(Store(s.data, s.locks), req);
            && Store(t.data, t.locks) == served.store
            && t.executed == if served.ran && IsSuccess(req.outcome) then s.executed + [Mark(c, req.key)] else s.executed
  {
    if req.faults.find || req.key in s.data || req.faults.lock {
      steps, t := [], s;
      return;
    }
    var begin := Begin(c, req.key, req.hash);
    var s1 := Apply(s, begin);
    var s2 := Apply(s1, TryLock(c));
    if req.key in s.locks {
      t := Apply(s2, LookAgain(c));
      RunFirst(s2, LookAgain(c), [], t);
      steps := [LookAgain(c)] + [];
    } else {
      steps, t := HoldingIsRun(s2, c, req);
      assert s.locks + {req.key} - {req.key} == s.locks;
    }
    RunFirst(s1, TryLock(c), steps, t);
    RunFirst(s, begin, [TryLock(c)] + steps, t);
    steps := [begin] + ([TryLock(c)] + steps);
  }

  // ----- Calls one after the other -----

  function After(reqs: seq<Req>): Store {
    if reqs == [] then EMPTY else Serve(After(Front(reqs)), Last(reqs)).store
  }

  /** How the i-th of a sequence of calls is served. */
  function At(reqs: seq<Req>, i: nat): Served
    requires i < |reqs|
  {
    Serve(After(reqs[..i]), reqs[i])
  }

  /** The i-th call ran the operation, with success. */
  predicate Succeeds(reqs: seq<Req>, i: nat)
    requires i < |reqs|
  {
    At(reqs, i).ran && IsSuccess(reqs[i].outcome)
  }

  predicate Saves(reqs: seq<Req>, i: nat)
    requires i < |reqs|
  {
    Succeeds(reqs, i) && !reqs[i].faults.save
  }

  /** The i-th call left its lock behind. */
  predicate Sticks(reqs: seq<Req>, i: nat)
    requires i < |reqs|
  {
    At(reqs, i).ran && reqs[i].faults.unlock
  }

  lemma AfterNext(reqs: seq<Req>, i: nat)
    requires i < |reqs|
    ensures After(reqs[..i + 1]) == At(reqs, i).store
  {
    assert Front(reqs[..i + 1]) == reqs[..i] && Last(reqs[..i + 1]) == reqs[i];
  }

  lemma {:induction false} SavedIsKept(reqs: seq<Req>, i: nat, n: nat)
    requires i < n <= |reqs| && Saves(reqs, i)
    ensures var req := reqs[i];
            var data := After(reqs[..n]).data;
            req.key in data && data[req.key] == Response(req.outcome.status, req.outcome.body, req.hash)
    decreases n
  {
    AfterNext(reqs, n - 1);
    if i < n - 1 {
      SavedIsKept(reqs, i, n - 1);
    }
  }

  lemma {:induction false} StuckStays(reqs: seq<Req>, i: nat, n: nat)
    requires i < n <= |reqs| && Sticks(reqs, i)
    ensures reqs[i].key in After(reqs[..n]).locks
    decreases n
  {
    AfterNext(reqs, n - 1);
    if i < n - 1 {
      StuckStays(reqs, i, n - 1);
    }
  }

  lemma {:induction false} NothingElseStays(reqs: seq<Req>, k: Key, n: nat)
    requires n <= |reqs|
    requires forall i | 0 <= i < n && reqs[i].key == k :: !Saves(reqs, i) && !Sticks(reqs, i)
    ensures k !in After(reqs[..n]).data && k !in After(reqs[..n]).locks
    decreases n
  {
    if n > 0 {
      AfterNext(reqs, n - 1);
      NothingElseStays(reqs, k, n - 1);
      assert reqs[n - 1].key == k ==> !Saves(reqs, n - 1) && !Sticks(reqs, n - 1);
    }
  }

  /** A call runs the operation if and only if its key is valid, the store answers its lookup
      and its lock request, and no earlier call for the key saved a success or left its lock. */
  lemma RunsIff(reqs: seq<Req>, j: nat)
    requires j < |reqs|
    ensures At(reqs, j).ran <==>
            && ValidKey(reqs[j].key) && !reqs[j].faults.find && !reqs[j].faults.lock
            && forall i | 0 <= i < j && reqs[i].key == reqs[j].key :: !Saves(reqs, i) && !Sticks(reqs, i)
  {
    if i :| 0 <= i < j && reqs[i].key == reqs[j].key && Saves(reqs, i) {
      SavedIsKept(reqs, i, j);
    } else if i :| 0 <= i < j && reqs[i].key == reqs[j].key && Sticks(reqs, i) {
      StuckStays(reqs, i, j);
    } else {
      NothingElseStays(reqs, reqs[j].key, j);
    }
  }

  /** After a success that was saved, the operation is never run again for that key: every later
      call whose lookup the store answers gets that very response if its hash is the same or the
      response was saved without one, and the conflict error otherwise. */
  lemma AtMostOneSuccess(reqs: seq<Req>, i: nat, j: nat)
    requires i < j < |reqs| && reqs[i].key == reqs[j].key && Saves(reqs, i)
    ensures !At(reqs, j).ran
    ensures var response := Response(reqs[i].outcome.status, reqs[i].outcome.body, reqs[i].hash);
            !reqs[j].faults.find ==>
              && (At(reqs, j).reply == Given(response) <==> reqs[j].hash == reqs[i].hash || reqs[i].hash == "")
              && (At(reqs, j).reply == Refusal(KeyAlreadyExists) <==> reqs[j].hash != reqs[i].hash && reqs[i].hash != "")
    ensures reqs[j].faults.find ==> At(reqs, j).reply == Refusal(StoreFailed)
  {
    SavedIsKept(reqs, i, j);
  }

  function CountSuccesses(reqs: seq<Req>): nat {
    if reqs == [] then 0
    else CountSuccesses(Front(reqs)) + if Succeeds(reqs, |reqs| - 1) then 1 else 0
  }

  /** The successes whose response the store failed to save. */
  function CountUnsaved(reqs: seq<Req>): nat {
    if reqs == [] then 0
    else CountUnsaved(Front(reqs)) + if Succeeds(reqs, |reqs| - 1) && Last(reqs).faults.save then 1 else 0
  }

  /** The operation succeeded exactly once for each key that is stored, and once more for each
      success that was not saved: once per key if and only if the store never failed to save. */
  lemma {:induction false} OneSuccessPerKey(reqs: seq<Req>)
    ensures CountSuccesses(reqs) == |After(reqs).data| + CountUnsaved(reqs)
  {
    if reqs != [] {
      OneSuccessPerKey(Front(reqs));
      assert Front(reqs) == reqs[..|reqs| - 1];
    }
  }

  // ----- The store and the endpoint -----

  class MemoryIdempotencyRepo {
    var locks: map<Key, bool>
    var data: map<Key, Response>

    constructor ()
      ensures View() == EMPTY
    {
      locks, data := map[], map[];
    }

    ghost function View(): Store
      reads this
    {
      Store(data, set k | k in locks && locks[k])
    }

    method Lock(key: Key) returns (acquired: bool)
      modifies this`locks
      ensures acquired <==> key !in old(View()).locks
      ensures View() == old(View()).(locks := old(View()).locks + {key})
    {
      if key in locks && locks[key] {
        return false;
      }
      locks := locks[key := true];
      return true;
    }

    method Unlock(key: Key)
      modifies this`locks
      ensures View() == old(View()).(locks := old(View()).locks - {key})
    {
      locks := locks - {key};
    }

    method Save(key: Key, response: Response)
      modifies this`data
      ensures View() == old(View()).(data := old(data)[key := response])
    {
      data := data[key := response];
    }

    function Find(key: Key): (found: Option<Response>)
      reads this
      ensures found.Some? <==> key in View().data
      ensures found.Some? ==> found.value == View().data[key]
    {
      if key in data then Some(data[key]) else None
    }
  }

  function CountCreated(log: seq<Events.Event>): nat {
    if log == [] then 0
    else CountCreated(Front(log)) + if Last(log).eventType == Events.PaymentCreated then 1 else 0
  }

  lemma CountCreatedAppend(log: seq<Events.Event>, e: Events.Event)
    ensures CountCreated(log + [e]) == CountCreated(log) + if e.eventType == Events.PaymentCreated then 1 else 0
  {
    assert Front(log + [e]) == log;
  }

  /** Processing, capturing and refunding neither create payments nor announce creations. */
  lemma OthersCreateNothing(before: Lifecycle.State, after: Lifecycle.State, id: Payments.PaymentId, op: Lifecycle.Op,
                            answer: Lifecycle.Answer, eventId: Events.EventId, at: Time, err: Option<Payments.Error>)
    requires UseCases.Answered(before, after, id, op, answer, eventId, at, err)
    ensures after.rows.Keys == before.rows.Keys && CountCreated(after.log) == CountCreated(before.log)
  {
    if err == None {
      var (next, eventType) := Lifecycle.Conclude(op, Lifecycle.Prepare(op, before.rows[id]).value, answer).value;
      CountCreatedAppend(before.log, Events.EventOf(next, eventType, eventId, at));
    }
  }

  lemma OneMorePayment(s: Lifecycle.State, req: Payments.Request, id: Payments.PaymentId, eventId: Events.EventId,
                       at: Time)
    requires id !in s.rows && Payments.NewRow(req, id, at).Ok?
    ensures var t := Lifecycle.Created(s, Payments.NewRow(req, id, at).value, eventId, at);
            |t.rows| == |s.rows| + 1 && CountCreated(t.log) == CountCreated(s.log) + 1
  {
    CountCreatedAppend(s.log, Events.EventOf(Payments.NewRow(req, id, at).value, Events.PaymentCreated, eventId, at));
  }

  /** A payment and its event appear exactly when the operation succeeds. */
  ghost predicate Effect(before: Lifecycle.State, after: Lifecycle.State, outcome: Outcome, req: Payments.Request,
                         id: Payments.PaymentId, eventId: Events.EventId, at: Time)
  {
    if outcome == Fails then after == before
    else
      var row := Payments.NewRow(req, id, at);
      row.Ok? && after == Lifecycle.Created(before, row.value, eventId, at)
  }

  /** The operation under the lock either fails, or answers 201 and that is saved if the store can. */
  ghost predicate Performed(before: Store, after: Store, key: Key, hash: string, reply: Reply, outcome: Outcome,
                            saveFails: bool) {
    match outcome
    case Fails => reply == Refusal(OperationFailed) && after == before
    case Answers(status, body) =>
      var r := Response(status, body, hash);
      status == 201
      && if saveFails then reply == Refusal(StoreFailed) && after == before
         else reply == Given(r) && after == before.(data := before.data[key := r])
  }

  lemma ServedUnderLock(before: Store, locked: Store, ran: Store, after: Store, req: Req, reply: Reply)
    requires RunsIn(before, req.key, req.faults) && locked == before.(locks := before.locks + {req.key})
    requires Performed(locked, ran, req.key, req.hash, reply, req.outcome, req.faults.save)
    requires after == if req.faults.unlock then ran else ran.(locks := ran.locks - {req.key})
    ensures Serve(before, req) == Served(after, reply, true)
  {
  }

  class CreateEndpoint {
    const store: MemoryIdempotencyRepo
    const service: UseCases.PaymentService
    ghost var unsaved: nat

    constructor (store: MemoryIdempotencyRepo, service: UseCases.PaymentService)
      requires service.Valid() && store.View() == EMPTY
      requires service.View().rows == map[] && service.View().log == []
      ensures this.store == store && this.service == service && Agree() && unsaved == 0
    {
      this.store, this.service, unsaved := store, service, 0;
    }

    /** There are as many payments, and as many creation events, as keys that succeeded and
        were saved, and as successes that were not. */
    ghost predicate Agree()
      reads this, store, service, service.repo, service.repo.payments.Values, service.outbox, service.gateway
    {
      && service.Valid()
      && |service.View().rows| == |store.View().data| + unsaved
      && CountCreated(service.View().log) == |store.View().data| + unsaved
    }

    method CreatePayment(req: Payments.Request, id: Payments.PaymentId, eventId: Events.EventId, at: Time)
      returns (err: Option<Payments.Error>)
      requires service.Valid() && id !in service.View().rows
      modifies service`persisted, service`lost, service`faults, service.repo, service.outbox
      ensures service.Valid() && store.View() == old(store.View())
      ensures Effect(old(service.View()), service.View(), if err == None then Answers(201, "") else Fails, req, id, eventId, at)
      ensures err != None ==> Payments.NewRow(req, id, at).Err? || service.faults > old(service.faults)
      ensures err == None ==>
                && |service.View().rows| == |old(service.View()).rows| + 1
                && CountCreated(service.View().log) == CountCreated(old(service.View()).log) + 1
    {
      ghost var before := service.View();
      err := service.Create(req, id, eventId, at);
      if err == None {
        OneMorePayment(before, req, id, eventId, at);
      }
    }

    /** The operation of a call that has the lock: create the payment, and save the response. */
    method RunLocked(key: Key, hash: string, req: Payments.Request, body: string,
                     id: Payments.PaymentId, eventId: Events.EventId, at: Time, saveFails: bool)
      returns (reply: Reply, ghost outcome: Outcome)
      requires Agree() && id !in service.View().rows && key !in store.View().data
      modifies this`unsaved, store`data, service`persisted, service`lost, service`faults, service.repo, service.outbox
      ensures Agree() && unsaved == old(unsaved) + if outcome != Fails && saveFails then 1 else 0
      ensures Performed(old(store.View()), store.View(), key, hash, reply, outcome, saveFails)
      ensures outcome == Fails ==> Payments.NewRow(req, id, at).Err? || service.faults > old(service.faults)
      ensures outcome != Fails ==> outcome == Answers(201, body)
      ensures Effect(old(service.View()), service.View(), outcome, req, id, eventId, at)
    {
      var err := CreatePayment(req, id, eventId, at);
      if err != None {
        return Refusal(OperationFailed), Fails;
      }
      Save(key, Response(201, body, hash), saveFails);
      reply := if saveFails then Refusal(StoreFailed) else Given(Response(201, body, hash));
      outcome := Answers(201, body);
    }

    method Save(key: Key, response: Response, fails: bool)
      requires service.Valid()
      modifies this`unsaved, store`data
      ensures service.Valid() && service.View() == old(service.View())
      ensures !fails ==> store.View() == old(store.View()).(data := old(store.data)[key := response]) && unsaved == old(unsaved)
      ensures fails ==> store.View() == old(store.View()) && unsaved == old(unsaved) + 1
    {
      if fails {
        unsaved := unsaved + 1;
      } else {
        store.Save(key, response);
      }
    }

    method Lock(key: Key) returns (acquired: bool)
      requires Agree()
      modifies store`locks
      ensures Agree() && service.View() == old(service.View())
      ensures acquired <==> key !in old(store.View()).locks
      ensures store.View() == old(store.View()).(locks := old(store.View()).locks + {key})
    {
      acquired := store.Lock(key);
    }

    method Unlock(key: Key)
      requires Agree()
      modifies store`locks
      ensures Agree() && service.View() == old(service.View())
      ensures store.View() == old(store.View()).(locks := old(store.View()).locks - {key})
    {
      store.Unlock(key);
    }

    /** What a call does once it has the lock: run the operation, save, and unlock. */
    method RunAndUnlock(ghost before: Store, faults: Faults, key: Key, hash: string,
                        req: Payments.Request, body: string, id: Payments.PaymentId, eventId: Events.EventId, at: Time)
      returns (reply: Reply, ghost outcome: Outcome)
      requires Agree() && id !in service.View().rows && key !in store.View().data
      requires RunsIn(before, key, faults) && store.View() == before.(locks := before.locks + {key})
      modifies this`unsaved, store, service`persisted, service`lost, service`faults, service.repo, service.outbox
      ensures Agree() && unsaved == old(unsaved) + if outcome != Fails && faults.save then 1 else 0
      ensures Serve(before, Req(key, hash, outcome, faults)) == Served(store.View(), reply, true)
      ensures outcome == Fails ==> Payments.NewRow(req, id, at).Err? || service.faults > old(service.faults)
      ensures outcome != Fails ==> outcome == Answers(201, body)
      ensures Effect(old(service.View()), service.View(), outcome, req, id, eventId, at)
    {
      ghost var locked := store.View();
      reply, outcome := RunLocked(key, hash, req, body, id, eventId, at, faults.save);
      ghost var ran := store.View();
      if !faults.unlock {
        Unlock(key);
      }
      ServedUnderLock(before, locked, ran, store.View(), Req(key, hash, outcome, faults), reply);
    }

    /** One idempotent creation: served as above, with the creation of a payment as the
        operation, whichever requests to the store fail. A payment and its event appear exactly
        when the operation runs and succeeds, which it does, with status 201, unless the request
        is not acceptable or its transaction fails. */
    method Create(key: Key, hash: string, req: Payments.Request, body: string,
                  id: Payments.PaymentId, eventId: Events.EventId, at: Time, faults: Faults)
      returns (reply: Reply, ghost outcome: Outcome)
      requires Agree() && id !in service.View().rows
      modifies this`unsaved, store, service`persisted, service`lost, service`faults, service.repo, service.outbox
      ensures Agree() && unsaved == old(unsaved) + if outcome != Fails && faults.save then 1 else 0
      ensures Serve(old(store.View()), Req(key, hash, outcome, faults))
              == Served(store.View(), reply, RunsIn(old(store.View()), key, faults))
      ensures !RunsIn(old(store.View()), key, faults) ==> outcome == Fails
      ensures RunsIn(old(store.View()), key, faults) && outcome == Fails ==>
                Payments.NewRow(req, id, at).Err? || service.faults > old(service.faults)
      ensures outcome != Fails ==> outcome == Answers(201, body)
      ensures Effect(old(service.View()), service.View(), outcome, req, id, eventId, at)
    {
      outcome := Fails;
      if !ValidKey(key) {
        return Refusal(InvalidKey), outcome;
      }
      if faults.find {
        return Refusal(StoreFailed), outcome;
      }
      var cached := store.Find(key);
      if cached.Some? {
        return MatchOrConflict(cached.value, hash), outcome;
      }
      if faults.lock {
        return Refusal(StoreFailed), outcome;
      }
      ghost var before := store.View();
      var acquired := Lock(key);
      if !acquired {
        assert before.locks + {key} == before.locks;
        if faults.again {
          return Refusal(StoreFailed), outcome;
        }
        return WithoutLock(store.Find(key), hash), outcome;
      }
      reply, outcome := RunAndUnlock(before, faults, key, hash, req, body, id, eventId, at);
    }
  }
}
