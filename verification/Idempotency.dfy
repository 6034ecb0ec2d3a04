/**
 The idempotency service as a transition system: each call looks its key up, takes the lock,
 runs the operation, saves a success, and unlocks; calls interleave and can crash anywhere.
 */
module Idempotency {
  import opened Basics

  type Key = string

  type CallId = nat

  datatype Response = Response(status: int, body: string, requestHash: string)

  /** What the operation does: fail, or answer with some status. */
  datatype Outcome = Fails | Answers(status: int, body: string)

  /** OperationFailed stands for any error of the operation, StoreFailed for any error of the store. */
  datatype Error = InvalidKey | AlreadyProcessing | KeyAlreadyExists | OperationFailed | StoreFailed

  datatype Phase = Missed | Refused | Holding | Ran(response: Response) | Finishing

  datatype Call = Call(key: Key, hash: string, phase: Phase)

  /** One successful run of the operation, or one call whose first lookup missed. */
  datatype Mark = Mark(call: CallId, key: Key)

  /** missed: the calls that looked before anything was saved under their key.
      executed: the successful runs, in order. */
  datatype State = State(
    data: map<Key, Response>,
    locks: set<Key>,
    calls: map<CallId, Call>,
    missed: set<Mark>,
    executed: seq<Mark>)

  const INITIAL := State(map[], {}, map[], {}, [])

  const MAX_KEY_LENGTH := 255

  // ----- Keys -----

  predicate IsSpace(c: char) {
    c in {' ', '\t', '\n', '\r', 11 as char, 12 as char}
  }

  /** A key must hold something other than white space, and at most 255 bytes once trimmed. */
  predicate ValidKey(key: Key) {
    var trimmed := TrimRight(TrimLeft(key));
    trimmed != "" && |trimmed| <= MAX_KEY_LENGTH
  }

  function TrimLeft(s: string): string {
    if s != "" && IsSpace(s[0]) then TrimLeft(s[1..]) else s
  }

  function TrimRight(s: string): string {
    if s != "" && IsSpace(Last(s)) then TrimRight(Front(s)) else s
  }

  /** Spaces, tabs, newlines, carriage returns, vertical tabs and form feeds only. */
  predicate Blank(s: string) {
    forall i | 0 <= i < |s| :: s[i] in {' ', '\t', '\n', '\r', 11 as char, 12 as char}
  }

  lemma {:induction false} TrimLeftBlank(left: string, rest: string)
    requires Blank(left)
    ensures TrimLeft(left + rest) == TrimLeft(rest)
  {
    if left == "" {
      assert left + rest == rest;
    } else {
      assert (left + rest)[1..] == left[1..] + rest;
      TrimLeftBlank(left[1..], rest);
    }
  }

  lemma {:induction false} TrimRightBlank(rest: string, right: string)
    requires Blank(right)
    ensures TrimRight(rest + right) == TrimRight(rest)
  {
    if right == "" {
      assert rest + right == rest;
    } else {
      assert Front(rest + right) == rest + Front(right) && Last(rest + right) == right[|right| - 1];
      TrimRightBlank(rest, Front(right));
    }
  }

  /** Whatever blanks surround it, a key is valid if and only if what is left without them has at
      most 255 characters. */
  lemma ValidKeyExact(left: string, core: string, right: string)
    requires Blank(left) && Blank(right) && core != "" && !Blank(core[..1]) && !Blank(core[|core| - 1..])
    ensures ValidKey(left + core + right) <==> |core| <= 255
  {
    assert core[..1][0] == core[0] && core[|core| - 1..][0] == core[|core| - 1];
    assert left + core + right == left + (core + right);
    TrimLeftBlank(left, core + right);
    assert (core + right)[0] == core[0];
    TrimRightBlank(core, right);
  }

  lemma BlankKeyIsInvalid(key: Key)
    requires Blank(key)
    ensures !ValidKey(key)
  {
    TrimLeftBlank(key, "");
    assert key + "" == key;
  }

  /** So every key is judged: it is blank, or is such a core with blanks around it. */
  lemma {:induction false} KeySplits(key: Key) returns (left: string, core: string, right: string)
    requires !Blank(key)
    ensures key == left + core + right && Blank(left) && Blank(right)
    ensures core != "" && !Blank(core[..1]) && !Blank(core[|core| - 1..])
  {
    if Blank(key[..1]) {
      left, core, right := KeySplits(key[1..]);
      assert key == key[..1] + left + core + right;
      left := key[..1] + left;
    } else if Blank(key[|key| - 1..]) {
      left, core, right := KeySplits(Front(key));
      assert key == left + core + (right + key[|key| - 1..]);
      right := right + key[|key| - 1..];
    } else {
      left, core, right := "", key, "";
    }
  }

  // ----- Steps -----

  datatype Step =
    | Begin(call: CallId, key: Key, hash: string)
    | TryLock(call: CallId)
    | LookAgain(call: CallId)
    | Run(call: CallId, outcome: Outcome)
    | Save(call: CallId)
    | SaveFails(call: CallId)
    | Unlock(call: CallId)
    | Crash(call: CallId)

  predicate IsSuccess(outcome: Outcome) {
    outcome.Answers? && 200 <= outcome.status < 300
  }

  ghost predicate Enabled(s: State, step: Step) {
    match step
    case Begin(c, key, _) => c !in s.calls && ValidKey(key) && forall m | m in s.missed :: m.call != c
    case TryLock(c) => c in s.calls && s.calls[c].phase.Missed?
    case LookAgain(c) => c in s.calls && s.calls[c].phase.Refused?
    case Run(c, _) => c in s.calls && s.calls[c].phase.Holding?
    case Save(c) => c in s.calls && s.calls[c].phase.Ran?
    case SaveFails(c) => c in s.calls && s.calls[c].phase.Ran?
    case Unlock(c) => c in s.calls && s.calls[c].phase.Finishing?
    case Crash(c) => c in s.calls
  }

  ghost function Apply(s: State, step: Step): State
    requires Enabled(s, step)
  {
    match step
    case Begin(c, key, hash) =>
      if key in s.data then s
      else s.(calls := s.calls[c := Call(key, hash, Missed)], missed := s.missed + {Mark(c, key)})
    case TryLock(c) =>
      var call := s.calls[c];
      if call.key in s.locks then s.(calls := s.calls[c := call.(phase := Refused)])
      else s.(calls := s.calls[c := call.(phase := Holding)], locks := s.locks + {call.key})
    case LookAgain(c) => s.(calls := s.calls - {c})
    case Run(c, outcome) =>
      var call := s.calls[c];
      if IsSuccess(outcome) then
        s.(calls := s.calls[c := call.(phase := Ran(Response(outcome.status, outcome.body, call.hash)))],
           executed := s.executed + [Mark(c, call.key)])
      else s.(calls := s.calls[c := call.(phase := Finishing)])
    case Save(c) =>
      var call := s.calls[c];
      s.(calls := s.calls[c := call.(phase := Finishing)], data := s.data[call.key := call.phase.response])
    case SaveFails(c) => s.(calls := s.calls[c := s.calls[c].(phase := Finishing)])
    case Unlock(c) => s.(calls := s.calls - {c}, locks := s.locks - {s.calls[c].key})
    case Crash(c) => s.(calls := s.calls - {c})
  }

  ghost predicate IsRun(s: State, steps: seq<Step>, t: State)
    decreases |steps|
  {
    if steps == [] then s == t
    else Enabled(s, steps[0]) && IsRun(Apply(s, steps[0]), steps[1..], t)
  }

  // ----- The invariant -----

  predicate Locked(phase: Phase) {
    phase.Holding? || phase.Ran? || phase.Finishing?
  }

  /** At most one call per key is between lock and unlock, and it holds the lock. */
  ghost predicate Exclusive(s: State) {
    && (forall c | c in s.calls && Locked(s.calls[c].phase) :: s.calls[c].key in s.locks)
    && (forall c, d | c in s.calls && d in s.calls && Locked(s.calls[c].phase) && Locked(s.calls[d].phase)
          && s.calls[c].key == s.calls[d].key :: c == d)
  }

  /** Every call in flight missed its first lookup; every success belongs to such a call, is
      its only one, and the call is past running. */
  ghost predicate Accounted(s: State) {
    && (forall c | c in s.calls :: Mark(c, s.calls[c].key) in s.missed)
    && (forall m, n | m in s.missed && n in s.missed && m.call == n.call :: m == n)
    && (forall i | 0 <= i < |s.executed| :: s.executed[i] in s.missed)
    && (forall i, j | 0 <= i < j < |s.executed| :: s.executed[i].call != s.executed[j].call)
    && (forall i | 0 <= i < |s.executed| ::
          s.executed[i].call in s.calls ==> var phase := s.calls[s.executed[i].call].phase; phase.Ran? || phase.Finishing?)
  }

  ghost predicate Inv(s: State) {
    Exclusive(s) && Accounted(s)
  }

  lemma StepKeepsExclusive(s: State, step: Step)
    requires Exclusive(s) && Enabled(s, step)
    ensures Exclusive(Apply(s, step))
  {
  }

  lemma BeginKeepsAccounted(s: State, step: Step)
    requires Accounted(s) && Enabled(s, step) && step.Begin?
    ensures Accounted(Apply(s, step))
  {
  }

  lemma SuccessKeepsAccounted(s: State, step: Step)
    requires Accounted(s) && Enabled(s, step) && step.Run? && IsSuccess(step.outcome)
    ensures Accounted(Apply(s, step))
  {
  }

  lemma StepKeepsAccounted(s: State, step: Step)
    requires Accounted(s) && Enabled(s, step)
    ensures Accounted(Apply(s, step))
  {
    if step.Begin? {
      BeginKeepsAccounted(s, step);
    } else if step.Run? && IsSuccess(step.outcome) {
      SuccessKeepsAccounted(s, step);
    } else {
      assert Apply(s, step).missed == s.missed && Apply(s, step).executed == s.executed;
    }
  }

  lemma {:induction false} RunKeepsInv(s: State, steps: seq<Step>, t: State)
    requires Inv(s) && IsRun(s, steps, t)
    ensures Inv(t)
    decreases |steps|
  {
    if steps != [] {
      StepKeepsExclusive(s, steps[0]);
      StepKeepsAccounted(s, steps[0]);
      RunKeepsInv(Apply(s, steps[0]), steps[1..], t);
    }
  }

  /** In every interleaving, two calls for one key are never both between lock and unlock. */
  lemma MutualExclusion(steps: seq<Step>, t: State, c: CallId, d: CallId)
    requires IsRun(INITIAL, steps, t) && c in t.calls && d in t.calls && c != d
    requires Locked(t.calls[c].phase) && Locked(t.calls[d].phase)
    ensures t.calls[c].key != t.calls[d].key
  {
    RunKeepsInv(INITIAL, steps, t);
  }

  // ----- How often the operation can succeed -----

  ghost function Early(s: State, k: Key): set<Mark> {
    set m | m in s.missed && m.key == k
  }

  function Successes(executed: seq<Mark>, k: Key): seq<Mark> {
    if executed == [] then []
    else
      var e := Successes(Front(executed), k);
      if Last(executed).key == k then e + [Last(executed)] else e
  }

  lemma {:induction false} SuccessesExact(executed: seq<Mark>, k: Key)
    ensures forall i | 0 <= i < |Successes(executed, k)| :: Successes(executed, k)[i] in executed && Successes(executed, k)[i].key == k
    ensures (forall i, j | 0 <= i < j < |executed| :: executed[i].call != executed[j].call) ==>
              forall i, j | 0 <= i < j < |Successes(executed, k)| :: Successes(executed, k)[i].call != Successes(executed, k)[j].call
  {
    if executed != [] {
      SuccessesExact(Front(executed), k);
      var e := Successes(Front(executed), k);
      forall i | 0 <= i < |e| ensures e[i] in executed {
        var j :| 0 <= j < |Front(executed)| && Front(executed)[j] == e[i];
        assert executed[j] == e[i];
      }
    }
  }

  lemma {:induction false} DistinctFit(marks: seq<Mark>, room: set<Mark>)
    requires forall i | 0 <= i < |marks| :: marks[i] in room
    requires forall i, j | 0 <= i < j < |marks| :: marks[i].call != marks[j].call
    ensures |marks| <= |room|
  {
    if marks != [] {
      forall i | 0 <= i < |marks| - 1 ensures marks[i] in room - {Last(marks)} {
        assert marks[i].call != marks[|marks| - 1].call;
      }
      DistinctFit(Front(marks), room - {Last(marks)});
    }
  }

  lemma {:induction false} EarlyIsFixed(s: State, steps: seq<Step>, t: State, k: Key)
    requires IsRun(s, steps, t) && k in s.data
    ensures k in t.data && Early(t, k) == Early(s, k)
    decreases |steps|
  {
    if steps != [] {
      EarlyIsFixed(Apply(s, steps[0]), steps[1..], t, k);
      assert Early(Apply(s, steps[0]), k) == Early(s, k);
    }
  }

  /** Once a response is saved it stays; and every call that holds or awaits the lock for the
      key, or has run the operation, made its first lookup before the save: a call whose first
      lookup follows is answered from the store and never runs. */
  lemma SavedStays(before: seq<Step>, s: State, after: seq<Step>, t: State, k: Key)
    requires IsRun(INITIAL, before, s) && IsRun(s, after, t) && k in s.data
    ensures k in t.data
    ensures forall c | c in t.calls && t.calls[c].key == k :: Mark(c, k) in s.missed
    ensures forall i | 0 <= i < |t.executed| && t.executed[i].key == k :: t.executed[i] in s.missed
  {
    RunKeepsInv(INITIAL, before, s);
    RunKeepsInv(s, after, t);
    EarlyIsFixed(s, after, t, k);
    forall m | m in t.missed && m.key == k ensures m in s.missed {
      assert m in Early(t, k);
    }
  }

  /** In every interleaving, the operation succeeds at most once per call, and only in calls
      whose first lookup came before the first save: their number bounds the successes. */
  lemma SuccessesAreBounded(before: seq<Step>, s: State, after: seq<Step>, t: State, k: Key)
    requires IsRun(INITIAL, before, s) && IsRun(s, after, t)
    requires k in s.data || after == []
    ensures |Successes(t.executed, k)| <= |Early(s, k)|
  {
    RunKeepsInv(INITIAL, before, s);
    RunKeepsInv(s, after, t);
    if k in s.data {
      EarlyIsFixed(s, after, t, k);
    }
    SuccessesExact(t.executed, k);
    DistinctFit(Successes(t.executed, k), Early(t, k));
  }

  // ----- When a key that succeeded can succeed again -----

  ghost predicate Live(s: State, k: Key) {
    exists d :: d in s.calls && s.calls[d].key == k && Locked(s.calls[d].phase)
  }

  /** Some call is about to run the operation, or has missed its lookup and can still get the
      lock: it is free, or held by a call that has not crashed. */
  ghost predicate CanRunAgain(s: State, k: Key) {
    exists c :: CanRun(s, k, c)
  }

  lemma {:induction false} SuccessesAppend(executed: seq<Mark>, m: Mark, k: Key)
    ensures Successes(executed + [m], k) == if m.key == k then Successes(executed, k) + [m] else Successes(executed, k)
  {
  }

  ghost predicate CanRun(s: State, k: Key, c: CallId) {
    && c in s.calls && s.calls[c].key == k
    && (s.calls[c].phase.Holding? || (s.calls[c].phase.Missed? && (k !in s.locks || Live(s, k))))
  }

  /** No step makes it possible: a call that can run after the step has its like before it. */
  lemma CanRunComesFromBefore(s: State, step: Step, k: Key, c: CallId)
    requires Exclusive(s) && Enabled(s, step) && k in s.data && CanRun(Apply(s, step), k, c)
    ensures CanRunAgain(s, k)
  {
    var t := Apply(s, step);
    assert c in s.calls && s.calls[c].key == k;
    if s.calls[c].phase.Missed? && t.calls[c].phase.Missed? && Live(t, k) {
      var d :| d in t.calls && t.calls[d].key == k && Locked(t.calls[d].phase);
      assert d in s.calls && s.calls[d].key == k;
      assert Locked(s.calls[d].phase) || CanRun(s, k, d);
    } else if step.Unlock? {
      assert s.calls[step.call].key == k ==> Live(s, k);
    }
    assert CanRun(s, k, c) || CanRunAgain(s, k);
  }

  lemma NoRunStaysNoRun(s: State, step: Step, k: Key)
    requires Exclusive(s) && Enabled(s, step) && k in s.data && !CanRunAgain(s, k)
    ensures k in Apply(s, step).data && !CanRunAgain(Apply(s, step), k)
    ensures Successes(Apply(s, step).executed, k) == Successes(s.executed, k)
  {
    var t := Apply(s, step);
    if step.Run? && IsSuccess(step.outcome) {
      SuccessesAppend(s.executed, Last(t.executed), k);
      assert s.calls[step.call].key == k ==> CanRun(s, k, step.call);
    }
    if CanRunAgain(t, k) {
      var c :| CanRun(t, k, c);
      CanRunComesFromBefore(s, step, k, c);
    }
  }

  lemma {:induction false} NoRunEver(s: State, steps: seq<Step>, t: State, k: Key)
    requires Exclusive(s) && IsRun(s, steps, t) && k in s.data && !CanRunAgain(s, k)
    ensures Successes(t.executed, k) == Successes(s.executed, k)
    decreases |steps|
  {
    if steps != [] {
      StepKeepsExclusive(s, steps[0]);
      NoRunStaysNoRun(s, steps[0], k);
      NoRunEver(Apply(s, steps[0]), steps[1..], t, k);
    }
  }

  /** The state can be brought to one more success under the key. */
  ghost predicate MaySucceedAgain(s: State, k: Key) {
    exists steps, t :: IsRun(s, steps, t) && |Successes(t.executed, k)| > |Successes(s.executed, k)|
  }

  lemma StepFirst(s: State, step: Step, k: Key)
    requires Enabled(s, step) && MaySucceedAgain(Apply(s, step), k)
    requires Apply(s, step).executed == s.executed
    ensures MaySucceedAgain(s, k)
  {
    var steps, t :| IsRun(Apply(s, step), steps, t) && |Successes(t.executed, k)| > |Successes(s.executed, k)|;
    assert ([step] + steps)[1..] == steps;
    assert IsRun(s, [step] + steps, t);
  }

  lemma HoldingSucceeds(s: State, k: Key, c: CallId)
    requires c in s.calls && s.calls[c].key == k && s.calls[c].phase.Holding?
    ensures MaySucceedAgain(s, k)
  {
    var step := Run(c, Answers(201, ""));
    var t := Apply(s, step);
    SuccessesAppend(s.executed, Mark(c, k), k);
    assert IsRun(t, [step][1..], t);
    assert IsRun(s, [step], t);
  }

  lemma FreeLockSucceeds(s: State, k: Key, c: CallId)
    requires c in s.calls && s.calls[c].key == k && s.calls[c].phase.Missed? && k !in s.locks
    ensures MaySucceedAgain(s, k)
  {
    HoldingSucceeds(Apply(s, TryLock(c)), k, c);
    StepFirst(s, TryLock(c), k);
  }

  lemma FinishingSucceeds(s: State, k: Key, c: CallId, d: CallId)
    requires c in s.calls && s.calls[c].key == k && s.calls[c].phase.Missed?
    requires d in s.calls && s.calls[d].key == k && s.calls[d].phase.Finishing?
    ensures MaySucceedAgain(s, k)
  {
    FreeLockSucceeds(Apply(s, Unlock(d)), k, c);
    StepFirst(s, Unlock(d), k);
  }

  lemma CanRunSucceeds(s: State, k: Key, c: CallId)
    requires CanRun(s, k, c)
    ensures MaySucceedAgain(s, k)
  {
    if s.calls[c].phase.Holding? {
      HoldingSucceeds(s, k, c);
    } else if k !in s.locks {
      FreeLockSucceeds(s, k, c);
    } else {
      var d :| d in s.calls && s.calls[d].key == k && Locked(s.calls[d].phase);
      match s.calls[d].phase
      case Holding => HoldingSucceeds(s, k, d);
      case Finishing => FinishingSucceeds(s, k, c, d);
      case Ran(_) =>
        FinishingSucceeds(Apply(s, Save(d)), k, c, d);
        StepFirst(s, Save(d), k);
    }
  }

  // ----- Before anything is saved -----

  lemma {:induction false} FreeCall(missed: set<Mark>) returns (c: CallId)
    ensures forall m | m in missed :: m.call < c
  {
    if missed == {} {
      c := 0;
    } else {
      var m :| m in missed;
      var rest := FreeCall(missed - {m});
      c := if rest <= m.call then m.call + 1 else rest;
      forall n | n in missed ensures n.call < c {
        assert n == m || n in missed - {m};
      }
    }
  }

  /** A new call finds nothing, gets the free lock and runs. */
  lemma NewCallSucceeds(s: State, k: Key)
    requires Accounted(s) && ValidKey(k) && k !in s.data && k !in s.locks
    ensures MaySucceedAgain(s, k)
  {
    var c := FreeCall(s.missed);
    forall d | d in s.calls ensures d < c {
      assert Mark(d, s.calls[d].key) in s.missed;
    }
    var begin := Begin(c, k, "");
    FreeLockSucceeds(Apply(s, begin), k, c);
    StepFirst(s, begin, k);
  }

  lemma UnlockedSucceeds(s: State, k: Key, d: CallId)
    requires Accounted(s) && ValidKey(k) && k !in s.data
    requires d in s.calls && s.calls[d].key == k && s.calls[d].phase.Finishing?
    ensures MaySucceedAgain(s, k)
  {
    StepKeepsAccounted(s, Unlock(d));
    NewCallSucceeds(Apply(s, Unlock(d)), k);
    StepFirst(s, Unlock(d), k);
  }

  /** The call that holds the lock runs, or ends, its save failing, and leaves room for a new call. */
  lemma LiveSucceeds(s: State, k: Key)
    requires Accounted(s) && ValidKey(k) && k !in s.data && Live(s, k)
    ensures MaySucceedAgain(s, k)
  {
    var d :| d in s.calls && s.calls[d].key == k && Locked(s.calls[d].phase);
    match s.calls[d].phase
    case Holding => HoldingSucceeds(s, k, d);
    case Finishing => UnlockedSucceeds(s, k, d);
    case Ran(_) =>
      StepKeepsAccounted(s, SaveFails(d));
      UnlockedSucceeds(Apply(s, SaveFails(d)), k, d);
      StepFirst(s, SaveFails(d), k);
  }

  /** The lock of a call that crashed: nothing takes it any more, so nothing runs. */
  ghost predicate Dead(s: State, k: Key) {
    k in s.locks && !Live(s, k)
  }

  lemma StepKeepsDead(s: State, step: Step, k: Key)
    requires Enabled(s, step) && Dead(s, k)
    ensures Dead(Apply(s, step), k)
    ensures Successes(Apply(s, step).executed, k) == Successes(s.executed, k)
  {
    var t := Apply(s, step);
    if step.Run? && IsSuccess(step.outcome) {
      SuccessesAppend(s.executed, Last(t.executed), k);
    }
    forall d | d in t.calls && t.calls[d].key == k ensures !Locked(t.calls[d].phase) {
      assert d in s.calls && s.calls[d].key == k ==> !Locked(s.calls[d].phase);
    }
  }

  lemma {:induction false} DeadForever(s: State, steps: seq<Step>, t: State, k: Key)
    requires IsRun(s, steps, t) && Dead(s, k)
    ensures Successes(t.executed, k) == Successes(s.executed, k)
    decreases |steps|
  {
    if steps != [] {
      StepKeepsDead(s, steps[0], k);
      DeadForever(Apply(s, steps[0]), steps[1..], t, k);
    }
  }

  // ----- Exactly when -----

  lemma SavedSuccessIff(s: State, k: Key)
    requires Inv(s) && k in s.data
    ensures MaySucceedAgain(s, k) <==> CanRunAgain(s, k)
  {
    if CanRunAgain(s, k) {
      var c :| CanRun(s, k, c);
      CanRunSucceeds(s, k, c);
    } else if MaySucceedAgain(s, k) {
      var steps, t :| IsRun(s, steps, t) && |Successes(t.executed, k)| > |Successes(s.executed, k)|;
      NoRunEver(s, steps, t, k);
      assert false;
    }
  }

  lemma UnsavedSuccessIff(s: State, k: Key)
    requires Inv(s) && ValidKey(k) && k !in s.data
    ensures MaySucceedAgain(s, k) <==> !Dead(s, k)
  {
    if k !in s.locks {
      NewCallSucceeds(s, k);
    } else if Live(s, k) {
      LiveSucceeds(s, k);
    } else if MaySucceedAgain(s, k) {
      var steps, t :| IsRun(s, steps, t) && |Successes(t.executed, k)| > |Successes(s.executed, k)|;
      DeadForever(s, steps, t, k);
      assert false;
    }
  }

  /** In every reachable state, for every valid key: the operation can succeed again if and only
      if, once a response is saved, some call already past its first lookup is running it or can
      still get the lock, and, as long as none is saved, the lock is not one left by a crash. */
  lemma SecondSuccessIff(before: seq<Step>, s: State, k: Key)
    requires IsRun(INITIAL, before, s) && ValidKey(k)
    ensures MaySucceedAgain(s, k) <==> if k in s.data then CanRunAgain(s, k) else k !in s.locks || Live(s, k)
  {
    RunKeepsInv(INITIAL, before, s);
    if k in s.data {
      SavedSuccessIff(s, k);
    } else {
      UnsavedSuccessIff(s, k);
    }
  }

  lemma RunFirst(s: State, step: Step, rest: seq<Step>, t: State)
    requires Enabled(s, step) && IsRun(Apply(s, step), rest, t)
    ensures IsRun(s, [step] + rest, t)
  {
    assert ([step] + rest)[1..] == rest;
  }

  /** A call from its beginning to its end that succeeds but cannot save its response. */
  function UnsavedCall(c: CallId, k: Key): seq<Step> {
    [Begin(c, k, "")] + ([TryLock(c)] + ([Run(c, Answers(201, ""))] + ([SaveFails(c)] + [Unlock(c)])))
  }

  function UnsavedCalls(c: CallId, k: Key, n: nat): seq<Step>
    decreases n
  {
    if n == 0 then [] else UnsavedCall(c, k) + UnsavedCalls(c + 1, k, n - 1)
  }

  lemma UnsavedCallFirst(s: State, c: CallId, k: Key, rest: seq<Step>, t: State)
    requires ValidKey(k) && k !in s.data && s.calls == map[] && s.locks == {} && forall m | m in s.missed :: m.call < c
    requires IsRun(s.(missed := s.missed + {Mark(c, k)}, executed := s.executed + [Mark(c, k)]), rest, t)
    ensures IsRun(s, UnsavedCall(c, k) + rest, t)
  {
    var begin, lock, run, fail, unlock := Begin(c, k, ""), TryLock(c), Run(c, Answers(201, "")), SaveFails(c), Unlock(c);
    var s1 := Apply(s, begin);
    var s2 := Apply(s1, lock);
    var s3 := Apply(s2, run);
    var s4 := Apply(s3, fail);
    assert Apply(s4, unlock) == s.(missed := s.missed + {Mark(c, k)}, executed := s.executed + [Mark(c, k)]);
    RunFirst(s4, unlock, rest, t);
    RunFirst(s3, fail, [unlock] + rest, t);
    RunFirst(s2, run, [fail] + ([unlock] + rest), t);
    RunFirst(s1, lock, [run] + ([fail] + ([unlock] + rest)), t);
    RunFirst(s, begin, [lock] + ([run] + ([fail] + ([unlock] + rest))), t);
    assert UnsavedCall(c, k) + rest == [begin] + ([lock] + ([run] + ([fail] + ([unlock] + rest))));
  }

  /** Without any overlap, a success that cannot be saved is repeated by the next call: under
      any key the operation can succeed any number of times, one call after the other. */
  lemma {:induction false} UnsavedSuccessesRepeat(s: State, c: CallId, k: Key, n: nat) returns (t: State)
    requires ValidKey(k) && k !in s.data && s.calls == map[] && s.locks == {} && forall m | m in s.missed :: m.call < c
    ensures IsRun(s, UnsavedCalls(c, k, n), t)
    ensures |Successes(t.executed, k)| == |Successes(s.executed, k)| + n
    decreases n
  {
    if n == 0 {
      t := s;
    } else {
      var next := s.(missed := s.missed + {Mark(c, k)}, executed := s.executed + [Mark(c, k)]);
      SuccessesAppend(s.executed, Mark(c, k), k);
      t := UnsavedSuccessesRepeat(next, c + 1, k, n - 1);
      UnsavedCallFirst(s, c, k, UnsavedCalls(c + 1, k, n - 1), t);
    }
  }

  /** Two calls that both look before either saves can both succeed: there is no second look
      after the lock. */
  lemma TwoSuccesses() returns (before: seq<Step>, s: State)
    ensures IsRun(INITIAL, before, s) && "k" in s.data && |Successes(s.executed, "k")| == 1
    ensures MaySucceedAgain(s, "k")
  {
    var a, b := Begin(1, "k", "h"), Begin(2, "k", "h");
    assert TrimLeft("k") == "k" && TrimRight("k") == "k";
    var s1 := Apply(INITIAL, a);
    var s2 := Apply(s1, b);
    var s3 := Apply(s2, TryLock(1));
    var s4 := Apply(s3, Run(1, Answers(201, "")));
    s := Apply(s4, Save(1));
    before := [a, b, TryLock(1), Run(1, Answers(201, "")), Save(1)];
    assert before[1..] == [b, TryLock(1), Run(1, Answers(201, "")), Save(1)];
    assert before[1..][1..] == [TryLock(1), Run(1, Answers(201, "")), Save(1)];
    assert before[1..][1..][1..] == [Run(1, Answers(201, "")), Save(1)];
    assert before[1..][1..][1..][1..] == [Save(1)];
    assert IsRun(s, [], s) && IsRun(s4, [Save(1)], s);
    assert IsRun(s3, before[1..][1..][1..], s);
    assert IsRun(s2, before[1..][1..], s) && IsRun(s1, before[1..], s);
    SuccessesAppend([], Mark(1, "k"), "k");
    assert s.calls[2].phase.Missed? && s.calls[1].phase.Finishing?;
    FinishingSucceeds(s, "k", 2, 1);
  }
}
