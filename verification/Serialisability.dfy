/**
 Overlapping calls compared with whole calls, one after another. A call that never commits
 can be erased from a run; a run in which every commit finds the row it read ends as some
 succession of whole calls does; and one commit that does not find it ends as none does.
 */
module Serialisability {
  import opened Basics
  import opened Payments
  import opened Events
  import opened Lifecycle
  import opened Interleavings
  import opened LostUpdates
  import Serial

  // ----- Calls that never commit -----

  predicate IsOf(step: Step, c: CallId) {
    match step
    case Create(_, _, _, _) => false
    case Read(d, _, _) => d == c
    case Reply(d, _) => d == c
    case Commit(d, _, _) => d == c
    case Stop(d) => d == c
  }

  function Erase(steps: seq<Step>, c: CallId): seq<Step> {
    if steps == [] then []
    else if IsOf(steps[0], c) then Erase(steps[1..], c)
    else [steps[0]] + Erase(steps[1..], c)
  }

  /** The same rows, events and persisted refunds, and the same calls but for c. */
  ghost predicate SameBut(s: State, u: State, c: CallId) {
    u.rows == s.rows && u.log == s.log && u.persisted == s.persisted && u.calls == s.calls - {c}
  }

  lemma OwnStepIsInvisible(mode: Mode, s: State, u: State, step: Step, c: CallId)
    requires SameBut(s, u, c) && Enabled(mode, s, step) && IsOf(step, c) && !step.Commit?
    ensures SameBut(Apply(mode, s, step), u, c)
  {
  }

  lemma OtherStepStays(mode: Mode, s: State, u: State, step: Step, c: CallId)
    requires SameBut(s, u, c) && Enabled(mode, s, step) && !IsOf(step, c)
    ensures Enabled(mode, u, step) && SameBut(Apply(mode, s, step), Apply(mode, u, step), c)
  {
  }

  /** However far it got, a call that does not commit leaves no trace in the rows, in the log
      or on other calls: without its steps, the rest of the run goes exactly as it went. */
  lemma {:induction false} UncommittedCallLeavesNoTrace(mode: Mode, s: State, u: State, steps: seq<Step>, t: State,
                                                        c: CallId)
    returns (v: State)
    requires IsRun(mode, s, steps, t) && SameBut(s, u, c)
    requires forall i | 0 <= i < |steps| :: IsOf(steps[i], c) ==> !steps[i].Commit?
    ensures IsRun(mode, u, Erase(steps, c), v) && SameBut(t, v, c)
    decreases |steps|
  {
    if steps == [] {
      v := u;
    } else if IsOf(steps[0], c) {
      OwnStepIsInvisible(mode, s, u, steps[0], c);
      v := UncommittedCallLeavesNoTrace(mode, Apply(mode, s, steps[0]), u, steps[1..], t, c);
    } else {
      OtherStepStays(mode, s, u, steps[0], c);
      v := UncommittedCallLeavesNoTrace(mode, Apply(mode, s, steps[0]), Apply(mode, u, steps[0]), steps[1..], t, c);
      assert ([steps[0]] + Erase(steps[1..], c))[1..] == Erase(steps[1..], c);
    }
  }

  // ----- Whole calls, one after another -----

  datatype Whole =
    | Creation(req: Request, newId: PaymentId, eventId: EventId, at: Time)
    | Execution(id: PaymentId, op: Op, answer: Answer, eventId: EventId, at: Time)

  ghost predicate Fits(s: State, w: Whole) {
    match w
    case Creation(req, id, eventId, at) => Enabled(OneCallPerPayment, s, Create(req, id, eventId, at))
    case Execution(id, op, answer, eventId, _) =>
      && id in s.rows && s.rows[id].id == id && FreshId(s.log, eventId)
      && Prepare(op, s.rows[id]).Ok? && Conclude(op, Prepare(op, s.rows[id]).value, answer).Ok?
  }

  ghost function Done(s: State, w: Whole): State
    requires Fits(s, w)
  {
    match w
    case Creation(req, id, eventId, at) => Created(s, NewRow(req, id, at).value, eventId, at)
    case Execution(id, op, answer, eventId, at) => Executed(s, id, op, answer, eventId, at)
  }

  ghost predicate Possible(ws: seq<Whole>)
    decreases |ws|, 0
  {
    ws == [] || (Possible(Front(ws)) && Fits(After(Front(ws)), Last(ws)))
  }

  ghost function After(ws: seq<Whole>): State
    requires Possible(ws)
    decreases |ws|, 1
  {
    if ws == [] then INITIAL else Done(After(Front(ws)), Last(ws))
  }

  lemma PossibleNext(ws: seq<Whole>, w: Whole)
    requires Possible(ws) && Fits(After(ws), w)
    ensures Possible(ws + [w]) && After(ws + [w]) == Done(After(ws), w)
  {
  }

  function StepsOf(ws: seq<Whole>): seq<Step> {
    if ws == [] then []
    else
      StepsOf(Front(ws))
      + match Last(ws)
        case Creation(req, id, eventId, at) => [Create(req, id, eventId, at)]
        case Execution(id, op, answer, eventId, at) => ExecuteSteps(0, id, op, answer, eventId, at)
  }

  /** Whole calls are a run in which the calls for one payment do not overlap. */
  lemma {:induction false} WholeCallsAreRun(ws: seq<Whole>)
    requires Possible(ws)
    ensures IsRun(OneCallPerPayment, INITIAL, StepsOf(ws), After(ws)) && After(ws).calls == map[]
  {
    if ws != [] {
      var s, t := After(Front(ws)), After(ws);
      WholeCallsAreRun(Front(ws));
      match Last(ws)
      case Creation(req, id, eventId, at) =>
        RunExtend(OneCallPerPayment, INITIAL, StepsOf(Front(ws)), s, Create(req, id, eventId, at));
      case Execution(id, op, answer, eventId, at) =>
        ExecuteIsRun(OneCallPerPayment, s, 0, id, op, answer, eventId, at);
        RunConcat(OneCallPerPayment, INITIAL, StepsOf(Front(ws)), s, ExecuteSteps(0, id, op, answer, eventId, at), t);
    }
  }

  // ----- What a call in flight stands for -----

  ghost predicate Concludes(call: Call, answer: Answer) {
    && call.Writing? && Prepare(call.op, call.base).Ok?
    && Conclude(call.op, Prepare(call.op, call.base).value, answer) == Ok((call.copy, call.eventType))
  }

  /** What the call is about to write follows from the row it read and some answer. */
  ghost predicate Explained(call: Call) {
    match call
    case Asking(op, base, copy) => Prepare(op, base) == Ok(copy)
    case Writing(_, _, _, _) => exists answer :: Concludes(call, answer)
  }

  ghost predicate AllExplained(s: State) {
    forall c | c in s.calls :: Explained(s.calls[c])
  }

  lemma StepKeepsExplained(mode: Mode, s: State, step: Step)
    requires AllExplained(s) && Enabled(mode, s, step)
    ensures AllExplained(Apply(mode, s, step))
  {
    var t := Apply(mode, s, step);
    forall c | c in t.calls ensures Explained(t.calls[c]) {
      assert c in s.calls ==> Explained(s.calls[c]);
      if step.Reply? && step.call == c {
        assert Concludes(t.calls[c], step.answer);
      }
    }
  }

  // ----- Serialisable exactly when fresh -----

  ghost predicate SameData(s: State, u: State) {
    u.rows == s.rows && u.log == s.log && u.persisted == s.persisted
  }

  /** The state could have been reached by whole calls, one after another. */
  ghost predicate Serialisable(s: State) {
    exists ws :: Reaches(ws, s)
  }

  ghost predicate Reaches(ws: seq<Whole>, s: State) {
    Possible(ws) && SameData(s, After(ws))
  }

  /** A commit that finds the row it read does what the whole call would do now. */
  lemma FreshCommitIsWholeCall(s: State, c: CallId, eventId: EventId, at: Time, ws: seq<Whole>) returns (w: Whole)
    requires Enabled(FreshCommits, s, Commit(c, eventId, at)) && Reaches(ws, s)
    requires Explained(s.calls[c]) && CallOk(s, s.calls[c])
    ensures Reaches(ws + [w], Committed(s, c, eventId, at))
  {
    var call := s.calls[c];
    var answer :| Concludes(call, answer);
    w := Execution(call.base.id, call.op, answer, eventId, at);
    assert SameTerms(call.base, call.copy);
    PossibleNext(ws, w);
    if !call.op.Refund? {
      assert s.persisted + RefundOf(call) == s.persisted;
    }
  }

  lemma StepStaysSerialisable(s: State, step: Step, ws: seq<Whole>) returns (more: seq<Whole>)
    requires Inv(s) && AllExplained(s) && Enabled(FreshCommits, s, step) && Reaches(ws, s)
    ensures Reaches(more, Apply(FreshCommits, s, step))
  {
    more := ws;
    match step
    case Create(req, id, eventId, at) =>
      PossibleNext(ws, Creation(req, id, eventId, at));
      more := ws + [Creation(req, id, eventId, at)];
    case Commit(c, eventId, at) =>
      assert Explained(s.calls[c]) && CallOk(s, s.calls[c]);
      var w := FreshCommitIsWholeCall(s, c, eventId, at, ws);
      more := ws + [w];
    case _ =>
  }

  lemma {:induction false} FreshRunStaysSerialisable(s: State, steps: seq<Step>, t: State, ws: seq<Whole>)
    returns (more: seq<Whole>)
    requires Inv(s) && AllExplained(s) && IsRun(FreshCommits, s, steps, t) && Reaches(ws, s)
    ensures Reaches(more, t) && Inv(t) && AllExplained(t)
    decreases |steps|
  {
    more := ws;
    if steps != [] {
      more := StepStaysSerialisable(s, steps[0], ws);
      StepKeepsInv(FreshCommits, s, steps[0]);
      StepKeepsExplained(FreshCommits, s, steps[0]);
      more := FreshRunStaysSerialisable(Apply(FreshCommits, s, steps[0]), steps[1..], t, more);
    }
  }

  /** However the calls overlap, as long as every commit finds the row its call read, rows, log
      and persisted refunds are those of whole calls, executed one after another. */
  lemma FreshRunsAreSerialisable(steps: seq<Step>, t: State)
    requires IsRun(FreshCommits, INITIAL, steps, t)
    ensures Serialisable(t)
  {
    var ws := FreshRunStaysSerialisable(INITIAL, steps, t, []);
  }

  lemma SerialisableIsInOrder(s: State, id: PaymentId)
    requires Serialisable(s) && id in s.rows
    ensures Serial.InOrder(s, id)
  {
    var ws :| Reaches(ws, s);
    WholeCallsAreRun(ws);
    Serial.LifecycleOrder(OneCallPerPayment, StepsOf(ws), After(ws), id);
  }

  lemma ScarredIsNotSerialisable(s: State, id: PaymentId)
    requires Scarred(s, id)
    ensures !Serialisable(s)
  {
    if Serialisable(s) {
      SerialisableIsInOrder(s, id);
    }
  }

  /** Whatever the interleaving, rows, log and persisted refunds are those of some whole calls,
      executed one after another, if and only if every commit of the run found the row that its
      call had read: one that did not is never made good by what comes later. */
  lemma RunSerialisableIffFresh(steps: seq<Step>, t: State)
    requires IsRun(AnyInterleaving, INITIAL, steps, t)
    ensures Serialisable(t) <==> IsRun(FreshCommits, INITIAL, steps, t)
  {
    if IsRun(FreshCommits, INITIAL, steps, t) {
      FreshRunsAreSerialisable(steps, t);
    } else {
      var id := RunWithStaleCommitScars(INITIAL, steps, t);
      ScarredIsNotSerialisable(t, id);
    }
  }

  lemma {:induction false} FreshBeginning(s: State, steps: seq<Step>, t: State, step: Step, u: State)
    requires IsRun(AnyInterleaving, s, steps, t) && IsRun(FreshCommits, s, steps + [step], u)
    ensures IsRun(FreshCommits, s, steps, t) && Enabled(FreshCommits, t, step)
    decreases |steps|
  {
    if steps != [] {
      assert (steps + [step])[1..] == steps[1..] + [step];
      FreshBeginning(Apply(FreshCommits, s, steps[0]), steps[1..], t, step, u);
    }
  }

  /** In every reachable state: a commit leaves the data serialisable if and only if the data
      was, and the commit finds the row that its call read. */
  lemma CommitSerialisableIffFresh(steps: seq<Step>, s: State, c: CallId, eventId: EventId, at: Time)
    requires IsRun(AnyInterleaving, INITIAL, steps, s) && Enabled(AnyInterleaving, s, Commit(c, eventId, at))
    ensures Serialisable(Committed(s, c, eventId, at)) <==>
            Serialisable(s) && s.calls[c].base == s.rows[s.calls[c].copy.id]
  {
    var t, commit := Committed(s, c, eventId, at), Commit(c, eventId, at);
    RunSerialisableIffFresh(steps, s);
    RunExtend(AnyInterleaving, INITIAL, steps, s, commit);
    RunSerialisableIffFresh(steps + [commit], t);
    if IsRun(FreshCommits, INITIAL, steps + [commit], t) {
      FreshBeginning(INITIAL, steps, s, commit, t);
    } else if IsRun(FreshCommits, INITIAL, steps, s) && Enabled(FreshCommits, s, commit) {
      RunExtend(FreshCommits, INITIAL, steps, s, commit);
    }
  }
}
