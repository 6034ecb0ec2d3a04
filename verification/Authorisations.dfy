/**
 What the gateway approved, beside what it refunded: every authorisation and capture it grants
 is put to use by a commit, or wasted. The history is kept over the steps of the use cases,
 with one more: a call whose answer comes too late for the state the payment is in.
 */
module Authorisations {
  import opened Basics
  import opened Payments
  import opened Events
  import opened Lifecycle
  import Serial

  datatype Kind = Authorisation | Captured

  datatype Grant = Grant(id: PaymentId, kind: Kind)

  /** granted: what the gateway approved, in order. used: what a commit recorded. wasted: what
      was approved for a call that never committed. */
  datatype Ledgers = Ledgers(life: Lifecycle.State, granted: seq<Grant>, used: seq<Grant>, wasted: seq<Grant>)

  datatype Move =
    | Life(step: Step)
    | TooLate(call: CallId, answer: Answer)

  const START := Ledgers(INITIAL, [], [], [])

  /** What the gateway has granted to a call that is about to write. */
  function GrantOf(call: Call): seq<Grant> {
    if !call.Writing? then []
    else match call.op
      case Process => if call.eventType == PaymentFailed then [] else [Grant(call.base.id, Authorisation)]
      case Capture => [Grant(call.base.id, Captured)]
      case Refund(_) => []
  }

  ghost predicate CanMove(mode: Mode, s: Ledgers, move: Move) {
    match move
    case Life(step) => Enabled(mode, s.life, step)
    case TooLate(c, answer) =>
      c in s.life.calls && s.life.calls[c].Asking? && Conclude(s.life.calls[c].op, s.life.calls[c].copy, answer).Err?
  }

  /** The gateway is asked before the state is checked: an approval that comes too late is an
      approval all the same. */
  ghost function Moved(mode: Mode, s: Ledgers, move: Move): Ledgers
    requires CanMove(mode, s, move)
  {
    match move
    case TooLate(c, answer) =>
      var grant := if answer == Approved then [Grant(s.life.calls[c].base.id, Authorisation)] else [];
      s.(life := Stopped(s.life, c), granted := s.granted + grant, wasted := s.wasted + grant)
    case Life(step) =>
      var life := Apply(mode, s.life, step);
      match step
      case Reply(c, _) => s.(life := life, granted := s.granted + GrantOf(life.calls[c]))
      case Commit(c, _, _) => s.(life := life, used := s.used + GrantOf(s.life.calls[c]))
      case Stop(c) => s.(life := life, wasted := s.wasted + GrantOf(s.life.calls[c]))
      case _ => s.(life := life)
  }

  ghost predicate IsHistory(mode: Mode, s: Ledgers, moves: seq<Move>, t: Ledgers)
    decreases |moves|
  {
    if moves == [] then s == t
    else CanMove(mode, s, moves[0]) && IsHistory(mode, Moved(mode, s, moves[0]), moves[1..], t)
  }

  /** Without the ledgers a history is a run of the use cases, an answer too late being the end
      of its call; so all that holds of the runs holds here. */
  lemma {:induction false} LifeOfHistory(mode: Mode, s: Ledgers, moves: seq<Move>, t: Ledgers)
    returns (steps: seq<Step>)
    requires IsHistory(mode, s, moves, t)
    ensures IsRun(mode, s.life, steps, t.life)
    decreases |moves|
  {
    steps := [];
    if moves != [] {
      var rest := LifeOfHistory(mode, Moved(mode, s, moves[0]), moves[1..], t);
      steps := [if moves[0].Life? then moves[0].step else Stop(moves[0].call)] + rest;
      assert steps[1..] == rest;
    }
  }

  // ----- Conservation -----

  function Count(ledger: seq<Grant>, g: Grant): nat {
    if ledger == [] then 0 else Count(Front(ledger), g) + if Last(ledger) == g then 1 else 0
  }

  /** How many grants g the call holds: none or one. */
  function Holds(call: Call, g: Grant): nat {
    if GrantOf(call) == [g] then 1 else 0
  }

  lemma CountMore(ledger: seq<Grant>, call: Call, g: Grant)
    ensures Count(ledger + GrantOf(call), g) == Count(ledger, g) + Holds(call, g)
  {
    if GrantOf(call) == [] {
      assert ledger + [] == ledger;
    } else {
      assert Front(ledger + GrantOf(call)) == ledger;
    }
  }

  ghost function Holdings(calls: map<CallId, Call>, g: Grant): map<CallId, int> {
    map c | c in calls :: Holds(calls[c], g)
  }

  ghost predicate Accounted(s: Ledgers, g: Grant) {
    Count(s.granted, g) == Count(s.used, g) + Count(s.wasted, g) + MapSum(Holdings(s.life.calls, g))
  }

  lemma PutHolding(s: Lifecycle.State, t: Lifecycle.State, c: CallId, g: Grant)
    requires c in t.calls && t.calls == s.calls[c := t.calls[c]] && (c in s.calls ==> !s.calls[c].Writing?)
    ensures MapSum(Holdings(t.calls, g)) == MapSum(Holdings(s.calls, g)) + Holds(t.calls[c], g)
  {
    MapSumPut(Holdings(s.calls, g), c, Holds(t.calls[c], g));
    assert Holdings(t.calls, g) == Holdings(s.calls, g)[c := Holds(t.calls[c], g)];
  }

  lemma EndHolding(s: Lifecycle.State, t: Lifecycle.State, c: CallId, g: Grant)
    requires c in s.calls && t.calls == s.calls - {c}
    ensures MapSum(Holdings(t.calls, g)) == MapSum(Holdings(s.calls, g)) - Holds(s.calls[c], g)
  {
    MapSumTake(Holdings(s.calls, g), c);
    assert Holdings(t.calls, g) == Holdings(s.calls, g) - {c};
  }

  lemma LateGrantCounts(ledger: seq<Grant>, id: PaymentId, g: Grant)
    ensures Count(ledger + [Grant(id, Authorisation)], g) == Count(ledger, g) + if g == Grant(id, Authorisation) then 1 else 0
  {
    assert Front(ledger + [Grant(id, Authorisation)]) == ledger;
  }

  lemma TooLateKeepsAccounted(mode: Mode, s: Ledgers, c: CallId, answer: Answer, g: Grant)
    requires Accounted(s, g) && CanMove(mode, s, TooLate(c, answer))
    ensures Accounted(Moved(mode, s, TooLate(c, answer)), g)
  {
    EndHolding(s.life, Stopped(s.life, c), c, g);
    if answer == Approved {
      LateGrantCounts(s.granted, s.life.calls[c].base.id, g);
      LateGrantCounts(s.wasted, s.life.calls[c].base.id, g);
    } else {
      assert s.granted + [] == s.granted && s.wasted + [] == s.wasted;
    }
  }

  lemma AdvanceKeepsAccounted(mode: Mode, s: Ledgers, step: Step, g: Grant)
    requires Accounted(s, g) && CanMove(mode, s, Life(step)) && (step.Read? || step.Reply?)
    ensures Accounted(Moved(mode, s, Life(step)), g)
  {
    var life := Apply(mode, s.life, step);
    PutHolding(s.life, life, step.call, g);
    CountMore(s.granted, life.calls[step.call], g);
  }

  lemma EndKeepsAccounted(mode: Mode, s: Ledgers, step: Step, g: Grant)
    requires Accounted(s, g) && CanMove(mode, s, Life(step)) && (step.Commit? || step.Stop?)
    ensures Accounted(Moved(mode, s, Life(step)), g)
  {
    var call := s.life.calls[step.call];
    EndHolding(s.life, Apply(mode, s.life, step), step.call, g);
    CountMore(s.used, call, g);
    CountMore(s.wasted, call, g);
  }

  lemma MoveKeepsAccounted(mode: Mode, s: Ledgers, move: Move, g: Grant)
    requires Accounted(s, g) && CanMove(mode, s, move)
    ensures Accounted(Moved(mode, s, move), g)
  {
    match move
    case TooLate(c, answer) => TooLateKeepsAccounted(mode, s, c, answer, g);
    case Life(step) =>
      if step.Read? || step.Reply? {
        AdvanceKeepsAccounted(mode, s, step, g);
      } else if !step.Create? {
        EndKeepsAccounted(mode, s, step, g);
      }
  }

  /** Every authorisation and capture the gateway granted is used, or wasted, or belongs to a
      call still to commit, in every interleaving. */
  lemma {:induction false} GrantsAreConserved(mode: Mode, s: Ledgers, moves: seq<Move>, t: Ledgers, g: Grant)
    requires Accounted(s, g) && IsHistory(mode, s, moves, t)
    ensures Accounted(t, g)
    decreases |moves|
  {
    if moves != [] {
      MoveKeepsAccounted(mode, s, moves[0], g);
      GrantsAreConserved(mode, Moved(mode, s, moves[0]), moves[1..], t, g);
    }
  }

  // ----- What is used -----

  /** The grants that a payment's state stands for. */
  function Expected(row: Row, kind: Kind): nat {
    match kind
    case Authorisation => if row.status in {Pending, Failed} then 0 else 1
    case Captured => if row.captureMethod == Manual && row.status in {Completed, PartiallyRefunded, Refunded} then 1 else 0
  }

  ghost predicate UsedOk(s: Ledgers, g: Grant) {
    Count(s.used, g) == if g.id in s.life.rows then Expected(s.life.rows[g.id], g.kind) else 0
  }

  lemma LegalMoveExpects(call: Call, kind: Kind)
    requires call.Writing? && LegalMove(call.base, call.copy, call.eventType) && WellFormed(call.base)
    requires Prepare(call.op, call.base).Ok? && (call.op.Process? ==> call.base.status == Pending)
    requires call.op.Refund? <==> call.eventType == PaymentRefunded
    ensures Expected(call.copy, kind) == Expected(call.base, kind) + Holds(call, Grant(call.base.id, kind))
  {
  }

  lemma HoldsForItsPayment(call: Call, g: Grant)
    requires g.id != call.base.id
    ensures Holds(call, g) == 0
  {
    assert GrantOf(call) != [] ==> GrantOf(call)[0].id == call.base.id;
  }

  /** A commit over the row that was read uses a grant exactly when the new state stands for one more. */
  lemma FreshCommitUses(s: Ledgers, c: CallId, eventId: EventId, at: Time, g: Grant)
    requires UsedOk(s, g) && CanMove(FreshCommits, s, Life(Commit(c, eventId, at))) && CallOk(s.life, s.life.calls[c])
    ensures UsedOk(Moved(FreshCommits, s, Life(Commit(c, eventId, at))), g)
  {
    var call, t := s.life.calls[c], Moved(FreshCommits, s, Life(Commit(c, eventId, at)));
    assert call.copy.id == call.base.id && s.life.rows[call.base.id] == call.base;
    CountMore(s.used, call, g);
    if g.id == call.base.id {
      LegalMoveExpects(call, g.kind);
      assert g == Grant(call.base.id, g.kind) && t.life.rows[g.id] == call.copy;
    } else {
      HoldsForItsPayment(call, g);
      assert g.id in t.life.rows <==> g.id in s.life.rows;
    }
  }

  lemma MoveKeepsUsed(s: Ledgers, move: Move, g: Grant)
    requires Inv(s.life) && UsedOk(s, g) && CanMove(FreshCommits, s, move)
    ensures UsedOk(Moved(FreshCommits, s, move), g)
  {
    if move.Life? && move.step.Commit? {
      assert CallOk(s.life, s.life.calls[move.step.call]);
      FreshCommitUses(s, move.step.call, move.step.eventId, move.step.at, g);
    } else if move.Life? && move.step.Create? {
      NewRowExact(move.step.req, move.step.id, move.step.at);
    }
  }

  lemma {:induction false} HistoryKeepsUsed(s: Ledgers, moves: seq<Move>, t: Ledgers, g: Grant)
    requires Inv(s.life) && UsedOk(s, g) && IsHistory(FreshCommits, s, moves, t)
    ensures UsedOk(t, g)
    decreases |moves|
  {
    if moves != [] {
      var next := Moved(FreshCommits, s, moves[0]);
      MoveKeepsUsed(s, moves[0], g);
      if moves[0].Life? {
        StepKeepsInv(FreshCommits, s.life, moves[0].step);
      } else {
        StopKeepsInv(s.life, moves[0].call);
      }
      HistoryKeepsUsed(next, moves[1..], t, g);
    }
  }

  lemma NonOverlappingMoveIsFresh(s: Ledgers, move: Move)
    requires Inv(s.life) && Serial.Exclusive(s.life) && CanMove(OneCallPerPayment, s, move)
    ensures CanMove(FreshCommits, s, move) && Moved(FreshCommits, s, move) == Moved(OneCallPerPayment, s, move)
    ensures Inv(Moved(FreshCommits, s, move).life) && Serial.Exclusive(Moved(FreshCommits, s, move).life)
  {
    var step := if move.Life? then move.step else Stop(move.call);
    if step.Commit? {
      assert CallOk(s.life, s.life.calls[step.call]);
      Serial.NonOverlappingCommitIsFresh(s.life, step);
    } else {
      Serial.NonOverlappingStepIsFresh(s.life, step);
    }
    StepKeepsInv(OneCallPerPayment, s.life, step);
    assert Apply(FreshCommits, s.life, step) == Apply(OneCallPerPayment, s.life, step);
  }

  /** When the calls for one payment do not overlap, every commit finds the row it read. */
  lemma {:induction false} NonOverlappingHistoryIsFresh(s: Ledgers, moves: seq<Move>, t: Ledgers)
    requires Inv(s.life) && Serial.Exclusive(s.life) && IsHistory(OneCallPerPayment, s, moves, t)
    ensures IsHistory(FreshCommits, s, moves, t)
    decreases |moves|
  {
    if moves != [] {
      NonOverlappingMoveIsFresh(s, moves[0]);
      NonOverlappingHistoryIsFresh(Moved(OneCallPerPayment, s, moves[0]), moves[1..], t);
    }
  }

  /** While no commit overwrites a changed row, in particular while the calls for one payment do
      not overlap, and with no call for it in flight: a payment's state stands for exactly the
      authorisations and captures the gateway granted for it and were not wasted, one of each
      at most. */
  lemma GrantsMatchState(mode: Mode, moves: seq<Move>, t: Ledgers, id: PaymentId, kind: Kind)
    requires !mode.AnyInterleaving? && IsHistory(mode, START, moves, t) && id in t.life.rows && Idle(t.life, id)
    ensures Count(t.granted, Grant(id, kind)) == Expected(t.life.rows[id], kind) + Count(t.wasted, Grant(id, kind))
  {
    if mode.OneCallPerPayment? {
      NonOverlappingHistoryIsFresh(START, moves, t);
    }
    var g := Grant(id, kind);
    GrantsAreConserved(FreshCommits, START, moves, t, g);
    HistoryKeepsUsed(START, moves, t, g);
    MapSumZero(Holdings(t.life.calls, g));
  }

  // ----- What is wasted -----

  /** An answer comes too late if and only if the call processes a payment that it read in some
      state other than pending: captures and refunds are checked before the gateway is asked. */
  lemma TooLateIff(mode: Mode, s: Ledgers, c: CallId, answer: Answer)
    requires Inv(s.life) && c in s.life.calls && s.life.calls[c].Asking?
    ensures CanMove(mode, s, TooLate(c, answer)) <==> s.life.calls[c].op == Process && s.life.calls[c].base.status != Pending
  {
    assert CallOk(s.life, s.life.calls[c]);
  }

  lemma {:induction false} HistoryExtend(mode: Mode, s: Ledgers, moves: seq<Move>, t: Ledgers, move: Move)
    requires IsHistory(mode, s, moves, t) && CanMove(mode, t, move)
    ensures IsHistory(mode, s, moves + [move], Moved(mode, t, move))
    decreases |moves|
  {
    if moves == [] {
      assert (moves + [move])[1..] == [];
    } else {
      assert (moves + [move])[1..] == moves[1..] + [move];
      HistoryExtend(mode, Moved(mode, s, moves[0]), moves[1..], t, move);
    }
  }

  /** A call on its own whose answer comes too late. */
  lemma LateCallIsHistory(mode: Mode, s: Ledgers, c: CallId, id: PaymentId, answer: Answer)
    returns (moves: seq<Move>, t: Ledgers)
    requires id in s.life.rows && s.life.rows[id].id == id && s.life.rows[id].status != Pending
    requires c !in s.life.calls && Idle(s.life, id)
    ensures IsHistory(mode, s, moves, t) && t.life == s.life
    ensures var grant := if answer == Approved then [Grant(id, Authorisation)] else [];
            t.granted == s.granted + grant && t.wasted == s.wasted + grant && t.used == s.used
  {
    var read, late := Life(Read(c, id, Process)), TooLate(c, answer);
    var s1 := Moved(mode, s, read);
    HistoryExtend(mode, s, [], s, read);
    assert CanMove(mode, s1, late);
    t := Moved(mode, s1, late);
    assert t.life.calls == s.life.calls;
    moves := [] + [read];
    HistoryExtend(mode, s, moves, s1, late);
    moves := moves + [late];
  }

  /** A redelivered creation: whatever has become of the payment since, as long as it is no
      longer pending, the gateway is asked for an authorisation again, and one that it grants
      is wasted; rows, log and every other call are as before. */
  lemma RedeliveryWastesGrant(mode: Mode, s: Ledgers, id: PaymentId, c: CallId) returns (moves: seq<Move>, t: Ledgers)
    requires id in s.life.rows && s.life.rows[id].id == id && s.life.rows[id].status != Pending
    requires c !in s.life.calls && Idle(s.life, id)
    ensures IsHistory(mode, s, moves, t) && t.life == s.life
    ensures t.granted == s.granted + [Grant(id, Authorisation)] && t.wasted == s.wasted + [Grant(id, Authorisation)]
    ensures t.used == s.used
  {
    moves, t := LateCallIsHistory(mode, s, c, id, Approved);
  }

  function GrantIn(op: Op, id: PaymentId, answer: Answer): seq<Grant> {
    match op
    case Process => if answer == Approved then [Grant(id, Authorisation)] else []
    case Capture => [Grant(id, Captured)]
    case Refund(_) => []
  }

  lemma AnsweredCallIsHistory(mode: Mode, s: Ledgers, c: CallId, id: PaymentId, op: Op, answer: Answer)
    returns (moves: seq<Move>, t: Ledgers)
    requires c !in s.life.calls && Idle(s.life, id) && id in s.life.rows && s.life.rows[id].id == id
    requires Prepare(op, s.life.rows[id]).Ok? && Conclude(op, Prepare(op, s.life.rows[id]).value, answer).Ok? && !op.Refund?
    ensures IsHistory(mode, s, moves, t)
    ensures var (copy, eventType) := Conclude(op, Prepare(op, s.life.rows[id]).value, answer).value;
            copy.id == id && t.life == s.life.(calls := s.life.calls[c := Writing(op, s.life.rows[id], copy, eventType)])
    ensures t.granted == s.granted + GrantIn(op, id, answer)
  {
    var s1 := Moved(mode, s, Life(Read(c, id, op)));
    HistoryExtend(mode, s, [], s, Life(Read(c, id, op)));
    moves := [] + [Life(Read(c, id, op))];
    t := Moved(mode, s1, Life(Reply(c, answer)));
    HistoryExtend(mode, s, moves, s1, Life(Reply(c, answer)));
    moves := moves + [Life(Reply(c, answer))];
    assert s.life.confirmed + [] == s.life.confirmed;
  }

  /** A call on its own that commits, or is stopped once it was answered. */
  lemma CallIsHistory(mode: Mode, s: Ledgers, c: CallId, id: PaymentId, op: Op, answer: Answer, end: Step)
    returns (moves: seq<Move>, t: Ledgers)
    requires c !in s.life.calls && Idle(s.life, id) && id in s.life.rows && s.life.rows[id].id == id
    requires Prepare(op, s.life.rows[id]).Ok? && Conclude(op, Prepare(op, s.life.rows[id]).value, answer).Ok? && !op.Refund?
    requires end == Stop(c) || (end.Commit? && end.call == c && FreshId(s.life.log, end.eventId))
    ensures IsHistory(mode, s, moves, t)
    ensures t.life == if end.Commit? then Executed(s.life, id, op, answer, end.eventId, end.at) else s.life
    ensures t.granted == s.granted + GrantIn(op, id, answer)
  {
    var asked;
    moves, asked := AnsweredCallIsHistory(mode, s, c, id, op, answer);
    t := Moved(mode, asked, Life(end));
    HistoryExtend(mode, s, moves, asked, Life(end));
    moves := moves + [Life(end)];
    assert t.life.calls == s.life.calls;
    assert s.life.lost + [] == s.life.lost && s.life.persisted + [] == s.life.persisted;
  }

  /** A payment can be failed although the gateway holds an authorisation for it: the first
      answer approved it and was lost with its transaction, the second declined. */
  lemma FailedYetAuthorised() returns (moves: seq<Move>, t: Ledgers)
    ensures IsHistory(OneCallPerPayment, START, moves, t)
    ensures "sale" in t.life.rows && t.life.rows["sale"].status == Failed && t.life.calls == map[]
    ensures t.granted == t.wasted == [Grant("sale", Authorisation)] && t.used == []
  {
    var mode := OneCallPerPayment;
    var create := Create(Request(100, "BRL", 0, Unset), "sale", "1", 0);
    var s0 := Moved(mode, START, Life(create));
    HistoryExtend(mode, START, [], START, Life(create));
    moves := [] + [Life(create)];
    var s1, lost := LoseApproval(s0);
    moves, t := Decline(moves, s0, s1, lost);
  }

  lemma LoseApproval(s: Ledgers) returns (t: Ledgers, more: seq<Move>)
    requires s.life.calls == map[] && "sale" in s.life.rows && s.life.rows["sale"].id == "sale"
    requires s.life.rows["sale"].status == Pending && s.granted == s.wasted == []
    ensures IsHistory(OneCallPerPayment, s, more, t)
    ensures t.life == s.life && t.granted == t.wasted == [Grant("sale", Authorisation)] && t.used == s.used
  {
    var mode := OneCallPerPayment;
    var s1 := Moved(mode, s, Life(Read(0, "sale", Process)));
    HistoryExtend(mode, s, [], s, Life(Read(0, "sale", Process)));
    var s2 := Moved(mode, s1, Life(Reply(0, Approved)));
    HistoryExtend(mode, s, [] + [Life(Read(0, "sale", Process))], s1, Life(Reply(0, Approved)));
    t := Moved(mode, s2, Life(Stop(0)));
    more := [] + [Life(Read(0, "sale", Process))] + [Life(Reply(0, Approved))];
    HistoryExtend(mode, s, more, s2, Life(Stop(0)));
    more := more + [Life(Stop(0))];
    assert t.life.calls == map[];
    assert s.life.confirmed + [] == s.life.confirmed && s.life.lost + [] == s.life.lost;
  }

  lemma Decline(moves: seq<Move>, s0: Ledgers, s: Ledgers, lost: seq<Move>) returns (all: seq<Move>, t: Ledgers)
    requires IsHistory(OneCallPerPayment, START, moves, s0) && IsHistory(OneCallPerPayment, s0, lost, s)
    requires s.life.calls == map[] && "sale" in s.life.rows && s.life.rows["sale"].id == "sale"
    requires s.life.rows["sale"].status == Pending && FreshId(s.life.log, "2")
    ensures IsHistory(OneCallPerPayment, START, all, t)
    ensures "sale" in t.life.rows && t.life.rows["sale"].status == Failed && t.life.calls == map[]
    ensures t.granted == s.granted && t.wasted == s.wasted && t.used == s.used
  {
    var mode := OneCallPerPayment;
    HistoryConcat(mode, START, moves, s0, lost, s);
    all := moves + lost;
    var s1 := Moved(mode, s, Life(Read(0, "sale", Process)));
    HistoryExtend(mode, START, all, s, Life(Read(0, "sale", Process)));
    all := all + [Life(Read(0, "sale", Process))];
    var s2 := Moved(mode, s1, Life(Reply(0, Declined)));
    HistoryExtend(mode, START, all, s1, Life(Reply(0, Declined)));
    all := all + [Life(Reply(0, Declined))];
    t := Moved(mode, s2, Life(Commit(0, "2", 0)));
    HistoryExtend(mode, START, all, s2, Life(Commit(0, "2", 0)));
    all := all + [Life(Commit(0, "2", 0))];
    assert s.granted + [] == s.granted && s.used + [] == s.used;
  }

  lemma {:induction false} HistoryConcat(mode: Mode, s: Ledgers, a: seq<Move>, t: Ledgers, b: seq<Move>, u: Ledgers)
    requires IsHistory(mode, s, a, t) && IsHistory(mode, t, b, u)
    ensures IsHistory(mode, s, a + b, u)
    decreases |a|
  {
    if a == [] {
      assert a + b == b;
    } else {
      assert (a + b)[1..] == a[1..] + b;
      HistoryConcat(mode, Moved(mode, s, a[0]), a[1..], t, b, u);
    }
  }
}
