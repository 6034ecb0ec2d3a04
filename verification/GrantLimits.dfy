/**
 What the gateway can come to grant beyond what a payment stands for, although the calls for
 one payment never overlap: from which states exactly, as read off the stored row.
 */
module GrantLimits {
  import opened Basics
  import opened Payments
  import opened Events
  import opened Lifecycle
  import opened Authorisations
  import GatewayLimit
  import Interleavings

  lemma HistoryKeepsInv(mode: Mode, s: Ledgers, moves: seq<Move>, t: Ledgers)
    requires Inv(s.life) && IsHistory(mode, s, moves, t)
    ensures Inv(t.life)
  {
    var steps := LifeOfHistory(mode, s, moves, t);
    Interleavings.RunKeepsInv(mode, s.life, steps, t.life);
  }

  lemma CountOneMore(ledger: seq<Grant>, g: Grant)
    ensures Count(ledger + [g], g) == Count(ledger, g) + 1
  {
    assert Front(ledger + [g]) == ledger;
  }

  /** One more whole call, which is answered and then committed or lost. */
  lemma OneMoreCall(s: Ledgers, id: PaymentId, op: Op, answer: Answer, commits: bool) returns (moves: seq<Move>, t: Ledgers)
    requires Inv(s.life) && id in s.life.rows && Idle(s.life, id) && !op.Refund?
    requires Prepare(op, s.life.rows[id]).Ok? && Conclude(op, Prepare(op, s.life.rows[id]).value, answer).Ok?
    ensures IsHistory(OneCallPerPayment, s, moves, t) && Inv(t.life) && id in t.life.rows && Idle(t.life, id)
    ensures t.life.rows[id] == if commits then Conclude(op, Prepare(op, s.life.rows[id]).value, answer).value.0 else s.life.rows[id]
    ensures t.granted == s.granted + GrantIn(op, id, answer)
  {
    assert RowOk(s.life, id);
    var c := GatewayLimit.FreeCall(s.life.calls.Keys);
    var event := GatewayLimit.FreeEvent(s.life.log);
    moves, t := CallIsHistory(OneCallPerPayment, s, c, id, op, answer, if commits then Commit(c, event, 0) else Stop(c));
    HistoryKeepsInv(OneCallPerPayment, s, moves, t);
  }

  lemma ProcessPending(s: Ledgers, id: PaymentId, answer: Answer, commits: bool) returns (moves: seq<Move>, t: Ledgers)
    requires Inv(s.life) && id in s.life.rows && Idle(s.life, id) && s.life.rows[id].status == Pending
    ensures IsHistory(OneCallPerPayment, s, moves, t) && Inv(t.life) && id in t.life.rows && Idle(t.life, id)
    ensures t.life.rows[id].status == if !commits then Pending else if answer == Declined then Failed
                                      else if s.life.rows[id].captureMethod == Manual then Authorized else Completed
    ensures t.granted == s.granted + GrantIn(Process, id, answer)
  {
    moves, t := OneMoreCall(s, id, Process, answer, commits);
  }

  // ----- A failed payment with an authorisation -----

  ghost predicate FailedAuthorised(t: Ledgers, id: PaymentId) {
    id in t.life.rows && t.life.rows[id].status == Failed && Count(t.granted, Grant(id, Authorisation)) > 0
  }

  /** Some continuation without overlapping calls leaves the payment failed, and authorised at
      the gateway. */
  ghost predicate MayFailAuthorised(s: Ledgers, id: PaymentId) {
    exists moves, t :: IsHistory(OneCallPerPayment, s, moves, t) && FailedAuthorised(t, id)
  }

  lemma FailedMayFailAuthorised(s: Ledgers, id: PaymentId)
    requires Inv(s.life) && id in s.life.rows && Idle(s.life, id) && s.life.rows[id].status == Failed
    ensures MayFailAuthorised(s, id)
  {
    assert RowOk(s.life, id);
    var c := GatewayLimit.FreeCall(s.life.calls.Keys);
    var moves, t := RedeliveryWastesGrant(OneCallPerPayment, s, id, c);
    CountOneMore(s.granted, Grant(id, Authorisation));
    assert FailedAuthorised(t, id);
  }

  lemma LosesThenFails(s: Ledgers, id: PaymentId) returns (moves: seq<Move>, u: Ledgers)
    requires Inv(s.life) && id in s.life.rows && Idle(s.life, id) && s.life.rows[id].status == Pending
    ensures IsHistory(OneCallPerPayment, s, moves, u) && id in u.life.rows && u.life.rows[id].status == Failed
    ensures u.granted == s.granted + [Grant(id, Authorisation)]
  {
    var approved, t := ProcessPending(s, id, Approved, false);
    var declined;
    declined, u := ProcessPending(t, id, Declined, true);
    HistoryConcat(OneCallPerPayment, s, approved, t, declined, u);
    moves := approved + declined;
  }

  lemma PendingMayFailAuthorised(s: Ledgers, id: PaymentId)
    requires Inv(s.life) && id in s.life.rows && Idle(s.life, id) && s.life.rows[id].status == Pending
    ensures MayFailAuthorised(s, id)
  {
    var moves, u := LosesThenFails(s, id);
    CountOneMore(s.granted, Grant(id, Authorisation));
    assert FailedAuthorised(u, id);
  }

  /** The payment, and all that calls in flight have read of it, got past its authorisation. */
  ghost predicate PastApproval(s: Lifecycle.State, id: PaymentId) {
    && id in s.rows && s.rows[id].status !in {Pending, Failed}
    && forall c | c in s.calls && s.calls[c].base.id == id :: s.calls[c].base.status !in {Pending, Failed}
  }

  lemma StepKeepsPastApproval(mode: Mode, s: Lifecycle.State, step: Step, id: PaymentId)
    requires PastApproval(s, id) && Enabled(mode, s, step)
    requires step.Commit? ==> CallOk(s, s.calls[step.call])
    requires step.Read? ==> RowOk(s, step.id)
    ensures PastApproval(Apply(mode, s, step), id)
  {
  }

  /** In any interleaving, such a payment never fails. */
  lemma {:induction false} ApprovedNeverFails(mode: Mode, s: Lifecycle.State, steps: seq<Step>, t: Lifecycle.State, id: PaymentId)
    requires Inv(s) && PastApproval(s, id) && IsRun(mode, s, steps, t)
    ensures PastApproval(t, id)
    decreases |steps|
  {
    if steps != [] {
      assert steps[0].Commit? ==> CallOk(s, s.calls[steps[0].call]);
      assert steps[0].Read? ==> RowOk(s, steps[0].id);
      StepKeepsPastApproval(mode, s, steps[0], id);
      StepKeepsInv(mode, s, steps[0]);
      ApprovedNeverFails(mode, Apply(mode, s, steps[0]), steps[1..], t, id);
    }
  }

  /** Between two calls for a payment: it can come to be failed while the gateway holds an
      authorisation for it if and only if it is pending or failed already. */
  lemma MayFailAuthorisedIff(past: seq<Move>, s: Ledgers, id: PaymentId)
    requires IsHistory(OneCallPerPayment, START, past, s) && id in s.life.rows && Idle(s.life, id)
    ensures MayFailAuthorised(s, id) <==> s.life.rows[id].status in {Pending, Failed}
  {
    HistoryKeepsInv(OneCallPerPayment, START, past, s);
    if s.life.rows[id].status == Failed {
      FailedMayFailAuthorised(s, id);
    } else if s.life.rows[id].status == Pending {
      PendingMayFailAuthorised(s, id);
    } else if MayFailAuthorised(s, id) {
      var moves, t :| IsHistory(OneCallPerPayment, s, moves, t) && FailedAuthorised(t, id);
      var steps := LifeOfHistory(OneCallPerPayment, s, moves, t);
      ApprovedNeverFails(OneCallPerPayment, s.life, steps, t.life, id);
    }
  }

  // ----- A payment captured twice -----

  /** Some continuation without overlapping calls has the payment captured twice at the gateway. */
  ghost predicate MayCaptureTwice(s: Ledgers, id: PaymentId) {
    exists moves, t :: IsHistory(OneCallPerPayment, s, moves, t) && Count(t.granted, Grant(id, Captured)) > 1
  }

  /** A capture is still to come. */
  predicate Capturable(row: Row) {
    row.status == Authorized || (row.status == Pending && row.captureMethod == Manual)
  }

  lemma AuthorizedMayCaptureTwice(s: Ledgers, id: PaymentId)
    requires Inv(s.life) && id in s.life.rows && Idle(s.life, id) && s.life.rows[id].status == Authorized
    ensures MayCaptureTwice(s, id)
  {
    var first, t := OneMoreCall(s, id, Capture, Approved, false);
    var second, u := OneMoreCall(t, id, Capture, Approved, false);
    HistoryConcat(OneCallPerPayment, s, first, t, second, u);
    CountOneMore(s.granted, Grant(id, Captured));
    CountOneMore(t.granted, Grant(id, Captured));
  }

  lemma MayCaptureTwiceFrom(s: Ledgers, moves: seq<Move>, t: Ledgers, id: PaymentId)
    requires IsHistory(OneCallPerPayment, s, moves, t) && MayCaptureTwice(t, id)
    ensures MayCaptureTwice(s, id)
  {
    var more, u :| IsHistory(OneCallPerPayment, t, more, u) && Count(u.granted, Grant(id, Captured)) > 1;
    HistoryConcat(OneCallPerPayment, s, moves, t, more, u);
  }

  lemma CapturableMayCaptureTwice(s: Ledgers, id: PaymentId)
    requires Inv(s.life) && id in s.life.rows && Idle(s.life, id) && Capturable(s.life.rows[id])
    ensures MayCaptureTwice(s, id)
  {
    if s.life.rows[id].status == Authorized {
      AuthorizedMayCaptureTwice(s, id);
    } else {
      var first, t := ProcessPending(s, id, Approved, true);
      AuthorizedMayCaptureTwice(t, id);
      MayCaptureTwiceFrom(s, first, t, id);
    }
  }

  /** Neither the row nor anything that calls in flight have read of it can be captured. */
  ghost predicate PastCapture(s: Lifecycle.State, id: PaymentId) {
    && id in s.rows && !Capturable(s.rows[id])
    && forall c | c in s.calls && s.calls[c].base.id == id :: !Capturable(s.calls[c].base)
  }

  lemma StepKeepsPastCapture(mode: Mode, s: Lifecycle.State, step: Step, id: PaymentId)
    requires PastCapture(s, id) && Enabled(mode, s, step)
    requires step.Commit? ==> CallOk(s, s.calls[step.call])
    requires step.Read? ==> RowOk(s, step.id)
    ensures PastCapture(Apply(mode, s, step), id)
  {
  }

  lemma CountOther(ledger: seq<Grant>, more: seq<Grant>, g: Grant)
    requires |more| <= 1 && more != [g]
    ensures Count(ledger + more, g) == Count(ledger, g)
  {
    if more == [] {
      assert ledger + more == ledger;
    } else {
      assert Front(ledger + more) == ledger && more == [more[0]];
    }
  }

  lemma ReplyCapturesNothing(mode: Mode, s: Ledgers, step: Step, id: PaymentId)
    requires PastCapture(s.life, id) && CanMove(mode, s, Life(step)) && step.Reply?
    requires CallOk(s.life, s.life.calls[step.call])
    ensures Count(Moved(mode, s, Life(step)).granted, Grant(id, Captured)) == Count(s.granted, Grant(id, Captured))
  {
    var call := s.life.calls[step.call];
    assert call.op.Capture? ==> call.base.status == Authorized && call.base.id != id;
    CountOther(s.granted, GrantOf(Apply(mode, s.life, step).calls[step.call]), Grant(id, Captured));
  }

  lemma MoveCapturesNothing(mode: Mode, s: Ledgers, move: Move, id: PaymentId)
    requires PastCapture(s.life, id) && CanMove(mode, s, move)
    requires move.Life? && move.step.Reply? ==> CallOk(s.life, s.life.calls[move.step.call])
    ensures Count(Moved(mode, s, move).granted, Grant(id, Captured)) == Count(s.granted, Grant(id, Captured))
  {
    if move.TooLate? {
      var late := if move.answer == Approved then [Grant(s.life.calls[move.call].base.id, Authorisation)] else [];
      CountOther(s.granted, late, Grant(id, Captured));
    } else if move.step.Reply? {
      ReplyCapturesNothing(mode, s, move.step, id);
    }
  }

  lemma MoveKeepsPastCapture(mode: Mode, s: Ledgers, move: Move, id: PaymentId)
    requires Inv(s.life) && PastCapture(s.life, id) && CanMove(mode, s, move)
    ensures PastCapture(Moved(mode, s, move).life, id) && Inv(Moved(mode, s, move).life)
  {
    var step := if move.Life? then move.step else Stop(move.call);
    assert step.Commit? ==> CallOk(s.life, s.life.calls[step.call]);
    assert step.Read? ==> RowOk(s.life, step.id);
    StepKeepsPastCapture(mode, s.life, step, id);
    StepKeepsInv(mode, s.life, step);
  }

  lemma {:induction false} NothingMoreCaptured(mode: Mode, s: Ledgers, moves: seq<Move>, t: Ledgers, id: PaymentId)
    requires Inv(s.life) && PastCapture(s.life, id) && IsHistory(mode, s, moves, t)
    ensures Count(t.granted, Grant(id, Captured)) == Count(s.granted, Grant(id, Captured))
    decreases |moves|
  {
    if moves != [] {
      assert moves[0].Life? && moves[0].step.Reply? ==> CallOk(s.life, s.life.calls[moves[0].step.call]);
      MoveCapturesNothing(mode, s, moves[0], id);
      MoveKeepsPastCapture(mode, s, moves[0], id);
      NothingMoreCaptured(mode, Moved(mode, s, moves[0]), moves[1..], t, id);
    }
  }

  /** Between two calls for a payment: the gateway can come to have captured it twice if and only
      if it has, or a capture is still to come. */
  lemma MayCaptureTwiceIff(past: seq<Move>, s: Ledgers, id: PaymentId)
    requires IsHistory(OneCallPerPayment, START, past, s) && id in s.life.rows && Idle(s.life, id)
    ensures MayCaptureTwice(s, id) <==> Count(s.granted, Grant(id, Captured)) > 1 || Capturable(s.life.rows[id])
  {
    HistoryKeepsInv(OneCallPerPayment, START, past, s);
    if Capturable(s.life.rows[id]) {
      CapturableMayCaptureTwice(s, id);
    } else if Count(s.granted, Grant(id, Captured)) > 1 {
      assert IsHistory(OneCallPerPayment, s, [], s);
    } else if MayCaptureTwice(s, id) {
      var moves, t :| IsHistory(OneCallPerPayment, s, moves, t) && Count(t.granted, Grant(id, Captured)) > 1;
      NothingMoreCaptured(OneCallPerPayment, s, moves, t, id);
    }
  }
}
