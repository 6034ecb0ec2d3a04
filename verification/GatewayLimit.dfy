/**
 When the gateway can come to refund more than was paid, although the calls for one payment
 never overlap: exactly as long as the payment is not settled.
 */
module GatewayLimit {
  import opened Basics
  import opened Payments
  import opened Events
  import opened Lifecycle
  import opened Interleavings

  /** Some continuation without overlapping calls has more confirmed refunds than the payment. */
  ghost predicate MayExceed(s: State, id: PaymentId)
    requires id in s.rows
  {
    exists steps, t :: Exceeds(s, steps, t, id)
  }

  ghost predicate Exceeds(s: State, steps: seq<Step>, t: State, id: PaymentId)
    requires id in s.rows
  {
    IsRun(OneCallPerPayment, s, steps, t) && Total(t.confirmed, id) > s.rows[id].money.amount
  }

  lemma MayExceedFrom(s: State, steps: seq<Step>, t: State, id: PaymentId)
    requires IsRun(OneCallPerPayment, s, steps, t) && id in s.rows && id in t.rows
    requires t.rows[id].money == s.rows[id].money && MayExceed(t, id)
    ensures MayExceed(s, id)
  {
    var more, u :| Exceeds(t, more, u, id);
    RunConcat(OneCallPerPayment, s, steps, t, more, u);
    assert Exceeds(s, steps + more, u, id);
  }

  // ----- Names that are still free -----

  lemma {:induction false} FreeCall(taken: set<CallId>) returns (c: CallId)
    ensures forall d | d in taken :: d < c
  {
    if taken == {} {
      c := 0;
    } else {
      var d :| d in taken;
      var rest := FreeCall(taken - {d});
      c := if rest <= d then d + 1 else rest;
      forall e | e in taken ensures e < c {
        assert e == d || e in taken - {d};
      }
    }
  }

  lemma {:induction false} FreeEvent(log: seq<Event>) returns (id: EventId)
    ensures FreshId(log, id)
    ensures forall i | 0 <= i < |log| :: |log[i].id| < |id|
  {
    if log == [] {
      id := "";
    } else {
      var shorter := FreeEvent(Front(log));
      id := if |shorter| <= |Last(log).id| then Last(log).id + "+" else shorter;
      forall i | 0 <= i < |log| ensures |log[i].id| < |id| {
        assert i < |log| - 1 ==> log[i] == Front(log)[i];
      }
    }
  }

  // ----- A payment that is not settled -----

  /** A refund of the whole balance that is confirmed and then lost. */
  lemma LoseRefund(s: State, id: PaymentId) returns (steps: seq<Step>, t: State)
    requires Inv(s) && Idle(s, id) && id in s.rows && s.rows[id].status in {Completed, PartiallyRefunded}
    ensures IsRun(OneCallPerPayment, s, steps, t) && Inv(t) && Idle(t, id) && t.rows == s.rows
    ensures Total(t.confirmed, id) == Total(s.confirmed, id) + s.rows[id].money.amount - s.rows[id].refunded
  {
    assert RowOk(s, id);
    RefundOfTheRest(s.rows[id]);
    RefundExact(s.rows[id], Refundable(s.rows[id]));
    var c := FreeCall(s.calls.Keys);
    var event := FreeEvent(s.log);
    ExecuteIsRun(OneCallPerPayment, s, c, id, Refund(0), Approved, event, 0);
    steps, t := FailedSteps(c, id, Refund(0), Approved), Unsettled(s, id, Refund(0));
    RunKeepsInv(OneCallPerPayment, s, steps, t);
    TotalAppend(s.confirmed, Entry(id, Refundable(s.rows[id])), id);
  }

  lemma LoseTwoRefunds(s: State, id: PaymentId) returns (steps: seq<Step>, u: State)
    requires Inv(s) && Idle(s, id) && id in s.rows && s.rows[id].status in {Completed, PartiallyRefunded}
    ensures IsRun(OneCallPerPayment, s, steps, u)
    ensures Total(u.confirmed, id) == Total(s.confirmed, id) + 2 * (s.rows[id].money.amount - s.rows[id].refunded)
  {
    var first, t := LoseRefund(s, id);
    var second;
    second, u := LoseRefund(t, id);
    RunConcat(OneCallPerPayment, s, first, t, second, u);
    steps := first + second;
  }

  lemma RefundedBelow(s: State, id: PaymentId)
    requires RowsOk(s) && id in s.rows && s.rows[id].status in {Completed, PartiallyRefunded}
    ensures s.rows[id].refunded <= Total(s.confirmed, id) && s.rows[id].refunded < s.rows[id].money.amount
  {
    assert RowOk(s, id);
  }

  /** Losing two of them exceeds whatever was paid. */
  lemma CapturedMayExceed(s: State, id: PaymentId)
    requires Inv(s) && Idle(s, id) && id in s.rows && s.rows[id].status in {Completed, PartiallyRefunded}
    ensures MayExceed(s, id)
  {
    RefundedBelow(s, id);
    var steps, u := LoseTwoRefunds(s, id);
    assert Exceeds(s, steps, u, id);
  }

  /** One more whole call that commits. */
  lemma Advance(s: State, id: PaymentId, op: Op) returns (steps: seq<Step>, t: State)
    requires Inv(s) && Idle(s, id) && id in s.rows
    requires Prepare(op, s.rows[id]).Ok? && Conclude(op, Prepare(op, s.rows[id]).value, Approved).Ok?
    ensures IsRun(OneCallPerPayment, s, steps, t) && Inv(t) && Idle(t, id) && id in t.rows
    ensures t.rows[id] == Conclude(op, Prepare(op, s.rows[id]).value, Approved).value.0
  {
    assert RowOk(s, id);
    var c := FreeCall(s.calls.Keys);
    var event := FreeEvent(s.log);
    ExecuteIsRun(OneCallPerPayment, s, c, id, op, Approved, event, 0);
    steps, t := ExecuteSteps(c, id, op, Approved, event, 0), Executed(s, id, op, Approved, event, 0);
    RunKeepsInv(OneCallPerPayment, s, steps, t);
  }

  lemma AuthorizedMayExceed(s: State, id: PaymentId)
    requires Inv(s) && Idle(s, id) && id in s.rows && s.rows[id].status == Authorized
    ensures MayExceed(s, id)
  {
    var steps, t := Advance(s, id, Capture);
    CapturedMayExceed(t, id);
    MayExceedFrom(s, steps, t, id);
  }

  lemma UnsettledMayExceed(s: State, id: PaymentId)
    requires Inv(s) && Idle(s, id) && id in s.rows && s.rows[id].status !in {Failed, Refunded}
    ensures MayExceed(s, id)
  {
    match s.rows[id].status
    case Pending =>
      var steps, t := Advance(s, id, Process);
      if t.rows[id].status == Authorized {
        AuthorizedMayExceed(t, id);
      } else {
        CapturedMayExceed(t, id);
      }
      MayExceedFrom(s, steps, t, id);
    case Authorized => AuthorizedMayExceed(s, id);
    case Completed => CapturedMayExceed(s, id);
    case PartiallyRefunded => CapturedMayExceed(s, id);
  }

  // ----- A payment that is settled -----

  /** The payment is failed or refunded, and only calls that cannot be answered are in flight. */
  ghost predicate AtRest(s: State, id: PaymentId) {
    && id in s.rows && s.rows[id].status in {Failed, Refunded}
    && forall c | c in s.calls && s.calls[c].base.id == id ::
         s.calls[c].Asking? && s.calls[c].op == Process && s.calls[c].copy.status in {Failed, Refunded}
  }

  lemma AnswersAreForOthers(mode: Mode, s: State, step: Step, id: PaymentId)
    requires AtRest(s, id) && Enabled(mode, s, step) && (step.Reply? || step.Commit?)
    ensures s.calls[step.call].base.id != id
  {
  }

  lemma StepKeepsRest(mode: Mode, s: State, step: Step, id: PaymentId)
    requires AtRest(s, id) && Enabled(mode, s, step)
    requires step.Commit? ==> CallOk(s, s.calls[step.call])
    requires step.Read? ==> RowOk(s, step.id)
    ensures var t := Apply(mode, s, step);
            AtRest(t, id) && t.rows[id] == s.rows[id] && Total(t.confirmed, id) == Total(s.confirmed, id)
  {
    if step.Reply? || step.Commit? {
      AnswersAreForOthers(mode, s, step, id);
      TotalRefundOf(s.confirmed, s.calls[step.call], id);
    }
  }

  /** In any interleaving, a settled payment stays as it is and no further refund is confirmed. */
  lemma {:induction false} RestStays(mode: Mode, s: State, steps: seq<Step>, t: State, id: PaymentId)
    requires Inv(s) && AtRest(s, id) && IsRun(mode, s, steps, t)
    ensures AtRest(t, id) && t.rows[id] == s.rows[id] && Total(t.confirmed, id) == Total(s.confirmed, id)
    decreases |steps|
  {
    if steps != [] {
      assert steps[0].Commit? ==> CallOk(s, s.calls[steps[0].call]);
      assert steps[0].Read? ==> RowOk(s, steps[0].id);
      StepKeepsRest(mode, s, steps[0], id);
      StepKeepsInv(mode, s, steps[0]);
      RestStays(mode, Apply(mode, s, steps[0]), steps[1..], t, id);
    }
  }

  /** Between two calls for a payment: its refunds at the gateway can come to exceed it if and
      only if they already do, or the payment is neither failed nor refunded in full. */
  lemma MayExceedIffUnsettled(steps: seq<Step>, s: State, id: PaymentId)
    requires IsRun(OneCallPerPayment, INITIAL, steps, s) && id in s.rows && Idle(s, id)
    ensures MayExceed(s, id) <==>
            Total(s.confirmed, id) > s.rows[id].money.amount || s.rows[id].status !in {Failed, Refunded}
  {
    RunKeepsInv(OneCallPerPayment, INITIAL, steps, s);
    if s.rows[id].status !in {Failed, Refunded} {
      UnsettledMayExceed(s, id);
    } else if Total(s.confirmed, id) > s.rows[id].money.amount {
      assert Exceeds(s, [], s, id);
    } else if MayExceed(s, id) {
      var more, t :| Exceeds(s, more, t, id);
      RestStays(OneCallPerPayment, s, more, t, id);
    }
  }
}
