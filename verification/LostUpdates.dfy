/**
 What a commit that overwrites a changed row does to its payment, and that it does so for
 good: in every reachable state a payment is in order, or carries a scar that nothing heals.
 */
module LostUpdates {
  import opened Basics
  import opened Payments
  import opened Events
  import opened Lifecycle
  import opened Interleavings
  import opened Serial

  // ----- Scars -----

  ghost predicate BrokenHistory(s: State, id: PaymentId)
    requires id in s.rows
  {
    History(s.log, id) != [] && !IsLifecycle(History(s.log, id), s.rows[id].captureMethod == Manual)
  }

  /** Some persisted refund is forgotten by the row and by every call that could still write it. */
  ghost predicate ForgottenRefund(s: State, id: PaymentId)
    requires id in s.rows
  {
    && s.rows[id].refunded < Total(s.persisted, id)
    && forall c | c in s.calls && s.calls[c].base.id == id :: s.calls[c].base.refunded < Total(s.persisted, id)
  }

  ghost predicate Scarred(s: State, id: PaymentId) {
    id in s.rows && (BrokenHistory(s, id) || ForgottenRefund(s, id))
  }

  /** A longer history of a payment whose history is broken is broken too. */
  lemma BrokenStaysBroken(s: State, t: State, id: PaymentId)
    requires id in s.rows && id in t.rows && SameTerms(s.rows[id], t.rows[id]) && s.log <= t.log
    requires BrokenHistory(s, id)
    ensures BrokenHistory(t, id)
  {
    var h, more := History(s.log, id), History(t.log, id);
    HistoryGrows(s.log, t.log, id);
    assert more[..|h|] == h;
    if IsLifecycle(more, t.rows[id].captureMethod == Manual) {
      LifecyclePrefix(more, |h|, t.rows[id].captureMethod == Manual);
    }
  }

  /** What a commit does to the sum of the persisted refunds of any payment. */
  lemma CommitPersists(s: State, c: CallId, eventId: EventId, at: Time, id: PaymentId)
    requires c in s.calls && s.calls[c].Writing? && CallOk(s, s.calls[c])
    ensures var call, t := s.calls[c], Committed(s, c, eventId, at);
            Total(t.persisted, id) == Total(s.persisted, id) + if call.base.id == id then call.copy.refunded - call.base.refunded else 0
    ensures s.calls[c].base.refunded <= s.calls[c].copy.refunded
    ensures s.calls[c].op.Refund? ==> s.calls[c].base.refunded < s.calls[c].copy.refunded
  {
    TotalRefundOf(s.persisted, s.calls[c], id);
    ReplyRefund(s.calls[c], []);
  }

  lemma ForgottenStaysForgotten(s: State, step: Step, id: PaymentId)
    requires Enabled(AnyInterleaving, s, step) && RowsOk(s) && id in s.rows && ForgottenRefund(s, id)
    requires step.Commit? ==> CallOk(s, s.calls[step.call])
    ensures id in Apply(AnyInterleaving, s, step).rows && ForgottenRefund(Apply(AnyInterleaving, s, step), id)
  {
    if step.Commit? {
      CommitPersists(s, step.call, step.eventId, step.at, id);
    } else if step.Read? {
      assert RowOk(s, step.id);
    }
  }

  lemma StepKeepsScars(s: State, step: Step, id: PaymentId)
    requires Inv(s) && Scarred(s, id) && Enabled(AnyInterleaving, s, step)
    ensures Scarred(Apply(AnyInterleaving, s, step), id)
  {
    StepKeepsTerms(AnyInterleaving, s, step, id);
    if BrokenHistory(s, id) {
      BrokenStaysBroken(s, Apply(AnyInterleaving, s, step), id);
    } else {
      assert step.Commit? ==> CallOk(s, s.calls[step.call]);
      ForgottenStaysForgotten(s, step, id);
    }
  }

  lemma {:induction false} ScarsStay(s: State, steps: seq<Step>, t: State, id: PaymentId)
    requires Inv(s) && Scarred(s, id) && IsRun(AnyInterleaving, s, steps, t)
    ensures Scarred(t, id)
    decreases |steps|
  {
    if steps != [] {
      StepKeepsScars(s, steps[0], id);
      StepKeepsInv(AnyInterleaving, s, steps[0]);
      ScarsStay(Apply(AnyInterleaving, s, steps[0]), steps[1..], t, id);
    }
  }

  lemma BehindIsNoFurther(s: State, call: Call)
    requires Behind(s, call) && WellFormed(call.base) && WellFormed(s.rows[call.base.id])
    ensures call.base.refunded <= s.rows[call.base.id].refunded
  {
  }

  lemma ScarredIsNotInOrder(s: State, id: PaymentId)
    requires Scarred(s, id)
    ensures !InOrder(s, id)
  {
  }

  // ----- One payment -----

  /** The payment is in order, and every call in flight for it read the row or an earlier one. */
  ghost predicate OrderedFor(s: State, id: PaymentId) {
    Tidy(s, id) && forall c | c in s.calls && s.calls[c].base.id == id :: Behind(s, s.calls[c])
  }

  lemma OrderlyIsOrderedFor(s: State, id: PaymentId)
    requires Ordered(s) && id in s.rows
    ensures OrderedFor(s, id)
  {
    assert Tidy(s, id);
    forall c | c in s.calls && s.calls[c].base.id == id ensures Behind(s, s.calls[c]) {
    }
  }

  /** A commit that does not find the row its call read scars the payment. */
  lemma StaleCommitScars(s: State, c: CallId, eventId: EventId, at: Time)
    requires c in s.calls && s.calls[c].Writing? && CallOk(s, s.calls[c]) && CallsOk(s)
    requires RowOk(s, s.calls[c].base.id) && OrderedFor(s, s.calls[c].base.id)
    requires s.calls[c].base != s.rows[s.calls[c].base.id]
    ensures Scarred(Committed(s, c, eventId, at), s.calls[c].base.id)
  {
    var call, t := s.calls[c], Committed(s, c, eventId, at);
    var id := call.base.id;
    assert Behind(s, call);
    var e := EventOf(call.copy, call.eventType, eventId, at);
    HistoryAppend(s.log, e, id);
    StaleMoveDoesNotExtend(History(s.log, id), call.base, s.rows[id], call.copy, e);
    if !BrokenHistory(t, id) {
      CommitPersists(s, c, eventId, at, id);
      forall d | d in t.calls && t.calls[d].base.id == id ensures t.calls[d].base.refunded < Total(t.persisted, id) {
        assert CallOk(s, s.calls[d]) && Behind(s, s.calls[d]);
        BehindIsNoFurther(s, s.calls[d]);
      }
    }
  }

  lemma FreshCommitKeepsOrderedFor(s: State, c: CallId, eventId: EventId, at: Time)
    requires c in s.calls && s.calls[c].Writing? && CallOk(s, s.calls[c]) && CallsOk(s)
    requires RowOk(s, s.calls[c].base.id) && OrderedFor(s, s.calls[c].base.id)
    requires s.calls[c].base == s.rows[s.calls[c].base.id]
    ensures OrderedFor(Committed(s, c, eventId, at), s.calls[c].base.id)
  {
    FreshCommitKeepsOrder(s, c, eventId, at);
    var t := Committed(s, c, eventId, at);
    forall d | d in t.calls && t.calls[d].base.id == s.calls[c].base.id ensures Behind(t, t.calls[d]) {
      assert CallOk(s, s.calls[d]) && Behind(s, s.calls[d]);
      CommitKeepsCallBehind(s, c, d, eventId, at);
    }
  }

  /** Steps on other payments, and steps that write nothing, leave a payment in order. */
  lemma OtherStepKeepsOrderedFor(s: State, step: Step, id: PaymentId)
    requires Enabled(AnyInterleaving, s, step) && OrderedFor(s, id) && RowOk(s, id)
    requires step.Create? ==> NewRow(step.req, step.id, step.at).value.id != id
    requires step.Commit? ==> CallOk(s, s.calls[step.call]) && s.calls[step.call].base.id != id
    requires step.Read? ==> RowOk(s, step.id)
    ensures OrderedFor(Apply(AnyInterleaving, s, step), id)
  {
    var t := Apply(AnyInterleaving, s, step);
    if step.Create? || step.Commit? {
      HistoryAppend(s.log, Last(t.log), id);
      if step.Commit? {
        CommitPersists(s, step.call, step.eventId, step.at, id);
      }
    }
    assert t.rows[id] == s.rows[id] && History(t.log, id) == History(s.log, id);
    forall c | c in t.calls && t.calls[c].base.id == id ensures Behind(t, t.calls[c]) {
      assert c in s.calls && s.calls[c].base.id == id ==> Behind(s, s.calls[c]);
    }
  }

  ghost predicate Judged(s: State, id: PaymentId) {
    OrderedFor(s, id) || Scarred(s, id)
  }

  lemma NewPaymentIsOrdered(s: State, step: Step)
    requires Inv(s) && Enabled(AnyInterleaving, s, step) && step.Create?
    ensures OrderedFor(Apply(AnyInterleaving, s, step), step.id)
  {
    NewRowExact(step.req, step.id, step.at);
    NewPaymentIsTidy(s, NewRow(step.req, step.id, step.at).value, step.eventId, step.at);
    forall c | c in s.calls ensures s.calls[c].base.id != step.id {
      assert CallOk(s, s.calls[c]);
    }
  }

  lemma OrderedStepIsJudged(s: State, step: Step, id: PaymentId)
    requires Inv(s) && Enabled(AnyInterleaving, s, step) && OrderedFor(s, id)
    ensures Judged(Apply(AnyInterleaving, s, step), id)
  {
    assert RowOk(s, id);
    if step.Commit? {
      assert CallOk(s, s.calls[step.call]);
      if s.calls[step.call].base.id == id {
        if s.calls[step.call].base == s.rows[id] {
          FreshCommitKeepsOrderedFor(s, step.call, step.eventId, step.at);
        } else {
          StaleCommitScars(s, step.call, step.eventId, step.at);
        }
        return;
      }
    } else if step.Read? {
      assert RowOk(s, step.id);
    } else if step.Create? {
      NewRowExact(step.req, step.id, step.at);
    }
    OtherStepKeepsOrderedFor(s, step, id);
  }

  ghost predicate AllJudged(s: State) {
    forall id | id in s.rows :: Judged(s, id)
  }

  lemma StepKeepsJudged(s: State, step: Step)
    requires Inv(s) && AllJudged(s) && Enabled(AnyInterleaving, s, step)
    ensures AllJudged(Apply(AnyInterleaving, s, step))
  {
    var t := Apply(AnyInterleaving, s, step);
    forall id | id in t.rows ensures Judged(t, id) {
      if id !in s.rows {
        NewRowsAreCreated(s, step, id);
        NewPaymentIsOrdered(s, step);
      } else if OrderedFor(s, id) {
        OrderedStepIsJudged(s, step, id);
      } else {
        assert Judged(s, id);
        StepKeepsScars(s, step, id);
      }
    }
  }

  lemma NewRowsAreCreated(s: State, step: Step, id: PaymentId)
    requires Enabled(AnyInterleaving, s, step) && id !in s.rows && id in Apply(AnyInterleaving, s, step).rows
    ensures step.Create? && step.id == id
  {
  }

  lemma {:induction false} RunKeepsJudged(s: State, steps: seq<Step>, t: State)
    requires Inv(s) && AllJudged(s) && IsRun(AnyInterleaving, s, steps, t)
    ensures Inv(t) && AllJudged(t)
    decreases |steps|
  {
    if steps != [] {
      StepKeepsInv(AnyInterleaving, s, steps[0]);
      StepKeepsJudged(s, steps[0]);
      RunKeepsJudged(Apply(AnyInterleaving, s, steps[0]), steps[1..], t);
    }
  }

  lemma OrderedForIsInOrder(s: State, id: PaymentId)
    requires id in s.rows && Judged(s, id)
    ensures InOrder(s, id) <==> OrderedFor(s, id)
  {
    if Scarred(s, id) {
      ScarredIsNotInOrder(s, id);
    }
  }

  /** In every reachable state: after a commit a payment's history is a lifecycle and its
      refunded amount the sum of its persisted refunds if and only if that was so before, and
      the commit finds the row that its call read. */
  lemma CommitKeepsOrderIffFresh(steps: seq<Step>, s: State, c: CallId, eventId: EventId, at: Time)
    requires IsRun(AnyInterleaving, INITIAL, steps, s) && Enabled(AnyInterleaving, s, Commit(c, eventId, at))
    ensures InOrder(Committed(s, c, eventId, at), s.calls[c].copy.id) <==>
            InOrder(s, s.calls[c].copy.id) && s.calls[c].base == s.rows[s.calls[c].copy.id]
  {
    RunKeepsJudged(INITIAL, steps, s);
    var t, id := Committed(s, c, eventId, at), s.calls[c].base.id;
    assert CallOk(s, s.calls[c]) && RowOk(s, id) && Judged(s, id);
    OrderedForIsInOrder(s, id);
    if Scarred(s, id) {
      StepKeepsScars(s, Commit(c, eventId, at), id);
      ScarredIsNotInOrder(t, id);
    } else if s.calls[c].base == s.rows[id] {
      FreshCommitKeepsOrderedFor(s, c, eventId, at);
    } else {
      StaleCommitScars(s, c, eventId, at);
      ScarredIsNotInOrder(t, id);
    }
  }

  // ----- Whole runs -----

  lemma {:induction false} RunWithStaleCommitScars(s: State, steps: seq<Step>, t: State) returns (id: PaymentId)
    requires Orderly(s) && IsRun(AnyInterleaving, s, steps, t) && !IsRun(FreshCommits, s, steps, t)
    ensures Scarred(t, id)
    decreases |steps|
  {
    var next := Apply(AnyInterleaving, s, steps[0]);
    StepKeepsInv(AnyInterleaving, s, steps[0]);
    if Enabled(FreshCommits, s, steps[0]) {
      StepKeepsOrder(s, steps[0]);
      id := RunWithStaleCommitScars(next, steps[1..], t);
    } else {
      id := s.calls[steps[0].call].copy.id;
      assert CallOk(s, s.calls[steps[0].call]) && RowOk(s, id);
      OrderlyIsOrderedFor(s, id);
      StaleCommitScars(s, steps[0].call, steps[0].eventId, steps[0].at);
      ScarsStay(next, steps[1..], t, id);
    }
  }

  /** A run leaves every payment in order if and only if no commit of it overwrote a row that
      had changed since it was read. */
  lemma RunInOrderIffFresh(steps: seq<Step>, t: State)
    requires IsRun(AnyInterleaving, INITIAL, steps, t)
    ensures (forall id | id in t.rows :: InOrder(t, id)) <==> IsRun(FreshCommits, INITIAL, steps, t)
  {
    if IsRun(FreshCommits, INITIAL, steps, t) {
      RunKeepsOrderly(INITIAL, steps, t);
      forall id | id in t.rows ensures InOrder(t, id) {
        assert Tidy(t, id);
      }
    } else {
      var id := RunWithStaleCommitScars(INITIAL, steps, t);
      ScarredIsNotInOrder(t, id);
    }
  }
}
