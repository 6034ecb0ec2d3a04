/**
 Lifecycle order, exact refund totals and the bound on events: they hold of the runs in
 which no transaction overwrites a row that changed since it was read, in particular when
 the calls for one payment do not overlap; and a commit that breaks this breaks them.
 */
module Serial {
  import opened Basics
  import opened Payments
  import opened Events
  import opened Lifecycle
  import opened Interleavings

  /** The history is a lifecycle, and the refunded amount is the sum of the persisted refunds. */
  ghost predicate InOrder(s: State, id: PaymentId)
    requires id in s.rows
  {
    && IsLifecycle(History(s.log, id), s.rows[id].captureMethod == Manual)
    && s.rows[id].refunded == Total(s.persisted, id)
  }

  ghost predicate WithinBudget(s: State, id: PaymentId)
    requires id in s.rows && WellFormed(s.rows[id])
  {
    |History(s.log, id)| + Budget(s.rows[id]) <= s.rows[id].money.amount + 3
  }

  /** The stored row has moved on from base: it is some legal moves further. */
  ghost predicate Later(base: Row, row: Row) {
    match base.status
    case Pending => row.status != Pending
    case Authorized => row.status in {Completed, PartiallyRefunded, Refunded}
    case Completed | PartiallyRefunded =>
      row.status in {PartiallyRefunded, Refunded} && base.refunded < row.refunded
    case Failed | Refunded => false
  }

  ghost predicate Tidy(s: State, id: PaymentId) {
    id in s.rows && WellFormed(s.rows[id]) && InOrder(s, id) && WithinBudget(s, id)
  }

  ghost predicate Behind(s: State, call: Call) {
    call.base.id in s.rows && (call.base == s.rows[call.base.id] || Later(call.base, s.rows[call.base.id]))
  }

  ghost predicate Current(s: State, call: Call) {
    call.base.id in s.rows && s.rows[call.base.id] == call.base
  }

  ghost predicate AllTidy(s: State) {
    forall id | id in s.rows :: Tidy(s, id)
  }

  ghost predicate AllBehind(s: State) {
    forall c | c in s.calls :: Behind(s, s.calls[c])
  }

  ghost predicate Ordered(s: State) {
    AllTidy(s) && AllBehind(s)
  }

  ghost predicate Orderly(s: State) {
    Inv(s) && Ordered(s)
  }

  // ----- One commit -----

  /** The shape of a lifecycle is decided by the status of its last event. */
  lemma LifecycleShape(h: seq<Event>, manual: bool)
    requires IsLifecycle(h, manual)
    ensures var settled := if manual then 3 else 2;
            match Last(h).payload.status
            case Pending => |h| == 1
            case Failed => |h| == 2
            case Authorized => manual && |h| == 2
            case Completed => |h| == settled
            case PartiallyRefunded | Refunded => |h| > settled
  {
  }

  /** A legal move, announced, extends a lifecycle to a lifecycle. */
  lemma LegalMoveExtends(h: seq<Event>, base: Row, next: Row, e: Event)
    requires WellFormed(base)
    requires IsLifecycle(h, base.captureMethod == Manual) && Last(h).payload.status == base.status
    requires LegalMove(base, next, e.eventType) && e.payload.status == next.status
    ensures IsLifecycle(h + [e], base.captureMethod == Manual)
  {
    LifecycleShape(h, base.captureMethod == Manual);
  }

  /** A move made from a row that has since moved on, announced, does not extend the lifecycle
      unless it is a refund; a refund then forgets what was refunded in between. */
  lemma StaleMoveDoesNotExtend(h: seq<Event>, base: Row, row: Row, next: Row, e: Event)
    requires WellFormed(base) && WellFormed(row) && base.captureMethod == row.captureMethod && Later(base, row)
    requires IsLifecycle(h, base.captureMethod == Manual) && Last(h).payload.status == row.status
    requires LegalMove(base, next, e.eventType)
    ensures IsLifecycle(h + [e], base.captureMethod == Manual) ==>
              e.eventType == PaymentRefunded && base.refunded < row.refunded
  {
    LifecycleShape(h, base.captureMethod == Manual);
    assert |h| >= 2 && (h + [e])[|h|] == e && (h + [e])[1] == h[1];
  }

  /** A commit on the row that was read keeps everything in order and spends budget. */
  lemma FreshCommitKeepsOrder(s: State, c: CallId, eventId: EventId, at: Time)
    requires c in s.calls && s.calls[c].Writing? && CallOk(s, s.calls[c]) && RowOk(s, s.calls[c].base.id)
    requires Tidy(s, s.calls[c].base.id) && s.calls[c].base == s.rows[s.calls[c].base.id]
    ensures var id := s.calls[c].copy.id;
            var t := Committed(s, c, eventId, at);
            id in s.rows && Tidy(t, id) && Budget(t.rows[id]) < Budget(s.rows[id])
  {
    var call := s.calls[c];
    var e := EventOf(call.copy, call.eventType, eventId, at);
    HistoryAppend(s.log, e, call.copy.id);
    LegalMoveExtends(History(s.log, call.copy.id), call.base, call.copy, e);
    LegalMoveSpends(call.base, call.copy, call.eventType);
    TotalRefundOf(s.persisted, call, call.copy.id);
  }

  // ----- Whole runs -----

  lemma WriteKeepsOthersTidy(s: State, t: State, row: Row, e: Event)
    requires AllTidy(s)
    requires t.rows == s.rows[row.id := row] && t.log == s.log + [e] && e.aggregateId == row.id
    requires forall id | id != row.id :: Total(t.persisted, id) == Total(s.persisted, id)
    requires Tidy(t, row.id)
    ensures AllTidy(t)
  {
  }

  lemma NewPaymentIsTidy(s: State, row: Row, eventId: EventId, at: Time)
    requires LogOk(s.log, s.rows) && Backed(s.persisted, s.rows)
    requires WellFormed(row) && row.status == Pending && row.id !in s.rows
    ensures Tidy(Created(s, row, eventId, at), row.id)
  {
    NoHistory(s.log, row.id);
    HistoryAppend(s.log, EventOf(row, PaymentCreated, eventId, at), row.id);
    BackedTotal(s.persisted, s.rows, row.id);
  }

  lemma CreateKeepsOrder(s: State, row: Row, eventId: EventId, at: Time)
    requires Orderly(s) && WellFormed(row) && row.status == Pending && row.id !in s.rows && FreshId(s.log, eventId)
    ensures Ordered(Created(s, row, eventId, at))
  {
    var t := Created(s, row, eventId, at);
    NewPaymentIsTidy(s, row, eventId, at);
    WriteKeepsOthersTidy(s, t, row, EventOf(row, PaymentCreated, eventId, at));
    forall c | c in t.calls ensures Behind(t, t.calls[c]) {
      assert Behind(s, s.calls[c]);
    }
  }

  lemma CommitKeepsCallBehind(s: State, c: CallId, d: CallId, eventId: EventId, at: Time)
    requires c in s.calls && s.calls[c].Writing? && d in s.calls
    requires CallOk(s, s.calls[c]) && CallOk(s, s.calls[d]) && Behind(s, s.calls[d])
    requires s.calls[c].base == s.rows[s.calls[c].base.id]
    ensures Behind(Committed(s, c, eventId, at), s.calls[d])
  {
  }

  lemma CommitKeepsOrder(s: State, c: CallId, eventId: EventId, at: Time)
    requires Orderly(s) && c in s.calls && s.calls[c].Writing? && FreshId(s.log, eventId)
    requires s.calls[c].base == s.rows[s.calls[c].copy.id]
    ensures Ordered(Committed(s, c, eventId, at))
  {
    var t := Committed(s, c, eventId, at);
    var call := s.calls[c];
    assert CallOk(s, call);
    assert RowOk(s, call.base.id) && Tidy(s, call.base.id);
    FreshCommitKeepsOrder(s, c, eventId, at);
    forall id ensures id != call.copy.id ==> Total(t.persisted, id) == Total(s.persisted, id) {
      TotalRefundOf(s.persisted, call, id);
    }
    WriteKeepsOthersTidy(s, t, call.copy, EventOf(call.copy, call.eventType, eventId, at));
    forall d | d in t.calls ensures Behind(t, t.calls[d]) {
      CommitKeepsCallBehind(s, c, d, eventId, at);
    }
  }

  /** Steps that leave rows, log and settled refunds alone keep the order. */
  lemma QuietStepsKeepOrder(s: State, step: Step)
    requires RowsOk(s) && Ordered(s) && Enabled(FreshCommits, s, step) && !step.Create? && !step.Commit?
    ensures Ordered(Apply(FreshCommits, s, step))
  {
  }

  lemma StepKeepsOrder(s: State, step: Step)
    requires Orderly(s) && Enabled(FreshCommits, s, step)
    ensures Ordered(Apply(FreshCommits, s, step))
  {
    match step
    case Create(req, id, eventId, at) =>
      NewRowExact(req, id, at);
      CreateKeepsOrder(s, NewRow(req, id, at).value, eventId, at);
    case Commit(c, eventId, at) => CommitKeepsOrder(s, c, eventId, at);
    case _ => QuietStepsKeepOrder(s, step);
  }

  lemma {:induction false} RunKeepsOrderly(s: State, steps: seq<Step>, t: State)
    requires Orderly(s) && IsRun(FreshCommits, s, steps, t)
    ensures Orderly(t)
    decreases |steps|
  {
    if steps != [] {
      StepKeepsOrder(s, steps[0]);
      StepKeepsInv(FreshCommits, s, steps[0]);
      RunKeepsOrderly(Apply(FreshCommits, s, steps[0]), steps[1..], t);
    }
  }

  /** The calls in flight are for different payments, and each still holds the stored row. */
  ghost predicate Exclusive(s: State) {
    && (forall c | c in s.calls :: Current(s, s.calls[c]))
    && (forall c, d | c in s.calls && d in s.calls && c != d :: s.calls[c].base.id != s.calls[d].base.id)
  }

  lemma NonOverlappingCommitIsFresh(s: State, step: Step)
    requires step.Commit? && step.call in s.calls && CallOk(s, s.calls[step.call])
    requires Exclusive(s) && Enabled(OneCallPerPayment, s, step)
    ensures Enabled(FreshCommits, s, step)
    ensures Exclusive(Apply(FreshCommits, s, step))
  {
  }

  lemma NonOverlappingStepIsFresh(s: State, step: Step)
    requires !step.Commit? && RowsOk(s)
    requires Exclusive(s) && Enabled(OneCallPerPayment, s, step)
    ensures Enabled(FreshCommits, s, step)
    ensures Exclusive(Apply(FreshCommits, s, step))
  {
    if step.Read? {
      assert RowOk(s, step.id);
    }
  }

  /** When the calls for one payment do not overlap, every commit finds the row it read. */
  lemma {:induction false} NonOverlappingRunsAreFresh(s: State, steps: seq<Step>, t: State)
    requires Inv(s) && Exclusive(s) && IsRun(OneCallPerPayment, s, steps, t)
    ensures IsRun(FreshCommits, s, steps, t) && Exclusive(t)
    decreases |steps|
  {
    if steps != [] {
      StepKeepsInv(OneCallPerPayment, s, steps[0]);
      if steps[0].Commit? {
        NonOverlappingCommitIsFresh(s, steps[0]);
      } else {
        NonOverlappingStepIsFresh(s, steps[0]);
      }
      assert Apply(FreshCommits, s, steps[0]) == Apply(OneCallPerPayment, s, steps[0]);
      NonOverlappingRunsAreFresh(Apply(OneCallPerPayment, s, steps[0]), steps[1..], t);
    }
  }

  /** Every payment's events form a lifecycle, its refunded amount is the sum of the refunds
      that were persisted and never exceeds its amount, and over its whole life it produces
      at most three events more than the cents it is worth. */
  lemma LifecycleOrder(mode: Mode, steps: seq<Step>, t: State, id: PaymentId)
    requires !mode.AnyInterleaving? && IsRun(mode, INITIAL, steps, t) && id in t.rows
    ensures IsLifecycle(History(t.log, id), t.rows[id].captureMethod == Manual)
    ensures t.rows[id].refunded == Total(t.persisted, id)
    ensures 0 <= Total(t.persisted, id) <= t.rows[id].money.amount
    ensures |History(t.log, id)| <= t.rows[id].money.amount + 3
  {
    if mode.OneCallPerPayment? {
      NonOverlappingRunsAreFresh(INITIAL, steps, t);
    }
    RunKeepsOrderly(INITIAL, steps, t);
    assert Tidy(t, id);
  }

  /** With no call in flight, the gateway has refunded exactly what the row says plus what
      was lost between the gateway and the commit. */
  lemma GatewayTotal(mode: Mode, steps: seq<Step>, t: State, id: PaymentId)
    requires !mode.AnyInterleaving? && IsRun(mode, INITIAL, steps, t) && id in t.rows && Idle(t, id)
    ensures Total(t.confirmed, id) == t.rows[id].refunded + Total(t.lost, id)
  {
    LifecycleOrder(mode, steps, t, id);
    MoneyIsConservedFromTheStart(mode, steps, t, id);
    MapSumZero(Debts(t.calls, id));
  }

  lemma StepLeavesPending(mode: Mode, s: State, step: Step, id: PaymentId)
    requires Enabled(mode, s, step) && id in s.rows && s.rows[id].status != Pending
    requires step.Commit? ==> CallOk(s, s.calls[step.call])
    ensures id in Apply(mode, s, step).rows && Apply(mode, s, step).rows[id].status != Pending
  {
  }

  /** In any interleaving, a payment that has left pending never returns to it. */
  lemma {:induction false} NeverPendingAgain(mode: Mode, s: State, steps: seq<Step>, t: State, id: PaymentId)
    requires Inv(s) && IsRun(mode, s, steps, t) && id in s.rows && s.rows[id].status != Pending
    ensures id in t.rows && t.rows[id].status != Pending
    decreases |steps|
  {
    if steps != [] {
      assert steps[0].Commit? ==> CallOk(s, s.calls[steps[0].call]);
      StepLeavesPending(mode, s, steps[0], id);
      StepKeepsInv(mode, s, steps[0]);
      NeverPendingAgain(mode, Apply(mode, s, steps[0]), steps[1..], t, id);
    }
  }

  /** Whatever creations, captures and refunds come in between, a payment has exactly one event
      that says how its processing came out, once it has left pending: the second of its
      history. Every later event is of the one capture that follows an authorisation, or of a refund. */
  lemma OneOutcome(mode: Mode, steps: seq<Step>, t: State, id: PaymentId)
    requires !mode.AnyInterleaving? && IsRun(mode, INITIAL, steps, t) && id in t.rows
    ensures var h, manual := History(t.log, id), t.rows[id].captureMethod == Manual;
            && (t.rows[id].status != Pending <==> |h| > 1)
            && (|h| > 1 ==> h[1].eventType in {PaymentFailed, if manual then PaymentAuthorized else PaymentCompleted})
            && forall i | 1 < i < |h| ::
                 h[i].eventType == PaymentRefunded
                 || (i == 2 && manual && h[1].eventType == PaymentAuthorized && h[2].eventType == PaymentCompleted)
  {
    LifecycleOrder(mode, steps, t, id);
    StatusIsLastAnnounced(mode, steps, t);
    LifecycleShape(History(t.log, id), t.rows[id].captureMethod == Manual);
  }
}
