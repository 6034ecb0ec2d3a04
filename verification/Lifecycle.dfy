/**
 The four payment use cases as one transition system. Each use case call reads a copy of
 the row, asks the gateway, and writes the mutated copy and one event in one transaction;
 the steps of different calls interleave freely, and a call can stop anywhere.
 */
module Lifecycle {
  import opened Basics
  import opened Payments
  import opened Events

  type CallId = nat

  datatype Op = Process | Capture | Refund(requested: int64)

  /** The gateway's answer when it gives one; a failure to answer ends the call instead. */
  datatype Answer = Approved | Declined

  /** A call between its steps: base is the row as read, copy the caller's mutated copy. */
  datatype Call =
    | Asking(op: Op, base: Row, copy: Row)
    | Writing(op: Op, base: Row, copy: Row, eventType: EventType)

  datatype Entry = Entry(id: PaymentId, amount: int64)

  /** confirmed: refunds the gateway accepted. persisted: those whose transaction committed.
      lost: those accepted by the gateway in a call that stopped before committing. */
  datatype State = State(
    rows: map<PaymentId, Row>,
    log: seq<Event>,
    calls: map<CallId, Call>,
    confirmed: seq<Entry>,
    persisted: seq<Entry>,
    lost: seq<Entry>)

  const INITIAL := State(map[], [], map[], [], [], [])

  // ----- The local computations of the use cases -----

  function RefundAmount(row: Row, requested: int64): int64 {
    if requested <= 0 then Refundable(row) else requested
  }

  /** What a call does to its copy before it asks the gateway. */
  function Prepare(op: Op, row: Row): Result<Row, Error> {
    match op
    case Process => Ok(row)
    case Capture => Move(row, Authorized, Completed)
    case Refund(requested) => Refunding(row, RefundAmount(row, requested))
  }

  /** What it does with the answer, and the type of the event it will write. */
  function Conclude(op: Op, copy: Row, answer: Answer): Result<(Row, EventType), Error> {
    match op
    case Capture => Ok((copy, PaymentCompleted))
    case Refund(_) => Ok((copy, PaymentRefunded))
    case Process =>
      var to := if answer.Declined? then Failed
                else if copy.captureMethod == Manual then Authorized else Completed;
      match Move(copy, Pending, to)
      case Err(e) => Err(e)
      case Ok(next) =>
        Ok((next, if to == Failed then PaymentFailed else if to == Authorized then PaymentAuthorized else PaymentCompleted))
  }

  // ----- Steps -----

  datatype Step =
    | Create(req: Request, id: PaymentId, eventId: EventId, at: Time)
    | Read(call: CallId, id: PaymentId, op: Op)
    | Reply(call: CallId, answer: Answer)
    | Commit(call: CallId, eventId: EventId, at: Time)
    | Stop(call: CallId)

  /** Which runs are considered. AnyInterleaving is what the code allows. FreshCommits are
      the runs in which no transaction overwrites a row that changed since it was read.
      OneCallPerPayment are those in which the calls for one payment do not overlap. */
  datatype Mode = AnyInterleaving | FreshCommits | OneCallPerPayment

  ghost predicate Idle(s: State, id: PaymentId) {
    forall c | c in s.calls :: s.calls[c].base.id != id
  }

  ghost predicate Enabled(mode: Mode, s: State, step: Step) {
    match step
    case Create(req, id, eventId, at) =>
      NewRow(req, id, at).Ok? && id !in s.rows && FreshId(s.log, eventId)
    case Read(c, id, op) =>
      c !in s.calls && id in s.rows && Prepare(op, s.rows[id]).Ok?
      && (mode.OneCallPerPayment? ==> Idle(s, id))
    case Reply(c, answer) =>
      c in s.calls && s.calls[c].Asking? && Conclude(s.calls[c].op, s.calls[c].copy, answer).Ok?
    case Commit(c, eventId, _) =>
      c in s.calls && s.calls[c].Writing? && s.calls[c].copy.id in s.rows && FreshId(s.log, eventId)
      && (mode.FreshCommits? ==> s.calls[c].base == s.rows[s.calls[c].copy.id])
    case Stop(c) => c in s.calls
  }

  function RefundOf(call: Call): seq<Entry> {
    if call.op.Refund? then [Entry(call.base.id, RefundAmount(call.base, call.op.requested))] else []
  }

  ghost function Created(s: State, row: Row, eventId: EventId, at: Time): State {
    s.(rows := s.rows[row.id := row], log := s.log + [EventOf(row, PaymentCreated, eventId, at)])
  }

  ghost function ReadBy(s: State, c: CallId, id: PaymentId, op: Op): State
    requires id in s.rows && Prepare(op, s.rows[id]).Ok?
  {
    s.(calls := s.calls[c := Asking(op, s.rows[id], Prepare(op, s.rows[id]).value)])
  }

  ghost function Replied(s: State, c: CallId, copy: Row, eventType: EventType): State
    requires c in s.calls
  {
    var call := s.calls[c];
    s.(calls := s.calls[c := Writing(call.op, call.base, copy, eventType)],
       confirmed := s.confirmed + RefundOf(call))
  }

  ghost function Committed(s: State, c: CallId, eventId: EventId, at: Time): State
    requires c in s.calls && s.calls[c].Writing?
  {
    var call := s.calls[c];
    s.(rows := s.rows[call.copy.id := call.copy],
       log := s.log + [EventOf(call.copy, call.eventType, eventId, at)],
       calls := s.calls - {c},
       persisted := s.persisted + RefundOf(call))
  }

  ghost function Stopped(s: State, c: CallId): State
    requires c in s.calls
  {
    s.(calls := s.calls - {c}, lost := s.lost + if s.calls[c].Writing? then RefundOf(s.calls[c]) else [])
  }

  ghost function Apply(mode: Mode, s: State, step: Step): State
    requires Enabled(mode, s, step)
  {
    match step
    case Create(req, id, eventId, at) => Created(s, NewRow(req, id, at).value, eventId, at)
    case Read(c, id, op) => ReadBy(s, c, id, op)
    case Reply(c, answer) =>
      var (copy, eventType) := Conclude(s.calls[c].op, s.calls[c].copy, answer).value;
      Replied(s, c, copy, eventType)
    case Commit(c, eventId, at) => Committed(s, c, eventId, at)
    case Stop(c) => Stopped(s, c)
  }

  ghost predicate IsRun(mode: Mode, s: State, steps: seq<Step>, t: State)
    decreases |steps|
  {
    if steps == [] then s == t
    else Enabled(mode, s, steps[0]) && IsRun(mode, Apply(mode, s, steps[0]), steps[1..], t)
  }

  // ----- One call on its own -----

  function Extend(ledger: seq<Entry>, refund: seq<Entry>): seq<Entry> {
    if refund == [] then ledger else ledger + refund
  }

  /** The state after a call that nothing interrupts has committed. */
  ghost function Executed(s: State, id: PaymentId, op: Op, answer: Answer, eventId: EventId, at: Time): State
    requires id in s.rows && Prepare(op, s.rows[id]).Ok?
    requires Conclude(op, Prepare(op, s.rows[id]).value, answer).Ok?
  {
    var (next, eventType) := Conclude(op, Prepare(op, s.rows[id]).value, answer).value;
    var refund := if op.Refund? then [Entry(id, RefundAmount(s.rows[id], op.requested))] else [];
    s.(rows := s.rows[id := next], log := s.log + [EventOf(next, eventType, eventId, at)],
       confirmed := Extend(s.confirmed, refund), persisted := Extend(s.persisted, refund))
  }

  /** The state after the gateway answered and the transaction then failed. */
  ghost function Unsettled(s: State, id: PaymentId, op: Op): State
    requires id in s.rows
  {
    var refund := if op.Refund? then [Entry(id, RefundAmount(s.rows[id], op.requested))] else [];
    s.(confirmed := Extend(s.confirmed, refund), lost := Extend(s.lost, refund))
  }

  function ExecuteSteps(c: CallId, id: PaymentId, op: Op, answer: Answer, eventId: EventId, at: Time): seq<Step> {
    [Read(c, id, op), Reply(c, answer), Commit(c, eventId, at)]
  }

  function FailedSteps(c: CallId, id: PaymentId, op: Op, answer: Answer): seq<Step> {
    [Read(c, id, op), Reply(c, answer), Stop(c)]
  }

  lemma ExecuteIsRun(mode: Mode, s: State, c: CallId, id: PaymentId, op: Op, answer: Answer, eventId: EventId, at: Time)
    requires c !in s.calls && Idle(s, id) && id in s.rows && s.rows[id].id == id && FreshId(s.log, eventId)
    requires Prepare(op, s.rows[id]).Ok? && Conclude(op, Prepare(op, s.rows[id]).value, answer).Ok?
    ensures IsRun(mode, s, ExecuteSteps(c, id, op, answer, eventId, at), Executed(s, id, op, answer, eventId, at))
    ensures IsRun(mode, s, FailedSteps(c, id, op, answer), Unsettled(s, id, op))
  {
    var row := s.rows[id];
    var (next, eventType) := Conclude(op, Prepare(op, row).value, answer).value;
    var s1 := ReadBy(s, c, id, op);
    var s2 := Replied(s1, c, next, eventType);
    assert next.id == id;
    assert Apply(mode, s, Read(c, id, op)) == s1;
    assert Apply(mode, s1, Reply(c, answer)) == s2;
    var s3 := Committed(s2, c, eventId, at);
    assert s3.calls == s.calls;
    assert s3 == Executed(s, id, op, answer, eventId, at);
    var s4 := Stopped(s2, c);
    assert s4.calls == s.calls;
    assert s4 == Unsettled(s, id, op);
    RunOfThree(mode, s, Read(c, id, op), Reply(c, answer), Commit(c, eventId, at), s1, s2, s3);
    RunOfThree(mode, s, Read(c, id, op), Reply(c, answer), Stop(c), s1, s2, s4);
  }

  lemma RunOfThree(mode: Mode, s: State, a: Step, b: Step, c: Step, s1: State, s2: State, s3: State)
    requires Enabled(mode, s, a) && s1 == Apply(mode, s, a)
    requires Enabled(mode, s1, b) && s2 == Apply(mode, s1, b)
    requires Enabled(mode, s2, c) && s3 == Apply(mode, s2, c)
    ensures IsRun(mode, s, [a, b, c], s3)
  {
    assert [a, b, c][1..] == [b, c] && [b, c][1..] == [c] && [c][1..] == [];
    assert IsRun(mode, s2, [c], s3);
    assert IsRun(mode, s1, [b, c], s3);
  }

  /** The sum of a payment's entries in a ledger. */
  function Total(ledger: seq<Entry>, id: PaymentId): int {
    if ledger == [] then 0
    else Total(Front(ledger), id) + if Last(ledger).id == id then Last(ledger).amount else 0
  }

  lemma TotalAppend(ledger: seq<Entry>, e: Entry, id: PaymentId)
    ensures Total(ledger + [e], id) == Total(ledger, id) + if e.id == id then e.amount else 0
  {
  }

  // ----- What one call computes -----

  /** The moves a payment may make, and the event type each must be announced with. */
  ghost predicate LegalMove(base: Row, next: Row, eventType: EventType) {
    && SameTerms(base, next)
    && TypeFitsStatus(eventType, next.status)
    && match base.status
       case Pending =>
         && next.refunded == base.refunded
         && next.status in (if base.captureMethod == Manual then {Authorized, Failed} else {Completed, Failed})
       case Authorized => next.refunded == base.refunded && next.status == Completed
       case Completed | PartiallyRefunded =>
         && base.refunded < next.refunded <= base.money.amount
         && next.status == if next.refunded == base.money.amount then Refunded else PartiallyRefunded
       case Failed | Refunded => false
  }

  /** Whatever is asked and answered, a call that gets as far as writing writes a legal
      move from the row it read, and a refund adds exactly the amount told to the gateway. */
  lemma CallMakesLegalMove(op: Op, base: Row, answer: Answer)
    requires WellFormed(base)
    requires Prepare(op, base).Ok? && Conclude(op, Prepare(op, base).value, answer).Ok?
    ensures var (next, eventType) := Conclude(op, Prepare(op, base).value, answer).value;
            && LegalMove(base, next, eventType) && WellFormed(next)
            && (op.Process? ==> base.status == Pending)
            && (op.Refund? <==> eventType == PaymentRefunded)
            && (op.Refund? ==> next.refunded == base.refunded + RefundAmount(base, op.requested))
            && (!op.Refund? ==> next.refunded == base.refunded == 0)
  {
  }

  /** A legal move always spends budget. */
  lemma LegalMoveSpends(base: Row, next: Row, eventType: EventType)
    requires WellFormed(base) && WellFormed(next) && LegalMove(base, next, eventType)
    ensures Budget(next) < Budget(base)
  {
  }

  // ----- The invariant of every interleaving -----

  ghost predicate RowOk(s: State, id: PaymentId)
    requires id in s.rows
  {
    var row := s.rows[id];
    var h := History(s.log, id);
    && row.id == id && WellFormed(row)
    && h != [] && Last(h).payload.status == row.status
    && row.refunded <= Total(s.confirmed, id)
  }

  ghost predicate CallOk(s: State, call: Call) {
    && WellFormed(call.base) && call.base.id in s.rows
    && SameTerms(call.base, s.rows[call.base.id])
    && call.base.refunded <= Total(s.confirmed, call.base.id)
    && Prepare(call.op, call.base).Ok?
    && (call.Asking? ==> call.copy == Prepare(call.op, call.base).value)
    && (call.Writing? ==>
          && WellFormed(call.copy) && LegalMove(call.base, call.copy, call.eventType)
          && call.copy.refunded <= Total(s.confirmed, call.base.id)
          && (call.op.Process? ==> call.base.status == Pending)
          && (call.op.Refund? <==> call.eventType == PaymentRefunded)
          && (call.op.Refund? ==> call.copy.refunded == call.base.refunded + RefundAmount(call.base, call.op.requested))
          && (!call.op.Refund? ==> call.copy.refunded == call.base.refunded))
  }

  ghost predicate RowsOk(s: State) {
    forall id | id in s.rows :: RowOk(s, id)
  }

  ghost predicate CallsOk(s: State) {
    forall c | c in s.calls :: CallOk(s, s.calls[c])
  }

  /** The event tells the truth about a payment: its terms, and a status that fits its type. */
  ghost predicate Announces(e: Event, row: Row) {
    && e.aggregateId == e.payload.id == row.id
    && e.payload.amount == row.money.amount && e.payload.currency == row.money.currency
    && e.payload.createdAt == row.createdAt
    && TypeFitsStatus(e.eventType, e.payload.status)
  }

  ghost predicate LogOk(log: seq<Event>, rows: map<PaymentId, Row>) {
    DistinctIds(log) && forall i | 0 <= i < |log| :: log[i].aggregateId in rows && Announces(log[i], rows[log[i].aggregateId])
  }

  ghost predicate Backed(ledger: seq<Entry>, rows: map<PaymentId, Row>) {
    forall i | 0 <= i < |ledger| :: ledger[i].id in rows && ledger[i].amount > 0
  }

  ghost predicate Inv(s: State) {
    && RowsOk(s) && CallsOk(s) && LogOk(s.log, s.rows)
    && Backed(s.confirmed, s.rows) && Backed(s.persisted, s.rows) && Backed(s.lost, s.rows)
  }

  lemma {:induction false} BackedTotal(ledger: seq<Entry>, rows: map<PaymentId, Row>, id: PaymentId)
    requires Backed(ledger, rows)
    ensures Total(ledger, id) >= 0
    ensures id !in rows ==> Total(ledger, id) == 0
  {
    if ledger != [] {
      BackedTotal(Front(ledger), rows, id);
    }
  }

  lemma {:induction false} NoHistory(log: seq<Event>, id: PaymentId)
    requires forall i | 0 <= i < |log| :: log[i].aggregateId != id
    ensures History(log, id) == []
  {
    if log != [] {
      NoHistory(Front(log), id);
    }
  }

  lemma ReplyRefund(call: Call, ledger: seq<Entry>)
    requires WellFormed(call.base) && Prepare(call.op, call.base).Ok?
    ensures forall id :: Total(ledger, id) <= Total(ledger + RefundOf(call), id)
    ensures call.op.Refund? ==>
              && RefundAmount(call.base, call.op.requested) > 0
              && Total(ledger + RefundOf(call), call.base.id) == Total(ledger, call.base.id) + RefundAmount(call.base, call.op.requested)
  {
    if call.op.Refund? {
      RefundExact(call.base, RefundAmount(call.base, call.op.requested));
      forall id
        ensures Total(ledger + RefundOf(call), id) ==
                Total(ledger, id) + if call.base.id == id then RefundAmount(call.base, call.op.requested) else 0
      {
        TotalAppend(ledger, RefundOf(call)[0], id);
      }
    } else {
      assert ledger + RefundOf(call) == ledger;
    }
  }

  /** Writing one row together with its event keeps every row in step with the log. */
  lemma WriteKeepsRows(s: State, t: State, row: Row, e: Event)
    requires RowsOk(s)
    requires t.rows == s.rows[row.id := row] && t.log == s.log + [e] && t.confirmed == s.confirmed
    requires WellFormed(row) && e.aggregateId == row.id && e.payload.status == row.status
    requires row.refunded <= Total(s.confirmed, row.id)
    ensures RowsOk(t)
  {
  }

  /** A call in flight does not notice a write that keeps the terms of its payment, nor
      refunds that others get confirmed. */
  lemma OthersKeepCalls(s: State, t: State)
    requires CallsOk(s)
    requires forall c | c in t.calls :: c in s.calls && t.calls[c] == s.calls[c]
    requires forall id | id in s.rows :: id in t.rows && SameTerms(s.rows[id], t.rows[id])
    requires forall id :: Total(s.confirmed, id) <= Total(t.confirmed, id)
    ensures CallsOk(t)
  {
  }

  lemma ConfirmKeepsRows(s: State, t: State)
    requires RowsOk(s)
    requires t.rows == s.rows && t.log == s.log
    requires forall id :: Total(s.confirmed, id) <= Total(t.confirmed, id)
    ensures RowsOk(t)
  {
  }

  lemma WriteKeepsLog(log: seq<Event>, rows: map<PaymentId, Row>, row: Row, e: Event)
    requires LogOk(log, rows) && FreshId(log, e.id) && Announces(e, row)
    requires row.id in rows ==> SameTerms(rows[row.id], row)
    ensures LogOk(log + [e], rows[row.id := row])
  {
  }

  lemma WriteKeepsBacked(ledger: seq<Entry>, more: seq<Entry>, rows: map<PaymentId, Row>, row: Row)
    requires Backed(ledger, rows) && Backed(more, rows)
    ensures Backed(ledger + more, rows) && Backed(ledger + more, rows[row.id := row])
    ensures Backed(ledger, rows[row.id := row])
  {
  }

  lemma CreateKeepsInv(s: State, row: Row, eventId: EventId, at: Time)
    requires Inv(s) && WellFormed(row) && row.status == Pending && row.id !in s.rows && FreshId(s.log, eventId)
    ensures Inv(Created(s, row, eventId, at))
  {
    var t := Created(s, row, eventId, at);
    BackedTotal(s.confirmed, s.rows, row.id);
    WriteKeepsRows(s, t, row, Last(t.log));
    OthersKeepCalls(s, t);
    WriteKeepsLog(s.log, s.rows, row, Last(t.log));
    WriteKeepsBacked(s.confirmed, [], s.rows, row);
    WriteKeepsBacked(s.persisted, [], s.rows, row);
    WriteKeepsBacked(s.lost, [], s.rows, row);
  }

  lemma ReadKeepsInv(s: State, c: CallId, id: PaymentId, op: Op)
    requires Inv(s) && c !in s.calls && id in s.rows && Prepare(op, s.rows[id]).Ok?
    ensures Inv(ReadBy(s, c, id, op))
  {
    assert RowOk(s, id);
    var t := ReadBy(s, c, id, op);
    forall id | id in t.rows ensures RowOk(t, id) {
      assert RowOk(s, id);
    }
    forall d | d in t.calls ensures CallOk(t, t.calls[d]) {
      assert d != c ==> CallOk(s, s.calls[d]);
    }
  }

  lemma ReplyKeepsRowsAndCalls(s: State, c: CallId, answer: Answer)
    requires RowsOk(s) && CallsOk(s) && c in s.calls && s.calls[c].Asking? && CallOk(s, s.calls[c])
    requires Conclude(s.calls[c].op, s.calls[c].copy, answer).Ok?
    ensures var (copy, eventType) := Conclude(s.calls[c].op, s.calls[c].copy, answer).value;
            RowsOk(Replied(s, c, copy, eventType)) && CallsOk(Replied(s, c, copy, eventType))
  {
    var call := s.calls[c];
    var (copy, eventType) := Conclude(call.op, call.copy, answer).value;
    var t := Replied(s, c, copy, eventType);
    var rest := t.(calls := s.calls - {c});
    CallMakesLegalMove(call.op, call.base, answer);
    ReplyRefund(call, s.confirmed);
    ConfirmKeepsRows(s, t);
    OthersKeepCalls(s, rest);
    assert CallOk(t, t.calls[c]);
    forall d | d in t.calls ensures CallOk(t, t.calls[d]) {
      assert d != c ==> CallOk(rest, rest.calls[d]);
    }
  }

  lemma ReplyKeepsInv(s: State, c: CallId, answer: Answer)
    requires Inv(s) && c in s.calls && s.calls[c].Asking?
    requires Conclude(s.calls[c].op, s.calls[c].copy, answer).Ok?
    ensures var (copy, eventType) := Conclude(s.calls[c].op, s.calls[c].copy, answer).value;
            Inv(Replied(s, c, copy, eventType))
  {
    assert CallOk(s, s.calls[c]);
    ReplyKeepsRowsAndCalls(s, c, answer);
    ReplyRefund(s.calls[c], []);
  }

  lemma CommitKeepsRows(s: State, c: CallId, eventId: EventId, at: Time)
    requires RowsOk(s) && c in s.calls && s.calls[c].Writing? && CallOk(s, s.calls[c])
    ensures RowsOk(Committed(s, c, eventId, at))
  {
    var t := Committed(s, c, eventId, at);
    WriteKeepsRows(s, t, s.calls[c].copy, Last(t.log));
  }

  lemma CommitKeepsCalls(s: State, c: CallId, eventId: EventId, at: Time)
    requires CallsOk(s) && c in s.calls && s.calls[c].Writing? && CallOk(s, s.calls[c])
    ensures CallsOk(Committed(s, c, eventId, at))
  {
    OthersKeepCalls(s, Committed(s, c, eventId, at));
  }

  lemma CommitKeepsInv(s: State, c: CallId, eventId: EventId, at: Time)
    requires Inv(s) && c in s.calls && s.calls[c].Writing? && FreshId(s.log, eventId)
    ensures Inv(Committed(s, c, eventId, at))
  {
    var call := s.calls[c];
    assert CallOk(s, call);
    ReplyRefund(call, []);
    CommitKeepsRows(s, c, eventId, at);
    CommitKeepsCalls(s, c, eventId, at);
    WriteKeepsLog(s.log, s.rows, call.copy, EventOf(call.copy, call.eventType, eventId, at));
    WriteKeepsBacked(s.confirmed, [], s.rows, call.copy);
    WriteKeepsBacked(s.persisted, RefundOf(call), s.rows, call.copy);
    WriteKeepsBacked(s.lost, [], s.rows, call.copy);
  }

  lemma StopKeepsInv(s: State, c: CallId)
    requires Inv(s) && c in s.calls
    ensures Inv(Stopped(s, c))
  {
    var t := Stopped(s, c);
    assert CallOk(s, s.calls[c]);
    ReplyRefund(s.calls[c], []);
    ConfirmKeepsRows(s, t);
    OthersKeepCalls(s, t);
  }

  lemma StepKeepsInv(mode: Mode, s: State, step: Step)
    requires Inv(s) && Enabled(mode, s, step)
    ensures Inv(Apply(mode, s, step))
  {
    match step
    case Create(req, id, eventId, at) =>
      NewRowExact(req, id, at);
      CreateKeepsInv(s, NewRow(req, id, at).value, eventId, at);
    case Read(c, id, op) => ReadKeepsInv(s, c, id, op);
    case Reply(c, answer) => ReplyKeepsInv(s, c, answer);
    case Commit(c, eventId, at) => CommitKeepsInv(s, c, eventId, at);
    case Stop(c) => StopKeepsInv(s, c);
  }
}
