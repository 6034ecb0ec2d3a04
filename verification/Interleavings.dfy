/** What holds in every interleaving of the use cases, crashes and failed transactions included. */
module Interleavings {
  import opened Basics
  import opened Payments
  import opened Events
  import opened Lifecycle

  lemma {:induction false} RunKeepsInv(mode: Mode, s: State, steps: seq<Step>, t: State)
    requires Inv(s) && IsRun(mode, s, steps, t)
    ensures Inv(t)
    decreases |steps|
  {
    if steps != [] {
      StepKeepsInv(mode, s, steps[0]);
      RunKeepsInv(mode, Apply(mode, s, steps[0]), steps[1..], t);
    }
  }

  /** A run followed by one more step is a run. */
  lemma {:induction false} RunExtend(mode: Mode, s: State, steps: seq<Step>, t: State, step: Step)
    requires IsRun(mode, s, steps, t) && Enabled(mode, t, step)
    ensures IsRun(mode, s, steps + [step], Apply(mode, t, step))
    decreases |steps|
  {
    if steps == [] {
      assert (steps + [step])[1..] == [];
    } else {
      assert (steps + [step])[1..] == steps[1..] + [step];
      RunExtend(mode, Apply(mode, s, steps[0]), steps[1..], t, step);
    }
  }

  lemma {:induction false} RunConcat(mode: Mode, s: State, a: seq<Step>, t: State, b: seq<Step>, u: State)
    requires IsRun(mode, s, a, t) && IsRun(mode, t, b, u)
    ensures IsRun(mode, s, a + b, u)
    decreases |a|
  {
    if a == [] {
      assert a + b == b;
    } else {
      assert (a + b)[1..] == a[1..] + b;
      RunConcat(mode, Apply(mode, s, a[0]), a[1..], t, b, u);
    }
  }

  /** Stored rows are well formed, and never claim more refunds than the gateway confirmed. */
  lemma RowsAreSound(mode: Mode, steps: seq<Step>, t: State, id: PaymentId)
    requires IsRun(mode, INITIAL, steps, t) && id in t.rows
    ensures WellFormed(t.rows[id])
    ensures 0 <= t.rows[id].refunded <= t.rows[id].money.amount
    ensures t.rows[id].refunded <= Total(t.confirmed, id)
  {
    RunKeepsInv(mode, INITIAL, steps, t);
    assert RowOk(t, id);
  }

  /** The row and the log agree: a payment's status is the one its most recent event carries,
      and every event tells the truth about the terms of its payment. */
  lemma StatusIsLastAnnounced(mode: Mode, steps: seq<Step>, t: State)
    requires IsRun(mode, INITIAL, steps, t)
    ensures forall id | id in t.rows ::
              History(t.log, id) != [] && Last(History(t.log, id)).payload.status == t.rows[id].status
    ensures forall i | 0 <= i < |t.log| ::
              t.log[i].aggregateId in t.rows && Announces(t.log[i], t.rows[t.log[i].aggregateId])
    ensures DistinctIds(t.log)
  {
    RunKeepsInv(mode, INITIAL, steps, t);
    forall id | id in t.rows
      ensures History(t.log, id) != [] && Last(History(t.log, id)).payload.status == t.rows[id].status
    {
      assert RowOk(t, id);
    }
  }

  /** However small the requested amount, no reachable row answers "invalid refund amount". */
  lemma NeverInvalidRefundAmount(mode: Mode, steps: seq<Step>, t: State, id: PaymentId, requested: int64)
    requires IsRun(mode, INITIAL, steps, t) && id in t.rows
    ensures Prepare(Refund(requested), t.rows[id]) != Err(InvalidRefundAmount)
    ensures requested <= 0 && Prepare(Refund(requested), t.rows[id]).Ok? ==>
              Prepare(Refund(requested), t.rows[id]).value.refunded == t.rows[id].money.amount
  {
    RowsAreSound(mode, steps, t, id);
    RefundOfTheRest(t.rows[id]);
    RefundExact(t.rows[id], RefundAmount(t.rows[id], requested));
  }

  lemma StepKeepsTerms(mode: Mode, s: State, step: Step, id: PaymentId)
    requires Inv(s) && Enabled(mode, s, step) && id in s.rows
    ensures var t := Apply(mode, s, step);
            && id in t.rows && SameTerms(s.rows[id], t.rows[id])
            && s.log <= t.log
  {
    if step.Commit? {
      assert CallOk(s, s.calls[step.call]);
    }
  }

  /** Once created, a payment's amount, currency, installments, capture method and creation
      time never change, and the log only grows. */
  lemma {:induction false} TermsNeverChange(mode: Mode, s: State, steps: seq<Step>, t: State, id: PaymentId)
    requires Inv(s) && IsRun(mode, s, steps, t) && id in s.rows
    ensures id in t.rows && SameTerms(s.rows[id], t.rows[id]) && s.log <= t.log
    decreases |steps|
  {
    if steps != [] {
      StepKeepsTerms(mode, s, steps[0], id);
      StepKeepsInv(mode, s, steps[0]);
      TermsNeverChange(mode, Apply(mode, s, steps[0]), steps[1..], t, id);
    }
  }

  /** Replacing the whole row, as the in-memory store does, and writing only the amount,
      currency, status and refunded columns, as the SQL store does, commit the same row. */
  function WithColumns(stored: Row, copy: Row): Row {
    stored.(money := copy.money, status := copy.status, refunded := copy.refunded)
  }

  lemma StoresAgree(mode: Mode, steps: seq<Step>, t: State, c: CallId)
    requires IsRun(mode, INITIAL, steps, t) && c in t.calls && t.calls[c].Writing?
    ensures t.calls[c].copy.id in t.rows
    ensures WithColumns(t.rows[t.calls[c].copy.id], t.calls[c].copy) == t.calls[c].copy
  {
    RunKeepsInv(mode, INITIAL, steps, t);
    assert CallOk(t, t.calls[c]);
  }

  // ----- Conservation of refunded money -----

  /** What a call still owes the ledger: a refund the gateway confirmed, not yet settled. */
  function Owed(call: Call, id: PaymentId): int {
    if call.Writing? && call.op.Refund? && call.base.id == id then RefundAmount(call.base, call.op.requested) else 0
  }

  ghost function Debts(calls: map<CallId, Call>, id: PaymentId): map<CallId, int> {
    map c | c in calls :: Owed(calls[c], id)
  }

  ghost function InFlight(s: State, id: PaymentId): int {
    MapSum(Debts(s.calls, id))
  }

  ghost predicate Balanced(s: State, id: PaymentId) {
    Total(s.confirmed, id) == Total(s.persisted, id) + Total(s.lost, id) + InFlight(s, id)
  }

  lemma PutCall(s: State, t: State, c: CallId, id: PaymentId)
    requires c in t.calls && t.calls == s.calls[c := t.calls[c]]
    ensures InFlight(t, id) == InFlight(s, id) + Owed(t.calls[c], id) - if c in s.calls then Owed(s.calls[c], id) else 0
  {
    MapSumPut(Debts(s.calls, id), c, Owed(t.calls[c], id));
    assert Debts(t.calls, id) == Debts(s.calls, id)[c := Owed(t.calls[c], id)];
  }

  lemma EndCall(s: State, t: State, c: CallId, id: PaymentId)
    requires c in s.calls && t.calls == s.calls - {c}
    ensures InFlight(t, id) == InFlight(s, id) - Owed(s.calls[c], id)
  {
    MapSumTake(Debts(s.calls, id), c);
    assert Debts(t.calls, id) == Debts(s.calls, id) - {c};
  }

  lemma TotalRefundOf(ledger: seq<Entry>, call: Call, id: PaymentId)
    ensures Total(ledger + RefundOf(call), id) ==
            Total(ledger, id) + if call.op.Refund? && call.base.id == id then RefundAmount(call.base, call.op.requested) else 0
  {
    if call.op.Refund? {
      TotalAppend(ledger, RefundOf(call)[0], id);
    } else {
      assert ledger + RefundOf(call) == ledger;
    }
  }

  lemma StepKeepsBalance(mode: Mode, s: State, step: Step, id: PaymentId)
    requires Balanced(s, id) && Enabled(mode, s, step)
    ensures Balanced(Apply(mode, s, step), id)
  {
    var t := Apply(mode, s, step);
    match step
    case Create(_, _, _, _) =>
    case Read(c, _, _) => PutCall(s, t, c, id);
    case Reply(c, _) =>
      PutCall(s, t, c, id);
      TotalRefundOf(s.confirmed, s.calls[c], id);
    case Commit(c, _, _) =>
      EndCall(s, t, c, id);
      TotalRefundOf(s.persisted, s.calls[c], id);
    case Stop(c) =>
      EndCall(s, t, c, id);
      TotalRefundOf(s.lost, s.calls[c], id);
      assert s.lost + [] == s.lost;
  }

  /** No refund confirmed by the gateway is forgotten or counted twice: each is persisted,
      or was lost by a call that stopped, or belongs to a call still about to commit. */
  lemma {:induction false} MoneyIsConserved(mode: Mode, s: State, steps: seq<Step>, t: State, id: PaymentId)
    requires Balanced(s, id) && IsRun(mode, s, steps, t)
    ensures Balanced(t, id)
    decreases |steps|
  {
    if steps != [] {
      StepKeepsBalance(mode, s, steps[0], id);
      MoneyIsConserved(mode, Apply(mode, s, steps[0]), steps[1..], t, id);
    }
  }

  lemma MoneyIsConservedFromTheStart(mode: Mode, steps: seq<Step>, t: State, id: PaymentId)
    requires IsRun(mode, INITIAL, steps, t)
    ensures Total(t.confirmed, id) == Total(t.persisted, id) + Total(t.lost, id) + InFlight(t, id)
  {
    MoneyIsConserved(mode, INITIAL, steps, t, id);
  }
}
