/** Runs that show the limits: what the bounds allow and what overlapping calls can do. */
module Witnesses {
  import opened Basics
  import opened Payments
  import opened Events
  import opened Lifecycle
  import opened Interleavings

  const SALE := Row("sale", Money(100, "BRL"), Completed, Automatic, 1, 0, 0)

  /** A payment of 100 that has been created, approved and completed. */
  lemma CompletedSale() returns (steps: seq<Step>, s: State)
    ensures IsRun(OneCallPerPayment, INITIAL, steps, s) && IsRun(AnyInterleaving, INITIAL, steps, s)
    ensures s.rows == map["sale" := SALE] && s.calls == map[] && s.confirmed == s.persisted == s.lost == []
    ensures |s.log| == 2 && s.log[0].id == "1" && s.log[1].id == "2"
    ensures forall i | 0 <= i < 2 :: s.log[i].aggregateId == "sale"
  {
    var req := Request(100, "BRL", 0, Unset);
    var create := Create(req, "sale", "1", 0);
    var row := NewRow(req, "sale", 0).value;
    var s1 := Created(INITIAL, row, "1", 0);
    assert Prepare(Process, row) == Ok(row);
    s := Executed(s1, "sale", Process, Approved, "2", 0);
    steps := [create] + ExecuteSteps(0, "sale", Process, Approved, "2", 0);
    forall mode: Mode ensures IsRun(mode, INITIAL, steps, s) {
      assert [create][1..] == [];
      assert Apply(mode, INITIAL, create) == s1;
      assert IsRun(mode, s1, [], s1);
      assert IsRun(mode, INITIAL, [create], s1);
      ExecuteIsRun(mode, s1, 0, "sale", Process, Approved, "2", 0);
      RunConcat(mode, INITIAL, [create], s1, ExecuteSteps(0, "sale", Process, Approved, "2", 0), s);
    }
  }

  lemma TwoEntries(a: int64, b: int64)
    ensures Total([Entry("sale", a), Entry("sale", b)], "sale") == a + b
  {
    TotalAppend([], Entry("sale", a), "sale");
    TotalAppend([Entry("sale", a)], Entry("sale", b), "sale");
    assert [Entry("sale", a), Entry("sale", b)] == [Entry("sale", a)] + [Entry("sale", b)];
  }

  /** A full refund that is confirmed but not committed, then the same again, committed. */
  lemma LostThenRefunded(s: State) returns (steps: seq<Step>, t: State)
    requires s.rows == map["sale" := SALE] && s.calls == map[] && s.confirmed == [] && FreshId(s.log, "3")
    ensures IsRun(OneCallPerPayment, s, steps, t)
    ensures "sale" in t.rows && t.rows["sale"].money == SALE.money && t.calls == map[]
    ensures t.confirmed == [Entry("sale", 100), Entry("sale", 100)]
  {
    var op := Refund(0);
    assert Prepare(op, SALE) == Ok(SALE.(status := Refunded, refunded := 100));
    var u := Unsettled(s, "sale", op);
    t := Executed(u, "sale", op, Approved, "3", 0);
    ExecuteIsRun(OneCallPerPayment, s, 0, "sale", op, Approved, "3", 0);
    ExecuteIsRun(OneCallPerPayment, u, 0, "sale", op, Approved, "3", 0);
    steps := FailedSteps(0, "sale", op, Approved) + ExecuteSteps(0, "sale", op, Approved, "3", 0);
    RunConcat(OneCallPerPayment, s, FailedSteps(0, "sale", op, Approved), u,
              ExecuteSteps(0, "sale", op, Approved, "3", 0), t);
  }

  /** Even with one call at a time the gateway can refund twice what was paid: it confirms a
      refund, the transaction fails, and the repeated call is confirmed again. */
  lemma GatewayCanRefundTwice() returns (steps: seq<Step>, t: State)
    ensures IsRun(OneCallPerPayment, INITIAL, steps, t)
    ensures "sale" in t.rows && t.calls == map[]
    ensures Total(t.confirmed, "sale") == 2 * t.rows["sale"].money.amount
  {
    var sale, s := CompletedSale();
    var refunds;
    refunds, t := LostThenRefunded(s);
    RunConcat(OneCallPerPayment, INITIAL, sale, s, refunds, t);
    steps := sale + refunds;
    TwoEntries(100, 100);
  }

  /** Two refunds of 60 that both read the payment before either commits. */
  lemma BothRead() returns (steps: seq<Step>, s: State)
    ensures IsRun(AnyInterleaving, INITIAL, steps, s)
    ensures s.rows == map["sale" := SALE] && s.persisted == s.confirmed == []
    ensures |s.log| == 2 && s.log[0].id == "1" && s.log[1].id == "2"
    ensures var call := Asking(Refund(60), SALE, SALE.(status := PartiallyRefunded, refunded := 60));
            s.calls == map[1 := call, 2 := call]
  {
    var sale, s0 := CompletedSale();
    var op := Refund(60);
    assert Prepare(op, SALE) == Ok(SALE.(status := PartiallyRefunded, refunded := 60));
    var s1 := ReadBy(s0, 1, "sale", op);
    s := ReadBy(s1, 2, "sale", op);
    RunExtend(AnyInterleaving, INITIAL, sale, s0, Read(1, "sale", op));
    steps := sale + [Read(1, "sale", op)];
    RunExtend(AnyInterleaving, INITIAL, steps, s1, Read(2, "sale", op));
    steps := steps + [Read(2, "sale", op)];
  }

  /** The gateway confirms both. */
  lemma BothConfirmed() returns (steps: seq<Step>, s: State)
    ensures IsRun(AnyInterleaving, INITIAL, steps, s)
    ensures s.rows == map["sale" := SALE] && s.persisted == []
    ensures |s.log| == 2 && s.log[0].id == "1" && s.log[1].id == "2"
    ensures s.confirmed == [Entry("sale", 60), Entry("sale", 60)]
    ensures var call := Writing(Refund(60), SALE, SALE.(status := PartiallyRefunded, refunded := 60), PaymentRefunded);
            s.calls == map[1 := call, 2 := call]
  {
    var before, s2 := BothRead();
    steps := before;
    var next := SALE.(status := PartiallyRefunded, refunded := 60);
    var s3 := Replied(s2, 1, next, PaymentRefunded);
    RunExtend(AnyInterleaving, INITIAL, steps, s2, Reply(1, Approved));
    steps := steps + [Reply(1, Approved)];
    s := Replied(s3, 2, next, PaymentRefunded);
    RunExtend(AnyInterleaving, INITIAL, steps, s3, Reply(2, Approved));
    steps := steps + [Reply(2, Approved)];
  }

  /** Both then commit: the gateway has refunded more than was paid, both refunds count as
      persisted, and the row remembers only one of them. */
  lemma OverlappingRefundsLoseOne() returns (steps: seq<Step>, t: State)
    ensures IsRun(AnyInterleaving, INITIAL, steps, t)
    ensures "sale" in t.rows && t.calls == map[]
    ensures t.rows["sale"].refunded == 60 && Total(t.persisted, "sale") == 120
    ensures Total(t.confirmed, "sale") == 120 > t.rows["sale"].money.amount
  {
    var before, s := BothConfirmed();
    var s1 := Committed(s, 1, "3", 0);
    t := Committed(s1, 2, "4", 0);
    RunExtend(AnyInterleaving, INITIAL, before, s, Commit(1, "3", 0));
    RunExtend(AnyInterleaving, INITIAL, before + [Commit(1, "3", 0)], s1, Commit(2, "4", 0));
    steps := before + [Commit(1, "3", 0)] + [Commit(2, "4", 0)];
    TwoEntries(60, 60);
    assert t.persisted == t.confirmed == [Entry("sale", 60), Entry("sale", 60)];
  }

  // ----- The bound on events is reached -----

  /** The i-th event of the log is named by a word of length i, so the next such word is fresh. */
  ghost predicate Numbered(log: seq<Event>) {
    forall i | 0 <= i < |log| :: |log[i].id| == i && log[i].aggregateId == "sale"
  }

  function Word(n: nat): EventId {
    seq(n, _ => '1')
  }

  lemma {:induction false} NumberedHistory(log: seq<Event>)
    requires Numbered(log)
    ensures History(log, "sale") == log
  {
    if log != [] {
      NumberedHistory(Front(log));
      assert Front(log) + [Last(log)] == log;
    }
  }

  lemma OneMore(s: State, op: Op) returns (steps: seq<Step>, t: State)
    requires s.calls == map[] && "sale" in s.rows && s.rows["sale"].id == "sale" && Numbered(s.log)
    requires Prepare(op, s.rows["sale"]).Ok? && Conclude(op, Prepare(op, s.rows["sale"]).value, Approved).Ok?
    ensures IsRun(OneCallPerPayment, s, steps, t) && t.calls == map[]
    ensures t.rows == s.rows["sale" := Conclude(op, Prepare(op, s.rows["sale"]).value, Approved).value.0]
    ensures Numbered(t.log) && |t.log| == |s.log| + 1
  {
    steps := ExecuteSteps(0, "sale", op, Approved, Word(|s.log|), 0);
    t := Executed(s, "sale", op, Approved, Word(|s.log|), 0);
    ExecuteIsRun(OneCallPerPayment, s, 0, "sale", op, Approved, Word(|s.log|), 0);
  }

  /** Refunding a captured payment one cent at a time writes one event per cent left. */
  lemma {:induction false} CentByCent(s: State, left: nat) returns (steps: seq<Step>, t: State)
    requires s.calls == map[] && "sale" in s.rows && s.rows["sale"].id == "sale" && Numbered(s.log)
    requires WellFormed(s.rows["sale"]) && left == s.rows["sale"].money.amount - s.rows["sale"].refunded
    requires left > 0 ==> s.rows["sale"].status in {Completed, PartiallyRefunded}
    ensures IsRun(OneCallPerPayment, s, steps, t) && Numbered(t.log)
    ensures "sale" in t.rows && t.rows["sale"].money == s.rows["sale"].money
    ensures |t.log| == |s.log| + left
    decreases left
  {
    if left == 0 {
      steps, t := [], s;
    } else {
      RefundExact(s.rows["sale"], 1);
      var first, next := OneMore(s, Refund(1));
      var rest;
      rest, t := CentByCent(next, left - 1);
      RunConcat(OneCallPerPayment, s, first, next, rest, t);
      steps := first + rest;
    }
  }

  /** The bound of amount plus three events is reached by every amount, capturing manually. */
  lemma EveryCentAnEvent(amount: int64) returns (steps: seq<Step>, t: State)
    requires amount > 0
    ensures IsRun(OneCallPerPayment, INITIAL, steps, t)
    ensures "sale" in t.rows && t.rows["sale"].money.amount == amount
    ensures |History(t.log, "sale")| == amount + 3
  {
    var req := Request(amount, "BRL", 0, Manual);
    var create := Create(req, "sale", Word(0), 0);
    var s0 := Apply(OneCallPerPayment, INITIAL, create);
    assert IsRun(OneCallPerPayment, s0, [create][1..], s0);
    var authorize, s1 := OneMore(s0, Process);
    var capture, s2 := OneMore(s1, Capture);
    var refunds;
    refunds, t := CentByCent(s2, amount);
    RunConcat(OneCallPerPayment, s1, capture, s2, refunds, t);
    RunConcat(OneCallPerPayment, s0, authorize, s1, capture + refunds, t);
    RunConcat(OneCallPerPayment, INITIAL, [create], s0, authorize + (capture + refunds), t);
    steps := [create] + (authorize + (capture + refunds));
    NumberedHistory(t.log);
  }
}
