/** The payment aggregate: its states, its rows and its domain operations. */
module Payments {
  import opened Basics

  type PaymentId = string

  datatype Status = Pending | Authorized | Completed | Failed | Refunded | PartiallyRefunded

  /** Unset is the empty string of a request; Unknown any other text the source rejects. */
  datatype CaptureMethod = Unset | Automatic | Manual | Unknown(name: string)

  /** Unavailable stands for every infrastructure failure: gateway, store or transaction. */
  datatype Error =
    | NotFound
    | InvalidAmount
    | CurrencyRequired
    | InvalidInstallments
    | InvalidCaptureMethod
    | InvalidTransition
    | InvalidRefundAmount
    | RefundExceedsAmount
    | Unavailable

  datatype Money = Money(amount: int64, currency: string)

  /** The value of a payment at one instant; also what a store keeps for it. */
  datatype Row = Row(
    id: PaymentId,
    money: Money,
    status: Status,
    captureMethod: CaptureMethod,
    installments: int,
    refunded: int64,
    createdAt: Time)

  datatype Request = Request(amount: int64, currency: string, installments: int, captureMethod: CaptureMethod)

  const MAX_INSTALLMENTS := 12

  // ----- What the operations do to a row -----

  function NewRow(req: Request, id: PaymentId, at: Time): Result<Row, Error> {
    var installments := if req.installments == 0 then 1 else req.installments;
    var capture := if req.captureMethod == Unset then Automatic else req.captureMethod;
    if req.amount <= 0 then Err(InvalidAmount)
    else if req.currency == "" then Err(CurrencyRequired)
    else if installments < 1 || installments > MAX_INSTALLMENTS then Err(InvalidInstallments)
    else if capture != Automatic && capture != Manual then Err(InvalidCaptureMethod)
    else Ok(Row(id, Money(req.amount, req.currency), Pending, capture, installments, 0, at))
  }

  function Move(row: Row, from: Status, to: Status): Result<Row, Error> {
    if row.status != from then Err(InvalidTransition) else Ok(row.(status := to))
  }

  function Refundable(row: Row): int64 {
    Wrap64(row.money.amount - row.refunded)
  }

  function Refunding(row: Row, amount: int64): Result<Row, Error> {
    if row.status != Completed && row.status != PartiallyRefunded then Err(InvalidTransition)
    else if amount <= 0 then Err(InvalidRefundAmount)
    else if amount > Refundable(row) then Err(RefundExceedsAmount)
    else
      var total := Wrap64(row.refunded + amount);
      Ok(row.(refunded := total, status := if total == row.money.amount then Refunded else PartiallyRefunded))
  }

  // ----- What is true of the rows -----

  /** The terms of a payment: everything the lifecycle must never touch. */
  predicate SameTerms(a: Row, b: Row) {
    && a.id == b.id
    && a.money == b.money
    && a.captureMethod == b.captureMethod
    && a.installments == b.installments
    && a.createdAt == b.createdAt
  }

  predicate WellFormed(row: Row) {
    && 0 < row.money.amount
    && row.money.currency != ""
    && 1 <= row.installments <= MAX_INSTALLMENTS
    && (row.captureMethod == Automatic || row.captureMethod == Manual)
    && (row.status == Authorized ==> row.captureMethod == Manual)
    && match row.status
       case Pending | Authorized | Completed | Failed => row.refunded == 0
       case PartiallyRefunded => 0 < row.refunded < row.money.amount
       case Refunded => row.refunded == row.money.amount
  }

  /** How many more events a payment can still produce: each lifecycle stage and each
      cent of refundable balance is worth at most one. */
  function Budget(row: Row): (b: nat)
    requires WellFormed(row)
  {
    match row.status
    case Pending => row.money.amount + 2
    case Authorized => row.money.amount + 1
    case Completed | PartiallyRefunded => row.money.amount - row.refunded
    case Failed | Refunded => 0
  }

  /** A request is accepted exactly when every term is acceptable once defaults are filled in,
      and otherwise refused for the first that is not; the new row is pending and carries the
      requested terms. */
  lemma NewRowExact(req: Request, id: PaymentId, at: Time)
    ensures NewRow(req, id, at).Ok? <==>
            req.amount > 0 && req.currency != "" && 0 <= req.installments <= 12
            && req.captureMethod in {Unset, Automatic, Manual}
    ensures req.amount <= 0 ==> NewRow(req, id, at) == Err(InvalidAmount)
    ensures req.amount > 0 && req.currency == "" ==> NewRow(req, id, at) == Err(CurrencyRequired)
    ensures req.amount > 0 && req.currency != "" && !(0 <= req.installments <= 12) ==>
              NewRow(req, id, at) == Err(InvalidInstallments)
    ensures (req.amount > 0 && req.currency != "" && 0 <= req.installments <= 12
             && req.captureMethod !in {Unset, Automatic, Manual}) ==>
              NewRow(req, id, at) == Err(InvalidCaptureMethod)
    ensures NewRow(req, id, at).Ok? ==>
              var row := NewRow(req, id, at).value;
              && WellFormed(row) && row.id == id && row.status == Pending && row.createdAt == at
              && row.money == Money(req.amount, req.currency)
              && (row.captureMethod == Manual <==> req.captureMethod == Manual)
              && (row.installments == req.installments || (req.installments == 0 && row.installments == 1))
  {
  }

  /** On a well-formed row a refund is accepted exactly when it is a positive part of what
      is left of a captured payment; the 64-bit sum is then the true sum, the row stays well
      formed, and the error is the one for the first check that fails. */
  lemma RefundExact(row: Row, amount: int64)
    requires WellFormed(row)
    ensures Refundable(row) == row.money.amount - row.refunded
    ensures Refunding(row, amount).Ok? <==>
            (row.status == Completed || row.status == PartiallyRefunded)
            && 0 < amount <= row.money.amount - row.refunded
    ensures Refunding(row, amount).Ok? ==>
              var next := Refunding(row, amount).value;
              && SameTerms(row, next) && WellFormed(next)
              && next.refunded == row.refunded + amount
              && (next.status == Refunded <==> amount == row.money.amount - row.refunded)
              && Budget(next) < Budget(row)
    ensures Refunding(row, amount) == Err(InvalidTransition) <==>
            row.status !in {Completed, PartiallyRefunded}
    ensures Refunding(row, amount) == Err(InvalidRefundAmount) <==>
            row.status in {Completed, PartiallyRefunded} && amount <= 0
    ensures Refunding(row, amount) == Err(RefundExceedsAmount) <==>
            row.status in {Completed, PartiallyRefunded} && amount > row.money.amount - row.refunded
  {
  }

  /** A refund of "whatever is left" never trips over the non-positive-amount check, and
      when it is accepted it leaves nothing refundable. */
  lemma RefundOfTheRest(row: Row)
    requires WellFormed(row)
    ensures Refunding(row, Refundable(row)) != Err(InvalidRefundAmount)
    ensures Refunding(row, Refundable(row)).Ok? <==> row.status in {Completed, PartiallyRefunded}
    ensures Refunding(row, Refundable(row)).Ok? ==>
              Refunding(row, Refundable(row)).value.status == Refunded
  {
  }

  /** On any row whatever: the computed balance is the true one exactly when that fits in 64
      bits, and otherwise it has the opposite sign, or is zero in place of a negative one. */
  lemma RefundableWraps(row: Row)
    ensures Refundable(row) == row.money.amount - row.refunded <==> FitsInt64(row.money.amount - row.refunded)
    ensures row.money.amount - row.refunded > MAX_INT64 ==> Refundable(row) < 0
    ensures row.money.amount - row.refunded < MIN_INT64 ==> Refundable(row) >= 0
  {
  }

  // ----- The object the use cases mutate -----

  /** What a domain method reports: either it took the step, or it left the object alone. */
  ghost predicate Took(step: Result<Row, Error>, before: Row, after: Row, err: Option<Error>) {
    match step
    case Ok(next) => after == next && err == None
    case Err(e) => after == before && err == Some(e)
  }

  class Payment {
    var id: PaymentId
    var money: Money
    var captureMethod: CaptureMethod
    var installments: int
    var createdAt: Time
    var status: Status
    var refundedAmount: int64

    ghost function Snapshot(): Row
      reads this
    {
      Row(id, money, status, captureMethod, installments, refundedAmount, createdAt)
    }

    constructor FromRow(id: PaymentId, money: Money, status: Status, captureMethod: CaptureMethod,
                        installments: int, refundedAmount: int64, createdAt: Time)
      ensures Snapshot() == Row(id, money, status, captureMethod, installments, refundedAmount, createdAt)
    {
      this.id, this.money, this.status := id, money, status;
      this.captureMethod, this.installments := captureMethod, installments;
      this.refundedAmount, this.createdAt := refundedAmount, createdAt;
    }

    /** An independent copy, so that a stored payment never shares its object with a caller. */
    method Clone() returns (copy: Payment)
      ensures fresh(copy) && copy.Snapshot() == Snapshot()
    {
      copy := new Payment.FromRow(id, money, status, captureMethod, installments, refundedAmount, createdAt);
    }

    method MarkAuthorized() returns (err: Option<Error>)
      modifies this
      ensures Took(Move(old(Snapshot()), Pending, Authorized), old(Snapshot()), Snapshot(), err)
    {
      if status != Pending {
        return Some(InvalidTransition);
      }
      status := Authorized;
      return None;
    }

    method Complete() returns (err: Option<Error>)
      modifies this
      ensures Took(Move(old(Snapshot()), Pending, Completed), old(Snapshot()), Snapshot(), err)
    {
      if status != Pending {
        return Some(InvalidTransition);
      }
      status := Completed;
      return None;
    }

    method Capture() returns (err: Option<Error>)
      modifies this
      ensures Took(Move(old(Snapshot()), Authorized, Completed), old(Snapshot()), Snapshot(), err)
    {
      if status != Authorized {
        return Some(InvalidTransition);
      }
      status := Completed;
      return None;
    }

    method Fail() returns (err: Option<Error>)
      modifies this
      ensures Took(Move(old(Snapshot()), Pending, Failed), old(Snapshot()), Snapshot(), err)
    {
      if status != Pending {
        return Some(InvalidTransition);
      }
      status := Failed;
      return None;
    }

    method Refund(amount: int64) returns (err: Option<Error>)
      modifies this
      ensures Took(Refunding(old(Snapshot()), amount), old(Snapshot()), Snapshot(), err)
    {
      if status != Completed && status != PartiallyRefunded {
        return Some(InvalidTransition);
      }
      if amount <= 0 {
        return Some(InvalidRefundAmount);
      }
      if amount > RefundableAmount() {
        return Some(RefundExceedsAmount);
      }
      refundedAmount := Wrap64(refundedAmount + amount);
      if refundedAmount == money.amount {
        status := Refunded;
      } else {
        status := PartiallyRefunded;
      }
      return None;
    }

    function RefundableAmount(): (amount: int64)
      reads this
      ensures amount == Refundable(Snapshot())
    {
      Wrap64(money.amount - refundedAmount)
    }
  }

  /** Builds and validates a pending payment; the identifier and the clock reading are inputs. */
  method NewPayment(req: Request, id: PaymentId, at: Time) returns (p: Payment?, err: Option<Error>)
    ensures match NewRow(req, id, at)
            case Ok(row) => err == None && p != null && fresh(p) && p.Snapshot() == row
            case Err(e) => err == Some(e) && p == null
  {
    var installments := req.installments;
    if installments == 0 {
      installments := 1;
    }
    var captureMethod := req.captureMethod;
    if captureMethod == Unset {
      captureMethod := Automatic;
    }
    if req.amount <= 0 {
      return null, Some(InvalidAmount);
    }
    if req.currency == "" {
      return null, Some(CurrencyRequired);
    }
    if installments < 1 || installments > MAX_INSTALLMENTS {
      return null, Some(InvalidInstallments);
    }
    if captureMethod != Automatic && captureMethod != Manual {
      return null, Some(InvalidCaptureMethod);
    }
    p := new Payment.FromRow(id, Money(req.amount, req.currency), Pending, captureMethod, installments, 0, at);
    return p, None;
  }
}
