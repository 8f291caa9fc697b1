/**
 * The PostgreSQL repository as in-memory tables. Each table is a sequence of
 * rows in insertion order; each method has the row-level effect of its SQL
 * statement. `uuid.New()` and `time.Now()` are parameters, and so is whether
 * the database accepts the statement (`succeeds`).
 */
module Repository {
  import opened Wrappers
  import opened Models

  /** The errors the repository returns. */
  datatype RepoError =
    | PaymentNotFound(orderID: string)   // "payment not found for order_id: ..."
    | RefundNotFound(refundID: string)   // "refund not found for refund_id: ..."
    | DatabaseError                      // any error the driver reports

  /** The tables this model keeps. */
  datatype Tables = Tables(
    payments: seq<Payment>,
    refunds: seq<Refund>,
    splitSettlements: seq<SplitSettlement>,
    webhooks: seq<Webhook>)

  /** The values the payment UPDATE writes (its SET clause, `updated_at` aside). */
  datatype PaymentStatusColumns = PaymentStatusColumns(
    status: string,
    cfPaymentID: Option<string>,
    paymentMethod: Option<string>,
    paymentTime: Option<Time>)

  /** The values the refund UPDATE writes (its SET clause, `updated_at` aside). */
  datatype RefundStatusColumns = RefundStatusColumns(
    status: string,
    processedAt: Option<Time>)

  /** One payment row after the UPDATE: the five SET columns overwritten. */
  function WithPaymentStatus(p: Payment, cols: PaymentStatusColumns, now: Time): Payment {
    p.(status := cols.status, cfPaymentID := cols.cfPaymentID, paymentMethod := cols.paymentMethod,
       paymentTime := cols.paymentTime, updatedAt := now)
  }

  /** One refund row after the UPDATE: the three SET columns overwritten. */
  function WithRefundStatus(r: Refund, cols: RefundStatusColumns, now: Time): Refund {
    r.(status := cols.status, processedAt := cols.processedAt, updatedAt := now)
  }

  /** `UPDATE payments SET ... WHERE order_id = $6` over the whole table. */
  function UpdatePaymentRows(ps: seq<Payment>, orderID: string, cols: PaymentStatusColumns, now: Time): (r: seq<Payment>)
    ensures |r| == |ps|
    ensures forall i :: 0 <= i < |ps| && ps[i].orderID == orderID ==> r[i] == WithPaymentStatus(ps[i], cols, now)
    ensures forall i :: 0 <= i < |ps| && ps[i].orderID != orderID ==> r[i] == ps[i]
  {
    if ps == [] then []
    else [if ps[0].orderID == orderID then WithPaymentStatus(ps[0], cols, now) else ps[0]]
         + UpdatePaymentRows(ps[1..], orderID, cols, now)
  }

  /** `UPDATE refunds SET ... WHERE refund_id = $4` over the whole table. */
  function UpdateRefundRows(rs: seq<Refund>, refundID: string, cols: RefundStatusColumns, now: Time): (r: seq<Refund>)
    ensures |r| == |rs|
    ensures forall i :: 0 <= i < |rs| && rs[i].refundID == refundID ==> r[i] == WithRefundStatus(rs[i], cols, now)
    ensures forall i :: 0 <= i < |rs| && rs[i].refundID != refundID ==> r[i] == rs[i]
  {
    if rs == [] then []
    else [if rs[0].refundID == refundID then WithRefundStatus(rs[0], cols, now) else rs[0]]
         + UpdateRefundRows(rs[1..], refundID, cols, now)
  }

  /** The columns the payment UPDATE leaves alone are equal in `a` and `b`. */
  predicate SamePaymentIdentity(a: Payment, b: Payment) {
    && a.id == b.id && a.orderID == b.orderID && a.cfOrderID == b.cfOrderID
    && a.amount == b.amount && a.currency == b.currency
    && a.customerID == b.customerID && a.customerName == b.customerName
    && a.customerEmail == b.customerEmail && a.customerPhone == b.customerPhone
    && a.description == b.description && a.paymentURL == b.paymentURL
    && a.createdAt == b.createdAt
  }

  /**
   * The payment UPDATE touches only the matching rows, and on them only the
   * SET columns; a table with no matching row is left as it was.
   */
  lemma UpdatePaymentRowsFrame(ps: seq<Payment>, orderID: string, cols: PaymentStatusColumns, now: Time)
    ensures forall i :: 0 <= i < |ps| ==> SamePaymentIdentity(ps[i], UpdatePaymentRows(ps, orderID, cols, now)[i])
    ensures forall i :: 0 <= i < |ps| && ps[i].orderID == orderID ==>
      var p := UpdatePaymentRows(ps, orderID, cols, now)[i];
      p.status == cols.status && p.cfPaymentID == cols.cfPaymentID && p.paymentMethod == cols.paymentMethod
      && p.paymentTime == cols.paymentTime && p.updatedAt == now
    ensures (forall i :: 0 <= i < |ps| ==> ps[i].orderID != orderID) ==> UpdatePaymentRows(ps, orderID, cols, now) == ps
  {
  }

  /**
   * Applying the same payment UPDATE twice leaves the table as applying it
   * once at the later time: a redelivered event converges to one end state.
   */
  lemma UpdatePaymentRowsIdempotent(ps: seq<Payment>, orderID: string, cols: PaymentStatusColumns, t1: Time, t2: Time)
    ensures UpdatePaymentRows(UpdatePaymentRows(ps, orderID, cols, t1), orderID, cols, t2)
         == UpdatePaymentRows(ps, orderID, cols, t2)
  {
  }

  /** The refund UPDATE touches only `status`, `processed_at` and `updated_at` of matching rows. */
  lemma UpdateRefundRowsFrame(rs: seq<Refund>, refundID: string, cols: RefundStatusColumns, now: Time)
    ensures forall i :: 0 <= i < |rs| ==>
      var r := UpdateRefundRows(rs, refundID, cols, now)[i];
      r == rs[i].(status := r.status, processedAt := r.processedAt, updatedAt := r.updatedAt)
    ensures (forall i :: 0 <= i < |rs| ==> rs[i].refundID != refundID) ==> UpdateRefundRows(rs, refundID, cols, now) == rs
  {
  }

  /** Applying the same refund UPDATE twice leaves the table as applying it once at the later time. */
  lemma UpdateRefundRowsIdempotent(rs: seq<Refund>, refundID: string, cols: RefundStatusColumns, t1: Time, t2: Time)
    ensures UpdateRefundRows(UpdateRefundRows(rs, refundID, cols, t1), refundID, cols, t2)
         == UpdateRefundRows(rs, refundID, cols, t2)
  {
  }

  /**
   * The payment row the INSERT writes: every field of the record except the
   * three columns its column list leaves out (payment method, gateway payment
   * id, payment time), which are NULL.
   */
  function InsertedPaymentRow(p: Payment): (row: Payment)
    ensures row.paymentMethod.None? && row.cfPaymentID.None? && row.paymentTime.None?
    ensures SamePaymentIdentity(row, p) && row.status == p.status && row.updatedAt == p.updatedAt
    ensures row == p <==> p.paymentMethod.None? && p.cfPaymentID.None? && p.paymentTime.None?
  {
    p.(paymentMethod := None, cfPaymentID := None, paymentTime := None)
  }

  /** A record as `Create*` leaves it: a fresh id and the shared creation time. */
  function StampSplit(s: SplitSettlement, id: Uuid, now: Time): SplitSettlement {
    s.(id := id, createdAt := now, updatedAt := now)
  }

  /** When the split-settlement transaction goes wrong, if at all. */
  datatype TxFault =
    | NoFault
    | BeginFails             // `db.Begin` returns an error
    | InsertFails(index: nat) // the INSERT of split `index` returns an error
    | CommitFails            // `tx.Commit` returns an error

  /** The transaction does not commit `n` inserts under `fault`. */
  predicate Aborts(fault: TxFault, n: nat) {
    fault.BeginFails? || fault.CommitFails? || (fault.InsertFails? && fault.index < n)
  }

  /** How many of `n` records get an id and timestamps before the transaction stops. */
  function StampedCount(fault: TxFault, n: nat): (k: nat)
    ensures k <= n
    ensures !Aborts(fault, n) ==> k == n
  {
    match fault
    case BeginFails => 0
    case InsertFails(i) => if i < n then i + 1 else n
    case _ => n
  }

  class PaymentRepository {
    var payments: seq<Payment>
    var refunds: seq<Refund>
    var splitSettlements: seq<SplitSettlement>
    var webhooks: seq<Webhook>

    /** A repository over a database that may already hold rows. */
    constructor (initial: Tables)
      ensures Snapshot() == initial
    {
      payments, refunds := initial.payments, initial.refunds;
      splitSettlements, webhooks := initial.splitSettlements, initial.webhooks;
    }

    /** All tables at once. */
    function Snapshot(): Tables
      reads this
    {
      Tables(payments, refunds, splitSettlements, webhooks)
    }

    /**
     * Gives the record a fresh id and one timestamp for created_at and
     * updated_at (on the caller's record, whatever happens next), then inserts
     * the columns the INSERT lists.
     */
    method CreatePayment(payment: Payment, id: Uuid, now: Time, succeeds: bool) returns (stored: Payment, err: Option<RepoError>)
      modifies this`payments
      ensures stored == payment.(id := id, createdAt := now, updatedAt := now)
      ensures stored.createdAt == stored.updatedAt
      ensures err.None? <==> succeeds
      ensures payments == old(payments) + (if succeeds then [InsertedPaymentRow(stored)] else [])
    {
      stored := payment.(id := id, createdAt := now, updatedAt := now);
      if succeeds {
        payments := payments + [InsertedPaymentRow(stored)];
        err := None;
      } else {
        err := Some(DatabaseError);
      }
    }

    /** The first payment row with this order id, or a not-found error. */
    method GetPaymentByOrderID(orderID: string, succeeds: bool) returns (r: Result<Payment, RepoError>)
      ensures !succeeds ==> r == Failure(DatabaseError)
      ensures succeeds ==> (r.Failure? <==> forall i :: 0 <= i < |payments| ==> payments[i].orderID != orderID)
      ensures succeeds && r.Failure? ==> r.error == PaymentNotFound(orderID)
      ensures r.Success? ==>
        exists i :: 0 <= i < |payments| && payments[i] == r.value && payments[i].orderID == orderID
                    && forall j :: 0 <= j < i ==> payments[j].orderID != orderID
    {
      if !succeeds {
        return Failure(DatabaseError);
      }
      var i := 0;
      while i < |payments|
        invariant 0 <= i <= |payments|
        invariant forall j :: 0 <= j < i ==> payments[j].orderID != orderID
      {
        if payments[i].orderID == orderID {
          return Success(payments[i]);
        }
        i := i + 1;
      }
      r := Failure(PaymentNotFound(orderID));
    }

    /**
     * Overwrites status, cf_payment_id, payment_method, payment_time and
     * updated_at on every row with this order id. The number of rows affected
     * is discarded: no match is not an error.
     */
    method UpdatePaymentStatus(orderID: string, status: string, cfPaymentID: Option<string>,
                               paymentMethod: Option<string>, paymentTime: Option<Time>,
                               now: Time, succeeds: bool) returns (err: Option<RepoError>)
      modifies this`payments
      ensures err.None? <==> succeeds
      ensures payments == if succeeds
        then UpdatePaymentRows(old(payments), orderID, PaymentStatusColumns(status, cfPaymentID, paymentMethod, paymentTime), now)
        else old(payments)
    {
      if succeeds {
        payments := UpdatePaymentRows(payments, orderID, PaymentStatusColumns(status, cfPaymentID, paymentMethod, paymentTime), now);
        err := None;
      } else {
        err := Some(DatabaseError);
      }
    }

    /** Overwrites status, processed_at and updated_at on every row with this refund id. */
    method UpdateRefundStatus(refundID: string, status: string, processedAt: Option<Time>,
                              now: Time, succeeds: bool) returns (err: Option<RepoError>)
      modifies this`refunds
      ensures err.None? <==> succeeds
      ensures refunds == if succeeds
        then UpdateRefundRows(old(refunds), refundID, RefundStatusColumns(status, processedAt), now)
        else old(refunds)
    {
      if succeeds {
        refunds := UpdateRefundRows(refunds, refundID, RefundStatusColumns(status, processedAt), now);
        err := None;
      } else {
        err := Some(DatabaseError);
      }
    }

    /** The first refund row with this refund id, or a not-found error. */
    method GetRefundByID(refundID: string, succeeds: bool) returns (r: Result<Refund, RepoError>)
      ensures !succeeds ==> r == Failure(DatabaseError)
      ensures succeeds ==> (r.Failure? <==> forall i :: 0 <= i < |refunds| ==> refunds[i].refundID != refundID)
      ensures succeeds && r.Failure? ==> r.error == RefundNotFound(refundID)
      ensures r.Success? ==>
        exists i :: 0 <= i < |refunds| && refunds[i] == r.value && refunds[i].refundID == refundID
                    && forall j :: 0 <= j < i ==> refunds[j].refundID != refundID
    {
      if !succeeds {
        return Failure(DatabaseError);
      }
      var i := 0;
      while i < |refunds|
        invariant 0 <= i <= |refunds|
        invariant forall j :: 0 <= j < i ==> refunds[j].refundID != refundID
      {
        if refunds[i].refundID == refundID {
          return Success(refunds[i]);
        }
        i := i + 1;
      }
      r := Failure(RefundNotFound(refundID));
    }

    /**
     * Inserts every split inside one transaction, all with the same
     * timestamp. Each record gets its id and timestamps in place before its
     * INSERT; the first failure returns before the commit, and the deferred
     * rollback leaves the table as it was.
     */
    method CreateSplitSettlement(splits: array<SplitSettlement>, ids: seq<Uuid>, now: Time, fault: TxFault)
      returns (err: Option<RepoError>)
      requires |ids| == splits.Length
      modifies this`splitSettlements, splits
      ensures err.None? <==> !Aborts(fault, splits.Length)
      ensures splitSettlements == if err.None? then old(splitSettlements) + splits[..] else old(splitSettlements)
      ensures forall i :: 0 <= i < splits.Length ==>
        splits[i] == if i < StampedCount(fault, splits.Length) then StampSplit(old(splits[i]), ids[i], now) else old(splits[i])
    {
      if fault.BeginFails? {
        return Some(DatabaseError);
      }
      var inserted: seq<SplitSettlement> := [];
      for i := 0 to splits.Length
        invariant inserted == splits[..i]
        invariant fault.InsertFails? ==> i <= fault.index
        invariant forall j :: 0 <= j < i ==> splits[j] == StampSplit(old(splits[j]), ids[j], now)
        invariant forall j :: i <= j < splits.Length ==> splits[j] == old(splits[j])
        invariant splitSettlements == old(splitSettlements)
      {
        splits[i] := StampSplit(splits[i], ids[i], now);
        if fault == InsertFails(i) {
          return Some(DatabaseError);
        }
        inserted := inserted + [splits[i]];
      }
      if fault.CommitFails? {
        return Some(DatabaseError);
      }
      splitSettlements := splitSettlements + inserted;
      err := None;
    }

    /** Gives the log record a fresh id and creation time, then appends it. */
    method CreateWebhookLog(webhook: Webhook, id: Uuid, now: Time, succeeds: bool) returns (logged: Webhook, err: Option<RepoError>)
      modifies this`webhooks
      ensures logged == webhook.(id := id, createdAt := now)
      ensures err.None? <==> succeeds
      ensures webhooks == old(webhooks) + (if succeeds then [logged] else [])
    {
      logged := webhook.(id := id, createdAt := now);
      if succeeds {
        webhooks := webhooks + [logged];
        err := None;
      } else {
        err := Some(DatabaseError);
      }
    }
  }
}
