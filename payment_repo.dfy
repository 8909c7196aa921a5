/**
 * The payment store: a keyed table of payment rows with insert, two lookups and
 * the transactional "settle once" transition that the worker drives.
 *
 * The database itself is not modelled; what it can do to an operation is an
 * input: a fault (with the driver's error text) or the identifier and instants it
 * assigns.
 */
module Database {
  import opened Wrappers
  import opened Models

  /** The repository operation whose failure an error reports. */
  datatype Operation = InsertPayment | SelectById | SelectByReference | BeginTx | SelectForProcessing | UpdateStatus | CommitTx

  /** "payment not found" when the query found no row; otherwise a wrapped driver error. */
  datatype StoreError = NotFound | DriverError(op: Operation, cause: string)

  const NotFoundText: string := "payment not found"

  function Context(op: Operation): string {
    match op
    case InsertPayment => "failed to create payment"
    case SelectById => "failed to get payment"
    case SelectByReference => "failed to get payment by reference"
    case BeginTx => "failed to begin transaction"
    case SelectForProcessing => "failed to get payment for processing"
    case UpdateStatus => "failed to update payment status"
    case CommitTx => "failed to commit transaction"
  }

  /** The text of an error, as `err.Error()` returns it. */
  function Message(e: StoreError): string {
    match e
    case NotFound => NotFoundText
    case DriverError(op, cause) => Context(op) + ": " + cause
  }

  /**
   * Callers recognise a missing row by comparing the error text with "payment not
   * found"; no wrapped driver error has that text, whatever its cause.
   */
  lemma NotFoundMessageIsUnique(e: StoreError)
    ensures Message(e) == NotFoundText <==> e == NotFound
  {
    if e.DriverError? {
      assert Message(e)[0] == 'f';
      assert NotFoundText[0] == 'p';
    }
  }

  /** What the database does to a settle transaction: nothing, or fail one of its four statements. */
  datatype TxFault = NoFault | BeginFails(cause: string) | SelectFails(cause: string) | UpdateFails(cause: string) | CommitFails(cause: string)

  /** The outcome of a settle call: what it returns and the table it leaves behind. */
  datatype Settlement = Settlement(result: Result<Payment, StoreError>, payments: map<Uuid, Payment>)

  /**
   * The settle transition. Begin a transaction, read the row; a missing row is
   * "payment not found"; a row that is not PENDING is returned as it is with no
   * write; a PENDING row is updated to SUCCESS and committed, and the returned
   * payment carries the new status with the other fields as read. Every error
   * after the transaction began rolls it back, so the table is as before.
   * `stamp` is the update time the database writes with the new status.
   */
  function Settle(payments: map<Uuid, Payment>, id: Uuid, fault: TxFault, stamp: Timestamp): Settlement {
    if fault.BeginFails? then Settlement(Err(DriverError(BeginTx, fault.cause)), payments)
    else if fault.SelectFails? then Settlement(Err(DriverError(SelectForProcessing, fault.cause)), payments)
    else if id !in payments then Settlement(Err(NotFound), payments)
    else
      var row := payments[id];
      if row.status != Pending then Settlement(Ok(row), payments)
      else if fault.UpdateFails? then Settlement(Err(DriverError(UpdateStatus, fault.cause)), payments)
      else if fault.CommitFails? then Settlement(Err(DriverError(CommitTx, fault.cause)), payments)
      else Settlement(Ok(row.(status := Success)), payments[id := row.(status := Success, updatedAt := stamp)])
  }

  /** The transaction reads the row: the begin and the select statements succeed. */
  predicate RowRead(fault: TxFault) {
    !fault.BeginFails? && !fault.SelectFails?
  }

  /** Settling an identifier with no row reports "payment not found" and writes nothing. */
  lemma SettleMissing(payments: map<Uuid, Payment>, id: Uuid, fault: TxFault, stamp: Timestamp)
    requires id !in payments && RowRead(fault)
    ensures Settle(payments, id, fault, stamp) == Settlement(Err(NotFound), payments)
  {
  }

  /** A row that is not PENDING (terminal or an unexpected text) is returned untouched and nothing is written. */
  lemma SettleNotPendingIsNoop(payments: map<Uuid, Payment>, id: Uuid, fault: TxFault, stamp: Timestamp)
    requires id in payments && payments[id].status != Pending && RowRead(fault)
    ensures Settle(payments, id, fault, stamp) == Settlement(Ok(payments[id]), payments)
  {
  }

  /**
   * A PENDING row settles to SUCCESS: the returned payment and the stored row have
   * status SUCCESS and the identifier, amount, currency, reference and creation
   * time they had.
   */
  lemma SettlePending(payments: map<Uuid, Payment>, id: Uuid, stamp: Timestamp)
    requires id in payments && payments[id].status == Pending
    ensures var s := Settle(payments, id, NoFault, stamp);
      && s.result.Ok?
      && s.result.value == payments[id].(status := Success)
      && id in s.payments
      && s.payments[id] == payments[id].(status := Success, updatedAt := stamp)
  {
  }

  /** Settle touches only the row keyed by its identifier and never adds or removes rows. */
  lemma SettleOnlyTouchesItsRow(payments: map<Uuid, Payment>, id: Uuid, fault: TxFault, stamp: Timestamp)
    ensures var s := Settle(payments, id, fault, stamp);
      && s.payments.Keys == payments.Keys
      && forall other :: other in payments && other != id ==> s.payments[other] == payments[other]
  {
  }

  /** A failed settle, at whatever statement, leaves the table as it was (the deferred rollback). */
  lemma SettleErrorRollsBack(payments: map<Uuid, Payment>, id: Uuid, fault: TxFault, stamp: Timestamp)
    ensures Settle(payments, id, fault, stamp).result.Err? ==> Settle(payments, id, fault, stamp).payments == payments
  {
  }

  /**
   * Settle is idempotent: after a successful settle, settling the same identifier
   * again, whatever the database does, writes nothing, and if it succeeds it
   * reports the same status.
   */
  lemma SettleIdempotent(payments: map<Uuid, Payment>, id: Uuid, fault1: TxFault, stamp1: Timestamp, fault2: TxFault, stamp2: Timestamp)
    requires Settle(payments, id, fault1, stamp1).result.Ok?
    ensures var s1 := Settle(payments, id, fault1, stamp1);
      var s2 := Settle(s1.payments, id, fault2, stamp2);
      && s2.payments == s1.payments
      && (s2.result.Ok? ==> s2.result.value.status == s1.result.value.status)
  {
  }

  /** Two rows are the same payment: every field but status and update time agrees. */
  predicate SameIdentity(p: Payment, q: Payment) {
    p.id == q.id && p.amount == q.amount && p.currency == q.currency
    && p.reference == q.reference && p.createdAt == q.createdAt
  }

  /** The status machine: a status either stays or moves from PENDING to SUCCESS. */
  predicate StatusStep(before: Status, after: Status) {
    before == after || (before == Pending && after == Success)
  }

  /**
   * `after` is a later state of the table `before`: no row disappears, no row
   * changes identity, and every status change is the single PENDING to SUCCESS
   * step, so a status other than PENDING never changes.
   */
  ghost predicate Evolves(before: map<Uuid, Payment>, after: map<Uuid, Payment>) {
    forall id :: id in before ==>
      id in after && SameIdentity(before[id], after[id]) && StatusStep(before[id].status, after[id].status)
  }

  /** A status, once it has left PENDING or is other than PENDING, stays: the relation composes. */
  lemma EvolvesTransitive(a: map<Uuid, Payment>, b: map<Uuid, Payment>, c: map<Uuid, Payment>)
    requires Evolves(a, b) && Evolves(b, c)
    ensures Evolves(a, c)
  {
    forall id | id in a
      ensures id in c && SameIdentity(a[id], c[id]) && StatusStep(a[id].status, c[id].status)
    {
      assert id in b;
    }
  }

  /** Terminal immutability: settle, whatever its outcome, is one step of the status machine. */
  lemma SettleEvolves(payments: map<Uuid, Payment>, id: Uuid, fault: TxFault, stamp: Timestamp)
    ensures Evolves(payments, Settle(payments, id, fault, stamp).payments)
  {
  }

  /** Inserting a row under a new identifier is a step of the status machine too: no existing row changes. */
  lemma InsertEvolves(payments: map<Uuid, Payment>, id: Uuid, row: Payment)
    requires id !in payments
    ensures Evolves(payments, payments[id := row])
  {
  }

  /** At least one row carries this reference. */
  predicate HasReference(payments: map<Uuid, Payment>, reference: string) {
    exists id :: id in payments && payments[id].reference == reference
  }

  /** The row the insert statement writes: PENDING, with the request's fields and the database's instant. */
  function NewRow(req: CreatePaymentRequest, id: Uuid, now: Timestamp): Payment {
    Payment(id, req.amount, req.currency, req.reference, Pending, now, now)
  }

  /** Every row is stored under its own identifier. */
  predicate KeyedById(payments: map<Uuid, Payment>) {
    forall id :: id in payments ==> payments[id].id == id
  }

  /** The payment table. */
  class PaymentRepository {
    var payments: map<Uuid, Payment>

    ghost predicate Valid()
      reads this
    {
      KeyedById(payments)
    }

    /** A repository over the table as it stands: rows persist across restarts. */
    constructor (rows: map<Uuid, Payment>)
      requires KeyedById(rows)
      ensures Valid() && payments == rows
    {
      payments := rows;
    }

    /**
     * Inserts a PENDING row with the request's amount, currency and reference and
     * returns it. `newId` and `now` are the identifier and instant the database
     * assigns; `fault` is a failure of the insert statement, and an identifier that
     * is already taken fails the insert too. The request is not validated here, and
     * the reference is not checked for duplicates here.
     */
    method CreatePayment(req: CreatePaymentRequest, newId: Uuid, now: Timestamp, fault: Option<string>)
      returns (r: Result<Payment, StoreError>)
      requires Valid()
      modifies this
      ensures Valid()
      ensures r.Ok? <==> fault.None? && newId !in old(payments)
      ensures r.Ok? ==> r.value == NewRow(req, newId, now) && payments == old(payments)[newId := r.value]
      ensures r.Err? ==> r.error.DriverError? && r.error.op == InsertPayment && payments == old(payments)
    {
      if fault.Some? {
        return Err(DriverError(InsertPayment, fault.value));
      }
      if newId in payments {
        return Err(DriverError(InsertPayment, "duplicate key value violates unique constraint"));
      }
      var row := NewRow(req, newId, now);
      payments := payments[newId := row];
      r := Ok(row);
    }

    /** Reads the row with this identifier; `fault` is a failure of the query other than "no rows". */
    function GetPaymentByID(id: Uuid, fault: Option<string>): (r: Result<Payment, StoreError>)
      reads this
      ensures r.Ok? <==> fault.None? && id in payments
      ensures r.Ok? ==> r.value == payments[id]
      ensures r == Err(NotFound) <==> fault.None? && id !in payments
      ensures fault.Some? ==> r == Err(DriverError(SelectById, fault.value))
    {
      if fault.Some? then Err(DriverError(SelectById, fault.value))
      else if id !in payments then Err(NotFound)
      else Ok(payments[id])
    }

    /**
     * Reads a row with this reference. The table is not assumed to hold references
     * uniquely; when several rows match, the query returns one of them.
     */
    method GetPaymentByReference(reference: string, fault: Option<string>) returns (r: Result<Payment, StoreError>)
      ensures r.Ok? <==> fault.None? && HasReference(payments, reference)
      ensures r.Ok? ==> r.value in payments.Values && r.value.reference == reference
      ensures r == Err(NotFound) <==> fault.None? && !HasReference(payments, reference)
      ensures fault.Some? ==> r == Err(DriverError(SelectByReference, fault.value))
    {
      if fault.Some? {
        return Err(DriverError(SelectByReference, fault.value));
      }
      if id :| id in payments && payments[id].reference == reference {
        return Ok(payments[id]);
      }
      return Err(NotFound);
    }

    /**
     * Settles one payment inside a transaction. The transaction's view of the table
     * is a working copy: the update writes to it, the commit publishes it, and every
     * error return drops it, which is what the deferred rollback does.
     */
    method ProcessPaymentIdempotent(paymentId: Uuid, fault: TxFault, stamp: Timestamp)
      returns (r: Result<Payment, StoreError>)
      requires Valid()
      modifies this
      ensures Valid()
      ensures Settlement(r, payments) == Settle(old(payments), paymentId, fault, stamp)
      ensures r.Err? ==> payments == old(payments)
      ensures r.Ok? ==> r.value.id == paymentId && paymentId in payments && payments[paymentId].status != Pending
    {
      if fault.BeginFails? {
        return Err(DriverError(BeginTx, fault.cause));
      }
      var tx := payments;
      if fault.SelectFails? {
        return Err(DriverError(SelectForProcessing, fault.cause));
      }
      if paymentId !in tx {
        return Err(NotFound);
      }
      var row := tx[paymentId];
      if row.status != Pending {
        return Ok(row);
      }
      var newStatus: Status := Success;
      if fault.UpdateFails? {
        return Err(DriverError(UpdateStatus, fault.cause));
      }
      tx := tx[paymentId := row.(status := newStatus, updatedAt := stamp)];
      if fault.CommitFails? {
        return Err(DriverError(CommitTx, fault.cause));
      }
      payments := tx;
      r := Ok(row.(status := newStatus));
    }
  }
}
