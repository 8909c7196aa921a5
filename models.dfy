/**
 * The payment gateway's data model: the payment record, its status values, the
 * creation request and its validation rules, the two response projections and
 * the processing message that travels over the queue.
 */
module Models {

  /** A payment identifier, a 128-bit UUID. The model compares identifiers and never computes with them. */
  newtype Uuid = x: int | 0 <= x < 0x1_0000_0000_0000_0000_0000_0000_0000_0000

  /** A monetary amount (a float64 in the service); only its sign is ever inspected. */
  type Amount = real

  /** An instant as the database records it; only copied, never compared or computed with. */
  type Timestamp = int

  /**
   * The status column. The service converts the stored text to its string-based
   * status type without checking it, so besides the three named statuses a row may
   * carry any other text; `Unrecognized` keeps that text verbatim.
   */
  datatype PaymentStatus = Pending | Success | Failed | Unrecognized(raw: string)

  const PendingText: string := "PENDING"
  const SuccessText: string := "SUCCESS"
  const FailedText: string := "FAILED"

  /** An unrecognized status never spells one of the three named ones. */
  predicate Canonical(s: PaymentStatus) {
    s.Unrecognized? ==> s.raw != PendingText && s.raw != SuccessText && s.raw != FailedText
  }

  type Status = s: PaymentStatus | Canonical(s) witness Pending

  /** The text stored in the status column for a status. */
  function Encode(s: Status): string {
    match s
    case Pending => PendingText
    case Success => SuccessText
    case Failed => FailedText
    case Unrecognized(raw) => raw
  }

  /** Reads the status column: every text is some status, and encoding it gives the text back. */
  function Parse(raw: string): (s: Status)
    ensures Encode(s) == raw
    ensures s.Unrecognized? <==> raw != PendingText && raw != SuccessText && raw != FailedText
  {
    if raw == PendingText then Pending
    else if raw == SuccessText then Success
    else if raw == FailedText then Failed
    else Unrecognized(raw)
  }

  /** The three named statuses have three distinct encodings, and parsing inverts encoding. */
  lemma ParseEncode(s: Status)
    ensures Parse(Encode(s)) == s
    ensures Encode(s) == PendingText <==> s == Pending
    ensures Encode(s) == SuccessText <==> s == Success
    ensures Encode(s) == FailedText <==> s == Failed
  {
  }

  /** A stored payment row. */
  datatype Payment = Payment(
    id: Uuid,
    amount: Amount,
    currency: string,
    reference: string,
    status: Status,
    createdAt: Timestamp,
    updatedAt: Timestamp)

  /** The body of a creation request. */
  datatype CreatePaymentRequest = CreatePaymentRequest(amount: Amount, currency: string, reference: string)

  /** The validated fields of a creation request, in declaration order. */
  datatype Field = AmountField | CurrencyField | ReferenceField

  const MaxReferenceLength: nat := 255

  /** The rule attached to each field: `required,gt=0`, `required,oneof=ETB USD`, `required,max=255`. */
  predicate FieldHolds(req: CreatePaymentRequest, f: Field) {
    match f
    case AmountField => req.amount > 0.0
    case CurrencyField => req.currency == "ETB" || req.currency == "USD"
    case ReferenceField => req.reference != [] && |req.reference| <= MaxReferenceLength
  }

  /** The fields whose rule fails, each once, in declaration order, as the validator reports them. */
  function FieldErrors(req: CreatePaymentRequest): (errs: seq<Field>)
    ensures forall f :: f in errs <==> !FieldHolds(req, f)
    ensures forall i, j :: 0 <= i < j < |errs| ==> FieldRank(errs[i]) < FieldRank(errs[j])
  {
    (if FieldHolds(req, AmountField) then [] else [AmountField])
    + (if FieldHolds(req, CurrencyField) then [] else [CurrencyField])
    + (if FieldHolds(req, ReferenceField) then [] else [ReferenceField])
  }

  function FieldRank(f: Field): nat {
    match f
    case AmountField => 0
    case CurrencyField => 1
    case ReferenceField => 2
  }

  predicate ValidRequest(req: CreatePaymentRequest) {
    FieldErrors(req) == []
  }

  /**
   * A request passes validation exactly when its amount is positive, its currency
   * is ETB or USD and nothing else, and its reference is non-empty and at most 255
   * characters long.
   */
  lemma ValidRequestRules(req: CreatePaymentRequest)
    ensures ValidRequest(req) <==>
      && req.amount > 0.0
      && (req.currency == "ETB" || req.currency == "USD")
      && 0 < |req.reference| <= 255
  {
    if ValidRequest(req) {
      assert FieldHolds(req, AmountField) && FieldHolds(req, CurrencyField) && FieldHolds(req, ReferenceField);
    }
  }

  /** The response to a successful creation: identifier and status only. */
  datatype CreatePaymentResponse = CreatePaymentResponse(id: Uuid, status: Status)

  /** The response to a successful lookup: the record without its update time. */
  datatype GetPaymentResponse = GetPaymentResponse(
    id: Uuid,
    amount: Amount,
    currency: string,
    reference: string,
    status: Status,
    createdAt: Timestamp)

  function ToCreateResponse(p: Payment): CreatePaymentResponse {
    CreatePaymentResponse(p.id, p.status)
  }

  function ToGetResponse(p: Payment): GetPaymentResponse {
    GetPaymentResponse(p.id, p.amount, p.currency, p.reference, p.status, p.createdAt)
  }

  /**
   * The creation response tells two payments apart only by identifier and status;
   * the read response tells them apart by every field except the update time.
   */
  lemma ResponsesProject(p: Payment, q: Payment)
    ensures ToCreateResponse(p) == ToCreateResponse(q) <==> p.id == q.id && p.status == q.status
    ensures ToGetResponse(p) == ToGetResponse(q) <==> p.(updatedAt := q.updatedAt) == q
  {
  }

  /** The instruction put on the queue: the payment identifier and nothing else. */
  datatype ProcessPaymentMessage = ProcessPaymentMessage(paymentId: Uuid)
}
