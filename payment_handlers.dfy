/**
 * The HTTP ingress for payments: creating a payment (bind, validate, reference
 * pre-check, insert, best-effort publish) and reading one back. Binding the
 * request body and parsing the path identifier are library work; their outcomes
 * are inputs.
 */
module Handlers {
  import opened Wrappers
  import opened Models
  import opened Database
  import opened RabbitMQ

  const StatusOK: int := 200
  const StatusCreated: int := 201
  const StatusBadRequest: int := 400
  const StatusNotFound: int := 404
  const StatusConflict: int := 409
  const StatusInternalServerError: int := 500

  /** The JSON bodies the handlers answer with. */
  datatype ResponseBody =
    | ErrorBody(error: string)
    | ValidationErrorBody(error: string, details: seq<Field>)
    | Created(created: CreatePaymentResponse)
    | Found(payment: GetPaymentResponse)

  datatype Response = Response(code: int, body: ResponseBody)

  class PaymentHandler {
    const repo: PaymentRepository
    const client: Client

    constructor (repo: PaymentRepository, client: Client)
      ensures this.repo == repo && this.client == client
    {
      this.repo := repo;
      this.client := client;
    }

    /**
     * POST /payments. `bound` is the request body if it binds; `lookupFault`,
     * `insertFault` and `publishFault` are failures of the reference lookup, the
     * insert and the publish; `newId` and `now` are what the database assigns to a
     * new row. `logged` is the publish error the handler only logs.
     *
     * A body that does not bind or fails validation is a 400; a reference that the
     * lookup finds is a 409; a lookup error of any kind falls through to the
     * insert; an insert error is a 500. None of these writes a row or publishes.
     * After an insert exactly one publish is attempted, for the new payment, and
     * whether or not it succeeds the answer is 201 with the new identifier and
     * PENDING.
     */
    method CreatePayment(
      bound: Option<CreatePaymentRequest>,
      lookupFault: Option<string>,
      newId: Uuid,
      now: Timestamp,
      insertFault: Option<string>,
      publishFault: PublishFault)
      returns (resp: Response, logged: Option<PublishError>)
      requires repo.Valid()
      modifies repo, client
      ensures repo.Valid()
      ensures bound.None? ==>
        resp == Response(StatusBadRequest, ErrorBody("Invalid request body")) && repo.payments == old(repo.payments) && unchanged(client)
      ensures bound.Some? && !ValidRequest(bound.value) ==>
        && resp == Response(StatusBadRequest, ValidationErrorBody("Validation failed", FieldErrors(bound.value)))
        && repo.payments == old(repo.payments) && unchanged(client)
      ensures bound.Some? && ValidRequest(bound.value) && lookupFault.None? && HasReference(old(repo.payments), bound.value.reference) ==>
        && resp == Response(StatusConflict, ErrorBody("Payment with this reference already exists"))
        && repo.payments == old(repo.payments) && unchanged(client)
      ensures resp.code == StatusInternalServerError <==>
        && bound.Some? && ValidRequest(bound.value)
        && !(lookupFault.None? && HasReference(old(repo.payments), bound.value.reference))
        && (insertFault.Some? || newId in old(repo.payments))
      ensures resp.code == StatusInternalServerError ==>
        resp.body == ErrorBody("Failed to create payment") && repo.payments == old(repo.payments) && unchanged(client)
      ensures resp.code == StatusCreated <==>
        && bound.Some? && ValidRequest(bound.value)
        && !(lookupFault.None? && HasReference(old(repo.payments), bound.value.reference))
        && insertFault.None? && newId !in old(repo.payments)
      ensures resp.code == StatusCreated ==>
        && resp.body == Created(CreatePaymentResponse(newId, Pending))
        && repo.payments == old(repo.payments)[newId := NewRow(bound.value, newId, now)]
        && client.inFlight == old(client.inFlight)
        && client.ready == old(client.ready) + (if publishFault == NoPublishFault then [PaymentPublishing(newId)] else [])
        && (logged.Some? <==> publishFault != NoPublishFault)
      ensures resp.code != StatusCreated ==> logged.None?
    {
      logged := None;
      if bound.None? {
        return Response(StatusBadRequest, ErrorBody("Invalid request body")), None;
      }
      var req := bound.value;
      var errs := FieldErrors(req);
      if errs != [] {
        return Response(StatusBadRequest, ValidationErrorBody("Validation failed", errs)), None;
      }
      var existing := repo.GetPaymentByReference(req.reference, lookupFault);
      if existing.Ok? {
        return Response(StatusConflict, ErrorBody("Payment with this reference already exists")), None;
      }
      var payment := repo.CreatePayment(req, newId, now, insertFault);
      if payment.Err? {
        return Response(StatusInternalServerError, ErrorBody("Failed to create payment")), None;
      }
      logged := client.PublishPaymentProcessing(payment.value.id, publishFault);
      resp := Response(StatusCreated, Created(ToCreateResponse(payment.value)));
    }

    /**
     * GET /payments/{id}. `parsed` is the path identifier if it parses; `fault` is
     * a failure of the query other than "no rows". A malformed identifier is a 400,
     * "payment not found" a 404, any other error a 500, and a found payment a 200
     * with every stored field except the update time. Nothing is written.
     */
    function GetPayment(parsed: Option<Uuid>, fault: Option<string>): (resp: Response)
      reads repo
      ensures resp.code == StatusBadRequest <==> parsed.None?
      ensures resp.code == StatusNotFound <==> parsed.Some? && fault.None? && parsed.value !in repo.payments
      ensures resp.code == StatusInternalServerError <==> parsed.Some? && fault.Some?
      ensures resp.code == StatusOK <==> parsed.Some? && fault.None? && parsed.value in repo.payments
      ensures resp.code == StatusOK ==> resp.body == Found(ToGetResponse(repo.payments[parsed.value]))
    {
      if parsed.None? then Response(StatusBadRequest, ErrorBody("Invalid payment ID format"))
      else
        match repo.GetPaymentByID(parsed.value, fault)
        case Err(e) =>
          NotFoundMessageIsUnique(e);
          if Message(e) == NotFoundText then Response(StatusNotFound, ErrorBody("Payment not found"))
          else Response(StatusInternalServerError, ErrorBody("Failed to retrieve payment"))
        case Ok(p) => Response(StatusOK, Found(ToGetResponse(p)))
    }
  }
}
