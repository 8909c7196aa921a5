/**
 * End-to-end runs of the gateway through the handler's, worker's and store's
 * contracts alone, with a fresh store and queue each time.
 */
module Scenarios {
  import opened Wrappers
  import opened Models
  import opened Database
  import opened RabbitMQ
  import opened Pipeline
  import opened Worker
  import opened Handlers

  /**
   * Creating a valid payment answers 201 with a PENDING payment and queues one
   * message; the worker's first delivery acknowledges it and the payment reads
   * back as SUCCESS.
   */
  method CreateThenSettle() returns (created: Response, settled: seq<Settled>, read: Response)
    ensures created == Response(StatusCreated, Created(CreatePaymentResponse(42, Pending)))
    ensures |settled| == 1 && settled[0].disposition == Ack
    ensures read.code == StatusOK && read.body.Found? && read.body.payment.status == Success
  {
    var repo := new PaymentRepository(map[]);
    var client := new Client([]);
    var handler := new PaymentHandler(repo, client);
    var worker := new PaymentWorker(repo, client);
    var req := CreatePaymentRequest(100.0, "USD", "order-42");
    ValidRequestRules(req);
    var logged;
    created, logged := handler.CreatePayment(Some(req), None, 42, 0, None, NoPublishFault);
    assert client.ready == [PaymentPublishing(42)];
    var err;
    err, settled := worker.Start(None, [DeliveryEnv(NoFault, 1)]);
    read := handler.GetPayment(Some(42), None);
  }

  /**
   * Creating two payments with the same reference: the first answers 201, the
   * second 409, and the table holds one row, with one message queued.
   */
  method DuplicateReferenceRejected() returns (first: Response, second: Response, rows: nat, queued: nat)
    ensures first.code == StatusCreated && second.code == StatusConflict
    ensures rows == 1 && queued == 1
  {
    var repo := new PaymentRepository(map[]);
    var client := new Client([]);
    var handler := new PaymentHandler(repo, client);
    var req := CreatePaymentRequest(100.0, "USD", "order-42");
    ValidRequestRules(req);
    var logged;
    first, logged := handler.CreatePayment(Some(req), None, 1, 0, None, NoPublishFault);
    assert repo.payments[1].reference == "order-42";
    second, logged := handler.CreatePayment(Some(req), None, 2, 5, None, NoPublishFault);
    rows := |repo.payments|;
    queued := |client.ready|;
  }

  /**
   * A message for a payment that does not exist yet is requeued; once the payment
   * is created (which queues a second message for it), the requeued message
   * settles it and the second one is acknowledged as a no-op.
   */
  method LateRowSettlesOnRedelivery() returns (early: seq<Settled>, late: seq<Settled>, status: Status)
    ensures |early| == 1 && early[0].disposition == NackRequeue
    ensures |late| == 2 && late[0].disposition == Ack && late[1].disposition == Ack
    ensures status == Success
  {
    var repo := new PaymentRepository(map[]);
    var client := new Client([]);
    var handler := new PaymentHandler(repo, client);
    var worker := new PaymentWorker(repo, client);
    var _ := client.PublishPaymentProcessing(7, NoPublishFault);
    var err;
    ghost var w0 := World(map[], [PaymentPublishing(7)]);
    assert Step(w0, DeliveryEnv(NoFault, 1)).next == w0;
    err, early := worker.Start(None, [DeliveryEnv(NoFault, 1)]);
    assert client.ready == [PaymentPublishing(7)] && repo.payments == map[];
    var req := CreatePaymentRequest(25.5, "ETB", "invoice-7");
    ValidRequestRules(req);
    var created, logged := handler.CreatePayment(Some(req), None, 7, 2, None, NoPublishFault);
    ghost var row := NewRow(req, 7, 2);
    assert client.ready == [PaymentPublishing(7), PaymentPublishing(7)];
    assert repo.payments == map[7 := row];
    ghost var w1 := World(map[7 := row], [PaymentPublishing(7), PaymentPublishing(7)]);
    ghost var w2 := World(map[7 := row.(status := Success, updatedAt := 3)], [PaymentPublishing(7)]);
    assert Step(w1, DeliveryEnv(NoFault, 3)) == StepResult(w2, Settled(PaymentPublishing(7), Ack));
    assert Step(w2, DeliveryEnv(NoFault, 4)).settled.disposition == Ack;
    err, late := worker.Start(None, [DeliveryEnv(NoFault, 3), DeliveryEnv(NoFault, 4)]);
    status := repo.payments[7].status;
  }
}
