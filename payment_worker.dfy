/**
 * The payment worker: the handler that settles the payment a message names, and
 * the consume loop it is registered with. The worker holds only the store and
 * the queue client; nothing survives from one delivery to the next.
 */
module Worker {
  import opened Wrappers
  import opened Models
  import opened Database
  import opened RabbitMQ
  import opened Pipeline

  class PaymentWorker {
    const repo: PaymentRepository
    const client: Client

    constructor (repo: PaymentRepository, client: Client)
      ensures this.repo == repo && this.client == client
    {
      this.repo := repo;
      this.client := client;
    }

    /**
     * The handler: settles exactly the payment the message names. A settle error
     * is passed back unchanged, and any success, the no-op on a payment that is no
     * longer PENDING included, returns no error.
     */
    method ProcessPayment(message: ProcessPaymentMessage, env: DeliveryEnv) returns (err: Option<StoreError>)
      requires repo.Valid()
      modifies repo
      ensures repo.Valid()
      ensures var s := Settle(old(repo.payments), message.paymentId, env.fault, env.stamp);
        && repo.payments == s.payments
        && (err.None? <==> s.result.Ok?)
        && (err.Some? ==> err.value == s.result.error)
      ensures err.None? ==> message.paymentId in repo.payments && repo.payments[message.paymentId].status != Pending
    {
      var r := repo.ProcessPaymentIdempotent(message.paymentId, env.fault, env.stamp);
      if r.Err? {
        return Some(r.error);
      }
      err := None;
    }

    /**
     * One pass of the consume loop: receive the head delivery, drop it if its body
     * does not decode, otherwise run the handler and requeue on error or
     * acknowledge on success. The delivery is settled exactly once: it is held
     * unacknowledged from receipt until that single Ack or Nack.
     */
    method HandleDelivery(env: DeliveryEnv) returns (settled: Settled)
      requires repo.Valid() && client.ready != [] && client.inFlight == None
      modifies repo, client
      ensures repo.Valid() && client.inFlight == None
      ensures var st := Step(World(old(repo.payments), old(client.ready)), env);
        World(repo.payments, client.ready) == st.next && settled == st.settled
    {
      var d := client.Next();
      var decoded := Unmarshal(d.body);
      if decoded.None? {
        client.Nack(false);
        return Settled(d, NackDrop);
      }
      var err := ProcessPayment(decoded.value, env);
      if err.Some? {
        client.Nack(true);
        return Settled(d, NackRequeue);
      }
      client.Ack();
      settled := Settled(d, Ack);
    }

    /**
     * Registers the handler with the consumer and runs the consume loop, one
     * delivery per element of `envs`, while messages are ready. A failure to
     * register the consumer is returned and nothing is consumed.
     */
    method Start(registerFault: Option<string>, envs: seq<DeliveryEnv>) returns (err: Option<string>, log: seq<Settled>)
      requires repo.Valid() && client.inFlight == None
      modifies repo, client
      ensures repo.Valid() && client.inFlight == None
      ensures registerFault.Some? ==>
        && err == Some("failed to register consumer: " + registerFault.value)
        && log == [] && repo.payments == old(repo.payments) && client.ready == old(client.ready)
      ensures registerFault.None? ==>
        var r := Run(World(old(repo.payments), old(client.ready)), envs);
        && err.None? && World(repo.payments, client.ready) == r.final && log == r.log
    {
      if registerFault.Some? {
        return Some("failed to register consumer: " + registerFault.value), [];
      }
      ghost var w0 := World(repo.payments, client.ready);
      err, log := None, [];
      var i := 0;
      while i < |envs| && client.ready != []
        invariant 0 <= i <= |envs|
        invariant repo.Valid() && client.inFlight == None
        invariant Run(w0, envs).final == Run(World(repo.payments, client.ready), envs[i..]).final
        invariant Run(w0, envs).log == log + Run(World(repo.payments, client.ready), envs[i..]).log
        decreases |envs| - i
      {
        var settled := HandleDelivery(envs[i]);
        assert envs[i..][1..] == envs[i + 1..];
        log := log + [settled];
        i := i + 1;
      }
    }
  }
}
