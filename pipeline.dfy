/**
 * The settlement pipeline as a state machine: the payment table and the
 * processing queue, advanced one delivery at a time by the consumer loop with
 * the worker's handler. The worker's methods are proved to follow `Step` and
 * `Run`; the lemmas here are what the pipeline guarantees for every sequence of
 * deliveries.
 */
module Pipeline {
  import opened Wrappers
  import opened Models
  import opened Database
  import opened RabbitMQ

  /** What the database does while one delivery is handled, and the update time it would write. */
  datatype DeliveryEnv = DeliveryEnv(fault: TxFault, stamp: Timestamp)

  /** The shared state: the payment table and the messages ready on the queue. */
  datatype World = World(store: map<Uuid, Payment>, ready: seq<Publishing>)

  /** One delivery and how the consumer settled it with the broker. */
  datatype Settled = Settled(delivery: Publishing, disposition: Disposition)

  datatype StepResult = StepResult(next: World, settled: Settled)

  datatype RunResult = RunResult(final: World, log: seq<Settled>)

  /**
   * One pass of the consume loop: take the head delivery; if its body does not
   * decode, drop it and leave the table alone; otherwise settle the named payment
   * and acknowledge on success or requeue on error.
   */
  function Step(w: World, env: DeliveryEnv): StepResult
    requires w.ready != []
  {
    var d := w.ready[0];
    var decoded := Unmarshal(d.body);
    if decoded.None? then
      StepResult(World(w.store, AfterSettle(w.ready[1..], d, NackDrop)), Settled(d, NackDrop))
    else
      var s := Settle(w.store, decoded.value.paymentId, env.fault, env.stamp);
      var disposition := Dispose(decoded, s.result.Err?);
      StepResult(World(s.payments, AfterSettle(w.ready[1..], d, disposition)), Settled(d, disposition))
  }

  /** The consume loop over a sequence of deliveries; it stops early when the queue runs dry. */
  function Run(w: World, envs: seq<DeliveryEnv>): RunResult
    decreases |envs|
  {
    if envs == [] || w.ready == [] then RunResult(w, [])
    else
      var st := Step(w, envs[0]);
      var rest := Run(st.next, envs[1..]);
      RunResult(rest.final, [st.settled] + rest.log)
  }

  /**
   * Every delivery gets exactly one disposition: dropped exactly when its body
   * does not decode, and then the handler never ran and the table is untouched;
   * requeued exactly when the settle failed, and then the table is untouched;
   * acknowledged exactly when the settle succeeded, and then the named payment
   * exists and is no longer PENDING. The delivery is the head of the queue.
   */
  lemma StepDisposition(w: World, env: DeliveryEnv)
    requires w.ready != []
    ensures var st := Step(w, env);
      var decoded := Unmarshal(w.ready[0].body);
      && st.settled.delivery == w.ready[0]
      && (st.settled.disposition == NackDrop <==> decoded.None?)
      && (st.settled.disposition == NackDrop ==> st.next == World(w.store, w.ready[1..]))
      && (st.settled.disposition == NackRequeue <==>
            decoded.Some? && Settle(w.store, decoded.value.paymentId, env.fault, env.stamp).result.Err?)
      && (st.settled.disposition == NackRequeue ==> st.next == World(w.store, w.ready[1..] + [w.ready[0]]))
      && (st.settled.disposition == Ack ==>
            && decoded.Some?
            && decoded.value.paymentId in st.next.store
            && st.next.store[decoded.value.paymentId].status != Pending
            && st.next.ready == w.ready[1..])
  {
  }

  /** One pass of the loop is one step of the status machine for every payment. */
  lemma StepEvolves(w: World, env: DeliveryEnv)
    requires w.ready != []
    ensures Evolves(w.store, Step(w, env).next.store)
  {
    var decoded := Unmarshal(w.ready[0].body);
    if decoded.Some? {
      SettleEvolves(w.store, decoded.value.paymentId, env.fault, env.stamp);
    }
  }

  lemma EvolvesReflexive(s: map<Uuid, Payment>)
    ensures Evolves(s, s)
  {
  }

  /** A whole run of the loop is a run of the status machine. */
  lemma {:induction false} RunEvolves(w: World, envs: seq<DeliveryEnv>)
    ensures Evolves(w.store, Run(w, envs).final.store)
    decreases |envs|
  {
    if envs == [] || w.ready == [] {
      EvolvesReflexive(w.store);
    } else {
      var st := Step(w, envs[0]);
      StepEvolves(w, envs[0]);
      RunEvolves(st.next, envs[1..]);
      EvolvesTransitive(w.store, st.next.store, Run(st.next, envs[1..]).final.store);
    }
  }

  /** Running over `a` and then over `b` is running over `a + b`. */
  lemma {:induction false} RunAppend(w: World, a: seq<DeliveryEnv>, b: seq<DeliveryEnv>)
    ensures Run(w, a + b).final == Run(Run(w, a).final, b).final
    decreases |a|
  {
    if a == [] {
      assert a + b == b;
    } else if w.ready == [] {
      assert Run(w, a).final == w;
      if b != [] {
        assert Run(w, a + b).final == w;
      }
    } else {
      assert (a + b)[0] == a[0];
      assert (a + b)[1..] == a[1..] + b;
      RunAppend(Step(w, a[0]).next, a[1..], b);
    }
  }

  /**
   * For any sequence of deliveries, between any two moments of the loop each
   * payment keeps its identity and its status either stays or changes once, from
   * PENDING to SUCCESS; a status other than PENDING never changes.
   */
  lemma StatusChangesAtMostOnce(w: World, envs: seq<DeliveryEnv>, i: nat, j: nat)
    requires i <= j <= |envs|
    ensures Evolves(Run(w, envs[..i]).final.store, Run(w, envs[..j]).final.store)
  {
    assert envs[..j] == envs[..i] + envs[i..j];
    RunAppend(w, envs[..i], envs[i..j]);
    RunEvolves(Run(w, envs[..i]).final, envs[i..j]);
  }

  /** The deliveries that left the queue: acknowledged or dropped, not requeued. */
  function Removed(log: seq<Settled>): multiset<Publishing> {
    if log == [] then multiset{}
    else (if log[0].disposition == NackRequeue then multiset{} else multiset{log[0].delivery}) + Removed(log[1..])
  }

  /** Only what was acknowledged or dropped leaves the queue in one pass of the loop. */
  lemma StepConservesMessages(w: World, env: DeliveryEnv)
    requires w.ready != []
    ensures var st := Step(w, env);
      multiset(w.ready) == multiset(st.next.ready) + Removed([st.settled])
  {
    var st := Step(w, env);
    var d, rest := w.ready[0], w.ready[1..];
    assert w.ready == [d] + rest;
    assert Removed([st.settled]) == (if st.settled.disposition == NackRequeue then multiset{} else multiset{d}) + Removed([]);
    if st.settled.disposition == NackRequeue {
      assert st.next.ready == rest + [d];
    } else {
      assert st.next.ready == rest;
    }
  }

  lemma RemovedCons(s: Settled, log: seq<Settled>)
    ensures Removed([s] + log) == Removed([s]) + Removed(log)
  {
    assert ([s] + log)[1..] == log;
    assert [s][1..] == [];
  }

  /**
   * Manual acknowledgement loses nothing: every message that was on the queue is
   * either still on it or was acknowledged or dropped by the consumer.
   */
  lemma {:induction false} RunConservesMessages(w: World, envs: seq<DeliveryEnv>)
    ensures var r := Run(w, envs); multiset(w.ready) == multiset(r.final.ready) + Removed(r.log)
    decreases |envs|
  {
    if envs != [] && w.ready != [] {
      var st := Step(w, envs[0]);
      var tail := Run(st.next, envs[1..]);
      StepConservesMessages(w, envs[0]);
      RunConservesMessages(st.next, envs[1..]);
      RemovedCons(st.settled, tail.log);
      assert Run(w, envs) == RunResult(tail.final, [st.settled] + tail.log);
    }
  }

  /** An acknowledged delivery named a payment that exists in `store` and is not PENDING there. */
  ghost predicate AckSettled(s: Settled, store: map<Uuid, Payment>) {
    s.disposition == Ack ==>
      var decoded := Unmarshal(s.delivery.body);
      decoded.Some? && decoded.value.paymentId in store && store[decoded.value.paymentId].status != Pending
  }

  /** An acknowledgement stays true: a payment that left PENDING never returns to it. */
  lemma AckSettledPersists(s: Settled, before: map<Uuid, Payment>, after: map<Uuid, Payment>)
    requires AckSettled(s, before) && Evolves(before, after)
    ensures AckSettled(s, after)
  {
    if s.disposition == Ack {
      var id := Unmarshal(s.delivery.body).value.paymentId;
      assert id in before;
    }
  }

  /**
   * Every acknowledged delivery named an existing payment, and at the end of the
   * run that payment is not PENDING.
   */
  lemma {:induction false} RunAckedAreSettled(w: World, envs: seq<DeliveryEnv>)
    ensures var r := Run(w, envs);
      forall k :: 0 <= k < |r.log| ==> AckSettled(r.log[k], r.final.store)
    decreases |envs|
  {
    if envs != [] && w.ready != [] {
      var st := Step(w, envs[0]);
      var tail := Run(st.next, envs[1..]);
      RunAckedAreSettled(st.next, envs[1..]);
      assert var r2 := Run(st.next, envs[1..]); forall k :: 0 <= k < |r2.log| ==> AckSettled(r2.log[k], r2.final.store);
      assert forall j :: 0 <= j < |tail.log| ==> AckSettled(tail.log[j], tail.final.store);
      StepDisposition(w, envs[0]);
      RunEvolves(st.next, envs[1..]);
      AckSettledPersists(st.settled, st.next.store, tail.final.store);
      var r := Run(w, envs);
      assert r == RunResult(tail.final, [st.settled] + tail.log);
      forall k | 0 <= k < |r.log|
        ensures AckSettled(r.log[k], r.final.store)
      {
        if k > 0 {
          assert r.log[k] == tail.log[k - 1];
          assert AckSettled(tail.log[k - 1], tail.final.store);
        } else {
          assert r.log[0] == st.settled;
          assert AckSettled(st.settled, st.next.store);
        }
      }
    }
  }

  /**
   * Redelivery converges: when the only message on the queue names a PENDING
   * payment and the settle fails on its first `k` deliveries and succeeds on the
   * next, the message is requeued `k` times and then acknowledged, the queue is
   * empty, and the payment has been written SUCCESS exactly once.
   */
  lemma {:induction false} RedeliveryConverges(w: World, id: Uuid, envs: seq<DeliveryEnv>, k: nat)
    requires w.ready == [PaymentPublishing(id)]
    requires id in w.store && w.store[id].status == Pending
    requires |envs| == k + 1
    requires forall i :: 0 <= i < k ==> envs[i].fault != NoFault
    requires envs[k].fault == NoFault
    ensures var r := Run(w, envs);
      && r.final.ready == []
      && r.final.store == w.store[id := w.store[id].(status := Success, updatedAt := envs[k].stamp)]
      && |r.log| == k + 1
      && (forall i :: 0 <= i < k ==> r.log[i].disposition == NackRequeue)
      && r.log[k].disposition == Ack
    decreases k
  {
    var st := Step(w, envs[0]);
    if k == 0 {
      assert st.next.ready == [];
      assert Run(w, envs).log == [st.settled];
    } else {
      assert st.settled.disposition == NackRequeue;
      assert st.next == w;
      RedeliveryConverges(w, id, envs[1..], k - 1);
      var tail := Run(w, envs[1..]);
      assert Run(w, envs).log == [st.settled] + tail.log;
    }
  }

  /**
   * One pass moves every message behind the head one place forward, whatever
   * happens to the head: it is removed, and put back only at the end.
   */
  lemma StepAdvances(w: World, env: DeliveryEnv, p: nat)
    requires 0 < p < |w.ready|
    ensures var st := Step(w, env);
      && st.settled.delivery == w.ready[0]
      && p - 1 < |st.next.ready| && st.next.ready[p - 1] == w.ready[p]
  {
  }

  /**
   * The queue is first in, first out: the message at position `p` reaches the
   * head after exactly `p` deliveries, and those deliveries are the messages
   * ahead of it, in order, whether each is acknowledged, dropped or requeued.
   */
  lemma {:induction false} RunReachesPosition(w: World, envs: seq<DeliveryEnv>, p: nat)
    requires p < |w.ready| && |envs| == p
    ensures var r := Run(w, envs);
      && |r.log| == p
      && (forall i :: 0 <= i < p ==> r.log[i].delivery == w.ready[i])
      && r.final.ready != [] && r.final.ready[0] == w.ready[p]
    decreases p
  {
    if p > 0 {
      var st := Step(w, envs[0]);
      StepAdvances(w, envs[0], p);
      RunReachesPosition(st.next, envs[1..], p - 1);
      var tail := Run(st.next, envs[1..]);
      assert Run(w, envs).log == [st.settled] + tail.log;
      forall i | 1 <= i < p
        ensures Run(w, envs).log[i].delivery == w.ready[i]
      {
        assert tail.log[i - 1].delivery == st.next.ready[i - 1];
        StepAdvances(w, envs[0], i);
      }
    }
  }

  /**
   * A requeued message is redelivered on a shared queue: after a requeue it
   * comes back to the head once each of the other messages queued with it has
   * been delivered once, whatever their outcomes, so every failed settle is
   * followed by another attempt.
   */
  lemma RequeuedIsRedelivered(w: World, env: DeliveryEnv, envs: seq<DeliveryEnv>)
    requires w.ready != []
    requires Step(w, env).settled.disposition == NackRequeue
    requires |envs| == |w.ready| - 1
    ensures var r := Run(Step(w, env).next, envs);
      && |r.log| == |w.ready| - 1
      && (forall i :: 0 <= i < |r.log| ==> r.log[i].delivery == w.ready[i + 1])
      && r.final.ready != [] && r.final.ready[0] == w.ready[0]
  {
    var st := Step(w, env);
    assert st.next.ready == w.ready[1..] + [w.ready[0]];
    RunReachesPosition(st.next, envs, |w.ready| - 1);
  }

  /** On a queue of any length, a head message naming an absent payment is requeued and nothing else changes. */
  lemma AbsentHeadRequeued(w: World, id: Uuid, env: DeliveryEnv)
    requires w.ready != [] && w.ready[0] == PaymentPublishing(id)
    requires id !in w.store
    ensures var st := Step(w, env);
      && st.settled == Settled(w.ready[0], NackRequeue)
      && st.next == World(w.store, w.ready[1..] + [w.ready[0]])
  {
  }

  /** The consume loop never creates rows: a payment absent at the start is absent at the end. */
  lemma {:induction false} AbsentStaysAbsent(w: World, id: Uuid, envs: seq<DeliveryEnv>)
    requires id !in w.store
    ensures id !in Run(w, envs).final.store
    decreases |envs|
  {
    if envs != [] && w.ready != [] {
      var st := Step(w, envs[0]);
      var decoded := Unmarshal(w.ready[0].body);
      if decoded.Some? {
        SettleOnlyTouchesItsRow(w.store, decoded.value.paymentId, envs[0].fault, envs[0].stamp);
      }
      AbsentStaysAbsent(st.next, id, envs[1..]);
    }
  }

  /**
   * There is no retry limit: a message naming a payment that does not exist is
   * requeued on every delivery, forever, and nothing else happens.
   */
  lemma {:induction false} MissingPaymentRetriesForever(w: World, id: Uuid, envs: seq<DeliveryEnv>)
    requires w.ready == [PaymentPublishing(id)]
    requires id !in w.store
    ensures var r := Run(w, envs);
      && r.final == w
      && |r.log| == |envs|
      && forall i :: 0 <= i < |r.log| ==> r.log[i].disposition == NackRequeue
    decreases |envs|
  {
    if envs != [] {
      var st := Step(w, envs[0]);
      assert st.settled.disposition == NackRequeue && st.next == w;
      MissingPaymentRetriesForever(w, id, envs[1..]);
    }
  }
}
