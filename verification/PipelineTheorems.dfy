/** What the pipeline promises: nothing published unseen, order per topic, and a clean end once it has drained. */
module PipelineTheorems {
  import opened States
  import opened Saga
  import opened SagaInv
  import opened Sums
  import opened Pipeline
  import opened PipelineInv
  import opened PipelineSteps

  /** Across crashes between produce and mark, a row is published or deleted only once Kafka has its record. */
  lemma NothingPublishedUnseen(c: Config, steps: seq<Pipeline.Step>, i: nat)
    requires i < |Pipeline.Run(c, steps).rows|
    ensures var s := Pipeline.Run(c, steps);
      && i < |s.db.outbox|
      && (s.rows[i].deleted ==> s.rows[i].published)
      && (s.rows[i].published ==> i in LogOf(s, PartOf(c, s.db.outbox[i])))
  {
    hide Inv, OffsetsOk, MembersOk, GatewayOk, LogOk, InOrder, RelayOk;
    PipelineSteps.RunKeeps(c, steps);
  }

  /** On each topic an order's records first appear in id order: before a row stands every earlier row of that order. */
  lemma FirstOccurrencesAreAPrefix(c: Config, steps: seq<Pipeline.Step>, p: Part, q: nat, i: nat)
    requires q < |LogOf(Pipeline.Run(c, steps), p)|
    requires Before(Pipeline.Run(c, steps), i, LogOf(Pipeline.Run(c, steps), p)[q])
    ensures i in LogOf(Pipeline.Run(c, steps), p)[..q]
  {
    hide Inv, OffsetsOk, MembersOk, GatewayOk, LogOk, PublishedIsSent, RelayOk;
    PipelineSteps.RunKeeps(c, steps);
  }

  /** Consumers never meet a record they would have to skip, nor a refund the gateway would refuse. */
  lemma NothingIsSkipped(c: Config, steps: seq<Pipeline.Step>, mid: nat)
    requires mid in Pipeline.Run(c, steps).members
    ensures var s := Pipeline.Run(c, steps); var m := s.members[mid];
      && !PermanentSkip(s, m)
      && (NeedsRefund(s, m) ==> GatewayAccepts(s, Current(s, m).value.txn))
  {
    hide Inv, OffsetsOk, MembersOk, GatewayOk, KafkaInv;
    PipelineSteps.RunKeeps(c, steps);
    var s := Pipeline.Run(c, steps);
    var e := Current(s, s.members[mid]);
    if e.Some? {
      CurrentIsOutbox(s, s.members[mid]);
      if e.value.OrderPaid? {
        PaidEventIsSold(s.db, e.value.order);
      } else if e.value.RefundRequested? {
        RequestHasRefund(s.db, e.value);
      }
    }
  }

  /** Both groups have committed everything Kafka holds of the topic they read. */
  ghost predicate AllRead(s: Pipe) {
    forall g, p: Part :: p.topic == OrdersTopic ==> Committed(s, g, p) == |LogOf(s, p)|
  }

  /** Every row is published and both groups have committed everything Kafka holds of the topic they read. */
  ghost predicate Drained(s: Pipe) {
    && (forall i :: 0 <= i < |s.rows| ==> s.rows[i].published)
    && AllRead(s)
  }

  lemma DrainedHandles(c: Config, s: Pipe, g: Group, i: nat)
    requires KafkaInv(c, s) && OffsetsOk(s) && Drained(s) && i < |s.db.outbox|
    ensures Handled(s.db, g, s.db.outbox[i])
  {
    hide LogOk, InOrder, RelayOk;
    assert s.rows[i].published;
    assert Sent(c, s, i);
    var p := PartOf(c, s.db.outbox[i]);
    if p.topic == OrdersTopic {
      var q :| 0 <= q < |LogOf(s, p)| && LogOf(s, p)[q] == i;
      assert q < Committed(s, g, p);
      assert HandledAt(s, g, Slot(p, q));
    }
  }

  lemma DrainedRefundsSucceeded(c: Config, s: Pipe, t: Txn)
    requires RefundEvents(s.db) && KafkaInv(c, s) && OffsetsOk(s) && Drained(s) && t in s.db.refunds
    ensures s.db.refunds[t].status == Succeeded
  {
    hide KafkaInv, OffsetsOk, Drained;
    var e := RequestOf(t, s.db.refunds[t]);
    assert e in multiset(s.db.outbox);
    var i :| 0 <= i < |s.db.outbox| && s.db.outbox[i] == e;
    DrainedHandles(c, s, RefundGroup, i);
  }

  lemma DrainedIsNotPaid(c: Config, s: Pipe, id: OrderId)
    requires Inv(s.db) && KafkaInv(c, s) && OffsetsOk(s) && Drained(s) && id in s.db.orders
    ensures s.db.orders[id].status != Paid
  {
    hide Inv, KafkaInv, OffsetsOk, Drained;
    if s.db.orders[id].status == Paid {
      SoldHasPaidEvent(s.db, id);
      var i :| 0 <= i < |s.db.outbox| && s.db.outbox[i] == OrderPaid(id);
      DrainedHandles(c, s, TicketGroup, i);
      assert false;
    }
  }

  lemma DrainedIsNotRefunding(s: Pipe, id: OrderId)
    requires UndoneOnce(s.db) && id in s.db.orders && forall t :: t in s.db.refunds ==> s.db.refunds[t].status == Succeeded
    ensures s.db.orders[id].status != Refunding
  {
  }

  lemma GatewayIsRefundable(s: Pipe)
    requires GatewayOk(s) && forall t :: t in s.db.refunds ==> s.db.refunds[t].status == Succeeded
    ensures Total(s.gateway) == Refundable(s.db)
  {
    assert s.gateway == map t | t in s.db.refunds :: s.db.refunds[t].amount;
  }

  /**
   Once the outbox is published and the consumers have caught up, under any crashes and redeliveries before that:
   nothing is left half done, and the gateway has given back exactly the money that bought no tickets.
   */
  lemma DrainedSystemIsSettled(c: Config, steps: seq<Pipeline.Step>)
    requires Drained(Pipeline.Run(c, steps))
    ensures var s := Pipeline.Run(c, steps);
      && (forall id :: id in s.db.orders ==> s.db.orders[id].status !in {Paid, Refunding})
      && (forall t :: t in s.db.refunds ==> s.db.refunds[t].status == Succeeded)
      && Total(s.gateway) == Received(s.db) - Revenue(s.db)
  {
    hide OrderClauses, TicketClauses, PaymentsSound, AppliedOnce, UndoneOnce, EventsReplay, RefundEvents;
    hide KafkaInv, OffsetsOk, MembersOk, GatewayOk, Drained, Received, Revenue, Refundable;
    PipelineSteps.RunKeeps(c, steps);
    var s := Pipeline.Run(c, steps);
    forall t | t in s.db.refunds
      ensures s.db.refunds[t].status == Succeeded
    {
      DrainedRefundsSucceeded(c, s, t);
    }
    forall id | id in s.db.orders
      ensures s.db.orders[id].status !in {Paid, Refunding}
    {
      DrainedIsNotPaid(c, s, id);
      DrainedIsNotRefunding(s, id);
    }
    GatewayIsRefundable(s);
  }
}
