/** What every step of the pipeline keeps, across crashes, redeliveries and concurrent consumers. */
module PipelineInv {
  import opened States
  import opened Saga
  import opened SagaInv
  import opened Pipeline

  // ---- rows and Kafka --------------------------------------------------------

  /** Rows line up with events; ids are unique and, per order, grow in commit order. */
  ghost predicate RowsOk(s: Pipe) {
    && |s.rows| == |s.db.outbox|
    && (forall i, j :: 0 <= i < j < |s.rows| ==> s.rows[i].id != s.rows[j].id)
    && (forall i, j :: 0 <= i < j < |s.rows| && s.db.outbox[i].order == s.db.outbox[j].order ==> s.rows[i].id < s.rows[j].id)
  }

  /** Every record comes from a row and sits on the row's partition. */
  ghost predicate LogOk(c: Config, s: Pipe) {
    forall p, q :: p in s.log && 0 <= q < |s.log[p]| ==> s.log[p][q] < |s.db.outbox| && PartOf(c, s.db.outbox[s.log[p][q]]) == p
  }

  ghost predicate Sent(c: Config, s: Pipe, i: nat)
    requires i < |s.db.outbox|
  {
    i in LogOf(s, PartOf(c, s.db.outbox[i]))
  }

  /** No row counts as published, or is deleted, before Kafka has it. */
  ghost predicate PublishedIsSent(c: Config, s: Pipe) {
    forall i :: 0 <= i < |s.rows| && i < |s.db.outbox| ==>
      (s.rows[i].deleted ==> s.rows[i].published) && (s.rows[i].published ==> Sent(c, s, i))
  }

  /** Rows i and j go to the same partition for the same order, and i has the smaller id. */
  ghost predicate Before(s: Pipe, i: nat, j: nat) {
    && i < |s.db.outbox| && j < |s.db.outbox| && |s.rows| == |s.db.outbox|
    && TopicOf(s.db.outbox[i]) == TopicOf(s.db.outbox[j]) && s.db.outbox[i].order == s.db.outbox[j].order
    && s.rows[i].id < s.rows[j].id
  }

  /** On each topic, an order's first occurrences come in id order without a gap. */
  ghost predicate InOrder(s: Pipe) {
    forall p, q, i: nat :: p in s.log && 0 <= q < |s.log[p]| && Before(s, i, s.log[p][q]) ==> i in s.log[p][..q]
  }

  /** A batch leaves nothing behind: what should go before one of its rows is already out or earlier in the batch. */
  ghost predicate RelayOk(c: Config, s: Pipe) {
    s.relay.Sending? ==>
      var batch := s.relay.batch;
      && (forall b :: 0 <= b < |batch| ==> batch[b] < |s.db.outbox|)
      && (forall b :: b in s.relay.sent ==> b < |batch| && Sent(c, s, batch[b]))
      && (forall b, i: nat :: 0 <= b < |batch| && Before(s, i, batch[b]) ==> s.rows[i].published || i in batch[..b])
  }

  // ---- consumers ---------------------------------------------------------------

  /** Group g has nothing left to do for this event. */
  ghost predicate Handled(db: DB, g: Group, e: Event) {
    && (g == TicketGroup && e.OrderPaid? ==> e.order in db.orders && db.orders[e.order].status == Ticketed)
    && (g == RefundGroup && e.RefundRequested? ==> e.txn in db.refunds && db.refunds[e.txn].status == Succeeded)
  }

  ghost predicate HandledAt(s: Pipe, g: Group, slot: Slot) {
    EventAt(s, slot).Some? ==> Handled(s.db, g, EventAt(s, slot).value)
  }

  /** Everything below a committed offset is handled. */
  ghost predicate OffsetsOk(s: Pipe) {
    && (forall g, p, k :: 0 <= k < Committed(s, g, p) ==> HandledAt(s, g, Slot(p, k)))
    && (forall g, p :: Committed(s, g, p) <= |LogOf(s, p)|)
  }

  ghost predicate MemberOk(s: Pipe, m: Member) {
    && m.pos <= |m.batch|
    && (forall b :: 0 <= b < m.pos ==> HandledAt(s, m.group, m.batch[b]))
    && (forall p, k :: p in m.ends && 0 <= k < m.ends[p] ==> HandledAt(s, m.group, Slot(p, k)) || Slot(p, k) in m.batch)
    && (forall b :: 0 <= b < |m.batch| ==> InLog(s, m.batch[b]))
    && (forall p :: p in m.ends ==> m.ends[p] <= |LogOf(s, p)|)
    && (m.asked ==> Current(s, m).Some? && Current(s, m).value.RefundRequested? && Current(s, m).value.txn in s.gateway)
  }

  ghost predicate MembersOk(s: Pipe) {
    forall mid :: mid in s.members ==> MemberOk(s, s.members[mid])
  }

  /** The gateway refunded what a refund row says, and has refunded everything that succeeded. */
  ghost predicate GatewayOk(s: Pipe) {
    && (forall t :: t in s.gateway ==> t in s.db.refunds && s.gateway[t] == s.db.refunds[t].amount)
    && (forall t :: t in s.db.refunds && s.db.refunds[t].status == Succeeded ==> t in s.gateway)
  }

  ghost predicate KafkaInv(c: Config, s: Pipe) {
    RowsOk(s) && LogOk(c, s) && PublishedIsSent(c, s) && InOrder(s) && RelayOk(c, s)
  }

  ghost predicate PipeInv(c: Config, s: Pipe) {
    Inv(s.db) && KafkaInv(c, s) && OffsetsOk(s) && MembersOk(s) && GatewayOk(s)
  }

  lemma StartInv(c: Config)
    ensures PipeInv(c, START)
  {
    EmptyInv();
  }

  // ---- what events say about the tables ----------------------------------------

  lemma {:induction false} AnnouncedInHistory(outbox: seq<Event>, e: Event)
    requires e in outbox && Announces(e).Some?
    ensures Announces(e).value in History(outbox, e.order)
  {
    var n := |outbox| - 1;
    assert outbox == outbox[..n] + [outbox[n]];
    if e in outbox[..n] {
      AnnouncedInHistory(outbox[..n], e);
    }
  }

  lemma {:induction false} HistoryWasAnnounced(outbox: seq<Event>, id: OrderId, s: Status) returns (e: Event)
    requires s in History(outbox, id)
    ensures e in outbox && e.order == id && Announces(e) == Some(s)
  {
    var n := |outbox| - 1;
    if outbox[n].order == id && Announces(outbox[n]) == Some(s) {
      e := outbox[n];
    } else {
      e := HistoryWasAnnounced(outbox[..n], id, s);
    }
  }

  /** An order.paid row names a sold order. */
  lemma PaidEventIsSold(db: DB, id: OrderId)
    requires Inv(db) && OrderPaid(id) in db.outbox
    ensures id in db.orders && Sold(db.orders[id].status)
  {
    AnnouncedInHistory(db.outbox, OrderPaid(id));
    assert Replays(db, id);
    HistoryMilestones(History(db.outbox, id));
  }

  /** A sold order has its order.paid row. */
  lemma SoldHasPaidEvent(db: DB, id: OrderId)
    requires Inv(db) && id in db.orders && Sold(db.orders[id].status)
    ensures OrderPaid(id) in db.outbox
  {
    assert Replays(db, id);
    HistoryMilestones(History(db.outbox, id));
    var e := HistoryWasAnnounced(db.outbox, id, Paid);
  }

  /** Handling order.paid leaves the order TICKETED, the first time and every time. */
  lemma IssueHandles(db: DB, id: OrderId)
    requires Inv(db) && id in db.orders && Sold(db.orders[id].status)
    ensures Issue(db, id).orders[id].status == Ticketed
  {
    if db.orders[id].status == Paid {
      assert GoodSeats(db.orders[id].event, db.orders[id].seats);
      assert HasTicket(db, id, db.orders[id].seats[0]);
    }
  }

  lemma RequestHasRefund(db: DB, e: Event)
    requires Inv(db) && e in db.outbox && e.RefundRequested?
    ensures e.txn in db.refunds && e.txn != "" && db.refunds[e.txn].amount > 0 && db.refunds[e.txn].order in db.orders
  {
  }

  // ---- handled stays handled ---------------------------------------------------

  /** Tables only move forward: TICKETED orders, completed refunds and outbox rows stay. */
  ghost predicate Forward(db: DB, d: DB) {
    && (forall id :: id in db.orders && db.orders[id].status == Ticketed ==> id in d.orders && d.orders[id].status == Ticketed)
    && (forall t :: t in db.refunds ==> t in d.refunds && d.refunds[t].amount == db.refunds[t].amount
                                        && (db.refunds[t].status == Succeeded ==> d.refunds[t].status == Succeeded))
    && db.outbox <= d.outbox
  }

  lemma {:induction false} ExpireForward(db: DB, due: seq<OrderId>, now: int)
    ensures Forward(db, Expire(db, due, now))
    ensures Expire(db, due, now).refunds == db.refunds
  {
    if due == [] {
    } else {
      ExpireForward(db, due[..|due| - 1], now);
    }
  }

  lemma PayForward(db: DB, p: Webhook, now: int, reply: HoldReply)
    requires PaymentsSound(db)
    ensures Forward(db, Pay(db, p, now, reply).db)
  {
    hide SeatsUnsold, PaymentsSound;
    if p.txn !in db.payments {
      NoRefundYet(db, p.txn);
    }
  }

  lemma CompleteForward(db: DB, t: Txn)
    ensures Forward(db, Complete(db, t))
  {
  }

  lemma IssueForward(db: DB, id: OrderId)
    ensures Forward(db, Issue(db, id)) && Issue(db, id).refunds == db.refunds
  {
  }

  /** Steps outside the consumers complete no refund. */
  lemma TransactForward(db: DB, step: Saga.Step)
    requires Inv(db) && !step.DoIssue? && !step.DoComplete?
    ensures Forward(db, Apply(db, step))
    ensures forall t :: t in Apply(db, step).refunds && Apply(db, step).refunds[t].status == Succeeded
                        ==> t in db.refunds && db.refunds[t].status == Succeeded
  {
    hide Inv, Pay;
    match step
    case DoExpire(due, now) => ExpireForward(db, due, now);
    case DoPay(p, at, reply) =>
      assert PaymentsSound(db) by { InvPayments(db); }
      PayForward(db, p, at, reply);
      PayCompletesNothing(db, p, at, reply);
    case _ =>
  }

  lemma InvPayments(db: DB)
    requires Inv(db)
    ensures PaymentsSound(db)
  {
  }

  lemma PayCompletesNothing(db: DB, p: Webhook, now: int, reply: HoldReply)
    ensures var d := Pay(db, p, now, reply).db;
      forall t :: t in d.refunds && d.refunds[t].status == Succeeded ==> t in db.refunds && db.refunds[t].status == Succeeded
  {
    hide SeatsUnsold;
  }

  lemma HandledStays(db: DB, d: DB, g: Group, e: Event)
    requires Forward(db, d) && Handled(db, g, e)
    ensures Handled(d, g, e)
  {
  }
}
