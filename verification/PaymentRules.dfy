/**
 What a payment webhook does, rule by rule: each rule goes from facts about the tables before the call to the tables,
 the answer and the inventory work after it. Together the rules leave nothing open.
 */
module PaymentRules {
  import opened States
  import opened Saga

  // ---- facts before the call ----------------------------------------------------------

  predicate WellFormed(p: Webhook) {
    p.txn != "" && |p.txn| <= 128 && p.amount >= 0 && !(p.succeeded && p.amount == 0)
  }

  /** A webhook to be decided: well formed, for a known order, and seen for the first time. */
  predicate New(db: DB, p: Webhook) {
    WellFormed(p) && p.order in db.orders && p.txn !in db.payments
  }

  predicate OnTime(o: Order, now: int) {
    o.status == Held && now <= o.holdExpires
  }

  predicate Late(o: Order, now: int) {
    o.status == Expired || (o.status == Held && o.holdExpires < now)
  }

  /** Some seat of the order has a ticket already. */
  predicate SomeSeatSold(db: DB, o: Order) {
    exists t :: t in db.tickets && t.seat in o.seats
  }

  // ---- tables after the call --------------------------------------------------------------

  /** Only the payment row is new. */
  predicate PaymentAdded(db: DB, d: DB, p: Webhook, outcome: Outcome) {
    d.payments == db.payments[p.txn := Payment(p.order, p.amount, p.succeeded, outcome)]
  }

  predicate StatusSet(db: DB, d: DB, id: OrderId, s: Status) {
    id in db.orders && d.orders == db.orders[id := db.orders[id].(status := s)]
  }

  predicate MoneyIgnored(db: DB, x: Paying, p: Webhook) {
    && x.result == Recorded(IgnoredFailed) && !x.confirm && !x.release
    && PaymentAdded(db, x.db, p, IgnoredFailed) && x.db == db.(payments := x.db.payments)
  }

  predicate SeatsSold(db: DB, x: Paying, p: Webhook) {
    && x.result == Recorded(Applied) && x.confirm && !x.release
    && PaymentAdded(db, x.db, p, Applied)
    && StatusSet(db, x.db, p.order, Paid)
    && x.db.refunds == db.refunds
    && |x.db.tickets| == |db.tickets| + |db.orders[p.order].seats| && db.tickets <= x.db.tickets
    && (forall i :: |db.tickets| <= i < |x.db.tickets| ==>
          x.db.tickets[i] == Ticket(p.order, db.orders[p.order].seats[i - |db.tickets|], false))
    && x.db.outbox == db.outbox + [OrderPaid(p.order)]
  }

  /** The money goes back for this reason; the order moves to REFUNDING if it has to. */
  predicate MoneyReturned(db: DB, x: Paying, p: Webhook, reason: Reason, moves: bool, release: bool) {
    && x.result == Recorded(RefundRequired) && !x.confirm && x.release == release
    && PaymentAdded(db, x.db, p, RefundRequired)
    && (if moves then StatusSet(db, x.db, p.order, Refunding) else x.db.orders == db.orders)
    && x.db.refunds == db.refunds[p.txn := Refund(p.order, p.amount, reason, Pending)]
    && x.db.tickets == db.tickets
    && x.db.outbox == db.outbox + [RefundRequested(p.order, p.txn, p.amount, reason)]
  }

  predicate NothingChanged(db: DB, x: Paying, result: Result, confirm: bool) {
    x == Paying(db, result, confirm, false)
  }

  // ---- the rules -----------------------------------------------------------------------------

  /** Webhooks that decide nothing: malformed, for an unknown order, or seen before; a repeat confirms a sold order again. */
  predicate RefusalRules(db: DB, p: Webhook, x: Paying) {
    && (!WellFormed(p) ==> NothingChanged(db, x, Failed, false))
    && (WellFormed(p) && p.order !in db.orders ==> NothingChanged(db, x, UnknownOrder, false))
    && (WellFormed(p) && p.order in db.orders && p.txn in db.payments ==>
          NothingChanged(db, x, Duplicate, db.orders[p.order].status in {Paid, Ticketed}))
  }

  /** Money that cannot buy the order: it failed, came twice, is the wrong amount, or came after a cancel. */
  predicate RejectionRules(db: DB, p: Webhook, x: Paying) {
    New(db, p) ==>
      var o := db.orders[p.order];
      && (!p.succeeded ==> MoneyIgnored(db, x, p))
      && (p.succeeded && o.status in {Paid, Ticketed, Refunding, Refunded} ==> MoneyReturned(db, x, p, DoublePayment, false, false))
      && (p.succeeded && o.status in {Held, Expired, Cancelled} && p.amount != o.total ==>
            MoneyReturned(db, x, p, AmountMismatch, true, o.status == Held))
      && (p.succeeded && o.status == Cancelled && p.amount == o.total ==> MoneyReturned(db, x, p, PaidAfterCancel, true, false))
  }

  /** The right money for an open order: what a late payment hears from the inventory, and whether the seats are sold. */
  predicate SaleRules(db: DB, p: Webhook, now: int, reply: HoldReply, x: Paying) {
    New(db, p) && p.succeeded && p.amount == db.orders[p.order].total ==>
      var o := db.orders[p.order];
      && (Late(o, now) && reply == HoldFailed ==> NothingChanged(db, x, Failed, false))
      && (Late(o, now) && reply == HoldTaken ==> MoneyReturned(db, x, p, LatePaymentSeatTaken, true, false))
      && (OnTime(o, now) || (Late(o, now) && reply == HoldGranted) ==>
            if SomeSeatSold(db, o) then MoneyReturned(db, x, p, SeatConflict, true, true) else SeatsSold(db, x, p))
  }

  predicate Rules(db: DB, p: Webhook, now: int, reply: HoldReply, x: Paying) {
    RefusalRules(db, p, x) && RejectionRules(db, p, x) && SaleRules(db, p, now, reply, x)
  }

  // ---- they hold, and they say everything ---------------------------------------------------

  lemma UnsoldMeansNoTicket(db: DB, o: Order)
    ensures SeatsUnsold(db, o.seats) <==> !SomeSeatSold(db, o)
  {
    if !SomeSeatSold(db, o) {
      forall i, j | 0 <= i < |db.tickets| && 0 <= j < |o.seats| ensures db.tickets[i].seat != o.seats[j] {
        assert db.tickets[i] in db.tickets;
      }
    }
  }

  lemma RefusalsHold(db: DB, p: Webhook, now: int, reply: HoldReply)
    ensures RefusalRules(db, p, Pay(db, p, now, reply))
  {
    hide Saga.Decide;
  }

  lemma RejectionsHold(db: DB, p: Webhook, now: int, reply: HoldReply)
    ensures RejectionRules(db, p, Pay(db, p, now, reply))
  {
    hide SeatsUnsold;
  }

  lemma SalesHold(db: DB, p: Webhook, now: int, reply: HoldReply)
    ensures SaleRules(db, p, now, reply, Pay(db, p, now, reply))
  {
    if p.order in db.orders {
      UnsoldMeansNoTicket(db, db.orders[p.order]);
    }
    hide SeatsUnsold, SomeSeatSold;
  }

  /** Every webhook follows the rules, with any tables and any answer of the inventory. */
  lemma PaymentsFollowTheRules(db: DB, p: Webhook, now: int, reply: HoldReply)
    ensures Rules(db, p, now, reply, Pay(db, p, now, reply))
  {
    hide Pay, RefusalRules, RejectionRules, SaleRules;
    RefusalsHold(db, p, now, reply);
    RejectionsHold(db, p, now, reply);
    SalesHold(db, p, now, reply);
  }

  lemma SoldIsUnique(db: DB, p: Webhook, x: Paying, y: Paying)
    requires SeatsSold(db, x, p) && SeatsSold(db, y, p)
    ensures x == y
  {
    assert x.db.tickets == y.db.tickets;
  }

  /** The rules determine tables, answer and inventory work completely. */
  lemma RulesAreComplete(db: DB, p: Webhook, now: int, reply: HoldReply, x: Paying, y: Paying)
    requires Rules(db, p, now, reply, x) && Rules(db, p, now, reply, y)
    ensures x == y
  {
    hide SomeSeatSold;
    if SeatsSold(db, x, p) && SeatsSold(db, y, p) {
      SoldIsUnique(db, p, x, y);
    }
    hide SeatsSold;
  }
}
