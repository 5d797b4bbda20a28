/** The saga's transactions in the form the services run them: methods that update tables in place. */
module Store {
  import opened States
  import opened Saga
  import opened SagaInv
  import opened Sums
  import PaymentRules

  const EXPIRY_BATCH := 500

  datatype InsertResult = Inserted | KeyConflict | HeldConflict
  datatype CancelResult = CancelDone | AlreadyCancelled | OrderNotFound | NotCancellable(status: Status)
  datatype IssueResult = Issued(status: Status) | UnknownPaid | NoTickets
  datatype RefundResult = RefundDone | RefundNotFound | GatewayError

  function PriceSum(prices: map<Seat, int>, seats: seq<Seat>): int
    requires forall s :: s in seats ==> s in prices
  {
    if seats == [] then 0 else PriceSum(prices, seats[..|seats| - 1]) + prices[seats[|seats| - 1]]
  }

  /** Each seat is charged once, in whatever order the seats are named. */
  lemma {:induction false} PriceSumIsTotal(prices: map<Seat, int>, seats: seq<Seat>)
    requires Distinct(seats) && forall s :: s in seats ==> s in prices
    ensures PriceSum(prices, seats) == Total(map s | s in seats :: prices[s])
  {
    hide Total;
    var all := map s | s in seats :: prices[s];
    if seats == [] {
      NothingTotal(all);
    } else {
      var n := |seats| - 1;
      PriceSumIsTotal(prices, seats[..n]);
      OneMorePrice(prices, seats, n);
    }
  }

  lemma NothingTotal(m: map<Seat, int>)
    requires m.Keys == {}
    ensures Total(m) == 0
  {
    assert m == map[];
  }

  lemma OneMorePrice(prices: map<Seat, int>, seats: seq<Seat>, n: nat)
    requires n == |seats| - 1 && Distinct(seats) && forall s :: s in seats ==> s in prices
    ensures Total(map s | s in seats :: prices[s]) == Total(map s | s in seats[..n] :: prices[s]) + prices[seats[n]]
  {
    hide Total;
    var init := map s | s in seats[..n] :: prices[s];
    assert seats == seats[..n] + [seats[n]];
    assert seats[n] !in seats[..n];
    assert (map s | s in seats :: prices[s]) == init[seats[n] := prices[seats[n]]];
    TotalUpdate(init, seats[n], prices[seats[n]]);
  }

  /**
   The rows ExpireDueOrders picks: due orders that nobody has locked, oldest deadline first, at most one batch of them;
   one that is left out is younger than all of them and finds the batch full.
   */
  predicate DueBatch(db: DB, locked: set<OrderId>, due: seq<OrderId>, now: int) {
    && |due| <= EXPIRY_BATCH && Distinct(due)
    && (forall i :: 0 <= i < |due| ==> Due(db, due[i], now) && due[i] !in locked)
    && (forall i, j :: 0 <= i < j < |due| ==> db.orders[due[i]].holdExpires <= db.orders[due[j]].holdExpires)
    && (forall id :: id in db.orders && Due(db, id, now) && id !in locked && id !in due ==> LeftBehind(db, due, id))
  }

  predicate LeftBehind(db: DB, due: seq<OrderId>, id: OrderId) {
    && |due| == EXPIRY_BATCH && id in db.orders
    && forall i :: 0 <= i < |due| && due[i] in db.orders ==> db.orders[due[i]].holdExpires <= db.orders[id].holdExpires
  }

  /** Whatever differs was HELD past its deadline, not locked, and is EXPIRED now. */
  predicate OnlyOverdueMoved(was: DB, d: DB, locked: set<OrderId>, now: int) {
    && d.orders.Keys == was.orders.Keys
    && forall id :: id in was.orders && d.orders[id] != was.orders[id] ==>
         && was.orders[id].status == Held && was.orders[id].holdExpires < now && id !in locked
         && d.orders[id] == was.orders[id].(status := Expired)
  }

  /** An unlocked HELD order past its deadline is EXPIRED now, or found a full batch of older ones. */
  predicate OverdueMovedOrLeft(was: DB, d: DB, locked: set<OrderId>, batch: seq<OrderId>, now: int) {
    forall id :: id in was.orders && was.orders[id].status == Held && was.orders[id].holdExpires < now && id !in locked ==>
      || (id in d.orders && d.orders[id].status == Expired)
      || (|batch| == EXPIRY_BATCH
          && forall i :: 0 <= i < |batch| ==> batch[i] in was.orders && was.orders[batch[i]].holdExpires <= was.orders[id].holdExpires)
  }

  /** A batch of due rows expires what is overdue and nothing else. */
  lemma BatchIsRight(db: DB, locked: set<OrderId>, due: seq<OrderId>, now: int)
    requires DueBatch(db, locked, due, now)
    ensures OnlyOverdueMoved(db, Expire(db, due, now), locked, now)
    ensures OverdueMovedOrLeft(db, Expire(db, due, now), locked, due, now)
  {
    hide Expire;
    ExpireBatchShape(db, due, now);
  }

  function ExpiredEvents(due: seq<OrderId>): (r: seq<Event>)
    ensures |r| == |due| && forall i :: 0 <= i < |r| ==> r[i] == OrderExpired(due[i])
  {
    seq(|due|, i requires 0 <= i < |due| => OrderExpired(due[i]))
  }

  lemma {:induction false} ExpireBatchOrders(db: DB, due: seq<OrderId>, now: int)
    requires Distinct(due) && forall i :: 0 <= i < |due| ==> Due(db, due[i], now)
    ensures var d := Expire(db, due, now);
      && d.orders.Keys == db.orders.Keys
      && forall id :: id in db.orders ==>
           d.orders[id] == if id in due then db.orders[id].(status := Expired) else db.orders[id]
  {
    if due == [] {
    } else {
      var n := |due| - 1;
      ExpireBatchOrders(db, due[..n], now);
      assert due == due[..n] + [due[n]];
      assert due[n] !in due[..n];
    }
  }

  lemma {:induction false} ExpireBatchRows(db: DB, due: seq<OrderId>, now: int)
    requires Distinct(due) && forall i :: 0 <= i < |due| ==> Due(db, due[i], now)
    ensures var d := Expire(db, due, now);
      && d.payments == db.payments && d.refunds == db.refunds && d.tickets == db.tickets
      && d.outbox == db.outbox + ExpiredEvents(due)
  {
    if due == [] {
    } else {
      var n := |due| - 1;
      ExpireBatchRows(db, due[..n], now);
      ExpireBatchOrders(db, due[..n], now);
      assert due[n] !in due[..n];
      assert ExpiredEvents(due) == ExpiredEvents(due[..n]) + [OrderExpired(due[n])];
    }
  }

  /** Expiring a batch touches nothing but the statuses of its orders and the outbox. */
  lemma ExpireBatchShape(db: DB, due: seq<OrderId>, now: int)
    requires Distinct(due) && forall i :: 0 <= i < |due| ==> Due(db, due[i], now)
    ensures var d := Expire(db, due, now);
      && d.payments == db.payments && d.refunds == db.refunds && d.tickets == db.tickets
      && d.outbox == db.outbox + ExpiredEvents(due)
      && d.orders.Keys == db.orders.Keys
      && forall id :: id in db.orders ==>
           d.orders[id] == if id in due then db.orders[id].(status := Expired) else db.orders[id]
  {
    hide Expire;
    ExpireBatchOrders(db, due, now);
    ExpireBatchRows(db, due, now);
  }

  lemma SeatsAreGood(db: DB, id: OrderId)
    requires Inv(db) && id in db.orders
    ensures GoodSeats(db.orders[id].event, db.orders[id].seats)
  {
  }

  lemma PaidHasTickets(db: DB, id: OrderId)
    requires Inv(db) && id in db.orders && Sold(db.orders[id].status)
    ensures exists i :: 0 <= i < |db.tickets| && db.tickets[i].order == id
  {
    SeatsAreGood(db, id);
    assert HasTicket(db, id, db.orders[id].seats[0]);
  }

  /** A refund names a real transaction, a real order and real money, so the gateway takes it. */
  lemma RefundIsBacked(db: DB, txn: Txn)
    requires Inv(db) && txn in db.refunds
    ensures txn != "" && db.refunds[txn].amount > 0 && db.refunds[txn].order in db.orders
  {
  }

  /** Deciding and writing do not look at the payments table, so the row may be there already. */
  lemma PaymentsApart(db: DB, payments: map<Txn, Payment>, p: Webhook, now: int, reply: HoldReply)
    requires p.order in db.orders
    ensures var d := db.(payments := payments);
      && Saga.Decide(d, d.orders[p.order], p, now, reply) == Saga.Decide(db, db.orders[p.order], p, now, reply)
      && SaleRows(db, p).payments == db.payments && SaleRows(d, p) == SaleRows(db, p).(payments := payments)
      && forall reason, to ::
           RefundRows(db, p, reason, to).payments == db.payments && RefundRows(d, p, reason, to) == RefundRows(db, p, reason, to).(payments := payments)
  {
    assert SeatsUnsold(db.(payments := payments), db.orders[p.order].seats) <==> SeatsUnsold(db, db.orders[p.order].seats);
  }

  /** The payment gateway's refund side. */
  class Gateway {
    var refunds: map<Txn, int>

    constructor ()
      ensures refunds == map[]
    {
      refunds := map[];
    }

    /** handleRefund: refuses what has no transaction id, no order or no money, and refunds each transaction once. */
    method HandleRefund(txn: Txn, order: Option<OrderId>, amount: int) returns (ok: bool)
      modifies this
      ensures ok <==> txn != "" && order.Some? && amount > 0
      ensures refunds == if ok && txn !in old(refunds) then old(refunds)[txn := amount] else old(refunds)
    {
      if txn == "" || order.None? || amount <= 0 {
        return false;
      }
      if txn !in refunds {
        refunds := refunds[txn := amount];
      }
      return true;
    }
  }

  class Store {
    var orders: map<OrderId, Order>
    var payments: map<Txn, Payment>
    var refunds: map<Txn, Refund>
    var tickets: seq<Ticket>
    var outbox: seq<Event>

    function State(): DB
      reads this
    {
      DB(orders, payments, refunds, tickets, outbox)
    }

    ghost predicate Valid()
      reads this
    {
      Inv(State())
    }

    constructor ()
      ensures State() == EMPTY && Valid()
    {
      orders, payments, refunds, tickets, outbox := map[], map[], map[], [], [];
      new;
      EmptyInv();
    }

    // ---- create, cancel, expire ------------------------------------------

    /** insertHeld: the total is the sum of the seat prices, and the row commits unless a constraint refuses it. */
    method InsertHeld(id: OrderId, event: int, user: int, seats: seq<Seat>, prices: map<Seat, int>,
                      key: string, hash: string, now: int, holdTTL: int)
      returns (r: InsertResult)
      requires Valid()
      requires id !in orders && GoodSeats(event, seats) && forall s :: s in seats ==> s in prices
      modifies this
      ensures Valid()
      ensures var o := Order(event, user, Held, Total(map s | s in seats :: prices[s]), key, hash, now + holdTTL, seats);
        && State() == Place(old(State()), id, o)
        && (r == Inserted <==> CanPlace(old(State()), id, o))
      ensures r == KeyConflict ==> KeyTaken(State(), user, key) && State() == old(State())
      ensures r == HeldConflict ==> HasHeld(State(), event, user) && State() == old(State())
    {
      var total := 0;
      for i := 0 to |seats|
        invariant total == PriceSum(prices, seats[..i])
      {
        assert seats[..i + 1][..i] == seats[..i];
        total := total + prices[seats[i]];
      }
      assert seats[..|seats|] == seats;
      PriceSumIsTotal(prices, seats);
      ghost var o := Order(event, user, Held, total, key, hash, now + holdTTL, seats);
      PlaceKeeps(State(), id, o);
      if KeyTaken(State(), user, key) {
        return KeyConflict;
      }
      if HasHeld(State(), event, user) {
        return HeldConflict;
      }
      orders := orders[id := Order(event, user, Held, total, key, hash, now + holdTTL, seats)];
      outbox := outbox + [OrderHeld(id)];
      return Inserted;
    }

    /** transition: the conditional update behind every status change. */
    method Transition(id: OrderId, from: Status, to: Status) returns (ok: bool)
      modifies this`orders
      ensures ok <==> CanTransition(from, to) && id in old(orders) && old(orders)[id].status == from
      ensures State() == if ok then Move(old(State()), id, to) else old(State())
    {
      if !CanTransition(from, to) || id !in orders || orders[id].status != from {
        return false;
      }
      orders := orders[id := orders[id].(status := to)];
      return true;
    }

    method Cancel(user: int, id: OrderId) returns (r: CancelResult, release: bool)
      requires Valid()
      modifies this
      ensures Valid()
      ensures State() == Saga.Cancel(old(State()), user, id)
      ensures release <==> r == CancelDone
      ensures r == CancelDone <==> CanCancel(old(State()), user, id)
      ensures r == OrderNotFound <==> id !in orders || orders[id].user != user
      ensures r.NotCancellable? ==> id in orders && r.status == orders[id].status && r.status !in {Held, Cancelled}
      ensures r == AlreadyCancelled <==> id in old(orders) && old(orders)[id].user == user && old(orders)[id].status == Cancelled
      ensures id in old(orders) && old(orders)[id].user == user && old(orders)[id].status == Held ==>
        r == CancelDone && orders[id].status == Cancelled && outbox == old(outbox) + [OrderCancelled(id)]
      ensures r != CancelDone ==> State() == old(State())
    {
      hide Inv;
      CancelKeeps(State(), user, id);
      if id !in orders || orders[id].user != user {
        return OrderNotFound, false;
      }
      match orders[id].status
      case Cancelled => return AlreadyCancelled, false;
      case Held =>
        var ok := Transition(id, Held, Cancelled);
        outbox := outbox + [OrderCancelled(id)];
        return CancelDone, true;
      case _ => return NotCancellable(orders[id].status), false;
    }

    method MarkExpired(due: seq<OrderId>) returns (expired: seq<OrderId>)
      requires forall i :: 0 <= i < |due| ==> due[i] in orders
      modifies this`orders
      ensures expired == due
      ensures orders.Keys == old(orders).Keys
      ensures forall id :: id in orders ==>
        orders[id] == if id in due then old(orders)[id].(status := Expired) else old(orders)[id]
    {
      expired := [];
      for i := 0 to |due|
        invariant expired == due[..i] && orders.Keys == old(orders).Keys
        invariant forall id :: id in orders ==>
          orders[id] == if id in due[..i] then old(orders)[id].(status := Expired) else old(orders)[id]
      {
        assert due[..i + 1] == due[..i] + [due[i]];
        orders := orders[due[i] := orders[due[i]].(status := Expired)];
        expired := expired + [due[i]];
      }
      assert due[..|due|] == due;
    }

    method WriteExpired(expired: seq<OrderId>)
      modifies this`outbox
      ensures outbox == old(outbox) + ExpiredEvents(expired)
    {
      for i := 0 to |expired|
        invariant outbox == old(outbox) + ExpiredEvents(expired[..i])
      {
        assert ExpiredEvents(expired[..i + 1]) == ExpiredEvents(expired[..i]) + [OrderExpired(expired[i])];
        outbox := outbox + [OrderExpired(expired[i])];
      }
      assert expired[..|expired|] == expired;
    }

    /** The transaction of Expirer.RunOnce: move the batch, then write one event for each order of it. */
    method ExpireDue(locked: set<OrderId>, due: seq<OrderId>, now: int) returns (expired: seq<OrderId>)
      requires Valid() && DueBatch(State(), locked, due, now)
      modifies this`orders, this`outbox
      ensures State() == Expire(old(State()), due, now)
      ensures Valid()
      ensures expired == due
      ensures OnlyOverdueMoved(old(State()), State(), locked, now)
      ensures OverdueMovedOrLeft(old(State()), State(), locked, expired, now)
    {
      hide Inv;
      ExpireKeeps(State(), due, now);
      ExpireBatchShape(State(), due, now);
      BatchIsRight(State(), locked, due, now);
      hide OnlyOverdueMoved, OverdueMovedOrLeft, DueBatch, Expire;
      expired := MarkExpired(due);
      assert orders == Expire(old(State()), due, now).orders;
      WriteExpired(expired);
    }

    // ---- payment webhook -------------------------------------------------

    /** insertTickets: all seats or, behind the savepoint, none. */
    method InsertTickets(id: OrderId, seats: seq<Seat>) returns (ok: bool)
      requires Distinct(seats)
      modifies this`tickets
      ensures ok <==> SeatsUnsold(old(State()), seats)
      ensures tickets == if ok then old(tickets) + NewTickets(id, seats) else old(tickets)
    {
      var savepoint := tickets;
      for i := 0 to |seats|
        invariant tickets == savepoint + NewTickets(id, seats[..i])
        invariant forall k, j :: 0 <= k < |savepoint| && 0 <= j < i ==> savepoint[k].seat != seats[j]
      {
        if exists k :: 0 <= k < |tickets| && tickets[k].seat == seats[i] {
          ghost var k :| 0 <= k < |tickets| && tickets[k].seat == seats[i];
          assert k < |savepoint| && savepoint[k].seat == seats[i];
          tickets := savepoint;
          return false;
        }
        assert forall k :: 0 <= k < |savepoint| ==> savepoint[k] == tickets[k];
        assert NewTickets(id, seats[..i + 1]) == NewTickets(id, seats[..i]) + [Ticket(id, seats[i], false)];
        tickets := tickets + [Ticket(id, seats[i], false)];
      }
      assert seats[..|seats|] == seats;
      return true;
    }

    /** refund: move the order if asked to, record the refund and ask the refunder for it. */
    method Refund(p: Webhook, reason: Reason, to: Option<Status>)
      requires p.order in orders
      requires to.Some? ==> CanTransition(orders[p.order].status, to.value)
      modifies this`orders, this`refunds, this`outbox
      ensures State() == RefundRows(old(State()), p, reason, to)
    {
      if to.Some? {
        var ok := Transition(p.order, orders[p.order].status, to.value);
      }
      refunds := refunds[p.txn := Saga.Refund(p.order, p.amount, reason, Pending)];
      outbox := outbox + [RefundRequested(p.order, p.txn, p.amount, reason)];
    }

    method PayOrder(id: OrderId)
      requires id in orders && CanTransition(orders[id].status, Paid)
      modifies this`orders, this`outbox
      ensures State() == Emit(Move(old(State()), id, Paid), OrderPaid(id))
    {
      var ok := Transition(id, orders[id].status, Paid);
      outbox := outbox + [OrderPaid(id)];
    }

    /** decide: what this webhook's money buys; false when the inventory could not answer. */
    method Decide(p: Webhook, now: int, reply: HoldReply) returns (ok: bool, outcome: Outcome, confirm: bool, release: bool)
      requires p.order in orders && Distinct(orders[p.order].seats)
      modifies this`orders, this`refunds, this`tickets, this`outbox
      ensures var was := old(State()); var dec := Saga.Decide(was, was.orders[p.order], p, now, reply);
        match dec
        case Ignore => ok && outcome == IgnoredFailed && State() == was && !confirm && !release
        case Sell => ok && outcome == Applied && State() == SaleRows(was, p) && confirm && !release
        case GiveBack(reason, to, rel) => ok && outcome == RefundRequired && State() == RefundRows(was, p, reason, to) && !confirm && release == rel
        case Abort => !ok && State() == was
    {
      var o := orders[p.order];
      if !p.succeeded {
        return true, IgnoredFailed, false, false;
      }
      if Sold(o.status) || IsRefund(o.status) {
        Refund(p, DoublePayment, None);
        return true, RefundRequired, false, false;
      }
      if p.amount != o.total {
        Refund(p, AmountMismatch, Some(Refunding));
        return true, RefundRequired, false, o.status == Held;
      }
      if o.status == Cancelled {
        Refund(p, PaidAfterCancel, Some(Refunding));
        return true, RefundRequired, false, false;
      }
      if !(o.status == Held && HoldActive(o, now)) {
        // Late payment: the reply is what Hold answered for these seats.
        match reply
        case HoldFailed => return false, Undecided, false, false;
        case HoldTaken =>
          Refund(p, LatePaymentSeatTaken, Some(Refunding));
          return true, RefundRequired, false, false;
        case HoldGranted =>
      }
      var sold := InsertTickets(p.order, o.seats);
      if !sold {
        Refund(p, SeatConflict, Some(Refunding));
        return true, RefundRequired, false, true;
      }
      PayOrder(p.order);
      return true, Applied, true, false;
    }

    /** ApplyPayment, behind the handler's validation of the webhook. */
    method ApplyPayment(p: Webhook, now: int, reply: HoldReply) returns (r: Result, confirm: bool, release: bool)
      requires Valid()
      modifies this
      ensures Paying(State(), r, confirm, release) == Pay(old(State()), p, now, reply)
      ensures PaymentRules.Rules(old(State()), p, now, reply, Paying(State(), r, confirm, release))
      ensures Valid()
    {
      hide Inv, SaleRows, RefundRows, Saga.Decide, PaymentRules.Rules;
      ghost var was := State();
      PaymentRules.PaymentsFollowTheRules(was, p, now, reply);
      PayKeeps(was, p, now, reply);
      if !ValidWebhook(p) {
        return Failed, false, false;
      }
      if p.order !in orders {
        return UnknownOrder, false, false;
      }
      if p.txn in payments {
        return Duplicate, Sold(orders[p.order].status), false;
      }
      var rollback := payments;
      payments := payments[p.txn := Payment(p.order, p.amount, p.succeeded, Undecided)];
      assert Distinct(orders[p.order].seats) by { SeatsAreGood(was, p.order); }
      PaymentsApart(was, payments, p, now, reply);
      var ok, outcome;
      ok, outcome, confirm, release := Decide(p, now, reply);
      if !ok {
        payments := rollback;
        return Failed, false, false;
      }
      payments := payments[p.txn := payments[p.txn].(outcome := outcome)];
      r := Recorded(outcome);
    }

    // ---- consumers -------------------------------------------------------

    /** TicketIssuer.Issue: fill the QR payload of each ticket once, then move the order. */
    method Issue(id: OrderId) returns (r: IssueResult)
      requires Valid()
      modifies this
      ensures Valid()
      ensures State() == Saga.Issue(old(State()), id)
      ensures r == UnknownPaid <==> id !in orders
      ensures r.Issued? ==> id in orders && r.status == orders[id].status && r.status != Paid
      ensures r != NoTickets
    {
      hide Inv;
      ghost var was := State();
      IssueKeeps(was, id);
      if id !in orders {
        return UnknownPaid;
      }
      if orders[id].status != Paid {
        return Issued(orders[id].status);
      }
      PaidHasTickets(was, id);
      if !(exists i :: 0 <= i < |tickets| && tickets[i].order == id) {
        return NoTickets;
      }
      for i := 0 to |tickets|
        invariant |tickets| == |was.tickets|
        invariant forall k :: 0 <= k < i ==> tickets[k] == IssuedTickets(was.tickets, id)[k]
        invariant forall k :: i <= k < |tickets| ==> tickets[k] == was.tickets[k]
        invariant State() == was.(tickets := tickets)
      {
        if tickets[i].order == id && !tickets[i].issued {
          tickets := tickets[i := tickets[i].(issued := true)];
        }
      }
      assert tickets == IssuedTickets(was.tickets, id);
      var ok := Transition(id, Paid, Ticketed);
      outbox := outbox + [TicketIssued(id)];
      return Issued(Ticketed);
    }

    /** RefundProcessor.Process: skip what is done, ask the gateway, then complete in one transaction. */
    method Process(txn: Txn, gateway: Gateway) returns (r: RefundResult)
      requires Valid()
      modifies this, gateway
      ensures Valid()
      ensures r == RefundNotFound <==> txn !in refunds
      ensures r != GatewayError
      ensures State() == Complete(old(State()), txn)
      ensures r == RefundDone ==> refunds[txn].status == Succeeded
      ensures gateway.refunds ==
              if txn in old(refunds) && old(refunds)[txn].status == Pending && txn !in old(gateway.refunds)
              then old(gateway.refunds)[txn := old(refunds)[txn].amount] else old(gateway.refunds)
    {
      hide Inv;
      CompleteKeeps(State(), txn);
      if txn !in refunds {
        return RefundNotFound;
      }
      var ref := refunds[txn];
      RefundIsBacked(State(), txn);
      if ref.status == Succeeded {
        return RefundDone;
      }
      var ok := gateway.HandleRefund(txn, Some(ref.order), ref.amount);
      if !ok {
        return GatewayError;
      }
      refunds := refunds[txn := ref.(status := Succeeded)];
      if ref.reason != DoublePayment && orders[ref.order].status == Refunding {
        ok := Transition(ref.order, Refunding, Refunded);
      }
      outbox := outbox + [OrderRefunded(ref.order, txn, ref.amount, ref.reason)];
      return RefundDone;
    }
  }
}
