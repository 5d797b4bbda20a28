/** What every transaction of the saga keeps, and so what holds in every reachable state. */
module SagaInv {
  import opened States
  import opened Saga
  import opened Sums

  // ---- money -------------------------------------------------------------

  ghost function Received(db: DB): int {
    Total(map t | t in db.payments :: if db.payments[t].succeeded then db.payments[t].amount else 0)
  }

  ghost function Revenue(db: DB): int {
    Total(map id | id in db.orders :: if Sold(db.orders[id].status) then db.orders[id].total else 0)
  }

  ghost function Refundable(db: DB): int {
    Total(map t | t in db.refunds :: db.refunds[t].amount)
  }

  /** No money is kept without tickets and none is created. */
  ghost predicate Conserved(db: DB) {
    Received(db) == Revenue(db) + Refundable(db)
  }

  // ---- tickets -----------------------------------------------------------

  ghost predicate OrdersSane(db: DB) {
    forall id :: id in db.orders ==> GoodSeats(db.orders[id].event, db.orders[id].seats)
  }

  /** Each seat has at most one ticket, and it belongs to a sold order that asked for that seat. */
  ghost predicate TicketsSound(db: DB) {
    && (forall i, j :: 0 <= i < j < |db.tickets| ==> db.tickets[i].seat != db.tickets[j].seat)
    && (forall i :: 0 <= i < |db.tickets| ==>
          && db.tickets[i].order in db.orders
          && Sold(db.orders[db.tickets[i].order].status)
          && db.tickets[i].seat in db.orders[db.tickets[i].order].seats
          && (db.tickets[i].issued <==> db.orders[db.tickets[i].order].status == Ticketed))
  }

  ghost predicate HasTicket(db: DB, id: OrderId, seat: Seat) {
    exists i :: 0 <= i < |db.tickets| && db.tickets[i].order == id && db.tickets[i].seat == seat
  }

  /** A sold order has a ticket for each of its seats. */
  ghost predicate TicketsComplete(db: DB) {
    forall id, k :: id in db.orders && Sold(db.orders[id].status) && 0 <= k < |db.orders[id].seats|
      ==> HasTicket(db, id, db.orders[id].seats[k])
  }

  // ---- payments and refunds ----------------------------------------------

  ghost predicate PaymentsSound(db: DB) {
    && (forall t :: t in db.payments ==>
          var p := db.payments[t];
          && t != ""
          && p.order in db.orders
          && p.outcome != Undecided
          && (p.outcome == IgnoredFailed <==> !p.succeeded)
          && (p.outcome == Applied ==> Sold(db.orders[p.order].status) && p.amount == db.orders[p.order].total)
          && (p.outcome == RefundRequired <==> t in db.refunds)
          && (p.succeeded ==> p.amount > 0))
    && (forall t :: t in db.refunds ==>
          && t in db.payments
          && db.refunds[t].order == db.payments[t].order
          && db.refunds[t].amount == db.payments[t].amount)
  }

  ghost predicate AppliedTo(db: DB, t: Txn, id: OrderId) {
    t in db.payments && db.payments[t].outcome == Applied && db.payments[t].order == id
  }

  /** An order is sold exactly when one payment was applied to it. */
  ghost predicate AppliedOnce(db: DB) {
    && (forall t, u, id :: AppliedTo(db, t, id) && AppliedTo(db, u, id) ==> t == u)
    && (forall id :: id in db.orders && Sold(db.orders[id].status) ==> exists t :: AppliedTo(db, t, id))
  }

  /** The refund that undoes the order itself, as opposed to a second payment for it. */
  ghost predicate Undoes(db: DB, t: Txn, id: OrderId) {
    t in db.refunds && db.refunds[t].order == id && db.refunds[t].reason != DoublePayment
  }

  predicate IsRefund(s: Status) {
    s == Refunding || s == Refunded
  }

  /** An order is being refunded exactly while its one undoing refund is pending, and refunded once it succeeded. */
  ghost predicate UndoneOnce(db: DB) {
    && (forall t, u, id :: Undoes(db, t, id) && Undoes(db, u, id) ==> t == u)
    && (forall t, id :: Undoes(db, t, id) ==>
          id in db.orders && db.orders[id].status == if db.refunds[t].status == Pending then Refunding else Refunded)
    && (forall id :: id in db.orders && IsRefund(db.orders[id].status) ==> exists t :: Undoes(db, t, id))
  }

  // ---- constraints -------------------------------------------------------

  ghost predicate KeysUnique(db: DB) {
    forall a, b | a in db.orders && b in db.orders && a != b && db.orders[a].user == db.orders[b].user ::
      && db.orders[a].key != db.orders[b].key
      && !(db.orders[a].event == db.orders[b].event && db.orders[a].status == db.orders[b].status == Held)
  }

  // ---- events ------------------------------------------------------------

  /** The status an event announces for its order, if it announces one. */
  function Announces(e: Event): Option<Status> {
    match e
    case OrderHeld(_) => Some(Held)
    case OrderPaid(_) => Some(Paid)
    case OrderExpired(_) => Some(Expired)
    case OrderCancelled(_) => Some(Cancelled)
    case RefundRequested(_, _, _, reason) => if reason == DoublePayment then None else Some(Refunding)
    case OrderRefunded(_, _, _, reason) => if reason == DoublePayment then None else Some(Refunded)
    case TicketIssued(_) => Some(Ticketed)
  }

  /** The statuses announced for one order, in outbox order. */
  function History(outbox: seq<Event>, id: OrderId): seq<Status> {
    if outbox == [] then []
    else
      var h := History(outbox[..|outbox| - 1], id);
      var e := outbox[|outbox| - 1];
      if e.order == id && Announces(e).Some? then h + [Announces(e).value] else h
  }

  /** Replaying the outbox gives a legal history that ends in the stored status. */
  ghost predicate Replays(db: DB, id: OrderId) {
    var h := History(db.outbox, id);
    if id in db.orders then
      |h| > 0 && h[0] == Held && LegalChain(h) && h[|h| - 1] == db.orders[id].status
    else h == []
  }

  ghost predicate EventsReplay(db: DB) {
    forall id :: Replays(db, id)
  }

  function RequestOf(t: Txn, r: Refund): Event {
    RefundRequested(r.order, t, r.amount, r.reason)
  }

  function ReceiptOf(t: Txn, r: Refund): Event {
    OrderRefunded(r.order, t, r.amount, r.reason)
  }

  /** Every refund was requested exactly once, and its completion announced exactly once. */
  ghost predicate RefundEvents(db: DB) {
    && (forall t :: t in db.refunds ==>
          && multiset(db.outbox)[RequestOf(t, db.refunds[t])] == 1
          && multiset(db.outbox)[ReceiptOf(t, db.refunds[t])] == if db.refunds[t].status == Succeeded then 1 else 0)
    && (forall e :: e in db.outbox && e.RefundRequested? ==> e.txn in db.refunds && e == RequestOf(e.txn, db.refunds[e.txn]))
    && (forall e :: e in db.outbox && e.OrderRefunded? ==> e.txn in db.refunds && e == ReceiptOf(e.txn, db.refunds[e.txn]))
  }

  ghost predicate OrderClauses(db: DB) {
    OrdersSane(db) && KeysUnique(db)
  }

  ghost predicate TicketClauses(db: DB) {
    TicketsSound(db) && TicketsComplete(db)
  }

  ghost predicate EventClauses(db: DB) {
    EventsReplay(db) && RefundEvents(db)
  }

  ghost predicate Inv(db: DB) {
    && OrderClauses(db)
    && TicketClauses(db)
    && PaymentsSound(db)
    && AppliedOnce(db)
    && UndoneOnce(db)
    && EventClauses(db)
    && Conserved(db)
  }

  // ---- small facts about events and sums ---------------------------------

  lemma HistoryEmit(outbox: seq<Event>, e: Event, id: OrderId)
    ensures History(outbox + [e], id) ==
            if e.order == id && Announces(e).Some? then History(outbox, id) + [Announces(e).value] else History(outbox, id)
  {
    assert (outbox + [e])[..|outbox|] == outbox;
  }

  /** Emitting the event of a legal move keeps the replay in step with the tables. */
  lemma ReplayMove(db: DB, d: DB, id: OrderId, e: Event)
    requires EventsReplay(db)
    requires e.order == id && Announces(e).Some?
    requires d.outbox == db.outbox + [e]
    requires id in d.orders && d.orders.Keys == db.orders.Keys + {id}
    requires d.orders[id].status == Announces(e).value
    requires if id in db.orders then CanTransition(db.orders[id].status, Announces(e).value) else Announces(e).value == Held
    requires forall j :: j in db.orders && j != id ==> d.orders[j].status == db.orders[j].status
    ensures EventsReplay(d)
  {
    forall j ensures Replays(d, j) {
      assert Replays(db, j);
      HistoryEmit(db.outbox, e, j);
    }
  }

  /** Emitting an event that announces nothing changes no history. */
  lemma ReplaySame(db: DB, d: DB, e: Event)
    requires EventsReplay(db)
    requires Announces(e) == None
    requires d.outbox == db.outbox + [e]
    requires d.orders.Keys == db.orders.Keys
    requires forall j :: j in db.orders ==> d.orders[j].status == db.orders[j].status
    ensures EventsReplay(d)
  {
    forall j ensures Replays(d, j) {
      assert Replays(db, j);
      HistoryEmit(db.outbox, e, j);
    }
  }

  lemma RevenueMove(db: DB, d: DB, id: OrderId)
    requires id in d.orders && d.orders == db.orders[id := d.orders[id]]
    ensures Revenue(d) == Revenue(db)
                          + (if Sold(d.orders[id].status) then d.orders[id].total else 0)
                          - (if id in db.orders && Sold(db.orders[id].status) then db.orders[id].total else 0)
  {
    var m := map j | j in db.orders :: if Sold(db.orders[j].status) then db.orders[j].total else 0;
    var n := map j | j in d.orders :: if Sold(d.orders[j].status) then d.orders[j].total else 0;
    assert n == m[id := n[id]];
    TotalUpdate(m, id, n[id]);
  }

  lemma ReceivedRecord(db: DB, d: DB, t: Txn)
    requires t !in db.payments && t in d.payments && d.payments == db.payments[t := d.payments[t]]
    ensures Received(d) == Received(db) + if d.payments[t].succeeded then d.payments[t].amount else 0
  {
    var m := map u | u in db.payments :: if db.payments[u].succeeded then db.payments[u].amount else 0;
    var n := map u | u in d.payments :: if d.payments[u].succeeded then d.payments[u].amount else 0;
    assert n == m[t := n[t]];
    TotalUpdate(m, t, n[t]);
  }

  lemma RefundableRecord(db: DB, d: DB, t: Txn)
    requires t in d.refunds && d.refunds == db.refunds[t := d.refunds[t]]
    ensures Refundable(d) == Refundable(db) + d.refunds[t].amount - if t in db.refunds then db.refunds[t].amount else 0
  {
    var m := map u | u in db.refunds :: db.refunds[u].amount;
    var n := map u | u in d.refunds :: d.refunds[u].amount;
    assert n == m[t := n[t]];
    TotalUpdate(m, t, n[t]);
  }

  lemma RefundEventsEmit(db: DB, d: DB, e: Event)
    requires RefundEvents(db)
    requires d.refunds == db.refunds && d.outbox == db.outbox + [e]
    requires !e.RefundRequested? && !e.OrderRefunded?
    ensures RefundEvents(d)
  {
    assert multiset(d.outbox) == multiset(db.outbox) + multiset{e};
  }

  // ---- what a transaction keeps of each clause ----------------------------

  /** d differs from db at most in the status of one order. */
  ghost predicate OneMoved(db: DB, d: DB, id: OrderId) {
    && id in db.orders
    && d.orders.Keys == db.orders.Keys
    && d.orders == db.orders[id := db.orders[id].(status := d.orders[id].status)]
  }

  lemma OrdersKept(db: DB, d: DB, id: OrderId)
    requires OrderClauses(db) && OneMoved(db, d, id)
    requires d.orders[id].status == Held ==> db.orders[id].status == Held
    ensures OrderClauses(d)
  {
  }

  /** A transaction that adds no ticket and sells no order keeps the ticket clauses. */
  lemma TicketsKept(db: DB, d: DB, id: OrderId)
    requires TicketClauses(db) && OneMoved(db, d, id)
    requires d.tickets == db.tickets
    requires d.orders[id].status == db.orders[id].status || (!Sold(db.orders[id].status) && !Sold(d.orders[id].status))
    ensures TicketClauses(d)
  {
    forall j, k | j in d.orders && Sold(d.orders[j].status) && 0 <= k < |d.orders[j].seats|
      ensures HasTicket(d, j, d.orders[j].seats[k])
    {
      assert HasTicket(db, j, db.orders[j].seats[k]);
    }
  }

  /** A transaction that applies no payment and sells no order keeps the applied-once clause. */
  lemma AppliedKept(db: DB, d: DB, id: OrderId)
    requires AppliedOnce(db) && OneMoved(db, d, id)
    requires forall t :: t in d.payments && (t !in db.payments || d.payments[t] != db.payments[t]) ==> d.payments[t].outcome != Applied
    requires forall t :: t in db.payments ==> t in d.payments && d.payments[t] == db.payments[t]
    requires Sold(d.orders[id].status) ==> Sold(db.orders[id].status)
    ensures AppliedOnce(d)
  {
    assert forall t, j :: AppliedTo(d, t, j) <==> AppliedTo(db, t, j);
    forall j | j in d.orders && Sold(d.orders[j].status)
      ensures exists t :: AppliedTo(d, t, j)
    {
      var t :| AppliedTo(db, t, j);
      assert AppliedTo(d, t, j);
    }
  }

  /** A transaction that records no refund and moves no refunding order keeps the undone-once clause. */
  lemma UndoneKept(db: DB, d: DB, id: OrderId)
    requires UndoneOnce(db) && OneMoved(db, d, id)
    requires d.refunds == db.refunds
    requires d.orders[id].status == db.orders[id].status || (!IsRefund(db.orders[id].status) && !IsRefund(d.orders[id].status))
    ensures UndoneOnce(d)
  {
    assert forall t, j :: Undoes(d, t, j) <==> Undoes(db, t, j);
    forall j | j in d.orders && IsRefund(d.orders[j].status)
      ensures exists t :: Undoes(d, t, j)
    {
      var t :| Undoes(db, t, j);
      assert Undoes(d, t, j);
    }
  }

  /** A transaction that records nothing about money keeps the payment clauses. */
  lemma PaymentsKept(db: DB, d: DB, id: OrderId)
    requires PaymentsSound(db) && OneMoved(db, d, id)
    requires d.payments == db.payments && d.refunds == db.refunds
    requires Sold(db.orders[id].status) ==> Sold(d.orders[id].status)
    ensures PaymentsSound(d)
  {
  }

  lemma EventsMove(db: DB, d: DB, id: OrderId, e: Event)
    requires EventClauses(db)
    requires e.order == id && Announces(e).Some? && !e.RefundRequested? && !e.OrderRefunded?
    requires d.outbox == db.outbox + [e] && d.refunds == db.refunds
    requires id in d.orders && d.orders == db.orders[id := d.orders[id]]
    requires d.orders[id].status == Announces(e).value
    requires if id in db.orders then CanTransition(db.orders[id].status, Announces(e).value) else Announces(e).value == Held
    ensures EventClauses(d)
  {
    ReplayMove(db, d, id, e);
    RefundEventsEmit(db, d, e);
  }

  // ---- create, cancel, expire --------------------------------------------

  lemma EmptyInv()
    ensures Inv(EMPTY)
  {
  }

  lemma PlaceOrders(db: DB, id: OrderId, o: Order)
    requires OrderClauses(db) && CanPlace(db, id, o)
    ensures OrderClauses(Place(db, id, o))
  {
  }

  lemma PlaceTickets(db: DB, id: OrderId, o: Order)
    requires TicketClauses(db) && CanPlace(db, id, o)
    ensures TicketClauses(Place(db, id, o))
  {
    var d := Place(db, id, o);
    forall j, k | j in d.orders && Sold(d.orders[j].status) && 0 <= k < |d.orders[j].seats|
      ensures HasTicket(d, j, d.orders[j].seats[k])
    {
      assert HasTicket(db, j, db.orders[j].seats[k]);
    }
  }

  lemma PlaceMoney(db: DB, id: OrderId, o: Order)
    requires PaymentsSound(db) && AppliedOnce(db) && CanPlace(db, id, o)
    ensures PaymentsSound(Place(db, id, o)) && AppliedOnce(Place(db, id, o))
  {
    var d := Place(db, id, o);
    assert forall t, j :: AppliedTo(d, t, j) <==> AppliedTo(db, t, j);
  }

  lemma PlaceUndone(db: DB, id: OrderId, o: Order)
    requires UndoneOnce(db) && CanPlace(db, id, o)
    ensures UndoneOnce(Place(db, id, o))
  {
    var d := Place(db, id, o);
    assert forall t, j :: Undoes(d, t, j) <==> Undoes(db, t, j);
  }

  lemma PlaceKeeps(db: DB, id: OrderId, o: Order)
    requires Inv(db)
    ensures Inv(Place(db, id, o))
  {
    hide OrderClauses, TicketClauses, PaymentsSound, AppliedOnce, UndoneOnce, EventClauses, Received, Revenue, Refundable;
    if CanPlace(db, id, o) {
      var d := Place(db, id, o);
      PlaceOrders(db, id, o);
      PlaceTickets(db, id, o);
      PlaceMoney(db, id, o);
      PlaceUndone(db, id, o);
      EventsMove(db, d, id, OrderHeld(id));
      RevenueMove(db, d, id);
      MoneySame(db, d);
    }
  }

  lemma MoneySame(db: DB, d: DB)
    requires d.payments == db.payments && d.refunds == db.refunds
    ensures Received(d) == Received(db) && Refundable(d) == Refundable(db)
  {
  }

  /** An order leaves HELD without money being involved. */
  lemma LeaveHeldKeeps(db: DB, id: OrderId, e: Event)
    requires Inv(db)
    requires id in db.orders && db.orders[id].status == Held
    requires e == OrderCancelled(id) || e == OrderExpired(id)
    ensures Inv(Emit(Move(db, id, Announces(e).value), e))
  {
    hide OrderClauses, TicketClauses, PaymentsSound, AppliedOnce, UndoneOnce, EventClauses, Received, Revenue, Refundable;
    var d := Emit(Move(db, id, Announces(e).value), e);
    OrdersKept(db, d, id);
    TicketsKept(db, d, id);
    PaymentsKept(db, d, id);
    AppliedKept(db, d, id);
    UndoneKept(db, d, id);
    EventsMove(db, d, id, e);
    RevenueMove(db, d, id);
    MoneySame(db, d);
  }

  lemma CancelKeeps(db: DB, user: int, id: OrderId)
    requires Inv(db)
    ensures Inv(Cancel(db, user, id))
  {
    hide Inv;
    if CanCancel(db, user, id) {
      LeaveHeldKeeps(db, id, OrderCancelled(id));
    }
  }

  lemma {:induction false} ExpireKeeps(db: DB, due: seq<OrderId>, now: int)
    requires Inv(db)
    ensures Inv(Expire(db, due, now))
  {
    hide Inv;
    if due == [] {
    } else {
      var prev, id := Expire(db, due[..|due| - 1], now), due[|due| - 1];
      ExpireKeeps(db, due[..|due| - 1], now);
      if Due(prev, id, now) {
        LeaveHeldKeeps(prev, id, OrderExpired(id));
      }
    }
  }

  // ---- payment webhook ---------------------------------------------------

  lemma IgnorePayments(db: DB, p: Webhook)
    requires PaymentsSound(db) && p.order in db.orders && p.txn !in db.payments && ValidWebhook(p) && !p.succeeded
    ensures PaymentsSound(RecordPayment(db, p, IgnoredFailed))
  {
  }

  lemma EventsSame(db: DB, d: DB)
    requires EventClauses(db) && d.orders == db.orders && d.refunds == db.refunds && d.outbox == db.outbox
    ensures EventClauses(d)
  {
    assert forall j :: Replays(d, j) <==> Replays(db, j);
  }

  lemma IgnoreKeeps(db: DB, p: Webhook)
    requires Inv(db) && p.order in db.orders && p.txn !in db.payments && ValidWebhook(p) && !p.succeeded
    ensures Inv(RecordPayment(db, p, IgnoredFailed))
  {
    hide OrderClauses, TicketClauses, PaymentsSound, AppliedOnce, UndoneOnce, EventClauses, Received, Revenue, Refundable;
    var d := RecordPayment(db, p, IgnoredFailed);
    OrdersKept(db, d, p.order);
    TicketsKept(db, d, p.order);
    IgnorePayments(db, p);
    AppliedKept(db, d, p.order);
    UndoneKept(db, d, p.order);
    EventsSame(db, d);
    ReceivedRecord(db, d, p.txn);
    RevenueMove(db, d, p.order);
    assert Refundable(d) == Refundable(db) by { RefundsSame(db, d); }
  }

  lemma RefundsSame(db: DB, d: DB)
    requires d.refunds == db.refunds
    ensures Refundable(d) == Refundable(db)
  {
  }

  /** A payment may buy the seats: the order is still open and asks for exactly this money. */
  ghost predicate Sellable(db: DB, p: Webhook) {
    && p.order in db.orders
    && p.txn !in db.payments
    && ValidWebhook(p)
    && p.succeeded
    && db.orders[p.order].status in {Held, Expired}
    && db.orders[p.order].total == p.amount
    && SeatsUnsold(db, db.orders[p.order].seats)
  }

  lemma SellTicketsSound(db: DB, p: Webhook)
    requires OrderClauses(db) && TicketsSound(db) && Sellable(db, p)
    ensures TicketsSound(SellSeats(db, p))
  {
    var d := SellSeats(db, p);
    assert GoodSeats(db.orders[p.order].event, db.orders[p.order].seats);
    forall i, j | 0 <= i < j < |d.tickets|
      ensures d.tickets[i].seat != d.tickets[j].seat
    {
    }
  }

  lemma SellTicketsComplete(db: DB, p: Webhook)
    requires TicketsComplete(db) && Sellable(db, p)
    ensures TicketsComplete(SellSeats(db, p))
  {
    var d := SellSeats(db, p);
    forall j, k | j in d.orders && Sold(d.orders[j].status) && 0 <= k < |d.orders[j].seats|
      ensures HasTicket(d, j, d.orders[j].seats[k])
    {
      if j == p.order {
        assert d.tickets[|db.tickets| + k] == Ticket(j, d.orders[j].seats[k], false);
      } else {
        assert HasTicket(db, j, db.orders[j].seats[k]);
        var i :| 0 <= i < |db.tickets| && db.tickets[i].order == j && db.tickets[i].seat == db.orders[j].seats[k];
        assert d.tickets[i] == db.tickets[i];
      }
    }
  }

  lemma SellPayments(db: DB, p: Webhook)
    requires PaymentsSound(db) && Sellable(db, p)
    ensures PaymentsSound(SellSeats(db, p))
  {
  }

  lemma SellApplied(db: DB, p: Webhook)
    requires AppliedOnce(db) && PaymentsSound(db) && Sellable(db, p)
    ensures AppliedOnce(SellSeats(db, p))
  {
    var d := SellSeats(db, p);
    assert forall t, j :: AppliedTo(d, t, j) <==> AppliedTo(db, t, j) || (t == p.txn && j == p.order);
    forall j | j in d.orders && Sold(d.orders[j].status)
      ensures exists t :: AppliedTo(d, t, j)
    {
      if j == p.order {
        assert AppliedTo(d, p.txn, j);
      } else {
        var t :| AppliedTo(db, t, j);
        assert AppliedTo(d, t, j);
      }
    }
  }

  lemma SellKeeps(db: DB, p: Webhook)
    requires Inv(db) && Sellable(db, p)
    ensures Inv(SellSeats(db, p))
  {
    hide OrderClauses, TicketsSound, TicketsComplete, PaymentsSound, AppliedOnce, UndoneOnce, EventClauses, Received, Revenue, Refundable, SeatsUnsold;
    var d := SellSeats(db, p);
    OrdersKept(db, d, p.order);
    SellTicketsSound(db, p);
    SellTicketsComplete(db, p);
    SellPayments(db, p);
    SellApplied(db, p);
    UndoneKept(db, d, p.order);
    EventsMove(db, d, p.order, OrderPaid(p.order));
    ReceivedRecord(db, d, p.txn);
    RevenueMove(db, d, p.order);
    RefundsSame(db, d);
  }

  /** Money that buys nothing: a second payment leaves the order alone, any other moves it to REFUNDING. */
  ghost predicate Returnable(db: DB, p: Webhook, reason: Reason, to: Option<Status>) {
    && p.order in db.orders
    && p.txn !in db.payments
    && ValidWebhook(p)
    && p.succeeded
    && (if reason == DoublePayment then to == None
        else to == Some(Refunding) && db.orders[p.order].status in {Held, Expired, Cancelled})
  }

  lemma GiveBackPayments(db: DB, p: Webhook, reason: Reason, to: Option<Status>)
    requires PaymentsSound(db) && Returnable(db, p, reason, to)
    ensures PaymentsSound(GiveMoneyBack(db, p, reason, to))
  {
    assert p.txn !in db.refunds;
  }

  lemma GiveBackUndone(db: DB, p: Webhook, reason: Reason, to: Option<Status>)
    requires PaymentsSound(db) && UndoneOnce(db) && Returnable(db, p, reason, to)
    ensures UndoneOnce(GiveMoneyBack(db, p, reason, to))
  {
    var d := GiveMoneyBack(db, p, reason, to);
    assert p.txn !in db.refunds;
    assert forall t, j :: Undoes(d, t, j) <==> Undoes(db, t, j) || (reason != DoublePayment && t == p.txn && j == p.order);
    forall j | j in d.orders && IsRefund(d.orders[j].status)
      ensures exists t :: Undoes(d, t, j)
    {
      if reason != DoublePayment && j == p.order {
        assert Undoes(d, p.txn, j);
      } else {
        var t :| Undoes(db, t, j);
        assert Undoes(d, t, j);
      }
    }
  }

  lemma GiveBackRefundEvents(db: DB, p: Webhook, reason: Reason, to: Option<Status>)
    requires PaymentsSound(db) && RefundEvents(db) && Returnable(db, p, reason, to)
    ensures RefundEvents(GiveMoneyBack(db, p, reason, to))
  {
    hide RefundEvents;
    assert p.txn !in db.refunds;
    RefundEventsAdd(db, GiveMoneyBack(db, p, reason, to), p.txn, Refund(p.order, p.amount, reason, Pending));
  }

  /** A new refund comes with its request, and nothing mentioned it before. */
  lemma RefundEventsAdd(db: DB, d: DB, t: Txn, r: Refund)
    requires RefundEvents(db) && t !in db.refunds && r.status == Pending
    requires d.refunds == db.refunds[t := r] && d.outbox == db.outbox + [RequestOf(t, r)]
    ensures RefundEvents(d)
  {
    assert multiset(d.outbox) == multiset(db.outbox) + multiset{RequestOf(t, r)};
    assert RequestOf(t, r) !in db.outbox && ReceiptOf(t, r) !in db.outbox;
  }

  lemma GiveBackEvents(db: DB, p: Webhook, reason: Reason, to: Option<Status>)
    requires PaymentsSound(db) && EventClauses(db) && Returnable(db, p, reason, to)
    ensures EventClauses(GiveMoneyBack(db, p, reason, to))
  {
    hide RefundEvents, PaymentsSound, EventsReplay;
    var d := GiveMoneyBack(db, p, reason, to);
    var e := RefundRequested(p.order, p.txn, p.amount, reason);
    GiveBackRefundEvents(db, p, reason, to);
    if reason == DoublePayment {
      ReplaySame(db, d, e);
    } else {
      ReplayMove(db, d, p.order, e);
    }
  }

  lemma GiveBackKeeps(db: DB, p: Webhook, reason: Reason, to: Option<Status>)
    requires Inv(db) && Returnable(db, p, reason, to)
    ensures Inv(GiveMoneyBack(db, p, reason, to))
  {
    hide OrderClauses, TicketClauses, PaymentsSound, AppliedOnce, UndoneOnce, EventClauses, Received, Revenue, Refundable;
    var d := GiveMoneyBack(db, p, reason, to);
    assert p.txn !in db.refunds by { NoRefundYet(db, p.txn); }
    OrdersKept(db, d, p.order);
    TicketsKept(db, d, p.order);
    GiveBackPayments(db, p, reason, to);
    AppliedKept(db, d, p.order);
    GiveBackUndone(db, p, reason, to);
    GiveBackEvents(db, p, reason, to);
    ReceivedRecord(db, d, p.txn);
    RevenueMove(db, d, p.order);
    RefundableRecord(db, d, p.txn);
  }

  lemma NoRefundYet(db: DB, t: Txn)
    requires PaymentsSound(db) && t !in db.payments
    ensures t !in db.refunds
  {
  }

  lemma PayKeeps(db: DB, p: Webhook, now: int, reply: HoldReply)
    requires Inv(db)
    ensures Inv(Pay(db, p, now, reply).db)
  {
    hide Inv, SeatsUnsold;
    if ValidWebhook(p) && p.order in db.orders && p.txn !in db.payments {
      match Decide(db, db.orders[p.order], p, now, reply)
      case Ignore => IgnoreKeeps(db, p);
      case Sell => SellKeeps(db, p);
      case GiveBack(reason, to, _) => GiveBackKeeps(db, p, reason, to);
      case Abort =>
    }
  }

  // ---- consumers ---------------------------------------------------------

  lemma IssueTickets(db: DB, id: OrderId)
    requires TicketClauses(db) && id in db.orders && db.orders[id].status == Paid
    ensures TicketClauses(Emit(Move(db.(tickets := IssuedTickets(db.tickets, id)), id, Ticketed), TicketIssued(id)))
  {
    var d := Emit(Move(db.(tickets := IssuedTickets(db.tickets, id)), id, Ticketed), TicketIssued(id));
    forall j, k | j in d.orders && Sold(d.orders[j].status) && 0 <= k < |d.orders[j].seats|
      ensures HasTicket(d, j, d.orders[j].seats[k])
    {
      assert HasTicket(db, j, db.orders[j].seats[k]);
      var i :| 0 <= i < |db.tickets| && db.tickets[i].order == j && db.tickets[i].seat == db.orders[j].seats[k];
      assert d.tickets[i].order == j;
    }
  }

  lemma IssueKeeps(db: DB, id: OrderId)
    requires Inv(db)
    ensures Inv(Issue(db, id))
  {
    hide OrderClauses, TicketClauses, PaymentsSound, AppliedOnce, UndoneOnce, EventClauses, Received, Revenue, Refundable;
    var d := Issue(db, id);
    if d != db {
      OrdersKept(db, d, id);
      IssueTickets(db, id);
      PaymentsKept(db, d, id);
      AppliedKept(db, d, id);
      UndoneKept(db, d, id);
      EventsMove(db, d, id, TicketIssued(id));
      RevenueMove(db, d, id);
      MoneySame(db, d);
    }
  }

  ghost predicate Completable(db: DB, t: Txn) {
    t in db.refunds && db.refunds[t].status == Pending && db.refunds[t].order in db.orders
  }

  /** The pending refund that undoes an order finds it REFUNDING. */
  lemma PendingFindsRefunding(db: DB, t: Txn)
    requires UndoneOnce(db) && Completable(db, t) && db.refunds[t].reason != DoublePayment
    ensures db.orders[db.refunds[t].order].status == Refunding
  {
    assert Undoes(db, t, db.refunds[t].order);
  }

  lemma CompletePayments(db: DB, t: Txn)
    requires PaymentsSound(db) && Completable(db, t)
    ensures PaymentsSound(Complete(db, t))
  {
  }

  lemma CompleteUndone(db: DB, t: Txn)
    requires UndoneOnce(db) && Completable(db, t)
    ensures UndoneOnce(Complete(db, t))
  {
    var d := Complete(db, t);
    if db.refunds[t].reason != DoublePayment {
      PendingFindsRefunding(db, t);
    }
    assert forall u, j :: Undoes(d, u, j) <==> Undoes(db, u, j);
    forall u, j | Undoes(d, u, j)
      ensures d.orders[j].status == if d.refunds[u].status == Pending then Refunding else Refunded
    {
      assert Undoes(db, u, j);
      if j == db.refunds[t].order && db.refunds[t].reason != DoublePayment {
        assert Undoes(db, t, j);
        assert u == t;
      }
    }
    forall j | j in d.orders && IsRefund(d.orders[j].status)
      ensures exists u :: Undoes(d, u, j)
    {
      var u :| Undoes(db, u, j);
      assert Undoes(d, u, j);
    }
  }

  lemma CountEmit(outbox: seq<Event>, e: Event, f: Event)
    ensures multiset(outbox + [e])[f] == multiset(outbox)[f] + if e == f then 1 else 0
  {
    assert multiset(outbox + [e]) == multiset(outbox) + multiset{e};
  }

  lemma CompleteCounts(db: DB, t: Txn, u: Txn)
    requires RefundEvents(db) && Completable(db, t) && u in db.refunds
    ensures var d := Complete(db, t);
      && multiset(d.outbox)[RequestOf(u, d.refunds[u])] == 1
      && multiset(d.outbox)[ReceiptOf(u, d.refunds[u])] == if d.refunds[u].status == Succeeded then 1 else 0
  {
    var e := ReceiptOf(t, db.refunds[t]);
    CountEmit(db.outbox, e, RequestOf(u, db.refunds[u]));
    CountEmit(db.outbox, e, ReceiptOf(u, db.refunds[u]));
  }

  lemma CompleteRefundEvents(db: DB, t: Txn)
    requires RefundEvents(db) && Completable(db, t)
    ensures RefundEvents(Complete(db, t))
  {
    var d, e := Complete(db, t), ReceiptOf(t, db.refunds[t]);
    forall u | u in d.refunds
      ensures multiset(d.outbox)[RequestOf(u, d.refunds[u])] == 1
      ensures multiset(d.outbox)[ReceiptOf(u, d.refunds[u])] == if d.refunds[u].status == Succeeded then 1 else 0
    {
      CompleteCounts(db, t, u);
    }
    forall f | f in d.outbox
      ensures f.RefundRequested? ==> f.txn in d.refunds && f == RequestOf(f.txn, d.refunds[f.txn])
      ensures f.OrderRefunded? ==> f.txn in d.refunds && f == ReceiptOf(f.txn, d.refunds[f.txn])
    {
      assert f in db.outbox || f == e;
    }
  }

  lemma CompleteEvents(db: DB, t: Txn)
    requires EventClauses(db) && UndoneOnce(db) && Completable(db, t)
    ensures EventClauses(Complete(db, t))
  {
    hide RefundEvents, EventsReplay, UndoneOnce;
    var d, e := Complete(db, t), ReceiptOf(t, db.refunds[t]);
    CompleteRefundEvents(db, t);
    if db.refunds[t].reason == DoublePayment {
      ReplaySame(db, d, e);
    } else {
      PendingFindsRefunding(db, t);
      ReplayMove(db, d, e.order, e);
    }
  }

  lemma CompleteKeeps(db: DB, t: Txn)
    requires Inv(db)
    ensures Inv(Complete(db, t))
  {
    hide OrderClauses, TicketClauses, PaymentsSound, AppliedOnce, UndoneOnce, EventClauses, Received, Revenue, Refundable;
    if Completable(db, t) {
      var d, id := Complete(db, t), db.refunds[t].order;
      OrdersKept(db, d, id);
      TicketsKept(db, d, id);
      CompletePayments(db, t);
      AppliedKept(db, d, id);
      CompleteUndone(db, t);
      CompleteEvents(db, t);
      RevenueMove(db, d, id);
      RefundableRecord(db, d, t);
      ReceivedSame(db, d);
    }
  }

  lemma ReceivedSame(db: DB, d: DB)
    requires d.payments == db.payments
    ensures Received(d) == Received(db)
  {
  }

  // ---- every run ---------------------------------------------------------

  lemma StepKeeps(db: DB, step: Step)
    requires Inv(db)
    ensures Inv(Apply(db, step))
  {
    hide Inv;
    match step
    case DoPlace(id, o) => PlaceKeeps(db, id, o);
    case DoCancel(user, id) => CancelKeeps(db, user, id);
    case DoExpire(due, now) => ExpireKeeps(db, due, now);
    case DoPay(p, at, reply) => PayKeeps(db, p, at, reply);
    case DoIssue(id) => IssueKeeps(db, id);
    case DoComplete(txn) => CompleteKeeps(db, txn);
  }

  /** Every run of transactions, whatever their order and whatever the inventory answers, keeps the invariant. */
  lemma {:induction false} RunKeeps(db: DB, steps: seq<Step>)
    requires Inv(db)
    ensures Inv(Run(db, steps))
  {
    hide Inv;
    if steps == [] {
    } else {
      RunKeeps(db, steps[..|steps| - 1]);
      StepKeeps(Run(db, steps[..|steps| - 1]), steps[|steps| - 1]);
    }
  }
}
