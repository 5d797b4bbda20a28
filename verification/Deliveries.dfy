/**
 Redelivered records run concurrently. Every handler is a series of atomic actions: the issuing transaction for
 order.paid, and a gateway call and a completing transaction for order.refund_requested. Any interleaving of any
 number of handlers is a sequence of such actions; where it ends depends only on which actions occur in it.
 */
module Deliveries {
  import opened States
  import opened Saga
  import opened SagaInv

  datatype Action = IssueFor(id: OrderId) | AskFor(txn: Txn) | CompleteFor(txn: Txn)

  datatype Side = Side(db: DB, gateway: map<Txn, int>)

  function Act(s: Side, a: Action): Side {
    match a
    case IssueFor(id) => s.(db := Issue(s.db, id))
    case AskFor(t) =>
      if t in s.db.refunds && t !in s.gateway then s.(gateway := s.gateway[t := s.db.refunds[t].amount]) else s
    case CompleteFor(t) => s.(db := Complete(s.db, t))
  }

  function ActAll(s: Side, acts: seq<Action>): Side {
    if acts == [] then s else Act(ActAll(s, acts[..|acts| - 1]), acts[|acts| - 1])
  }

  // ---- where a set of actions leads -------------------------------------------

  ghost predicate Undone(db: DB, done: set<Action>, id: OrderId) {
    exists t :: CompleteFor(t) in done && Undoes(db, t, id)
  }

  ghost function FinalStatus(db: DB, done: set<Action>, id: OrderId): Status
    requires id in db.orders
  {
    var s := db.orders[id].status;
    if s == Paid && IssueFor(id) in done then Ticketed
    else if s == Refunding && Undone(db, done, id) then Refunded
    else s
  }

  ghost predicate OrdersReached(db: DB, d: DB, done: set<Action>) {
    && d.orders.Keys == db.orders.Keys
    && (forall id :: id in db.orders ==> d.orders[id] == db.orders[id].(status := FinalStatus(db, done, id)))
  }

  ghost predicate RefundsReached(db: DB, d: DB, done: set<Action>) {
    && d.payments == db.payments
    && d.refunds.Keys == db.refunds.Keys
    && (forall t :: t in db.refunds ==>
          d.refunds[t] == if CompleteFor(t) in done then db.refunds[t].(status := Succeeded) else db.refunds[t])
  }

  ghost predicate TicketsReached(db: DB, d: DB, done: set<Action>) {
    && |d.tickets| == |db.tickets|
    && (forall i :: 0 <= i < |db.tickets| ==>
          d.tickets[i] == db.tickets[i].(issued := db.tickets[i].issued || IssueFor(db.tickets[i].order) in done))
  }

  function IssuedNow(db: DB, done: set<Action>): set<Event> {
    set id | id in db.orders && db.orders[id].status == Paid && IssueFor(id) in done :: TicketIssued(id)
  }

  function RefundedNow(db: DB, done: set<Action>): set<Event> {
    set t | t in db.refunds && db.refunds[t].status == Pending && CompleteFor(t) in done :: ReceiptOf(t, db.refunds[t])
  }

  ghost predicate EventsReached(db: DB, d: DB, done: set<Action>) {
    multiset(d.outbox) == multiset(db.outbox) + multiset(IssuedNow(db, done)) + multiset(RefundedNow(db, done))
  }

  ghost predicate GatewayReached(s: Side, g: map<Txn, int>, done: set<Action>) {
    && (forall t :: t in g <==> t in s.gateway || (t in s.db.refunds && AskFor(t) in done))
    && (forall t :: t in g ==> g[t] == if t in s.gateway then s.gateway[t] else s.db.refunds[t].amount)
  }

  /** From s, exactly the actions in done have had their effect, each once. */
  ghost predicate Reached(s: Side, u: Side, done: set<Action>) {
    && OrdersReached(s.db, u.db, done)
    && RefundsReached(s.db, u.db, done)
    && TicketsReached(s.db, u.db, done)
    && EventsReached(s.db, u.db, done)
    && GatewayReached(s, u.gateway, done)
  }

  /** Completing refund t would move its order. */
  ghost predicate MovesOrder(db: DB, t: Txn) {
    && t in db.refunds
    && Undoes(db, t, db.refunds[t].order)
    && db.refunds[t].order in db.orders
    && db.orders[db.refunds[t].order].status == Refunding
  }

  // ---- actions that leave a part alone ------------------------------------------

  lemma OrdersUntouched(db: DB, d: DB, e: DB, done: set<Action>, a: Action)
    requires OrdersReached(db, d, done) && e.orders == d.orders
    requires a.IssueFor? ==> a in done || a.id !in db.orders || db.orders[a.id].status != Paid
    requires a.CompleteFor? && a !in done ==> !MovesOrder(db, a.txn)
    ensures OrdersReached(db, e, done + {a})
  {
    forall id | id in db.orders ensures FinalStatus(db, done + {a}, id) == FinalStatus(db, done, id) {
      if db.orders[id].status == Refunding {
        assert Undone(db, done + {a}, id) <==> Undone(db, done, id);
      }
    }
  }

  lemma EventsUntouched(db: DB, d: DB, e: DB, done: set<Action>, a: Action)
    requires EventsReached(db, d, done) && e.outbox == d.outbox
    requires a.IssueFor? ==> a in done || a.id !in db.orders || db.orders[a.id].status != Paid
    requires a.CompleteFor? ==> a in done || a.txn !in db.refunds || db.refunds[a.txn].status != Pending
    ensures EventsReached(db, e, done + {a})
  {
    assert IssuedNow(db, done + {a}) == IssuedNow(db, done);
    assert RefundedNow(db, done + {a}) == RefundedNow(db, done);
  }

  lemma CountOne(d: DB, e: DB, x: Event)
    requires e.outbox == d.outbox + [x]
    ensures multiset(e.outbox) == multiset(d.outbox) + multiset{x}
  {
  }

  // ---- one action ----------------------------------------------------------------

  lemma PaidIsIssuable(d: DB, id: OrderId)
    requires OrdersSane(d) && TicketsComplete(d) && id in d.orders && d.orders[id].status == Paid
    ensures exists i :: 0 <= i < |d.tickets| && d.tickets[i].order == id
  {
    assert GoodSeats(d.orders[id].event, d.orders[id].seats);
    assert HasTicket(d, id, d.orders[id].seats[0]);
  }

  /** The order is still waiting for its tickets: the action is new and its order was paid. */
  ghost predicate ToIssue(db: DB, done: set<Action>, id: OrderId) {
    id in db.orders && db.orders[id].status == Paid && IssueFor(id) !in done
  }

  lemma IssueOrders(db: DB, d: DB, done: set<Action>, id: OrderId)
    requires OrdersReached(db, d, done)
    requires ToIssue(db, done, id) ==> exists i :: 0 <= i < |d.tickets| && d.tickets[i].order == id
    ensures OrdersReached(db, Issue(d, id), done + {IssueFor(id)})
    ensures !ToIssue(db, done, id) ==> Issue(d, id) == d
    ensures ToIssue(db, done, id) ==> Issue(d, id).outbox == d.outbox + [TicketIssued(id)]
  {
    if ToIssue(db, done, id) {
      forall j | j in db.orders && j != id
        ensures FinalStatus(db, done + {IssueFor(id)}, j) == FinalStatus(db, done, j)
      {
        assert Undone(db, done + {IssueFor(id)}, j) <==> Undone(db, done, j);
      }
    } else {
      OrdersUntouched(db, d, d, done, IssueFor(id));
    }
  }

  /** Tickets of orders that are not waiting are issued already, or there are none. */
  lemma IssueTickets(db: DB, d: DB, done: set<Action>, id: OrderId)
    requires TicketsSound(db) && TicketsReached(db, d, done)
    requires !ToIssue(db, done, id) ==> Issue(d, id) == d
    requires ToIssue(db, done, id) ==> Issue(d, id).tickets == IssuedTickets(d.tickets, id)
    ensures TicketsReached(db, Issue(d, id), done + {IssueFor(id)})
  {
  }

  lemma IssueEvents(db: DB, d: DB, e: DB, done: set<Action>, id: OrderId)
    requires EventsReached(db, d, done) && ToIssue(db, done, id)
    requires e.outbox == d.outbox + [TicketIssued(id)]
    ensures EventsReached(db, e, done + {IssueFor(id)})
  {
    assert RefundedNow(db, done + {IssueFor(id)}) == RefundedNow(db, done);
    assert TicketIssued(id) !in IssuedNow(db, done);
    assert IssuedNow(db, done + {IssueFor(id)}) == IssuedNow(db, done) + {TicketIssued(id)};
    CountOne(d, e, TicketIssued(id));
  }

  lemma RefundsUntouched(db: DB, d: DB, e: DB, done: set<Action>, a: Action)
    requires RefundsReached(db, d, done) && e.payments == d.payments && e.refunds == d.refunds
    requires a.CompleteFor? ==> a in done || a.txn !in db.refunds || db.refunds[a.txn].status == Succeeded
    ensures RefundsReached(db, e, done + {a})
  {
  }

  lemma GatewayUntouched(s: Side, g: map<Txn, int>, done: set<Action>, a: Action)
    requires GatewayReached(s, g, done) && !a.AskFor?
    ensures GatewayReached(s, g, done + {a})
  {
  }

  lemma IssueReached(s: Side, u: Side, done: set<Action>, id: OrderId)
    requires Inv(s.db) && Inv(u.db) && Reached(s, u, done)
    ensures Reached(s, Act(u, IssueFor(id)), done + {IssueFor(id)})
  {
    hide OrdersSane, KeysUnique, TicketsSound, TicketsComplete, PaymentsSound, AppliedOnce, UndoneOnce, EventClauses, Conserved;
    hide RefundsReached, TicketsReached, EventsReached, GatewayReached, FinalStatus, IssuedTickets;
    if ToIssue(s.db, done, id) {
      StillPaid(s.db, u.db, done, id);
      PaidIsIssuable(u.db, id);
    }
    IssueOrders(s.db, u.db, done, id);
    IssueTickets(s.db, u.db, done, id);
    RefundsUntouched(s.db, u.db, Issue(u.db, id), done, IssueFor(id));
    GatewayUntouched(s, u.gateway, done, IssueFor(id));
    if ToIssue(s.db, done, id) {
      IssueEvents(s.db, u.db, Issue(u.db, id), done, id);
    } else {
      EventsUntouched(s.db, u.db, Issue(u.db, id), done, IssueFor(id));
    }
  }

  lemma StillPaid(db: DB, d: DB, done: set<Action>, id: OrderId)
    requires OrdersReached(db, d, done) && ToIssue(db, done, id)
    ensures id in d.orders && d.orders[id].status == Paid
  {
  }

  /** The refund is still outstanding: the action is new and its refund was pending. */
  ghost predicate ToComplete(db: DB, done: set<Action>, t: Txn) {
    t in db.refunds && db.refunds[t].status == Pending && CompleteFor(t) !in done
  }

  /** As long as its own refund is outstanding, no other action has undone the order. */
  lemma StillRefunding(db: DB, d: DB, done: set<Action>, t: Txn)
    requires UndoneOnce(db) && OrdersReached(db, d, done) && ToComplete(db, done, t) && Undoes(db, t, db.refunds[t].order)
    ensures db.refunds[t].order in d.orders && d.orders[db.refunds[t].order].status == Refunding
  {
    var id := db.refunds[t].order;
    assert db.orders[id].status == Refunding;
    assert !Undone(db, done, id);
  }

  lemma CompleteOrders(db: DB, d: DB, e: DB, done: set<Action>, t: Txn)
    requires OrdersReached(db, d, done) && ToComplete(db, done, t) && Undoes(db, t, db.refunds[t].order)
    requires var id := db.refunds[t].order;
      && id in db.orders && db.orders[id].status == Refunding
      && e.orders == d.orders[id := d.orders[id].(status := Refunded)]
    ensures OrdersReached(db, e, done + {CompleteFor(t)})
  {
    var id := db.refunds[t].order;
    assert Undone(db, done + {CompleteFor(t)}, id);
    forall j | j in db.orders && j != id
      ensures FinalStatus(db, done + {CompleteFor(t)}, j) == FinalStatus(db, done, j)
    {
      assert Undone(db, done + {CompleteFor(t)}, j) <==> Undone(db, done, j);
    }
  }

  lemma CompleteRefunds(db: DB, d: DB, e: DB, done: set<Action>, t: Txn)
    requires RefundsReached(db, d, done) && ToComplete(db, done, t)
    requires e.payments == d.payments && e.refunds == d.refunds[t := db.refunds[t].(status := Succeeded)]
    ensures RefundsReached(db, e, done + {CompleteFor(t)})
  {
  }

  lemma CompleteEvents(db: DB, d: DB, e: DB, done: set<Action>, t: Txn)
    requires EventsReached(db, d, done) && ToComplete(db, done, t)
    requires e.outbox == d.outbox + [ReceiptOf(t, db.refunds[t])]
    ensures EventsReached(db, e, done + {CompleteFor(t)})
  {
    var x := ReceiptOf(t, db.refunds[t]);
    assert IssuedNow(db, done + {CompleteFor(t)}) == IssuedNow(db, done);
    assert x !in RefundedNow(db, done);
    assert RefundedNow(db, done + {CompleteFor(t)}) == RefundedNow(db, done) + {x};
    CountOne(d, e, x);
  }

  lemma TicketsUntouched(db: DB, d: DB, e: DB, done: set<Action>, a: Action)
    requires TicketsReached(db, d, done) && e.tickets == d.tickets && !a.IssueFor?
    ensures TicketsReached(db, e, done + {a})
  {
  }

  /** What the completing transaction finds: the refund as it was, or nothing to do. */
  lemma StillPending(db: DB, d: DB, done: set<Action>, t: Txn)
    requires PaymentsSound(db) && RefundsReached(db, d, done) && d.orders.Keys == db.orders.Keys
    ensures ToComplete(db, done, t) ==> t in d.refunds && d.refunds[t] == db.refunds[t] && d.refunds[t].order in d.orders
    ensures !ToComplete(db, done, t) ==> t !in d.refunds || d.refunds[t].status == Succeeded
  {
  }

  lemma NothingToComplete(db: DB, d: DB, done: set<Action>, t: Txn)
    requires UndoneOnce(db) && OrdersReached(db, d, done) && !ToComplete(db, done, t)
    ensures OrdersReached(db, d, done + {CompleteFor(t)})
  {
    if t in db.refunds {
      assert db.refunds[t].reason != DoublePayment ==> Undoes(db, t, db.refunds[t].order);
    }
    OrdersUntouched(db, d, d, done, CompleteFor(t));
  }

  lemma CompletedOrders(db: DB, d: DB, done: set<Action>, t: Txn)
    requires UndoneOnce(db) && OrdersReached(db, d, done) && ToComplete(db, done, t)
    requires t in d.refunds && d.refunds[t] == db.refunds[t] && d.refunds[t].order in d.orders
    ensures OrdersReached(db, Complete(d, t), done + {CompleteFor(t)})
  {
    hide FinalStatus;
    if Undoes(db, t, db.refunds[t].order) {
      StillRefunding(db, d, done, t);
      CompleteOrders(db, d, Complete(d, t), done, t);
    } else {
      OrdersUntouched(db, d, Complete(d, t), done, CompleteFor(t));
    }
  }

  lemma CompleteReached(s: Side, u: Side, done: set<Action>, t: Txn)
    requires Inv(s.db) && Reached(s, u, done)
    ensures Reached(s, Act(u, CompleteFor(t)), done + {CompleteFor(t)})
  {
    hide OrderClauses, TicketClauses, PaymentsSound, AppliedOnce, UndoneOnce, EventClauses, Conserved;
    hide OrdersReached, RefundsReached, TicketsReached, EventsReached, GatewayReached;
    assert u.db.orders.Keys == s.db.orders.Keys by { SameOrders(s.db, u.db, done); }
    StillPending(s.db, u.db, done, t);
    TicketsUntouched(s.db, u.db, Complete(u.db, t), done, CompleteFor(t));
    GatewayUntouched(s, u.gateway, done, CompleteFor(t));
    if ToComplete(s.db, done, t) {
      CompletedOrders(s.db, u.db, done, t);
      CompleteRefunds(s.db, u.db, Complete(u.db, t), done, t);
      CompleteEvents(s.db, u.db, Complete(u.db, t), done, t);
    } else {
      NothingToComplete(s.db, u.db, done, t);
      RefundsUntouched(s.db, u.db, u.db, done, CompleteFor(t));
      EventsUntouched(s.db, u.db, u.db, done, CompleteFor(t));
    }
  }

  lemma SameOrders(db: DB, d: DB, done: set<Action>)
    requires OrdersReached(db, d, done)
    ensures d.orders.Keys == db.orders.Keys
  {
  }

  lemma AskGateway(s: Side, u: Side, done: set<Action>, t: Txn)
    requires RefundsReached(s.db, u.db, done) && GatewayReached(s, u.gateway, done)
    ensures GatewayReached(s, Act(u, AskFor(t)).gateway, done + {AskFor(t)})
  {
  }

  lemma AskReached(s: Side, u: Side, done: set<Action>, t: Txn)
    requires Reached(s, u, done)
    ensures Reached(s, Act(u, AskFor(t)), done + {AskFor(t)})
  {
    hide OrdersReached, RefundsReached, TicketsReached, EventsReached, GatewayReached;
    OrdersUntouched(s.db, u.db, u.db, done, AskFor(t));
    RefundsUntouched(s.db, u.db, u.db, done, AskFor(t));
    TicketsUntouched(s.db, u.db, u.db, done, AskFor(t));
    EventsUntouched(s.db, u.db, u.db, done, AskFor(t));
    AskGateway(s, u, done, t);
  }

  lemma ActReached(s: Side, u: Side, done: set<Action>, a: Action)
    requires Inv(s.db) && Inv(u.db) && Reached(s, u, done)
    ensures Inv(Act(u, a).db) && Reached(s, Act(u, a), done + {a})
  {
    hide Inv, Reached;
    match a
    case IssueFor(id) =>
      IssueKeeps(u.db, id);
      IssueReached(s, u, done, id);
    case AskFor(t) => AskReached(s, u, done, t);
    case CompleteFor(t) =>
      CompleteKeeps(u.db, t);
      CompleteReached(s, u, done, t);
  }

  // ---- any interleaving -----------------------------------------------------------

  function ActionsOf(acts: seq<Action>): set<Action> {
    set a | a in acts
  }

  lemma NothingReached(s: Side)
    ensures Reached(s, s, {})
  {
  }

  lemma {:induction false} AllReached(s: Side, acts: seq<Action>)
    requires Inv(s.db)
    ensures Inv(ActAll(s, acts).db) && Reached(s, ActAll(s, acts), ActionsOf(acts))
  {
    hide Inv, Reached;
    if acts == [] {
      NothingReached(s);
      assert ActionsOf([]) == {};
    } else {
      var n := |acts| - 1;
      AllReached(s, acts[..n]);
      ActReached(s, ActAll(s, acts[..n]), ActionsOf(acts[..n]), acts[n]);
      assert acts == acts[..n] + [acts[n]];
      assert ActionsOf(acts) == ActionsOf(acts[..n]) + {acts[n]};
    }
  }

  lemma ReachedTables(db: DB, x: DB, y: DB, done: set<Action>)
    requires OrdersReached(db, x, done) && OrdersReached(db, y, done)
    requires RefundsReached(db, x, done) && RefundsReached(db, y, done)
    requires TicketsReached(db, x, done) && TicketsReached(db, y, done)
    ensures x.orders == y.orders && x.payments == y.payments && x.refunds == y.refunds && x.tickets == y.tickets
  {
    hide FinalStatus;
  }

  lemma ReachedGateway(s: Side, g: map<Txn, int>, h: map<Txn, int>, done: set<Action>)
    requires GatewayReached(s, g, done) && GatewayReached(s, h, done)
    ensures g == h
  {
  }

  /**
   Two interleavings of handlers in which the same actions occur, however often and in whatever order, leave the
   same tables, the same events as a bag, and the same gateway refunds.
   */
  lemma RedeliveryConverges(s: Side, xs: seq<Action>, ys: seq<Action>)
    requires Inv(s.db) && ActionsOf(xs) == ActionsOf(ys)
    ensures var x, y := ActAll(s, xs), ActAll(s, ys);
      && x.db.orders == y.db.orders && x.db.payments == y.db.payments && x.db.refunds == y.db.refunds
      && x.db.tickets == y.db.tickets
      && multiset(x.db.outbox) == multiset(y.db.outbox)
      && x.gateway == y.gateway
  {
    hide Inv, OrdersReached, RefundsReached, TicketsReached, GatewayReached;
    AllReached(s, xs);
    AllReached(s, ys);
    var x, y := ActAll(s, xs), ActAll(s, ys);
    ReachedTables(s.db, x.db, y.db, ActionsOf(xs));
    ReachedGateway(s, x.gateway, y.gateway, ActionsOf(xs));
  }

  // ---- one event each ---------------------------------------------------------------

  /** ticket.issued occurs as often as the history announces TICKETED. */
  lemma {:induction false} IssuedIsAnnounced(outbox: seq<Event>, id: OrderId)
    ensures multiset(outbox)[TicketIssued(id)] == multiset(History(outbox, id))[Ticketed]
  {
    if outbox == [] {
    } else {
      var n := |outbox| - 1;
      var e := outbox[n];
      IssuedIsAnnounced(outbox[..n], id);
      assert outbox == outbox[..n] + [e];
      assert multiset(outbox) == multiset(outbox[..n]) + multiset{e};
      HistoryEmit(outbox[..n], e, id);
    }
  }

  lemma {:induction false} OnceInDistinct(h: seq<Status>, s: Status)
    requires forall i, j :: 0 <= i < j < |h| ==> h[i] != h[j]
    ensures multiset(h)[s] == if s in h then 1 else 0
  {
    if h == [] {
    } else {
      var n := |h| - 1;
      assert h == h[..n] + [h[n]];
      OnceInDistinct(h[..n], s);
    }
  }

  lemma IssuedOnce(db: DB, id: OrderId)
    requires EventsReplay(db) && id in db.orders
    ensures multiset(db.outbox)[TicketIssued(id)] == if db.orders[id].status == Ticketed then 1 else 0
  {
    assert Replays(db, id);
    var h := History(db.outbox, id);
    IssuedIsAnnounced(db.outbox, id);
    LegalHistoryIsShort(h);
    OnceInDistinct(h, Ticketed);
    HistoryMilestones(h);
  }

  /** However often the records are handled, a ticketed order has one ticket.issued and a completed refund one order.refunded. */
  lemma OneEventEach(s: Side, acts: seq<Action>, id: OrderId, t: Txn)
    requires Inv(s.db)
    ensures var d := ActAll(s, acts).db;
      && (id in d.orders ==> multiset(d.outbox)[TicketIssued(id)] == if d.orders[id].status == Ticketed then 1 else 0)
      && (t in d.refunds ==>
            multiset(d.outbox)[ReceiptOf(t, d.refunds[t])] == if d.refunds[t].status == Succeeded then 1 else 0)
  {
    hide OrderClauses, TicketClauses, PaymentsSound, AppliedOnce, UndoneOnce, EventsReplay, Conserved, Reached;
    AllReached(s, acts);
    var d := ActAll(s, acts).db;
    if id in d.orders {
      IssuedOnce(d, id);
    }
  }
}
