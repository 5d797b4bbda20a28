/** What the saga promises about every run from the empty database. */
module SagaTheorems {
  import opened States
  import opened Saga
  import opened SagaInv

  /** Money received is money sold plus money refunded, after any webhooks in any order. */
  lemma MoneyIsConserved(steps: seq<Step>)
    ensures var db := Run(EMPTY, steps); Received(db) == Revenue(db) + Refundable(db)
  {
    EmptyInv();
    RunKeeps(EMPTY, steps);
  }

  /** One ticket per seat at most; an order has a ticket for a seat exactly when it is sold and named that seat. */
  lemma TicketsAreExact(steps: seq<Step>, id: OrderId, seat: Seat)
    ensures var db := Run(EMPTY, steps);
      && (forall i, j :: 0 <= i < j < |db.tickets| ==> db.tickets[i].seat != db.tickets[j].seat)
      && (HasTicket(db, id, seat) <==> id in db.orders && Sold(db.orders[id].status) && seat in db.orders[id].seats)
  {
    var db := Run(EMPTY, steps);
    EmptyInv();
    RunKeeps(EMPTY, steps);
    if id in db.orders && Sold(db.orders[id].status) && seat in db.orders[id].seats {
      var k :| 0 <= k < |db.orders[id].seats| && db.orders[id].seats[k] == seat;
      assert HasTicket(db, id, db.orders[id].seats[k]);
    }
  }

  /** Replaying an order's events gives its status by listed transitions only, at most three of them. */
  lemma ReplayIsTheStatus(steps: seq<Step>, id: OrderId)
    ensures var db := Run(EMPTY, steps); var h := History(db.outbox, id);
      && (id !in db.orders <==> h == [])
      && LegalChain(h) && |h| <= 4
      && (forall i, j :: 0 <= i < j < |h| ==> h[i] != h[j])
      && (id in db.orders ==> h[0] == Held && h[|h| - 1] == db.orders[id].status)
  {
    var db := Run(EMPTY, steps);
    EmptyInv();
    RunKeeps(EMPTY, steps);
    assert Replays(db, id);
    LegalHistoryIsShort(History(db.outbox, id));
  }

  /** Order id was created or moved between db and d. */
  ghost predicate Moved(db: DB, d: DB, id: OrderId) {
    id in d.orders && (id !in db.orders || db.orders[id].status != d.orders[id].status)
  }

  /** Exactly one more status was announced for id if it moved, namely the new one, and none otherwise. */
  ghost predicate AnnouncedMove(db: DB, d: DB, id: OrderId) {
    History(d.outbox, id) == if Moved(db, d, id) then History(db.outbox, id) + [d.orders[id].status] else History(db.outbox, id)
  }

  lemma EmitAnnounces(db: DB, d: DB, e: Event, id: OrderId)
    requires EventsReplay(db) && EventsReplay(d)
    requires db.orders.Keys <= d.orders.Keys
    requires d.outbox == db.outbox + [e]
    ensures AnnouncedMove(db, d, id)
  {
    assert Replays(db, id) && Replays(d, id);
    HistoryEmit(db.outbox, e, id);
    var h, n := History(d.outbox, id), |History(db.outbox, id)|;
    LegalHistoryIsShort(h);
    assert |h| == n + 1 && n > 0 ==> h[n - 1] == History(db.outbox, id)[n - 1] != h[n];
  }

  /** A single transaction either leaves orders and outbox alone or appends one event. */
  lemma StepEmits(db: DB, step: Step) returns (e: Event)
    requires !step.DoExpire?
    ensures db.orders.Keys <= Apply(db, step).orders.Keys
    ensures Apply(db, step).outbox == db.outbox + [e] || (Apply(db, step).outbox == db.outbox && Apply(db, step).orders == db.orders)
  {
    var d := Apply(db, step);
    e := if |d.outbox| > |db.outbox| then d.outbox[|db.outbox|] else TicketIssued(0);
  }

  lemma {:induction false} ExpireAnnounces(db: DB, due: seq<OrderId>, now: int, id: OrderId)
    requires Inv(db)
    ensures AnnouncedMove(db, Expire(db, due, now), id)
    ensures Expire(db, due, now).orders.Keys == db.orders.Keys
    ensures Moved(db, Expire(db, due, now), id) ==> Expire(db, due, now).orders[id].status == Expired
  {
    hide OrderClauses, TicketClauses, PaymentsSound, AppliedOnce, UndoneOnce, RefundEvents, Conserved, EventsReplay;
    if due == [] {
    } else {
      var prev := Expire(db, due[..|due| - 1], now);
      ExpireAnnounces(db, due[..|due| - 1], now, id);
      ExpireKeeps(db, due[..|due| - 1], now);
      ExpireKeeps(db, due, now);
      if Due(prev, due[|due| - 1], now) {
        EmitAnnounces(prev, Expire(db, due, now), OrderExpired(due[|due| - 1]), id);
      }
    }
  }

  /** Every transaction, batches included, announces each move of each order exactly once. */
  lemma MovesAreAnnouncedOnce(steps: seq<Step>, step: Step, id: OrderId)
    ensures AnnouncedMove(Run(EMPTY, steps), Apply(Run(EMPTY, steps), step), id)
  {
    hide OrderClauses, TicketClauses, PaymentsSound, AppliedOnce, UndoneOnce, RefundEvents, Conserved, EventsReplay, Apply;
    var db := Run(EMPTY, steps);
    var d := Apply(db, step);
    EmptyInv();
    RunKeeps(EMPTY, steps);
    StepKeeps(db, step);
    if step.DoExpire? {
      ExpireAnnounces(db, step.due, step.now, id);
      assert d == Expire(db, step.due, step.now) by { ExpireIsApply(db, step); }
    } else {
      var e := StepEmits(db, step);
      if d.outbox == db.outbox + [e] {
        EmitAnnounces(db, d, e, id);
      }
    }
  }

  lemma ExpireIsApply(db: DB, step: Step)
    requires step.DoExpire?
    ensures Apply(db, step) == Expire(db, step.due, step.now)
  {
  }

  /** Rows of payments are never rewritten or removed. */
  lemma {:induction false} PaymentsStay(db: DB, steps: seq<Step>, t: Txn)
    requires t in db.payments
    ensures t in Run(db, steps).payments && Run(db, steps).payments[t] == db.payments[t]
  {
    if steps == [] {
    } else {
      PaymentsStay(db, steps[..|steps| - 1], t);
      StepKeepsPayment(Run(db, steps[..|steps| - 1]), steps[|steps| - 1], t);
    }
  }

  lemma StepKeepsPayment(db: DB, step: Step, t: Txn)
    requires t in db.payments
    ensures t in Apply(db, step).payments && Apply(db, step).payments[t] == db.payments[t]
  {
    if step.DoExpire? {
      ExpireKeepsPayments(db, step.due, step.now);
    }
  }

  lemma {:induction false} ExpireKeepsPayments(db: DB, due: seq<OrderId>, now: int)
    ensures Expire(db, due, now).payments == db.payments
  {
    if due == [] {
    } else {
      ExpireKeepsPayments(db, due[..|due| - 1], now);
    }
  }

  /** Once a transaction id is recorded, every later delivery of it changes no table, whatever happened in between. */
  lemma DecidedOnce(steps: seq<Step>, p: Webhook, at: int, reply: HoldReply, later: seq<Step>, q: Webhook, again: int, answer: HoldReply)
    requires Pay(Run(EMPTY, steps), p, at, reply).result.Recorded?
    requires q.txn == p.txn
    ensures var db := Run(Pay(Run(EMPTY, steps), p, at, reply).db, later);
      && p.txn in db.payments
      && Pay(db, q, again, answer).db == db
      && !Pay(db, q, again, answer).result.Recorded?
      && db.payments[p.txn].outcome == Pay(Run(EMPTY, steps), p, at, reply).result.outcome
  {
    PaymentsStay(Pay(Run(EMPTY, steps), p, at, reply).db, later, p.txn);
  }

  /** Per order: one applied payment iff sold, one undoing refund iff refunding or refunded, and REFUNDED iff it succeeded. */
  lemma MoneyPerOrder(steps: seq<Step>, id: OrderId)
    ensures var db := Run(EMPTY, steps);
      && (forall t, u :: AppliedTo(db, t, id) && AppliedTo(db, u, id) ==> t == u)
      && (forall t, u :: Undoes(db, t, id) && Undoes(db, u, id) ==> t == u)
      && ((exists t :: AppliedTo(db, t, id)) <==> id in db.orders && Sold(db.orders[id].status))
      && ((exists t :: Undoes(db, t, id)) <==> id in db.orders && IsRefund(db.orders[id].status))
      && ((exists t :: Undoes(db, t, id) && db.refunds[t].status == Succeeded)
          <==> id in db.orders && db.orders[id].status == Refunded)
  {
    EmptyInv();
    RunKeeps(EMPTY, steps);
  }

  /** No committed payment is undecided, and a failed one never has a refund. */
  lemma EveryPaymentIsDecided(steps: seq<Step>, t: Txn)
    requires t in Run(EMPTY, steps).payments
    ensures var db := Run(EMPTY, steps); var p := db.payments[t];
      && p.outcome != Undecided
      && (p.outcome == RefundRequired <==> t in db.refunds)
      && (p.outcome == IgnoredFailed <==> !p.succeeded)
  {
    EmptyInv();
    RunKeeps(EMPTY, steps);
  }
}
