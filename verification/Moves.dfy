/** The transition table against the transactions: every listed transition is taken by some run, and no other ever is. */
module Moves {
  import opened States
  import opened Saga
  import opened SagaInv
  import opened SagaTheorems
  import PaymentRules

  /** After this run, this transaction moves order id from one status to another. */
  ghost predicate Takes(steps: seq<Step>, step: Step, id: OrderId, a: Status, b: Status) {
    var db := Run(EMPTY, steps);
    id in db.orders && db.orders[id].status == a && id in Apply(db, step).orders && Apply(db, step).orders[id].status == b
  }

  // ---- only listed transitions ----------------------------------------------------------

  lemma OnlyListed(steps: seq<Step>, step: Step, id: OrderId, a: Status, b: Status)
    requires Takes(steps, step, id, a, b) && a != b
    ensures CanTransition(a, b)
  {
    var db := Run(EMPTY, steps);
    hide Run, Apply;
    EmptyInv();
    RunKeeps(EMPTY, steps);
    StepKeeps(db, step);
    MovesAreAnnouncedOnce(steps, step, id);
    LastMoveIsLegal(db, Apply(db, step), id);
  }

  lemma LastMoveIsLegal(db: DB, d: DB, id: OrderId)
    requires Inv(db) && Inv(d) && AnnouncedMove(db, d, id) && id in db.orders && Moved(db, d, id)
    ensures CanTransition(db.orders[id].status, d.orders[id].status)
  {
    hide OrderClauses, TicketClauses, PaymentsSound, AppliedOnce, UndoneOnce, RefundEvents, Conserved;
    assert Replays(db, id) && Replays(d, id);
    var h := History(d.outbox, id);
    assert CanTransition(h[|h| - 2], h[|h| - 1]);
  }

  // ---- every listed transition ------------------------------------------------------------

  const SEAT := Seat(1, "A")
  const ORDER := Order(1, 1, Held, 5, "k", "h", 9, [SEAT])

  function Money(amount: int): Webhook {
    Webhook("a", 1, amount, true)
  }

  /** The one order in status s, its seat unsold and no money received yet. */
  ghost predicate Open(db: DB, s: Status) {
    db.orders == map[1 := ORDER.(status := s)] && db.tickets == [] && db.payments == map[] && db.refunds == map[]
  }

  lemma Then(steps: seq<Step>, step: Step)
    ensures Run(EMPTY, steps + [step]) == Apply(Run(EMPTY, steps), step)
  {
    assert (steps + [step])[..|steps|] == steps;
  }

  lemma Placed() returns (steps: seq<Step>)
    ensures Open(Run(EMPTY, steps), Held)
  {
    assert GoodSeats(1, [SEAT]);
    assert CanPlace(EMPTY, 1, ORDER);
    Then([], DoPlace(1, ORDER));
    steps := [] + [DoPlace(1, ORDER)];
  }

  lemma CancelMoves(db: DB)
    requires Open(db, Held)
    ensures Open(Apply(db, DoCancel(1, 1)), Cancelled)
  {
  }

  lemma ExpireMoves(db: DB)
    requires Open(db, Held)
    ensures Open(Apply(db, DoExpire([1], 10)), Expired)
  {
    assert [1][..0] == [];
    assert Expire(db, [1], 10) == ExpireOne(db, 1, 10);
  }

  /** Money for an open order moves it as the rules say. */
  lemma MoneyMoves(db: DB, s: Status, amount: int, at: int, reply: HoldReply, to: Status)
    requires Open(db, s) && s in {Held, Expired, Cancelled} && amount > 0 && !(PaymentRules.Late(ORDER.(status := s), at) && reply == HoldFailed)
    requires to == if amount == 5 && s != Cancelled && !(PaymentRules.Late(ORDER.(status := s), at) && reply == HoldTaken) then Paid else Refunding
    ensures var d := Apply(db, DoPay(Money(amount), at, reply));
      && 1 in d.orders && d.orders[1].status == to
      && (to == Paid ==> d.tickets == [Ticket(1, SEAT, false)])
      && (to == Refunding ==> "a" in d.refunds && d.refunds["a"].order == 1 && d.refunds["a"].status == Pending && d.refunds["a"].reason != DoublePayment)
  {
    hide Pay;
    assert |"a"| == 1;
    PaymentRules.PaymentsFollowTheRules(db, Money(amount), at, reply);
  }

  lemma OpenIn(s: Status) returns (steps: seq<Step>)
    requires s in {Held, Expired, Cancelled}
    ensures Open(Run(EMPTY, steps), s)
  {
    hide Run, Apply;
    steps := Placed();
    if s == Cancelled {
      CancelMoves(Run(EMPTY, steps));
      Then(steps, DoCancel(1, 1));
      steps := steps + [DoCancel(1, 1)];
    } else if s == Expired {
      ExpireMoves(Run(EMPTY, steps));
      Then(steps, DoExpire([1], 10));
      steps := steps + [DoExpire([1], 10)];
    }
  }

  lemma OpenMoves(a: Status, b: Status) returns (steps: seq<Step>, step: Step)
    requires CanTransition(a, b) && a in {Held, Expired, Cancelled}
    ensures Takes(steps, step, 1, a, b)
  {
    hide Run, Apply;
    steps := OpenIn(a);
    var db := Run(EMPTY, steps);
    if b == Cancelled {
      step := DoCancel(1, 1);
      CancelMoves(db);
    } else if b == Expired {
      step := DoExpire([1], 10);
      ExpireMoves(db);
    } else if b == Paid {
      step := DoPay(Money(5), 0, HoldGranted);
      MoneyMoves(db, a, 5, 0, HoldGranted, Paid);
    } else {
      step := DoPay(Money(4), 0, HoldGranted);
      MoneyMoves(db, a, 4, 0, HoldGranted, Refunding);
    }
  }

  lemma IssueMoves(db: DB)
    requires 1 in db.orders && db.orders[1].status == Paid && db.tickets == [Ticket(1, SEAT, false)]
    ensures 1 in Apply(db, DoIssue(1)).orders && Apply(db, DoIssue(1)).orders[1].status == Ticketed
  {
    assert db.tickets[0].order == 1;
  }

  lemma CompleteMoves(db: DB)
    requires 1 in db.orders && db.orders[1].status == Refunding && "a" in db.refunds
    requires db.refunds["a"].order == 1 && db.refunds["a"].status == Pending && db.refunds["a"].reason != DoublePayment
    ensures 1 in Apply(db, DoComplete("a")).orders && Apply(db, DoComplete("a")).orders[1].status == Refunded
  {
  }

  lemma ConsumerMoves(a: Status, b: Status) returns (steps: seq<Step>, step: Step)
    requires CanTransition(a, b) && a in {Paid, Refunding}
    ensures Takes(steps, step, 1, a, b)
  {
    hide Run, Apply;
    steps := OpenIn(Held);
    var pay := DoPay(Money(if a == Paid then 5 else 4), 0, HoldGranted);
    MoneyMoves(Run(EMPTY, steps), Held, pay.p.amount, 0, HoldGranted, a);
    Then(steps, pay);
    steps := steps + [pay];
    if a == Paid {
      step := DoIssue(1);
      IssueMoves(Run(EMPTY, steps));
    } else {
      step := DoComplete("a");
      CompleteMoves(Run(EMPTY, steps));
    }
  }

  /** The table is exact: a transition is listed if and only if some transaction after some run takes it. */
  lemma TableIsExact(a: Status, b: Status)
    requires a != b
    ensures CanTransition(a, b) <==> exists steps, step, id :: Takes(steps, step, id, a, b)
  {
    hide Takes;
    if CanTransition(a, b) {
      if a in {Held, Expired, Cancelled} {
        var steps, step := OpenMoves(a, b);
      } else {
        var steps, step := ConsumerMoves(a, b);
      }
    }
    forall steps, step, id | Takes(steps, step, id, a, b) ensures CanTransition(a, b) {
      OnlyListed(steps, step, id, a, b);
    }
  }
}
