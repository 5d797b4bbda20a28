/** A payer's sold seats never show up under another order, as long as they are confirmed before the payer's hold runs out. */
module TimedSafety {
  import opened States
  import opened Saga
  import opened SagaInv
  import opened SeatKeys
  import opened Timed
  import opened TimedInv
  import opened TimedSteps

  /** Every interleaving, with any delays: the world invariant, and with it the cover of every hold still running. */
  lemma {:induction false} RunKeepsWorld(c: Config, steps: seq<Timed.Step>)
    ensures WorldInv(c, Timed.Run(c, START, steps))
  {
    hide WorldInv;
    if steps == [] {
      StartInv(c);
    } else {
      RunKeepsWorld(c, steps[..|steps| - 1]);
      DoKeeps(c, Timed.Run(c, START, steps[..|steps| - 1]), steps[|steps| - 1]);
    }
  }

  /** In the inventory each ticketed seat of order x is held by or sold to x. */
  ghost predicate OwnsTickets(w: World, x: OrderId) {
    forall i :: 0 <= i < |w.db.tickets| && w.db.tickets[i].order == x ==> Owned(w.keys, w.db.tickets[i].seat, x, w.now)
  }

  /** Each ticketed seat is held by or sold to the order that has its ticket. */
  ghost predicate TicketsOwned(w: World) {
    forall i :: 0 <= i < |w.db.tickets| ==> Owned(w.keys, w.db.tickets[i].seat, w.db.tickets[i].order, w.now)
  }

  predicate Sells(w: World, tx: PayTx) {
    PayNow(w, tx).result == Recorded(Applied)
  }

  /**
   Payer x is confirmed in time: no hold on a ticketed seat of x runs out before the seat is sold, and no sale of x
   commits after the hold it was last granted has run out. Nothing is asked of any other order.
   */
  ghost predicate Timely(x: OrderId, w: World, step: Timed.Step) {
    match step
    case Tick(to) =>
      forall i | 0 <= i < |w.db.tickets| && w.db.tickets[i].order == x ::
        w.db.tickets[i].seat in w.keys && w.keys[w.db.tickets[i].seat].HeldBy? ==> to < w.keys[w.db.tickets[i].seat].until
    case CommitPay(pid) =>
      (pid in w.pays && w.pays[pid].p.order == x && Sells(w, w.pays[pid]) && x in w.granted) ==> w.now < w.granted[x]
    case _ => true
  }

  ghost predicate AllTimely(c: Config, x: OrderId, steps: seq<Timed.Step>) {
    steps == [] ||
    (AllTimely(c, x, steps[..|steps| - 1]) && Timely(x, Timed.Run(c, START, steps[..|steps| - 1]), steps[|steps| - 1]))
  }

  /** Key operations on behalf of an order without tickets keep every ticketed seat where it is. */
  lemma KeysKeepOwned(w: World, x: OrderId, y: OrderId, seats: seq<Seat>, until: int)
    requires OwnsTickets(w, x) && TicketsSound(w.db) && (y in w.db.orders ==> !Sold(w.db.orders[y].status))
    ensures OwnsTickets(w.(keys := Hold(w.keys, seats, y, w.now, until)), x)
    ensures OwnsTickets(w.(keys := Release(w.keys, seats, y, w.now)), x)
  {
    forall i | 0 <= i < |w.db.tickets| && w.db.tickets[i].order == x
      ensures Owned(Hold(w.keys, seats, y, w.now, until), w.db.tickets[i].seat, x, w.now)
      ensures Owned(Release(w.keys, seats, y, w.now), w.db.tickets[i].seat, x, w.now)
    {
      HoldKeepsOwned(w.keys, seats, y, w.now, until, w.db.tickets[i].seat, x);
      ReleaseKeepsOwned(w.keys, seats, y, w.now, w.db.tickets[i].seat, x);
    }
  }

  lemma ConfirmKeepsTickets(w: World, x: OrderId, y: OrderId, seats: seq<Seat>)
    requires OwnsTickets(w, x)
    ensures OwnsTickets(w.(keys := Confirm(w.keys, seats, y, w.now)), x)
  {
    forall i | 0 <= i < |w.db.tickets| && w.db.tickets[i].order == x
      ensures Owned(Confirm(w.keys, seats, y, w.now), w.db.tickets[i].seat, x, w.now)
    {
      ConfirmKeepsOwned(w.keys, seats, y, w.now, w.db.tickets[i].seat, x);
    }
  }

  /** A webhook that sells names an open order, and is on time unless it re-held the seats. */
  lemma SaleFacts(w: World, tx: PayTx)
    requires Sells(w, tx) && tx.phase != Waiting && (tx.phase == Locked ==> !MustRehold(w, tx))
    ensures tx.p.order in w.db.orders && tx.p.txn !in w.db.payments
    ensures PayNow(w, tx).db == SellSeats(w.db, tx.p)
    ensures !tx.phase.Reheld? ==> w.db.orders[tx.p.order].status == Held && HoldActive(w.db.orders[tx.p.order], tx.start)
    ensures tx.phase.Reheld? && NeedsHold(w.db.orders[tx.p.order], tx.p, tx.start) ==> tx.phase.reply == HoldGranted
    ensures SeatsUnsold(w.db, w.db.orders[tx.p.order].seats)
  {
  }

  /** The hold a sale relies on is the one its order was granted last. */
  lemma SaleIsCovered(c: Config, w: World, pid: nat)
    requires WorldInv(c, w) && Enabled(c, w, CommitPay(pid)) && Sells(w, w.pays[pid])
    ensures w.pays[pid].p.order in w.db.orders && w.pays[pid].p.order in w.granted
    ensures Covered(w, w.pays[pid].p.order, SeatsOf(w, w.pays[pid].p.order), w.granted[w.pays[pid].p.order])
  {
    hide Inv, SeatsUnsold, Pay;
    SaleFacts(w, w.pays[pid]);
  }

  lemma SaleKeepsOwned(c: Config, x: OrderId, w: World, pid: nat)
    requires WorldInv(c, w) && OwnsTickets(w, x) && Enabled(c, w, CommitPay(pid)) && Timely(x, w, CommitPay(pid))
    requires Sells(w, w.pays[pid])
    ensures OwnsTickets(DoCommit(w, pid), x)
  {
    hide Inv, Pay, Covers, Bookkeeping, LocksHeld, SeatsUnsold;
    SaleIsCovered(c, w, pid);
    SaleFacts(w, w.pays[pid]);
    var id, n, u := w.pays[pid].p.order, |w.db.tickets|, DoCommit(w, pid);
    forall i | 0 <= i < |u.db.tickets| && u.db.tickets[i].order == x
      ensures Owned(u.keys, u.db.tickets[i].seat, x, u.now)
    {
      if n <= i {
        assert u.db.tickets[i] == Ticket(id, SeatsOf(w, id)[i - n], false);
        assert Protected(w.keys, SeatsOf(w, id)[i - n], id, w.granted[id]);
      }
    }
  }

  lemma OnlySalesAddTickets(w: World, tx: PayTx)
    requires !Sells(w, tx)
    ensures PayNow(w, tx).db.tickets == w.db.tickets
  {
    hide SeatsUnsold;
  }

  lemma CommitKeepsOwned(c: Config, x: OrderId, w: World, pid: nat)
    requires WorldInv(c, w) && OwnsTickets(w, x) && Enabled(c, w, CommitPay(pid)) && Timely(x, w, CommitPay(pid))
    ensures OwnsTickets(DoCommit(w, pid), x)
  {
    hide WorldInv, Pay, Timely, OwnsTickets;
    if Sells(w, w.pays[pid]) {
      SaleKeepsOwned(c, x, w, pid);
    } else {
      OnlySalesAddTickets(w, w.pays[pid]);
      QuietKeepsOwned(x, w, DoCommit(w, pid));
    }
  }

  /** Steps that change neither keys, clock nor the seats of tickets. */
  lemma QuietKeepsOwned(x: OrderId, w: World, u: World)
    requires OwnsTickets(w, x) && u.keys == w.keys && u.now == w.now && |u.db.tickets| == |w.db.tickets|
    requires forall i :: 0 <= i < |w.db.tickets| ==>
      u.db.tickets[i].seat == w.db.tickets[i].seat && u.db.tickets[i].order == w.db.tickets[i].order
    ensures OwnsTickets(u, x)
  {
  }

  lemma TickKeepsOwned(x: OrderId, w: World, to: int)
    requires OwnsTickets(w, x) && Timely(x, w, Tick(to))
    ensures OwnsTickets(w.(now := to), x)
  {
  }

  /** Who may touch keys without owning tickets. */
  lemma Ticketless(c: Config, w: World)
    requires WorldInv(c, w)
    ensures TicketsSound(w.db)
    ensures forall id :: id in w.creating ==> id !in w.db.orders
    ensures forall id :: id in w.releasing && id in w.db.orders ==> !Sold(w.db.orders[id].status)
  {
    hide OrderClauses, TicketsSound, TicketsComplete, PaymentsSound, AppliedOnce, UndoneOnce, EventClauses, Conserved;
    hide LocksHeld, Covers;
  }

  /** Steps that hold or release seats do it for orders without tickets. */
  lemma KeyStepKeepsOwned(c: Config, x: OrderId, w: World, step: Timed.Step)
    requires WorldInv(c, w) && OwnsTickets(w, x) && Enabled(c, w, step)
    requires step.TakeHold? || step.Abandon? || step.ReleaseExpired? || step.ReleaseLater? || step.Rehold?
    ensures OwnsTickets(Do(c, w, step), x)
  {
    hide WorldInv, OwnsTickets, TicketsSound, Hold, Release;
    Ticketless(c, w);
    var u := Do(c, w, step);
    match step {
      case TakeHold(id, seats) => KeysKeepOwned(w, x, id, seats, w.now + c.ttl + c.grace);
      case Abandon(id, released) => KeysKeepOwned(w, x, id, w.creating[id].seats, 0);
      case ReleaseExpired(id) => KeysKeepOwned(w, x, id, SeatsOf(w, id), 0);
      case ReleaseLater(id, _) => KeysKeepOwned(w, x, id, SeatsOf(w, id), 0);
      case Rehold(pid) => KeysKeepOwned(w, x, w.pays[pid].p.order, SeatsOf(w, w.pays[pid].p.order), w.now + LATE);
    }
    QuietKeepsOwned(x, w.(keys := u.keys), u);
  }

  /** Steps that leave keys and clock alone add no tickets, the webhook's commit apart. */
  lemma TableStepIsQuiet(c: Config, w: World, step: Timed.Step)
    requires !step.Tick? && !step.TakeHold? && !step.Abandon? && !step.ReleaseExpired? && !step.ReleaseLater?
    requires !step.Rehold? && !step.CommitPay? && !step.ConfirmOrder?
    ensures var u := Do(c, w, step);
      && u.keys == w.keys && u.now == w.now && |u.db.tickets| == |w.db.tickets|
      && (forall i :: 0 <= i < |w.db.tickets| ==>
            u.db.tickets[i].seat == w.db.tickets[i].seat && u.db.tickets[i].order == w.db.tickets[i].order)
  {
    hide Unlocked;
  }

  lemma TimelyStepKeepsOwned(c: Config, x: OrderId, w: World, step: Timed.Step)
    requires WorldInv(c, w) && OwnsTickets(w, x) && Timely(x, w, step)
    ensures OwnsTickets(Do(c, w, step), x)
  {
    hide WorldInv, OwnsTickets, Timely, Hold, Release, Confirm, DoRehold, DoCommit;
    if Enabled(c, w, step) {
      match step
      case Tick(to) => TickKeepsOwned(x, w, to);
      case TakeHold(_, _) => KeyStepKeepsOwned(c, x, w, step);
      case Abandon(_, _) => KeyStepKeepsOwned(c, x, w, step);
      case ReleaseExpired(_) => KeyStepKeepsOwned(c, x, w, step);
      case ReleaseLater(_, _) => KeyStepKeepsOwned(c, x, w, step);
      case Rehold(_) => KeyStepKeepsOwned(c, x, w, step);
      case CommitPay(pid) => CommitKeepsOwned(c, x, w, pid);
      case ConfirmOrder(id) => ConfirmKeepsTickets(w, x, id, SeatsOf(w, id));
      case _ =>
        TableStepIsQuiet(c, w, step);
        QuietKeepsOwned(x, w, Do(c, w, step));
    }
  }

  /**
   Whatever the order of expiries, releases, late and on-time payments, cancels and other buyers, and however late
   anybody else is: a payer whose seats are confirmed before the payer's hold runs out keeps them. No ticketed seat of
   this order is ever held by or sold to another one.
   */
  lemma {:induction false} TicketedSeatsStayWithTheirOrder(c: Config, steps: seq<Timed.Step>, x: OrderId)
    requires AllTimely(c, x, steps)
    ensures OwnsTickets(Timed.Run(c, START, steps), x)
  {
    hide WorldInv, Do, Timely;
    if steps == [] {
      assert Timed.Run(c, START, steps) == START;
    } else {
      var w := Timed.Run(c, START, steps[..|steps| - 1]);
      TicketedSeatsStayWithTheirOrder(c, steps[..|steps| - 1], x);
      RunKeepsWorld(c, steps[..|steps| - 1]);
      TimelyStepKeepsOwned(c, x, w, steps[|steps| - 1]);
    }
  }

  /** If every payer is confirmed in time, every ticketed seat stays with its order. */
  lemma AllTicketedSeatsStay(c: Config, steps: seq<Timed.Step>)
    requires forall x :: AllTimely(c, x, steps)
    ensures TicketsOwned(Timed.Run(c, START, steps))
  {
    hide AllTimely, Timed.Run;
    var w := Timed.Run(c, START, steps);
    forall i | 0 <= i < |w.db.tickets|
      ensures Owned(w.keys, w.db.tickets[i].seat, w.db.tickets[i].order, w.now)
    {
      TicketedSeatsStayWithTheirOrder(c, steps, w.db.tickets[i].order);
    }
  }

  /** With no assumption at all: while a late payment's re-hold lasts, nothing has taken its seats away. */
  lemma ReleaseNeverUndoesRehold(c: Config, steps: seq<Timed.Step>, pid: nat, k: nat)
    requires var w := Timed.Run(c, START, steps);
      && pid in w.pays && w.pays[pid].phase.Reheld? && w.pays[pid].phase.reply == HoldGranted
      && w.now < w.pays[pid].phase.at + LATE
    ensures var w := Timed.Run(c, START, steps); var id := w.pays[pid].p.order;
      && id in w.db.orders
      && (k < |SeatsOf(w, id)| ==> Protected(w.keys, SeatsOf(w, id)[k], id, w.pays[pid].phase.at + LATE))
  {
    hide WorldInv, Timed.Run;
    RunKeepsWorld(c, steps);
    ReheldIsCovered(c, Timed.Run(c, START, steps), pid);
  }

  lemma ReheldIsCovered(c: Config, w: World, pid: nat)
    requires WorldInv(c, w) && pid in w.pays && w.pays[pid].phase.Reheld? && w.pays[pid].phase.reply == HoldGranted
    ensures w.pays[pid].p.order in w.db.orders
    ensures Covered(w, w.pays[pid].p.order, SeatsOf(w, w.pays[pid].p.order), w.pays[pid].phase.at + LATE)
  {
    hide Inv, Bookkeeping, CreatingCovered, HeldCovered, Covered;
  }
}
