/**
 The arithmetic of HOLD_GRACE. Three delays are bounded: from a create's hold to its insert, from a webhook
 transaction's start to its commit, and from that commit to the confirm. Exactly when they fit into the grace
 period and into the late hold, no interleaving ever pays for a seat that somebody else already bought.
 */
module TimedBounds {
  import opened States
  import opened Saga
  import opened SagaInv
  import opened SeatKeys
  import opened Timed
  import opened TimedInv
  import opened TimedSteps
  import opened TimedSafety

  datatype Bounds = Bounds(insert: nat, pay: nat, confirm: nat)

  /** The delays fit: into the grace period for a payment on time, into the late hold for a late one. */
  predicate Fits(c: Config, b: Bounds) {
    b.insert + b.pay + b.confirm < c.grace && b.pay + b.confirm < LATE
  }

  /** Every seat of the order is sold to it in the inventory. */
  predicate Confirmed(w: World, id: OrderId) {
    id in w.db.orders && forall k :: 0 <= k < |SeatsOf(w, id)| ==> SeatsOf(w, id)[k] in w.keys && w.keys[SeatsOf(w, id)[k]] == SoldTo(id)
  }

  /** A create's insert starts at most d after its hold; nothing else is bounded. */
  predicate Prompt(d: nat, w: World, step: Timed.Step) {
    step.InsertOrder? && step.id in w.creating ==> step.start - w.creating[step.id].at <= d
  }

  ghost predicate AllPrompt(c: Config, d: nat, steps: seq<Timed.Step>) {
    steps == [] ||
    (AllPrompt(c, d, steps[..|steps| - 1]) && Prompt(d, Timed.Run(c, START, steps[..|steps| - 1]), steps[|steps| - 1]))
  }

  /** The step respects all three bounds. */
  ghost predicate Within(b: Bounds, w: World, step: Timed.Step) {
    match step
    case Tick(to) => forall id :: id in w.paidAt && !Confirmed(w, id) ==> to <= w.paidAt[id] + b.confirm
    case InsertOrder(_, _, _) => Prompt(b.insert, w, step)
    case CommitPay(pid) => pid in w.pays ==> w.now - w.pays[pid].start <= b.pay
    case _ => true
  }

  ghost predicate AllWithin(c: Config, b: Bounds, steps: seq<Timed.Step>) {
    steps == [] ||
    (AllWithin(c, b, steps[..|steps| - 1]) && Within(b, Timed.Run(c, START, steps[..|steps| - 1]), steps[|steps| - 1]))
  }

  ghost predicate NoConflict(db: DB) {
    forall t :: t in db.refunds ==> db.refunds[t].reason != SeatConflict
  }

  /**
   What a HELD order was granted outlasts its deadline: by the grace period less the insert delay if the create's hold
   still counts, and by the late hold if a webhook that came after the deadline has replaced it.
   */
  ghost predicate LongHolds(c: Config, d: nat, w: World) {
    forall id :: id in w.db.orders && w.db.orders[id].status == Held && id in w.granted ==>
      w.granted[id] >= w.db.orders[id].holdExpires + c.grace - d || w.granted[id] > w.db.orders[id].holdExpires + LATE
  }

  /** A ticketed seat is sold in the inventory, or held by its order past the last instant it may be confirmed at. */
  predicate SeatSafe(b: Bounds, w: World, t: Ticket) {
    || (t.seat in w.keys && w.keys[t.seat] == SoldTo(t.order))
    || (t.order in w.paidAt && w.now <= w.paidAt[t.order] + b.confirm && Protected(w.keys, t.seat, t.order, w.paidAt[t.order] + b.confirm + 1))
  }

  ghost predicate TicketsSafe(b: Bounds, w: World) {
    forall i :: 0 <= i < |w.db.tickets| ==> SeatSafe(b, w, w.db.tickets[i])
  }

  lemma SafeIsOwned(b: Bounds, w: World)
    requires TicketsSafe(b, w)
    ensures TicketsOwned(w)
  {
  }

  // ---- ticketed seats stay safe -------------------------------------------

  lemma KeysKeepSafe(b: Bounds, w: World, x: OrderId, seats: seq<Seat>, until: int)
    requires TicketsSafe(b, w) && TicketsSound(w.db) && (x in w.db.orders ==> !Sold(w.db.orders[x].status))
    ensures TicketsSafe(b, w.(keys := Hold(w.keys, seats, x, w.now, until)))
    ensures TicketsSafe(b, w.(keys := Release(w.keys, seats, x, w.now)))
  {
    forall i | 0 <= i < |w.db.tickets|
      ensures SeatSafe(b, w.(keys := Hold(w.keys, seats, x, w.now, until)), w.db.tickets[i])
      ensures SeatSafe(b, w.(keys := Release(w.keys, seats, x, w.now)), w.db.tickets[i])
    {
      var t := w.db.tickets[i];
      if t.seat in w.keys && w.keys[t.seat] == SoldTo(t.order) {
        TakenIsExact(w.keys, seats, x, w.now);
      } else {
        HoldProtects(w.keys, seats, x, w.now, until, t.seat, t.order, w.paidAt[t.order] + b.confirm + 1);
        ReleaseProtects(w.keys, seats, x, w.now, t.seat, t.order, w.paidAt[t.order] + b.confirm + 1);
      }
    }
  }

  lemma {:induction false} ConfirmOwnSeat(keys: Keys, seats: seq<Seat>, o: OrderId, now: int, s: Seat, c: int)
    requires Protected(keys, s, o, c) || (s in keys && keys[s] == SoldTo(o))
    ensures var k := Confirm(keys, seats, o, now); Protected(k, s, o, c) || (s in k && k[s] == SoldTo(o))
    decreases |seats|
  {
    if seats != [] && Confirmable(keys, seats[0], o, now) {
      ConfirmOwnSeat(keys[seats[0] := SoldTo(o)], seats[1..], o, now, s, c);
    }
  }

  lemma ConfirmKeepsSafe(b: Bounds, w: World, x: OrderId, seats: seq<Seat>)
    requires TicketsSafe(b, w)
    ensures TicketsSafe(b, w.(keys := Confirm(w.keys, seats, x, w.now)))
  {
    forall i | 0 <= i < |w.db.tickets|
      ensures SeatSafe(b, w.(keys := Confirm(w.keys, seats, x, w.now)), w.db.tickets[i])
    {
      var t := w.db.tickets[i];
      if t.seat in w.keys && w.keys[t.seat] == SoldTo(t.order) {
        ConfirmKeepsSold(w.keys, seats, x, w.now, t.seat);
      } else if t.order == x {
        ConfirmOwnSeat(w.keys, seats, x, w.now, t.seat, w.paidAt[x] + b.confirm + 1);
      } else {
        ConfirmProtects(w.keys, seats, x, w.now, t.seat, t.order, w.paidAt[t.order] + b.confirm + 1);
      }
    }
  }

  lemma TickKeepsSafe(b: Bounds, w: World, to: int)
    requires TicketsSafe(b, w) && TicketsSound(w.db) && Within(b, w, Tick(to))
    ensures TicketsSafe(b, w.(now := to))
  {
    forall i | 0 <= i < |w.db.tickets|
      ensures SeatSafe(b, w.(now := to), w.db.tickets[i])
    {
      var t := w.db.tickets[i];
      var k :| 0 <= k < |SeatsOf(w, t.order)| && SeatsOf(w, t.order)[k] == t.seat;
      if !(t.seat in w.keys && w.keys[t.seat] == SoldTo(t.order)) {
        assert !Confirmed(w, t.order);
      }
    }
  }

  lemma QuietKeepsSafe(b: Bounds, w: World, u: World)
    requires TicketsSafe(b, w) && u.keys == w.keys && u.now == w.now && u.paidAt == w.paidAt && |u.db.tickets| == |w.db.tickets|
    requires forall i :: 0 <= i < |w.db.tickets| ==>
      u.db.tickets[i].seat == w.db.tickets[i].seat && u.db.tickets[i].order == w.db.tickets[i].order
    ensures TicketsSafe(b, u)
  {
    forall i | 0 <= i < |u.db.tickets|
      ensures SeatSafe(b, u, u.db.tickets[i])
    {
      assert SeatSafe(b, w, w.db.tickets[i]);
    }
  }

  // ---- a payment inside the bounds ----------------------------------------

  /** A webhook that is about to sell still has the whole confirm delay left on its hold. */
  lemma DeadlineIsFar(c: Config, b: Bounds, w: World, pid: nat)
    requires LocksHeld(w) && LongHolds(c, b.insert, w) && Fits(c, b)
    requires pid in w.pays && w.pays[pid].phase != Waiting && Within(b, w, CommitPay(pid))
    requires w.pays[pid].p.order in w.db.orders && w.pays[pid].p.order in w.granted
    requires w.pays[pid].phase.Reheld? ==> w.granted[w.pays[pid].p.order] == w.pays[pid].phase.at + LATE
    requires !w.pays[pid].phase.Reheld? ==>
      w.db.orders[w.pays[pid].p.order].status == Held && HoldActive(w.db.orders[w.pays[pid].p.order], w.pays[pid].start)
    ensures w.now + b.confirm < w.granted[w.pays[pid].p.order]
  {
  }

  /** Two orders cannot both have a claim on a seat: one sold or confirming, the other still holding. */
  lemma CoverExcludesTickets(b: Bounds, w: World, id: OrderId, seats: seq<Seat>, c: int)
    requires TicketsSafe(b, w) && TicketsSound(w.db) && Covered(w, id, seats, c) && w.now < c
    requires id in w.db.orders && !Sold(w.db.orders[id].status)
    ensures SeatsUnsold(w.db, seats)
  {
    forall i, j | 0 <= i < |w.db.tickets| && 0 <= j < |seats|
      ensures w.db.tickets[i].seat != seats[j]
    {
      assert SeatSafe(b, w, w.db.tickets[i]);
      assert Protected(w.keys, seats[j], id, c);
    }
  }

  lemma SaleKeepsSafe(c: Config, b: Bounds, w: World, pid: nat)
    requires WorldInv(c, w) && TicketsSafe(b, w) && LongHolds(c, b.insert, w) && Fits(c, b)
    requires pid in w.pays && Enabled(c, w, CommitPay(pid)) && Within(b, w, CommitPay(pid)) && Sells(w, w.pays[pid])
    ensures TicketsSafe(b, DoCommit(w, pid))
  {
    hide Inv, Pay, Covers, LocksHeld, Bookkeeping, SeatsUnsold, LongHolds;
    SaleIsOpen(w, w.pays[pid]);
    OpenIsCovered(c, w, pid);
    SaleFacts(w, w.pays[pid]);
    LocksOf(c, w);
    DeadlineIsFar(c, b, w, pid);
    var id, n, u := w.pays[pid].p.order, |w.db.tickets|, DoCommit(w, pid);
    TicketOrdersDiffer(c, w, id);
    forall i | 0 <= i < |u.db.tickets|
      ensures SeatSafe(b, u, u.db.tickets[i])
    {
      if n <= i {
        assert u.db.tickets[i] == Ticket(id, SeatsOf(w, id)[i - n], false);
        assert Protected(w.keys, SeatsOf(w, id)[i - n], id, w.granted[id]);
      } else {
        assert SeatSafe(b, w, w.db.tickets[i]);
      }
    }
  }

  /** An order that is not sold yet has no tickets. */
  lemma TicketOrdersDiffer(c: Config, w: World, id: OrderId)
    requires WorldInv(c, w)
    ensures id in w.db.orders && !Sold(w.db.orders[id].status) ==> forall i :: 0 <= i < |w.db.tickets| ==> w.db.tickets[i].order != id
    ensures TicketsSound(w.db)
  {
  }

  /** The branch that would refund a seat conflict is never reached. */
  lemma NoConflictAtCommit(c: Config, b: Bounds, w: World, pid: nat)
    requires WorldInv(c, w) && TicketsSafe(b, w) && LongHolds(c, b.insert, w) && Fits(c, b) && NoConflict(w.db)
    requires Enabled(c, w, CommitPay(pid)) && Within(b, w, CommitPay(pid))
    ensures NoConflict(DoCommit(w, pid).db)
  {
    hide WorldInv, LocksHeld, TicketsSafe, LongHolds, Pay, NoConflict, SeatsUnsold, ReachesTickets, Within;
    LocksOf(c, w);
    var tx := w.pays[pid];
    if ReachesTickets(w, tx) {
      ReachedIsOpen(w, tx);
      OpenIsCovered(c, w, pid);
      DeadlineIsFar(c, b, w, pid);
      TicketOrdersDiffer(c, w, tx.p.order);
      CoverExcludesTickets(b, w, tx.p.order, SeatsOf(w, tx.p.order), w.granted[tx.p.order]);
    }
    ConflictNeedsTicket(w, tx);
  }

  lemma LocksOf(c: Config, w: World)
    requires WorldInv(c, w)
    ensures LocksHeld(w)
  {
    hide LocksHeld;
  }

  /** The webhook gets as far as inserting tickets. */
  ghost predicate ReachesTickets(w: World, tx: PayTx) {
    && ValidWebhook(tx.p) && tx.p.order in w.db.orders && tx.p.txn !in w.db.payments && tx.p.succeeded
    && tx.p.amount == w.db.orders[tx.p.order].total
    && w.db.orders[tx.p.order].status in {Held, Expired}
    && (NeedsHold(w.db.orders[tx.p.order], tx.p, tx.start) ==> ReplyOf(tx) == HoldGranted)
  }

  lemma SaleIsOpen(w: World, tx: PayTx)
    requires Sells(w, tx)
    ensures ReachesTickets(w, tx)
  {
    hide SeatsUnsold;
  }

  lemma ReachedIsOpen(w: World, tx: PayTx)
    requires ReachesTickets(w, tx)
    ensures tx.p.order in w.db.orders && !Sold(w.db.orders[tx.p.order].status)
  {
  }

  lemma ConflictNeedsTicket(w: World, tx: PayTx)
    requires NoConflict(w.db)
    requires ReachesTickets(w, tx) ==> SeatsUnsold(w.db, SeatsOf(w, tx.p.order))
    ensures NoConflict(PayNow(w, tx).db)
  {
  }

  lemma OpenIsCovered(c: Config, w: World, pid: nat)
    requires WorldInv(c, w) && Enabled(c, w, CommitPay(pid)) && ReachesTickets(w, w.pays[pid])
    ensures w.pays[pid].p.order in w.granted
    ensures w.pays[pid].phase.Reheld? ==> w.granted[w.pays[pid].p.order] == w.pays[pid].phase.at + LATE
    ensures !w.pays[pid].phase.Reheld? ==>
      w.db.orders[w.pays[pid].p.order].status == Held && HoldActive(w.db.orders[w.pays[pid].p.order], w.pays[pid].start)
    ensures Covered(w, w.pays[pid].p.order, SeatsOf(w, w.pays[pid].p.order), w.granted[w.pays[pid].p.order])
  {
    hide Inv, SeatsUnsold, Pay;
  }

  // ---- every bounded run ---------------------------------------------------

  ghost predicate BoundedInv(c: Config, b: Bounds, w: World) {
    WorldInv(c, w) && TicketsSafe(b, w) && LongHolds(c, b.insert, w) && NoConflict(w.db)
  }

  lemma CommitKeepsBounded(c: Config, b: Bounds, w: World, pid: nat)
    requires BoundedInv(c, b, w) && Fits(c, b) && Enabled(c, w, CommitPay(pid)) && Within(b, w, CommitPay(pid))
    ensures var u := DoCommit(w, pid); TicketsSafe(b, u) && NoConflict(u.db)
  {
    hide WorldInv, TicketsSafe, Pay, NoConflict, Within;
    var tx := w.pays[pid];
    NoConflictAtCommit(c, b, w, pid);
    if Sells(w, tx) {
      SaleKeepsSafe(c, b, w, pid);
    } else {
      OnlySalesAddTickets(w, tx);
      QuietKeepsSafe(b, w, DoCommit(w, pid));
    }
  }

  lemma KeyStepKeepsSafe(c: Config, b: Bounds, w: World, step: Timed.Step)
    requires WorldInv(c, w) && TicketsSafe(b, w) && Enabled(c, w, step)
    requires step.TakeHold? || step.Abandon? || step.ReleaseExpired? || step.ReleaseLater? || step.Rehold?
    ensures TicketsSafe(b, Do(c, w, step))
  {
    hide WorldInv, TicketsSafe, TicketsSound, Hold, Release;
    Ticketless(c, w);
    var u := Do(c, w, step);
    match step {
      case TakeHold(id, seats) => KeysKeepSafe(b, w, id, seats, w.now + c.ttl + c.grace);
      case Abandon(id, released) => KeysKeepSafe(b, w, id, w.creating[id].seats, 0);
      case ReleaseExpired(id) => KeysKeepSafe(b, w, id, SeatsOf(w, id), 0);
      case ReleaseLater(id, _) => KeysKeepSafe(b, w, id, SeatsOf(w, id), 0);
      case Rehold(pid) => KeysKeepSafe(b, w, w.pays[pid].p.order, SeatsOf(w, w.pays[pid].p.order), w.now + LATE);
    }
    QuietKeepsSafe(b, w.(keys := u.keys), u);
  }

  lemma StepKeepsSafe(c: Config, b: Bounds, w: World, step: Timed.Step)
    requires BoundedInv(c, b, w) && Within(b, w, step) && Enabled(c, w, step) && !step.CommitPay?
    ensures TicketsSafe(b, Do(c, w, step))
  {
    hide WorldInv, TicketsSafe, Within, LongHolds, NoConflict, Hold, Release, Confirm, DoRehold, DoCommit;
    Ticketless(c, w);
    match step
    case Tick(to) => TickKeepsSafe(b, w, to);
    case TakeHold(_, _) => KeyStepKeepsSafe(c, b, w, step);
    case Abandon(_, _) => KeyStepKeepsSafe(c, b, w, step);
    case ReleaseExpired(_) => KeyStepKeepsSafe(c, b, w, step);
    case ReleaseLater(_, _) => KeyStepKeepsSafe(c, b, w, step);
    case Rehold(_) => KeyStepKeepsSafe(c, b, w, step);
    case ConfirmOrder(id) => ConfirmKeepsSafe(b, w, id, SeatsOf(w, id));
    case _ =>
      TableStepIsQuiet(c, w, step);
      QuietKeepsSafe(b, w, Do(c, w, step));
  }

  lemma InsertKeepsHolds(c: Config, d: nat, w: World, id: OrderId, o: Order, start: int)
    requires LongHolds(c, d, w) && CreatingCovered(c, w)
    requires Enabled(c, w, InsertOrder(id, o, start)) && Prompt(d, w, InsertOrder(id, o, start))
    ensures LongHolds(c, d, Do(c, w, InsertOrder(id, o, start)))
  {
    hide Covered, CanPlace;
    assert CanPlace(w.db, id, o);
    assert w.granted[id] == w.creating[id].at + c.ttl + c.grace;
  }

  /** Other steps only take orders out of HELD, or grant a hold to an order that is not placed yet. */
  lemma OtherKeepsHolds(c: Config, d: nat, w: World, step: Timed.Step)
    requires LongHolds(c, d, w) && Enabled(c, w, step) && !step.CommitPay? && !step.Rehold? && !step.InsertOrder?
    ensures LongHolds(c, d, Do(c, w, step))
  {
    hide Unlocked, Hold, Release, Confirm, Taken;
  }

  /** Inserts and re-holds of late webhooks are the only steps that set what a HELD order was granted. */
  lemma StepKeepsHolds(c: Config, d: nat, w: World, step: Timed.Step)
    requires WorldInv(c, w) && LongHolds(c, d, w) && Prompt(d, w, step) && Enabled(c, w, step)
    ensures LongHolds(c, d, Do(c, w, step))
  {
    hide Inv, Bookkeeping, LocksHeld, CreatingCovered, HeldCovered, ReheldCovered, LongHolds, Prompt, DoRehold, DoCommit;
    match step
    case CommitPay(pid) => CommitKeepsHolds(c, d, w, pid);
    case Rehold(pid) => ReholdKeepsHolds(c, d, w, pid);
    case InsertOrder(id, o, start) => InsertKeepsHolds(c, d, w, id, o, start);
    case _ => OtherKeepsHolds(c, d, w, step);
  }

  lemma CommitKeepsHolds(c: Config, d: nat, w: World, pid: nat)
    requires LongHolds(c, d, w) && pid in w.pays
    ensures LongHolds(c, d, DoCommit(w, pid))
  {
    hide Pay;
    PayMoves(w.db, w.pays[pid].p, w.pays[pid].start, ReplyOf(w.pays[pid]));
  }

  /** A webhook asks for a HELD order's seats only after the deadline, so its hold lasts past the deadline and LATE. */
  lemma ReholdKeepsHolds(c: Config, d: nat, w: World, pid: nat)
    requires LocksHeld(w) && LongHolds(c, d, w) && pid in w.pays && MustRehold(w, w.pays[pid])
    ensures LongHolds(c, d, DoRehold(w, pid))
  {
    hide Hold, Taken;
  }

  lemma StepKeepsReasons(c: Config, w: World, step: Timed.Step)
    requires NoConflict(w.db) && Enabled(c, w, step) && !step.CommitPay?
    ensures NoConflict(Do(c, w, step).db)
  {
    hide Unlocked, CanPlace, Hold, Release, Confirm;
  }

  lemma WithinIsPrompt(b: Bounds, w: World, step: Timed.Step)
    requires Within(b, w, step)
    ensures Prompt(b.insert, w, step)
  {
  }

  lemma BoundedStep(c: Config, b: Bounds, w: World, step: Timed.Step)
    requires BoundedInv(c, b, w) && Fits(c, b) && Within(b, w, step)
    ensures BoundedInv(c, b, Do(c, w, step))
  {
    hide WorldInv, TicketsSafe, Within, Prompt, LongHolds, NoConflict, Enabled, DoCommit;
    DoKeeps(c, w, step);
    if Enabled(c, w, step) {
      WithinIsPrompt(b, w, step);
      StepKeepsHolds(c, b.insert, w, step);
      if step.CommitPay? {
        CommitKeepsBounded(c, b, w, step.pid);
      } else {
        StepKeepsSafe(c, b, w, step);
        StepKeepsReasons(c, w, step);
      }
    }
  }

  lemma {:induction false} BoundedRun(c: Config, b: Bounds, steps: seq<Timed.Step>)
    requires Fits(c, b) && AllWithin(c, b, steps)
    ensures BoundedInv(c, b, Timed.Run(c, START, steps))
  {
    hide WorldInv, Do, Within;
    if steps == [] {
      StartInv(c);
    } else {
      BoundedRun(c, b, steps[..|steps| - 1]);
      BoundedStep(c, b, Timed.Run(c, START, steps[..|steps| - 1]), steps[|steps| - 1]);
    }
  }

  // ---- payable orders -------------------------------------------------------

  /** With prompt inserts alone, whatever else is late or lost, holds outlast deadlines. */
  lemma {:induction false} PromptRun(c: Config, d: nat, steps: seq<Timed.Step>)
    requires AllPrompt(c, d, steps)
    ensures WorldInv(c, Timed.Run(c, START, steps)) && LongHolds(c, d, Timed.Run(c, START, steps))
  {
    hide WorldInv, Do, Prompt, Enabled;
    if steps == [] {
      StartInv(c);
    } else {
      var w := Timed.Run(c, START, steps[..|steps| - 1]);
      PromptRun(c, d, steps[..|steps| - 1]);
      DoKeeps(c, w, steps[|steps| - 1]);
      if Enabled(c, w, steps[|steps| - 1]) {
        StepKeepsHolds(c, d, w, steps[|steps| - 1]);
      } else {
        NotEnabled(c, w, steps[|steps| - 1]);
      }
    }
  }

  lemma NotEnabled(c: Config, w: World, step: Timed.Step)
    requires !Enabled(c, w, step)
    ensures Do(c, w, step) == w
  {
  }

  /** PostgreSQL may still commit an on-time payment of this order at the current instant, pay after its start. */
  predicate Payable(pay: nat, w: World, id: OrderId) {
    id in w.db.orders && w.db.orders[id].status == Held && w.now <= w.db.orders[id].holdExpires + pay
  }

  /** The delay from hold to insert and that of the payment transaction fit into the holds. */
  predicate FitsPayments(c: Config, insert: nat, pay: nat) {
    insert + pay < c.grace && pay <= LATE
  }

  /** Then a live hold covers every instant at which an on-time payment can still commit. */
  lemma PayableIsCovered(c: Config, insert: nat, pay: nat, steps: seq<Timed.Step>, id: OrderId, k: nat)
    requires FitsPayments(c, insert, pay) && AllPrompt(c, insert, steps)
    requires var w := Timed.Run(c, START, steps); Payable(pay, w, id) && k < |SeatsOf(w, id)|
    ensures var w := Timed.Run(c, START, steps); Protected(w.keys, SeatsOf(w, id)[k], id, w.now + 1)
  {
    hide Timed.Run, WorldInv;
    PromptRun(c, insert, steps);
    HeldIsCovered(c, Timed.Run(c, START, steps), id);
  }

  lemma HeldIsCovered(c: Config, w: World, id: OrderId)
    requires WorldInv(c, w) && id in w.db.orders && w.db.orders[id].status == Held
    ensures id in w.granted && Covered(w, id, SeatsOf(w, id), w.granted[id])
  {
    hide Inv, LocksHeld, ReheldCovered, CreatingCovered, Covered;
  }

  /** And two orders that can both still be paid on time never share a seat. */
  lemma PayableOrdersAreDisjoint(c: Config, insert: nat, pay: nat, steps: seq<Timed.Step>, x: OrderId, y: OrderId, j: nat, k: nat)
    requires FitsPayments(c, insert, pay) && AllPrompt(c, insert, steps) && x != y
    requires var w := Timed.Run(c, START, steps);
      Payable(pay, w, x) && Payable(pay, w, y) && j < |SeatsOf(w, x)| && k < |SeatsOf(w, y)|
    ensures var w := Timed.Run(c, START, steps); SeatsOf(w, x)[j] != SeatsOf(w, y)[k]
  {
    hide Timed.Run, AllPrompt;
    PayableIsCovered(c, insert, pay, steps, x, j);
    PayableIsCovered(c, insert, pay, steps, y, k);
  }

  lemma FittingRunsHaveNoConflict(c: Config, b: Bounds, steps: seq<Timed.Step>)
    requires Fits(c, b) && AllWithin(c, b, steps)
    ensures NoConflict(Timed.Run(c, START, steps).db)
    ensures TicketsOwned(Timed.Run(c, START, steps))
  {
    hide WorldInv, NoConflict, TicketsOwned, TicketsSafe;
    BoundedRun(c, b, steps);
    SafeIsOwned(b, Timed.Run(c, START, steps));
  }
}
