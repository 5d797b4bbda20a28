/** What buyers can count on in every interleaving: when an order expires, who gets the seats, and when they come back. */
module TimedOutcomes {
  import opened States
  import opened Saga
  import opened SagaInv
  import opened SeatKeys
  import opened Timed
  import opened TimedInv
  import opened TimedSafety
  import opened Services
  import PaymentRules

  // ---- no order expires early -------------------------------------------------------------

  /** An EXPIRED order is past its deadline, so nobody could still pay it on time. */
  ghost predicate ExpiredIsOverdue(w: World) {
    forall id :: id in w.db.orders && w.db.orders[id].status == Expired ==> w.db.orders[id].holdExpires < w.now
  }

  lemma PayNeverExpires(db: DB, p: Webhook, now: int, reply: HoldReply)
    ensures var d := Pay(db, p, now, reply).db;
      && d.orders.Keys == db.orders.Keys
      && forall id :: id in db.orders && d.orders[id].status == Expired ==> d.orders[id] == db.orders[id]
  {
    hide SeatsUnsold;
  }

  lemma StepKeepsOverdue(c: Config, w: World, step: Timed.Step)
    requires ExpiredIsOverdue(w)
    ensures ExpiredIsOverdue(Do(c, w, step))
  {
    hide Unlocked, Hold, Release, Confirm, Taken, Pay, MustRehold;
    if step.CommitPay? && Enabled(c, w, step) {
      PayNeverExpires(w.db, w.pays[step.pid].p, w.pays[step.pid].start, ReplyOf(w.pays[step.pid]));
    }
  }

  lemma {:induction false} NoOrderExpiresEarly(c: Config, steps: seq<Timed.Step>)
    ensures ExpiredIsOverdue(Timed.Run(c, START, steps))
  {
    hide Do;
    if steps == [] {
      assert Timed.Run(c, START, steps) == START;
    } else {
      NoOrderExpiresEarly(c, steps[..|steps| - 1]);
      StepKeepsOverdue(c, Timed.Run(c, START, steps[..|steps| - 1]), steps[|steps| - 1]);
    }
  }

  // ---- a confirmed seat is sold for good ------------------------------------------------------

  predicate IsSold(w: World, s: Seat, x: OrderId) {
    s in w.keys && w.keys[s] == SoldTo(x)
  }

  lemma StepKeepsSold(c: Config, w: World, step: Timed.Step, s: Seat, x: OrderId)
    requires IsSold(w, s, x)
    ensures IsSold(Do(c, w, step), s, x)
  {
    hide Unlocked, Pay, Issue, Complete, Place, Cancel, ExpireOne, CanPlace, Confirm, ValidWebhook;
    if Enabled(c, w, step) {
      match step
      case TakeHold(id, seats) => TakenIsExact(w.keys, seats, id, w.now);
      case Rehold(pid) => TakenIsExact(w.keys, SeatsOf(w, w.pays[pid].p.order), w.pays[pid].p.order, w.now);
      case ConfirmOrder(id) => ConfirmKeepsSold(w.keys, SeatsOf(w, id), id, w.now, s);
      case _ =>
    }
  }

  lemma {:induction false} SoldForGood(c: Config, w: World, steps: seq<Timed.Step>, s: Seat, x: OrderId)
    requires IsSold(w, s, x)
    ensures IsSold(Timed.Run(c, w, steps), s, x)
  {
    hide Do, IsSold;
    if steps == [] {
    } else {
      SoldForGood(c, w, steps[..|steps| - 1], s, x);
      StepKeepsSold(c, Timed.Run(c, w, steps[..|steps| - 1]), steps[|steps| - 1], s, x);
    }
  }

  /**
   A confirm that finds the seats of a sold order free or the order's own sells every one of them, and whatever comes
   later they stay sold to it.
   */
  lemma ConfirmedSeatsAreSold(c: Config, w: World, x: OrderId, later: seq<Timed.Step>, s: Seat)
    requires x in w.db.orders && Sold(w.db.orders[x].status) && s in SeatsOf(w, x)
    requires forall t :: t in SeatsOf(w, x) ==> FreeOrOwn(w.keys, t, x, w.now)
    ensures IsSold(Timed.Run(c, Do(c, w, ConfirmOrder(x)), later), s, x)
  {
    ConfirmSellsAll(w.keys, SeatsOf(w, x), x, w.now);
    hide Timed.Run;
    SoldForGood(c, Do(c, w, ConfirmOrder(x)), later, s, x);
  }

  // ---- the right money gets free seats -------------------------------------------------------------

  lemma Then(c: Config, w: World, steps: seq<Timed.Step>, step: Timed.Step)
    ensures Timed.Run(c, w, steps + [step]) == Do(c, Timed.Run(c, w, steps), step)
  {
    assert (steps + [step])[..|steps|] == steps;
  }

  lemma Three(c: Config, w: World, x: Timed.Step, y: Timed.Step, z: Timed.Step)
    ensures Timed.Run(c, w, [x, y, z]) == Do(c, Do(c, Do(c, w, x), y), z)
  {
    hide Do;
    assert [x, y, z] == [x, y] + [z] && [x, y] == [x] + [y] && [x] == [] + [x];
    Then(c, w, [], x);
    Then(c, w, [x], y);
    Then(c, w, [x, y], z);
  }

  lemma Four(c: Config, w: World, x: Timed.Step, y: Timed.Step, z: Timed.Step, u: Timed.Step)
    ensures Timed.Run(c, w, [x, y, z, u]) == Do(c, Do(c, Do(c, Do(c, w, x), y), z), u)
  {
    hide Do;
    Three(c, w, x, y, z);
    assert [x, y, z, u] == [x, y, z] + [u];
    Then(c, w, [x, y, z], u);
  }

  /** A webhook with the exact money for an order that nobody has locked and whose seats have no ticket. */
  predicate CanBuy(w: World, pid: nat, p: Webhook) {
    && pid !in w.pays && PaymentRules.New(w.db, p) && p.succeeded && p.amount == w.db.orders[p.order].total
    && Unlocked(w, p.order) && !PaymentRules.SomeSeatSold(w.db, w.db.orders[p.order])
  }

  /** The order is PAID and the buyer has a ticket for each seat. */
  ghost predicate Bought(w: World, id: OrderId) {
    && id in w.db.orders && w.db.orders[id].status == States.Paid
    && forall k :: 0 <= k < |w.db.orders[id].seats| ==> HasTicket(w.db, id, w.db.orders[id].seats[k])
  }

  lemma SaleBuys(db: DB, x: Paying, p: Webhook)
    requires PaymentRules.SeatsSold(db, x, p)
    ensures p.order in x.db.orders && x.db.orders[p.order].status == States.Paid
    ensures forall k :: 0 <= k < |x.db.orders[p.order].seats| ==> HasTicket(x.db, p.order, x.db.orders[p.order].seats[k])
  {
    forall k | 0 <= k < |x.db.orders[p.order].seats| ensures HasTicket(x.db, p.order, x.db.orders[p.order].seats[k]) {
      assert x.db.tickets[|db.tickets| + k] == Ticket(p.order, db.orders[p.order].seats[k], false);
    }
  }

  /** The webhook starts and gets the lock at once. */
  lemma WebhookLocks(c: Config, w: World, pid: nat, p: Webhook)
    requires pid !in w.pays && p.order in w.db.orders && Unlocked(w, p.order)
    ensures Do(c, Do(c, w, BeginPay(pid, p)), LockPay(pid)) == w.(pays := w.pays[pid := PayTx(p, w.now, Locked)])
  {
    var v := Do(c, w, BeginPay(pid, p));
    assert Unlocked(v, p.order);
  }

  lemma OnTimeSells(db: DB, p: Webhook, now: int)
    requires PaymentRules.New(db, p) && p.succeeded && p.amount == db.orders[p.order].total
    requires !PaymentRules.SomeSeatSold(db, db.orders[p.order]) && PaymentRules.OnTime(db.orders[p.order], now)
    ensures PaymentRules.SeatsSold(db, Pay(db, p, now, HoldFailed), p) && !NeedsHold(db.orders[p.order], p, now)
  {
    hide Pay, PaymentRules.SeatsSold, PaymentRules.SomeSeatSold, PaymentRules.MoneyReturned, PaymentRules.New;
    PaymentRules.SalesHold(db, p, now, HoldFailed);
  }

  lemma GrantedSells(db: DB, p: Webhook, now: int)
    requires PaymentRules.New(db, p) && p.succeeded && p.amount == db.orders[p.order].total
    requires !PaymentRules.SomeSeatSold(db, db.orders[p.order]) && PaymentRules.Late(db.orders[p.order], now)
    ensures PaymentRules.SeatsSold(db, Pay(db, p, now, HoldGranted), p) && NeedsHold(db.orders[p.order], p, now)
  {
    hide Pay, PaymentRules.SeatsSold, PaymentRules.SomeSeatSold, PaymentRules.MoneyReturned, PaymentRules.New;
    PaymentRules.SalesHold(db, p, now, HoldGranted);
  }

  /** A webhook whose decision is a sale commits it. */
  lemma CommitBuys(c: Config, v: World, pid: nat)
    requires Enabled(c, v, CommitPay(pid)) && PaymentRules.SeatsSold(v.db, PayNow(v, v.pays[pid]), v.pays[pid].p)
    ensures Bought(Do(c, v, CommitPay(pid)), v.pays[pid].p.order)
  {
    hide Pay, PaymentRules.SeatsSold, MustRehold;
    SaleBuys(v.db, PayNow(v, v.pays[pid]), v.pays[pid].p);
  }

  /** Paid on time, an order gets its seats: the webhook starts, locks, commits. */
  lemma OnTimeBuyerBuys(c: Config, w: World, pid: nat, p: Webhook)
    requires CanBuy(w, pid, p) && PaymentRules.OnTime(w.db.orders[p.order], w.now)
    ensures Bought(Timed.Run(c, w, [BeginPay(pid, p), LockPay(pid), CommitPay(pid)]), p.order)
  {
    hide Pay, Do, Unlocked, Bought, NeedsHold, PaymentRules.SeatsSold, PaymentRules.SomeSeatSold;
    Three(c, w, BeginPay(pid, p), LockPay(pid), CommitPay(pid));
    WebhookLocks(c, w, pid, p);
    OnTimeSells(w.db, p, w.now);
    CommitBuys(c, w.(pays := w.pays[pid := PayTx(p, w.now, Locked)]), pid);
  }

  /** The late webhook asks for seats that are free or the order's own, and gets them. */
  lemma ReholdIsGranted(c: Config, v: World, pid: nat)
    requires Enabled(c, v, Rehold(pid))
    requires forall s :: s in SeatsOf(v, v.pays[pid].p.order) ==>
      FreeOrOwn(v.keys, s, v.pays[pid].p.order, v.now) && !(s in v.keys && v.keys[s].SoldTo?)
    ensures var u := Do(c, v, Rehold(pid));
      u.db == v.db && pid in u.pays && u.pays[pid] == v.pays[pid].(phase := Reheld(v.now, HoldGranted))
  {
    hide Hold;
    TakenIsExact(v.keys, SeatsOf(v, v.pays[pid].p.order), v.pays[pid].p.order, v.now);
  }

  /** Paid late, an order gets its seats if they are free or its own: the webhook re-holds them before it commits. */
  lemma LateBuyerBuysFreeSeats(c: Config, w: World, pid: nat, p: Webhook)
    requires CanBuy(w, pid, p) && PaymentRules.Late(w.db.orders[p.order], w.now)
    requires forall s :: s in w.db.orders[p.order].seats ==> FreeOrOwn(w.keys, s, p.order, w.now) && !(s in w.keys && w.keys[s].SoldTo?)
    ensures Bought(Timed.Run(c, w, [BeginPay(pid, p), LockPay(pid), Rehold(pid), CommitPay(pid)]), p.order)
  {
    hide Pay, Do, Unlocked, Bought, NeedsHold, FreeOrOwn, PaymentRules.SeatsSold, PaymentRules.SomeSeatSold;
    Four(c, w, BeginPay(pid, p), LockPay(pid), Rehold(pid), CommitPay(pid));
    WebhookLocks(c, w, pid, p);
    GrantedSells(w.db, p, w.now);
    var v := w.(pays := w.pays[pid := PayTx(p, w.now, Locked)]);
    ReholdIsGranted(c, v, pid);
    CommitBuys(c, Do(c, v, Rehold(pid)), pid);
  }

  // ---- seats come back -----------------------------------------------------------------------------

  /** A cancelled order gives its seats back with the release that follows the commit. */
  lemma CancelFreesSeats(c: Config, w: World, user: int, id: OrderId)
    requires id in w.db.orders && w.db.orders[id].user == user && w.db.orders[id].status == Held && Unlocked(w, id)
    ensures var u := Timed.Run(c, w, [CancelOrder(user, id), ReleaseLater(id, true)]);
      id in u.db.orders && u.db.orders[id].status == Cancelled && NoneHeld(u.keys, SeatsOf(u, id), id, u.now)
  {
    hide Unlocked, Release;
    var x, y := CancelOrder(user, id), ReleaseLater(id, true);
    assert [x, y] == [x] + [y] && [x] == [] + [x];
    Then(c, w, [], x);
    Then(c, w, [x], y);
    ReleaseFreesAll(w.keys, SeatsOf(w, id), id, w.now);
  }

  /** An order past its deadline is expired, and its seats come back under the re-taken lock. */
  lemma ExpiryFreesSeats(c: Config, w: World, id: OrderId)
    requires id in w.db.orders && w.db.orders[id].status == Held && w.db.orders[id].holdExpires < w.now && Unlocked(w, id)
    ensures var u := Timed.Run(c, w, [ExpireOrder(id), LockExpired(id), ReleaseExpired(id), UnlockExpired(id)]);
      && id in u.db.orders && u.db.orders[id].status == Expired && NoneHeld(u.keys, SeatsOf(u, id), id, u.now)
      && id !in u.expiring && id !in u.expired
  {
    hide Release;
    Four(c, w, ExpireOrder(id), LockExpired(id), ReleaseExpired(id), UnlockExpired(id));
    ReleaseFreesAll(w.keys, SeatsOf(w, id), id, w.now);
  }

  /** A create that gives up before its insert releases what it held. */
  lemma AbandonFreesSeats(c: Config, w: World, id: OrderId)
    requires id in w.creating
    ensures var u := Do(c, w, Abandon(id, true)); id !in u.creating && NoneHeld(u.keys, w.creating[id].seats, id, u.now)
  {
    hide Release;
    ReleaseFreesAll(w.keys, w.creating[id].seats, id, w.now);
  }
}
