/** What every interleaving keeps, with no assumption on how long anything takes. */
module TimedInv {
  import opened States
  import opened Saga
  import opened SagaInv
  import opened SeatKeys
  import opened Timed

  /** An order the buyer, the clock or the money decided against for good. */
  predicate Hopeless(s: Status) {
    s == Cancelled || IsRefund(s)
  }

  /** The bookkeeping of in-flight work agrees with the tables. */
  ghost predicate Bookkeeping(w: World) {
    && (forall id :: id in w.creating ==> id !in w.db.orders)
    && w.db.orders.Keys + w.creating.Keys <= w.granted.Keys
    && (forall id :: id in w.paidAt <==> id in w.db.orders && Sold(w.db.orders[id].status))
    && (forall id :: id in w.releasing ==> id in w.db.orders && Hopeless(w.db.orders[id].status))
    && (forall id :: id in w.expired ==> id in w.db.orders && w.db.orders[id].status != Held)
    && w.expiring <= w.expired
  }

  /** Row locks are exclusive, and a webhook that re-held its seats still finds its order undecided. */
  ghost predicate LocksHeld(w: World) {
    && (forall a, b :: a in w.pays && b in w.pays && a != b && w.pays[a].phase != Waiting && w.pays[b].phase != Waiting
          ==> w.pays[a].p.order != w.pays[b].p.order)
    && (forall a :: a in w.pays && w.pays[a].phase != Waiting ==>
          w.pays[a].p.order in w.db.orders && w.pays[a].p.order !in w.expiring)
    && (forall a :: a in w.pays && w.pays[a].phase.Reheld? ==>
          && w.pays[a].start <= w.pays[a].phase.at <= w.now
          && NeedsHold(w.db.orders[w.pays[a].p.order], w.pays[a].p, w.pays[a].start))
    && (forall a :: a in w.pays ==> w.pays[a].start <= w.now)
  }

  /** Until instant c, order id holds all these seats. */
  ghost predicate Covered(w: World, id: OrderId, seats: seq<Seat>, c: int) {
    w.now < c ==> forall k :: 0 <= k < |seats| ==> Protected(w.keys, seats[k], id, c)
  }

  ghost predicate CreatingCovered(c: Config, w: World) {
    forall id :: id in w.creating ==>
      && w.creating[id].at <= w.now
      && id in w.granted && w.granted[id] == w.creating[id].at + c.ttl + c.grace
      && Covered(w, id, w.creating[id].seats, w.granted[id])
  }

  /** A HELD order holds its seats for as long as it was last granted them. */
  ghost predicate HeldCovered(w: World) {
    forall id :: id in w.db.orders && w.db.orders[id].status == Held && id in w.granted
      ==> Covered(w, id, w.db.orders[id].seats, w.granted[id])
  }

  /** No release or other buyer undoes what a late payment re-held, for as long as that hold lasts. */
  ghost predicate ReheldCovered(w: World) {
    forall a :: a in w.pays && w.pays[a].phase.Reheld? && w.pays[a].phase.reply == HoldGranted && w.pays[a].p.order in w.db.orders ==>
      && w.pays[a].p.order in w.granted && w.granted[w.pays[a].p.order] == w.pays[a].phase.at + LATE
      && Covered(w, w.pays[a].p.order, w.db.orders[w.pays[a].p.order].seats, w.pays[a].phase.at + LATE)
  }

  ghost predicate Covers(c: Config, w: World) {
    CreatingCovered(c, w) && HeldCovered(w) && ReheldCovered(w)
  }

  ghost predicate WorldInv(c: Config, w: World) {
    && Inv(w.db)
    && Bookkeeping(w)
    && LocksHeld(w)
    && Covers(c, w)
  }

  lemma StartInv(c: Config)
    ensures WorldInv(c, START)
  {
    EmptyInv();
  }

  // ---- key operations keep the cover of every other order -----------------

  lemma HoldCovers(w: World, x: OrderId, taken: seq<Seat>, until: int, id: OrderId, seats: seq<Seat>, c: int)
    requires Covered(w, id, seats, c) && (id != x || c <= until)
    ensures Covered(w.(keys := Hold(w.keys, taken, x, w.now, until)), id, seats, c)
  {
    if w.now < c {
      forall k | 0 <= k < |seats|
        ensures Protected(Hold(w.keys, taken, x, w.now, until), seats[k], id, c)
      {
        HoldProtects(w.keys, taken, x, w.now, until, seats[k], id, c);
      }
    }
  }

  lemma ReleaseCovers(w: World, x: OrderId, freed: seq<Seat>, id: OrderId, seats: seq<Seat>, c: int)
    requires Covered(w, id, seats, c) && id != x
    ensures Covered(w.(keys := Release(w.keys, freed, x, w.now)), id, seats, c)
  {
    if w.now < c {
      forall k | 0 <= k < |seats|
        ensures Protected(Release(w.keys, freed, x, w.now), seats[k], id, c)
      {
        ReleaseProtects(w.keys, freed, x, w.now, seats[k], id, c);
      }
    }
  }

  lemma ConfirmCovers(w: World, x: OrderId, sold: seq<Seat>, id: OrderId, seats: seq<Seat>, c: int)
    requires Covered(w, id, seats, c) && id != x
    ensures Covered(w.(keys := Confirm(w.keys, sold, x, w.now)), id, seats, c)
  {
    if w.now < c {
      forall k | 0 <= k < |seats|
        ensures Protected(Confirm(w.keys, sold, x, w.now), seats[k], id, c)
      {
        ConfirmProtects(w.keys, sold, x, w.now, seats[k], id, c);
      }
    }
  }

  lemma ReleaseKeepsCovers(c: Config, w: World, x: OrderId, freed: seq<Seat>)
    requires Covers(c, w)
    requires x !in w.creating
    requires x in w.db.orders ==> w.db.orders[x].status != Held
    requires forall a :: a in w.pays && w.pays[a].phase.Reheld? ==> w.pays[a].p.order != x
    ensures Covers(c, w.(keys := Release(w.keys, freed, x, w.now)))
  {
    hide Covered, Release;
    var v := w.(keys := Release(w.keys, freed, x, w.now));
    forall id | id in v.creating
      ensures Covered(v, id, v.creating[id].seats, v.granted[id])
    {
      ReleaseCovers(w, x, freed, id, w.creating[id].seats, w.granted[id]);
    }
    forall id | id in v.db.orders && v.db.orders[id].status == Held && id in v.granted
      ensures Covered(v, id, v.db.orders[id].seats, v.granted[id])
    {
      ReleaseCovers(w, x, freed, id, w.db.orders[id].seats, w.granted[id]);
    }
    forall a | a in v.pays && v.pays[a].phase.Reheld? && v.pays[a].phase.reply == HoldGranted && v.pays[a].p.order in v.db.orders
      ensures Covered(v, v.pays[a].p.order, v.db.orders[v.pays[a].p.order].seats, v.pays[a].phase.at + LATE)
    {
      ReleaseCovers(w, x, freed, w.pays[a].p.order, w.db.orders[w.pays[a].p.order].seats, w.pays[a].phase.at + LATE);
    }
  }

  lemma ConfirmKeepsCovers(c: Config, w: World, x: OrderId, sold: seq<Seat>)
    requires Covers(c, w)
    requires x !in w.creating
    requires x in w.db.orders ==> w.db.orders[x].status != Held
    requires forall a :: a in w.pays && w.pays[a].phase.Reheld? ==> w.pays[a].p.order != x
    ensures Covers(c, w.(keys := Confirm(w.keys, sold, x, w.now)))
  {
    hide Covered, Confirm;
    var v := w.(keys := Confirm(w.keys, sold, x, w.now));
    forall id | id in v.creating
      ensures Covered(v, id, v.creating[id].seats, v.granted[id])
    {
      ConfirmCovers(w, x, sold, id, w.creating[id].seats, w.granted[id]);
    }
    forall id | id in v.db.orders && v.db.orders[id].status == Held && id in v.granted
      ensures Covered(v, id, v.db.orders[id].seats, v.granted[id])
    {
      ConfirmCovers(w, x, sold, id, w.db.orders[id].seats, w.granted[id]);
    }
    forall a | a in v.pays && v.pays[a].phase.Reheld? && v.pays[a].phase.reply == HoldGranted && v.pays[a].p.order in v.db.orders
      ensures Covered(v, v.pays[a].p.order, v.db.orders[v.pays[a].p.order].seats, v.pays[a].phase.at + LATE)
    {
      ConfirmCovers(w, x, sold, w.pays[a].p.order, w.db.orders[w.pays[a].p.order].seats, w.pays[a].phase.at + LATE);
    }
  }

  /** A granted hold covers x for its whole length and spares the others. */
  lemma HoldGrants(w: World, x: OrderId, seats: seq<Seat>, until: int)
    requires Taken(w.keys, seats, x, w.now) == []
    ensures Covered(w.(keys := Hold(w.keys, seats, x, w.now, until)), x, seats, until)
  {
    forall k | 0 <= k < |seats|
      ensures Protected(Hold(w.keys, seats, x, w.now, until), seats[k], x, until)
    {
      HoldGives(w.keys, seats, x, w.now, until, seats[k]);
    }
  }

  lemma HoldKeepsCovers(c: Config, w: World, x: OrderId, seats: seq<Seat>, until: int)
    requires Covers(c, w) && Taken(w.keys, seats, x, w.now) == []
    requires x !in w.creating
    requires x in w.db.orders && w.db.orders[x].status == Held ==> seats == w.db.orders[x].seats
    requires forall a :: a in w.pays && w.pays[a].phase.Reheld? ==> w.pays[a].p.order != x
    ensures Covers(c, w.(keys := Hold(w.keys, seats, x, w.now, until), granted := w.granted[x := until]))
  {
    var h := w.(keys := Hold(w.keys, seats, x, w.now, until));
    var v := h.(granted := w.granted[x := until]);
    HoldGrants(w, x, seats, until);
    assert forall id, s, t :: Covered(v, id, s, t) <==> Covered(h, id, s, t);
    forall id | id in v.creating
      ensures Covered(v, id, v.creating[id].seats, v.granted[id])
    {
      HoldCovers(w, x, seats, until, id, w.creating[id].seats, w.granted[id]);
    }
    forall id | id in v.db.orders && v.db.orders[id].status == Held && id in v.granted
      ensures Covered(v, id, v.db.orders[id].seats, v.granted[id])
    {
      if id != x {
        HoldCovers(w, x, seats, until, id, w.db.orders[id].seats, w.granted[id]);
      }
    }
    forall a | a in v.pays && v.pays[a].phase.Reheld? && v.pays[a].phase.reply == HoldGranted && v.pays[a].p.order in v.db.orders
      ensures Covered(v, v.pays[a].p.order, v.db.orders[v.pays[a].p.order].seats, v.pays[a].phase.at + LATE)
    {
      HoldCovers(w, x, seats, until, w.pays[a].p.order, w.db.orders[w.pays[a].p.order].seats, w.pays[a].phase.at + LATE);
    }
  }

  // ---- table changes that leave the keys alone ----------------------------

  /** Between db and d only order x moved, by a listed transition, and nothing else about it changed. */
  ghost predicate OnlyMoves(db: DB, d: DB, x: OrderId) {
    && d.orders.Keys == db.orders.Keys
    && (forall j :: j in db.orders && j != x ==> d.orders[j] == db.orders[j])
    && (x in db.orders ==>
          && d.orders[x] == db.orders[x].(status := d.orders[x].status)
          && (d.orders[x].status == db.orders[x].status || CanTransition(db.orders[x].status, d.orders[x].status)))
  }

  lemma CancelMoves(db: DB, user: int, id: OrderId)
    ensures OnlyMoves(db, Cancel(db, user, id), id)
    ensures forall j :: j in db.orders && Sold(Cancel(db, user, id).orders[j].status) ==> Sold(db.orders[j].status)
  {
  }

  lemma ExpireMoves(db: DB, id: OrderId, now: int)
    ensures OnlyMoves(db, ExpireOne(db, id, now), id)
    ensures forall j :: j in db.orders && Sold(ExpireOne(db, id, now).orders[j].status) ==> Sold(db.orders[j].status)
  {
  }

  lemma IssueMoves(db: DB, id: OrderId)
    ensures OnlyMoves(db, Issue(db, id), id)
    ensures forall j :: j in db.orders && Sold(Issue(db, id).orders[j].status) ==> Sold(db.orders[j].status)
  {
  }

  lemma CompleteMoves(db: DB, txn: Txn)
    requires txn in db.refunds
    ensures OnlyMoves(db, Complete(db, txn), db.refunds[txn].order)
    ensures forall j :: j in db.orders && Sold(Complete(db, txn).orders[j].status) ==> Sold(db.orders[j].status)
  {
  }

  /** What a webhook's outcome says about the orders. */
  ghost predicate PayEffect(db: DB, r: Paying, id: OrderId) {
    && OnlyMoves(db, r.db, id)
    && (r.result == Recorded(Applied) ==> id in db.orders && r.db.orders[id].status == States.Paid)
    && (r.result != Recorded(Applied) ==> forall j :: j in db.orders && Sold(r.db.orders[j].status) ==> Sold(db.orders[j].status))
    && (r.release ==> id in db.orders && r.db.orders[id].status == Refunding)
  }

  lemma SameOrdersEffect(db: DB, r: Paying, id: OrderId)
    requires r.db.orders == db.orders && r.result != Recorded(Applied) && !r.release
    ensures PayEffect(db, r, id)
  {
  }

  lemma SellEffect(db: DB, p: Webhook)
    requires p.order in db.orders && db.orders[p.order].status in {Held, Expired}
    ensures PayEffect(db, Paying(SellSeats(db, p), Recorded(Applied), true, false), p.order)
  {
  }

  lemma GiveBackEffect(db: DB, p: Webhook, reason: Reason, to: Option<Status>, release: bool)
    requires p.order in db.orders && (to == None || (to == Some(Refunding) && db.orders[p.order].status in {Held, Expired, Cancelled}))
    requires release ==> to == Some(Refunding)
    ensures PayEffect(db, Paying(GiveMoneyBack(db, p, reason, to), Recorded(RefundRequired), false, release), p.order)
  {
  }

  lemma DecisionFacts(db: DB, o: Order, p: Webhook, now: int, reply: HoldReply)
    ensures var d := Decide(db, o, p, now, reply);
      && (d == Sell ==> o.status in {Held, Expired})
      && (d.GiveBack? ==> d.to == None || (d.to == Some(Refunding) && o.status in {Held, Expired, Cancelled}))
      && (d.GiveBack? && d.release ==> d.to == Some(Refunding))
  {
    hide SeatsUnsold;
  }

  /** A webhook moves its own order only; it sells it exactly when the payment is applied, and gives up on it when it releases. */
  lemma PayMoves(db: DB, p: Webhook, now: int, reply: HoldReply)
    ensures PayEffect(db, Pay(db, p, now, reply), p.order)
  {
    hide PayEffect, Decide, SellSeats, GiveMoneyBack;
    if ValidWebhook(p) && p.order in db.orders && p.txn !in db.payments {
      var d := Decide(db, db.orders[p.order], p, now, reply);
      DecisionFacts(db, db.orders[p.order], p, now, reply);
      match d
      case Sell => SellEffect(db, p);
      case GiveBack(reason, to, release) => GiveBackEffect(db, p, reason, to, release);
      case _ => SameOrdersEffect(db, Pay(db, p, now, reply), p.order);
    } else {
      SameOrdersEffect(db, Pay(db, p, now, reply), p.order);
    }
  }

  lemma MovesKeepCovers(c: Config, w: World, d: DB, x: OrderId)
    requires Covers(c, w) && OnlyMoves(w.db, d, x)
    ensures Covers(c, w.(db := d))
  {
    var v := w.(db := d);
    assert forall id, seats, t :: Covered(v, id, seats, t) <==> Covered(w, id, seats, t);
    forall id | id in v.db.orders && v.db.orders[id].status == Held && id in v.granted
      ensures Covered(v, id, v.db.orders[id].seats, v.granted[id])
    {
      assert w.db.orders[id].status == Held;
      assert Covered(w, id, w.db.orders[id].seats, w.granted[id]);
    }
    forall a | a in v.pays && v.pays[a].phase.Reheld? && v.pays[a].phase.reply == HoldGranted && v.pays[a].p.order in v.db.orders
      ensures Covered(v, v.pays[a].p.order, v.db.orders[v.pays[a].p.order].seats, v.pays[a].phase.at + LATE)
    {
      assert Covered(w, w.pays[a].p.order, w.db.orders[w.pays[a].p.order].seats, w.pays[a].phase.at + LATE);
    }
  }

  lemma MovesKeepLocks(w: World, d: DB, x: OrderId)
    requires LocksHeld(w) && OnlyMoves(w.db, d, x)
    requires forall a :: a in w.pays && w.pays[a].phase.Reheld? ==> w.pays[a].p.order != x
    ensures LocksHeld(w.(db := d))
  {
  }

  /** Transitions never lead back: not to HELD, not out of a sale, not out of a hopeless state. */
  lemma TransitionFacts(a: Status, b: Status)
    ensures CanTransition(a, b) ==> b != Held && (Sold(a) ==> Sold(b)) && (Hopeless(a) ==> Hopeless(b))
  {
  }

  lemma MovesKeepBooks(w: World, d: DB, x: OrderId)
    requires Bookkeeping(w) && OnlyMoves(w.db, d, x)
    requires forall j :: j in w.db.orders && Sold(d.orders[j].status) ==> Sold(w.db.orders[j].status)
    ensures Bookkeeping(w.(db := d))
  {
    if x in w.db.orders {
      TransitionFacts(w.db.orders[x].status, d.orders[x].status);
    }
    hide CanTransition, Hopeless, Sold;
  }

  /** A transaction on an order nobody has locked keeps everything but the saga invariant, which is its own business. */
  lemma MoveKeeps(c: Config, w: World, d: DB, x: OrderId)
    requires WorldInv(c, w) && OnlyMoves(w.db, d, x) && Unlocked(w, x) && Inv(d)
    requires forall j :: j in w.db.orders && Sold(d.orders[j].status) ==> Sold(w.db.orders[j].status)
    ensures WorldInv(c, w.(db := d))
  {
    hide Inv, Bookkeeping, LocksHeld, Covers;
    MovesKeepCovers(c, w, d, x);
    MovesKeepLocks(w, d, x);
    MovesKeepBooks(w, d, x);
  }
}
