/** Each step of the timed protocol keeps the world invariant, so every interleaving does. */
module TimedSteps {
  import opened States
  import opened Saga
  import opened SagaInv
  import opened SeatKeys
  import opened Timed
  import opened TimedInv

  lemma TickCovers(c: Config, w: World, to: int)
    requires Covers(c, w) && w.now <= to
    ensures Covers(c, w.(now := to))
  {
    var v := w.(now := to);
    assert forall id, seats, t :: Covered(w, id, seats, t) ==> Covered(v, id, seats, t);
  }

  lemma TickKeeps(c: Config, w: World, to: int)
    requires WorldInv(c, w) && Enabled(c, w, Tick(to))
    ensures WorldInv(c, Do(c, w, Tick(to)))
  {
    hide Inv, Covers;
    TickCovers(c, w, to);
  }

  /** Locks are a matter of orders, transactions, expirer locks and the clock. */
  lemma SameLocks(w: World, u: World)
    requires LocksHeld(w) && u.db.orders == w.db.orders && u.pays == w.pays && u.expiring == w.expiring && u.now == w.now
    ensures LocksHeld(u)
  {
  }

  lemma TakeHoldCovers(c: Config, w: World, id: OrderId, seats: seq<Seat>)
    requires LocksHeld(w) && Covers(c, w) && Enabled(c, w, TakeHold(id, seats))
    ensures Covers(c, Do(c, w, TakeHold(id, seats)))
  {
    hide Covers, Covered;
    var until := w.now + c.ttl + c.grace;
    HoldKeepsCovers(c, w, id, seats, until);
    HoldGrants(w, id, seats, until);
    var h := w.(keys := Hold(w.keys, seats, id, w.now, until));
    var v := h.(granted := w.granted[id := until]);
    SameKeys(h, v);
    CoversWithCreating(c, v, id, seats);
  }

  lemma TakeHoldKeeps(c: Config, w: World, id: OrderId, seats: seq<Seat>)
    requires WorldInv(c, w) && Enabled(c, w, TakeHold(id, seats))
    ensures WorldInv(c, Do(c, w, TakeHold(id, seats)))
  {
    hide Inv, LocksHeld, Covers;
    TakeHoldCovers(c, w, id, seats);
    SameLocks(w, Do(c, w, TakeHold(id, seats)));
  }

  lemma CoversWithCreating(c: Config, v: World, id: OrderId, seats: seq<Seat>)
    requires Covers(c, v) && id in v.granted && v.granted[id] == v.now + c.ttl + c.grace
    requires Covered(v, id, seats, v.granted[id])
    ensures Covers(c, v.(creating := v.creating[id := Creating(seats, v.now)]))
  {
    var u := v.(creating := v.creating[id := Creating(seats, v.now)]);
    SameKeys(v, u);
  }

  /** Cover depends on the keys and the clock only. */
  lemma SameKeys(v: World, u: World)
    requires u.keys == v.keys && u.now == v.now
    ensures forall id, seats, t :: Covered(u, id, seats, t) <==> Covered(v, id, seats, t)
    ensures u.db == v.db && u.granted == v.granted && HeldCovered(v) ==> HeldCovered(u)
    ensures u.db == v.db && u.granted == v.granted && u.pays == v.pays && ReheldCovered(v) ==> ReheldCovered(u)
  {
    forall id, seats, t
      ensures Covered(u, id, seats, t) <==> Covered(v, id, seats, t)
    {
    }
  }

  lemma InsertCovers(c: Config, w: World, id: OrderId, o: Order, start: int)
    requires LocksHeld(w) && Covers(c, w) && Enabled(c, w, InsertOrder(id, o, start))
    ensures Covers(c, Do(c, w, InsertOrder(id, o, start)))
  {
    hide LocksHeld, HeldCovered, ReheldCovered, Covered;
    var u := Do(c, w, InsertOrder(id, o, start));
    SameKeys(w, u);
    assert Covered(w, id, o.seats, w.granted[id]);
    InsertHeldCovered(w, u, id);
    InsertReheld(w, u, id);
  }

  lemma InsertLocks(w: World, u: World, id: OrderId)
    requires LocksHeld(w) && id !in w.db.orders && id in u.db.orders && u.db.orders == w.db.orders[id := u.db.orders[id]]
    requires u.pays == w.pays && u.expiring == w.expiring && u.now == w.now
    ensures LocksHeld(u)
  {
  }

  lemma InsertBooks(c: Config, w: World, id: OrderId, o: Order, start: int)
    requires Bookkeeping(w) && Enabled(c, w, InsertOrder(id, o, start))
    ensures Bookkeeping(Do(c, w, InsertOrder(id, o, start)))
  {
  }

  lemma InsertKeeps(c: Config, w: World, id: OrderId, o: Order, start: int)
    requires WorldInv(c, w) && Enabled(c, w, InsertOrder(id, o, start))
    ensures WorldInv(c, Do(c, w, InsertOrder(id, o, start)))
  {
    hide Inv, LocksHeld, Covers, Bookkeeping;
    PlaceKeeps(w.db, id, o);
    InsertCovers(c, w, id, o, start);
    InsertLocks(w, Do(c, w, InsertOrder(id, o, start)), id);
    InsertBooks(c, w, id, o, start);
  }

  lemma InsertHeldCovered(w: World, u: World, id: OrderId)
    requires HeldCovered(w)
    requires u.keys == w.keys && u.now == w.now && u.granted == w.granted
    requires id !in w.db.orders && id in u.db.orders && u.db.orders == w.db.orders[id := u.db.orders[id]]
    requires id in u.granted && Covered(u, id, u.db.orders[id].seats, u.granted[id])
    ensures HeldCovered(u)
  {
    SameKeys(w, u);
  }

  lemma InsertReheld(w: World, u: World, id: OrderId)
    requires ReheldCovered(w) && LocksHeld(w)
    requires u.keys == w.keys && u.now == w.now && u.pays == w.pays && u.granted == w.granted
    requires id !in w.db.orders && id in u.db.orders && u.db.orders == w.db.orders[id := u.db.orders[id]]
    ensures ReheldCovered(u)
  {
    SameKeys(w, u);
  }

  lemma FewerCreating(c: Config, w: World, id: OrderId)
    requires Covers(c, w)
    ensures Covers(c, w.(creating := w.creating - {id}))
  {
    SameKeys(w, w.(creating := w.creating - {id}));
  }

  lemma AbandonCovers(c: Config, w: World, id: OrderId, released: bool)
    requires Bookkeeping(w) && LocksHeld(w) && Covers(c, w) && Enabled(c, w, Abandon(id, released))
    ensures Covers(c, Do(c, w, Abandon(id, released)))
  {
    hide Covers;
    FewerCreating(c, w, id);
    if released {
      ReleaseKeepsCovers(c, w.(creating := w.creating - {id}), id, w.creating[id].seats);
    }
  }

  lemma AbandonKeeps(c: Config, w: World, id: OrderId, released: bool)
    requires WorldInv(c, w) && Enabled(c, w, Abandon(id, released))
    ensures WorldInv(c, Do(c, w, Abandon(id, released)))
  {
    hide Inv, LocksHeld, Covers;
    AbandonCovers(c, w, id, released);
    SameLocks(w, Do(c, w, Abandon(id, released)));
  }

  lemma CancelOrderKeeps(c: Config, w: World, user: int, id: OrderId)
    requires WorldInv(c, w) && Enabled(c, w, CancelOrder(user, id))
    ensures WorldInv(c, Do(c, w, CancelOrder(user, id)))
  {
    hide Inv, LocksHeld, Covers, Bookkeeping;
    var d := Cancel(w.db, user, id);
    CancelKeeps(w.db, user, id);
    CancelMoves(w.db, user, id);
    MoveKeeps(c, w, d, id);
    BooksRelease(w.(db := d), id);
    FlagsKeep(c, w.(db := d), Do(c, w, CancelOrder(user, id)));
  }

  lemma BooksRelease(w: World, id: OrderId)
    requires Bookkeeping(w) && id in w.db.orders && Hopeless(w.db.orders[id].status)
    ensures Bookkeeping(w.(releasing := w.releasing + {id}))
  {
  }

  /** The to-do sets of releases do not matter to locks and cover. */
  lemma FlagsKeep(c: Config, w: World, u: World)
    requires u == w.(expired := u.expired, releasing := u.releasing)
    ensures LocksHeld(w) ==> LocksHeld(u)
    ensures Covers(c, w) ==> Covers(c, u)
  {
    hide LocksHeld, Covers;
    if LocksHeld(w) {
      SameLocks(w, u);
    }
    if Covers(c, w) {
      FlagsCover(c, w, u);
    }
  }

  lemma FlagsCover(c: Config, w: World, u: World)
    requires Covers(c, w) && u == w.(expired := u.expired, releasing := u.releasing)
    ensures Covers(c, u)
  {
    hide Covered, HeldCovered, ReheldCovered;
    SameKeys(w, u);
  }

  lemma ExpireOrderKeeps(c: Config, w: World, id: OrderId)
    requires WorldInv(c, w) && Enabled(c, w, ExpireOrder(id))
    ensures WorldInv(c, Do(c, w, ExpireOrder(id)))
  {
    hide Inv, LocksHeld, Covers, Bookkeeping;
    var d := ExpireOne(w.db, id, w.now);
    ExpireKeeps(w.db, [id], w.now);
    assert Expire(w.db, [id], w.now) == d by { ExpireSingle(w.db, id, w.now); }
    ExpireMoves(w.db, id, w.now);
    MoveKeeps(c, w, d, id);
    BooksExpire(w.(db := d), id);
    FlagsKeep(c, w.(db := d), Do(c, w, ExpireOrder(id)));
  }

  lemma ExpireSingle(db: DB, id: OrderId, now: int)
    ensures Expire(db, [id], now) == ExpireOne(db, id, now)
  {
    assert [id][..0] == [];
  }

  lemma BooksExpire(w: World, id: OrderId)
    requires Bookkeeping(w) && id in w.db.orders && w.db.orders[id].status != Held
    ensures Bookkeeping(w.(expired := w.expired + {id}))
  {
  }

  lemma LockExpiredLocks(c: Config, w: World, id: OrderId)
    requires LocksHeld(w) && Enabled(c, w, LockExpired(id))
    ensures LocksHeld(Do(c, w, LockExpired(id)))
  {
  }

  /** The expirer's locks do not matter to cover. */
  lemma ExpiringFree(c: Config, w: World, u: World)
    requires Covers(c, w) && u == w.(expiring := u.expiring, expired := u.expired)
    ensures Covers(c, u)
  {
    SameKeys(w, u);
  }

  lemma LockExpiredKeeps(c: Config, w: World, id: OrderId)
    requires WorldInv(c, w) && Enabled(c, w, LockExpired(id))
    ensures WorldInv(c, Do(c, w, LockExpired(id)))
  {
    hide Inv, Covers, LocksHeld;
    LockExpiredLocks(c, w, id);
    ExpiringFree(c, w, Do(c, w, LockExpired(id)));
  }

  /** The heart of the expiry race: the expirer's own lock keeps any re-holding webhook off this order. */
  lemma ReleaseExpiredKeeps(c: Config, w: World, id: OrderId)
    requires WorldInv(c, w) && Enabled(c, w, ReleaseExpired(id))
    ensures WorldInv(c, Do(c, w, ReleaseExpired(id)))
  {
    hide Inv, Covers;
    ReleaseKeepsCovers(c, w, id, SeatsOf(w, id));
  }

  lemma UnlockExpiredLocks(w: World, u: World)
    requires LocksHeld(w) && u == w.(expiring := u.expiring, expired := u.expired) && u.expiring <= w.expiring
    ensures LocksHeld(u)
  {
  }

  lemma UnlockExpiredKeeps(c: Config, w: World, id: OrderId)
    requires WorldInv(c, w) && Enabled(c, w, UnlockExpired(id))
    ensures WorldInv(c, Do(c, w, UnlockExpired(id)))
  {
    hide Inv, Covers, LocksHeld;
    UnlockExpiredLocks(w, Do(c, w, UnlockExpired(id)));
    ExpiringFree(c, w, Do(c, w, UnlockExpired(id)));
  }

  /** An order waiting for its release is decided against, so no webhook re-held its seats. */
  lemma HopelessIsFree(w: World, id: OrderId)
    requires Bookkeeping(w) && LocksHeld(w) && id in w.releasing
    ensures id !in w.creating && id in w.db.orders && w.db.orders[id].status != Held
    ensures forall a :: a in w.pays && w.pays[a].phase.Reheld? ==> w.pays[a].p.order != id
  {
  }

  lemma BooksUnrelease(w: World, u: World)
    requires Bookkeeping(w) && u == w.(releasing := u.releasing, keys := u.keys) && u.releasing <= w.releasing
    ensures Bookkeeping(u)
  {
  }

  lemma ReleaseLaterKeeps(c: Config, w: World, id: OrderId, released: bool)
    requires WorldInv(c, w) && Enabled(c, w, ReleaseLater(id, released))
    ensures WorldInv(c, Do(c, w, ReleaseLater(id, released)))
  {
    hide Inv, Covers, Bookkeeping, LocksHeld, Release;
    HopelessIsFree(w, id);
    if released {
      ReleaseKeepsCovers(c, w, id, SeatsOf(w, id));
    }
    var v := w.(keys := if released then Release(w.keys, SeatsOf(w, id), id, w.now) else w.keys);
    var u := Do(c, w, ReleaseLater(id, released));
    FlagsKeep(c, v, u);
    SameLocks(w, u);
    BooksUnrelease(w, u);
  }

  lemma BeginPayLocks(c: Config, w: World, pid: nat, p: Webhook)
    requires LocksHeld(w) && Enabled(c, w, BeginPay(pid, p))
    ensures LocksHeld(Do(c, w, BeginPay(pid, p)))
  {
  }

  lemma BeginPayKeeps(c: Config, w: World, pid: nat, p: Webhook)
    requires WorldInv(c, w) && Enabled(c, w, BeginPay(pid, p))
    ensures WorldInv(c, Do(c, w, BeginPay(pid, p)))
  {
    hide Inv, Covers, Bookkeeping, LocksHeld;
    BeginPayLocks(c, w, pid, p);
    BooksPays(w, Do(c, w, BeginPay(pid, p)));
    PayCovers(c, w, pid, PayTx(p, w.now, Waiting));
  }

  lemma LockPayLocks(c: Config, w: World, pid: nat)
    requires LocksHeld(w) && Enabled(c, w, LockPay(pid))
    ensures LocksHeld(Do(c, w, LockPay(pid)))
  {
  }

  /** A webhook transaction that has not been granted a re-hold claims no cover. */
  lemma PayCovers(c: Config, w: World, pid: nat, tx: PayTx)
    requires Covers(c, w)
    requires tx.phase.Reheld? && tx.phase.reply == HoldGranted && tx.p.order in w.db.orders
             ==> tx.p.order in w.granted && w.granted[tx.p.order] == tx.phase.at + LATE
                 && Covered(w, tx.p.order, w.db.orders[tx.p.order].seats, tx.phase.at + LATE)
    ensures Covers(c, w.(pays := w.pays[pid := tx]))
  {
    SameKeys(w, w.(pays := w.pays[pid := tx]));
  }

  lemma LockPayKeeps(c: Config, w: World, pid: nat)
    requires WorldInv(c, w) && Enabled(c, w, LockPay(pid))
    ensures WorldInv(c, Do(c, w, LockPay(pid)))
  {
    hide Inv, LocksHeld, Covers;
    LockPayLocks(c, w, pid);
    PayCovers(c, w, pid, w.pays[pid].(phase := Locked));
  }

  /** Why a re-hold shortens nobody else's cover: no other webhook has the order, and no create does. */
  lemma ReholdFits(c: Config, w: World, pid: nat)
    requires Bookkeeping(w) && LocksHeld(w) && Enabled(c, w, Rehold(pid))
    ensures var id := w.pays[pid].p.order;
      && id in w.db.orders && id !in w.creating && id in w.granted
      && (forall a :: a in w.pays && w.pays[a].phase.Reheld? ==> w.pays[a].p.order != id)
  {
  }

  lemma ReholdCovers(c: Config, w: World, pid: nat)
    requires Bookkeeping(w) && LocksHeld(w) && Covers(c, w) && Enabled(c, w, Rehold(pid))
    ensures Covers(c, Do(c, w, Rehold(pid)))
  {
    hide Covers, Covered, Bookkeeping, LocksHeld, Hold, Taken;
    var id := w.pays[pid].p.order;
    var seats := SeatsOf(w, id);
    var u := Do(c, w, Rehold(pid));
    ReholdFits(c, w, pid);
    if Taken(w.keys, seats, id, w.now) == [] {
      var h := w.(keys := Hold(w.keys, seats, id, w.now, w.now + LATE));
      var v := h.(granted := w.granted[id := w.now + LATE]);
      HoldKeepsCovers(c, w, id, seats, w.now + LATE);
      HoldGrants(w, id, seats, w.now + LATE);
      SameKeys(h, v);
      PayCovers(c, v, pid, u.pays[pid]);
    } else {
      NothingHeld(w.keys, seats, id, w.now, w.now + LATE);
      PayCovers(c, w, pid, u.pays[pid]);
    }
  }

  lemma NothingHeld(keys: Keys, seats: seq<Seat>, id: OrderId, now: int, until: int)
    requires Taken(keys, seats, id, now) != []
    ensures Hold(keys, seats, id, now, until) == keys
  {
  }

  lemma ReholdLocks(c: Config, w: World, pid: nat)
    requires LocksHeld(w) && Enabled(c, w, Rehold(pid))
    ensures LocksHeld(Do(c, w, Rehold(pid)))
  {
  }

  lemma ReholdKeeps(c: Config, w: World, pid: nat)
    requires WorldInv(c, w) && Enabled(c, w, Rehold(pid))
    ensures WorldInv(c, Do(c, w, Rehold(pid)))
  {
    hide Inv, LocksHeld, Covers;
    ReholdCovers(c, w, pid);
    ReholdLocks(c, w, pid);
  }

  lemma FewerPaysLocks(w: World, pid: nat)
    requires LocksHeld(w)
    ensures LocksHeld(w.(pays := w.pays - {pid}))
  {
  }

  lemma AbortPayKeeps(c: Config, w: World, pid: nat)
    requires WorldInv(c, w) && Enabled(c, w, AbortPay(pid))
    ensures WorldInv(c, Do(c, w, AbortPay(pid)))
  {
    hide Inv, Covers, Bookkeeping, LocksHeld;
    FewerPays(c, w, pid);
    FewerPaysLocks(w, pid);
    BooksPays(w, Do(c, w, AbortPay(pid)));
  }

  lemma BooksSold(w: World, d: DB, x: OrderId)
    requires Bookkeeping(w) && OnlyMoves(w.db, d, x) && x in w.db.orders && Sold(d.orders[x].status)
    ensures Bookkeeping(w.(db := d, paidAt := w.paidAt[x := w.now]))
  {
    TransitionFacts(w.db.orders[x].status, d.orders[x].status);
    hide CanTransition, Hopeless, Sold;
  }

  lemma CommitBooks(w: World, pid: nat)
    requires Bookkeeping(w) && pid in w.pays
    ensures Bookkeeping(DoCommit(w, pid))
  {
    hide Pay, Bookkeeping;
    var tx := w.pays[pid];
    var r := PayNow(w, tx);
    PayMoves(w.db, tx.p, tx.start, ReplyOf(tx));
    var v := w.(pays := w.pays - {pid});
    BooksPays(w, v);
    if r.result == Recorded(Applied) {
      BooksSold(v, r.db, tx.p.order);
    } else {
      MovesKeepBooks(v, r.db, tx.p.order);
    }
    if r.release {
      BooksRelease(DoCommit(w, pid).(releasing := w.releasing), tx.p.order);
    }
  }

  lemma BooksPays(w: World, v: World)
    requires Bookkeeping(w) && v == w.(pays := v.pays)
    ensures Bookkeeping(v)
  {
  }

  lemma CommitCovers(c: Config, w: World, pid: nat)
    requires Covers(c, w) && pid in w.pays
    ensures Covers(c, DoCommit(w, pid))
  {
    hide Covers, Pay;
    var tx := w.pays[pid];
    var v := w.(pays := w.pays - {pid});
    PayMoves(w.db, tx.p, tx.start, ReplyOf(tx));
    FewerPays(c, w, pid);
    MovesKeepCovers(c, v, PayNow(w, tx).db, tx.p.order);
    var u := v.(db := PayNow(w, tx).db, paidAt := DoCommit(w, pid).paidAt);
    PaidAtFree(c, v.(db := PayNow(w, tx).db), u);
    FlagsKeep(c, u, DoCommit(w, pid));
  }

  lemma CommitLocks(c: Config, w: World, pid: nat)
    requires LocksHeld(w) && pid in w.pays && w.pays[pid].phase != Waiting
    ensures LocksHeld(DoCommit(w, pid))
  {
    hide Pay;
    var tx := w.pays[pid];
    var v := w.(pays := w.pays - {pid});
    PayMoves(w.db, tx.p, tx.start, ReplyOf(tx));
    FewerPaysLocks(w, pid);
    MovesKeepLocks(v, PayNow(w, tx).db, tx.p.order);
    SameLocks(v.(db := PayNow(w, tx).db), DoCommit(w, pid));
  }

  lemma CommitPayKeeps(c: Config, w: World, pid: nat)
    requires WorldInv(c, w) && Enabled(c, w, CommitPay(pid))
    ensures WorldInv(c, Do(c, w, CommitPay(pid)))
  {
    hide Inv, Covers, Bookkeeping, LocksHeld, Pay, MustRehold;
    var tx := w.pays[pid];
    PayKeeps(w.db, tx.p, tx.start, ReplyOf(tx));
    CommitBooks(w, pid);
    CommitCovers(c, w, pid);
    CommitLocks(c, w, pid);
  }

  lemma FewerPays(c: Config, w: World, pid: nat)
    requires Covers(c, w)
    ensures Covers(c, w.(pays := w.pays - {pid}))
  {
    SameKeys(w, w.(pays := w.pays - {pid}));
  }

  lemma PaidAtFree(c: Config, w: World, u: World)
    requires Covers(c, w) && u == w.(paidAt := u.paidAt)
    ensures Covers(c, u)
  {
    SameKeys(w, u);
  }

  /** A sold order is decided, so no webhook re-held its seats. */
  lemma SoldIsFree(w: World, id: OrderId)
    requires Bookkeeping(w) && LocksHeld(w) && id in w.db.orders && Sold(w.db.orders[id].status)
    ensures id !in w.creating && w.db.orders[id].status != Held
    ensures forall a :: a in w.pays && w.pays[a].phase.Reheld? ==> w.pays[a].p.order != id
  {
  }

  lemma ConfirmOrderKeeps(c: Config, w: World, id: OrderId)
    requires WorldInv(c, w) && Enabled(c, w, ConfirmOrder(id))
    ensures WorldInv(c, Do(c, w, ConfirmOrder(id)))
  {
    hide Inv, Covers, LocksHeld, Bookkeeping, Confirm;
    SoldIsFree(w, id);
    ConfirmKeepsCovers(c, w, id, SeatsOf(w, id));
    SameLocks(w, Do(c, w, ConfirmOrder(id)));
    BooksUnrelease(w, Do(c, w, ConfirmOrder(id)));
  }

  lemma IssueOrderKeeps(c: Config, w: World, id: OrderId)
    requires WorldInv(c, w) && Enabled(c, w, IssueOrder(id))
    ensures WorldInv(c, Do(c, w, IssueOrder(id)))
  {
    hide Inv, LocksHeld, Covers, Bookkeeping;
    IssueKeeps(w.db, id);
    IssueMoves(w.db, id);
    MoveKeeps(c, w, Issue(w.db, id), id);
  }

  lemma CompleteRefundKeeps(c: Config, w: World, txn: Txn)
    requires WorldInv(c, w) && Enabled(c, w, CompleteRefund(txn))
    ensures WorldInv(c, Do(c, w, CompleteRefund(txn)))
  {
    hide Inv, LocksHeld, Covers, Bookkeeping;
    if txn in w.db.refunds {
      CompleteKeeps(w.db, txn);
      CompleteMoves(w.db, txn);
      MoveKeeps(c, w, Complete(w.db, txn), w.db.refunds[txn].order);
    }
  }

  lemma DoKeeps(c: Config, w: World, step: Timed.Step)
    requires WorldInv(c, w)
    ensures WorldInv(c, Do(c, w, step))
  {
    if Enabled(c, w, step) {
      hide WorldInv, Enabled;
      match step
      case Tick(to) => TickKeeps(c, w, to);
      case TakeHold(id, seats) => TakeHoldKeeps(c, w, id, seats);
      case InsertOrder(id, o, start) => InsertKeeps(c, w, id, o, start);
      case Abandon(id, released) => AbandonKeeps(c, w, id, released);
      case CancelOrder(user, id) => CancelOrderKeeps(c, w, user, id);
      case ExpireOrder(id) => ExpireOrderKeeps(c, w, id);
      case LockExpired(id) => LockExpiredKeeps(c, w, id);
      case ReleaseExpired(id) => ReleaseExpiredKeeps(c, w, id);
      case UnlockExpired(id) => UnlockExpiredKeeps(c, w, id);
      case ReleaseLater(id, released) => ReleaseLaterKeeps(c, w, id, released);
      case BeginPay(pid, p) => BeginPayKeeps(c, w, pid, p);
      case LockPay(pid) => LockPayKeeps(c, w, pid);
      case Rehold(pid) => ReholdKeeps(c, w, pid);
      case CommitPay(pid) => CommitPayKeeps(c, w, pid);
      case AbortPay(pid) => AbortPayKeeps(c, w, pid);
      case ConfirmOrder(id) => ConfirmOrderKeeps(c, w, id);
      case IssueOrder(id) => IssueOrderKeeps(c, w, id);
      case CompleteRefund(txn) => CompleteRefundKeeps(c, w, txn);
    }
  }
}
