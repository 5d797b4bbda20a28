/** The store and the Redis inventory together: what the services do with the seats around each commit. */
module Services {
  import opened States
  import opened Saga
  import opened SagaInv
  import opened SeatKeys
  import RedisInventory
  import opened Store
  import Timed

  /** The seats of an order, by event and ids, are its seats. */
  lemma SeatsById(event: int, seats: seq<Seat>)
    requires GoodSeats(event, seats)
    ensures RedisInventory.SeatsOf(event, RedisInventory.Ids(seats)) == seats
  {
    forall i | 0 <= i < |seats| ensures seats[i].event == event {
      assert seats[i] in seats;
    }
  }

  /** The keys after releasing, one after the other, the seats of those listed orders that are not sold. */
  function ReleaseUnsold(keys: Keys, orders: map<OrderId, Order>, ids: seq<OrderId>, now: int): Keys
    requires forall i :: 0 <= i < |ids| ==> ids[i] in orders
  {
    if ids == [] then keys
    else
      var n := |ids| - 1;
      var prev := ReleaseUnsold(keys, orders, ids[..n], now);
      if Sold(orders[ids[n]].status) then prev else Release(prev, orders[ids[n]].seats, ids[n], now)
  }

  /** Releasing touches only live holds of listed, unsold orders on their own seats, and removes each of those. */
  lemma {:induction false} ReleaseUnsoldIsExact(keys: Keys, orders: map<OrderId, Order>, ids: seq<OrderId>, now: int, s: Seat)
    requires forall i :: 0 <= i < |ids| ==> ids[i] in orders
    ensures var k := ReleaseUnsold(keys, orders, ids, now);
      Get(k, s, now) ==
        if Get(keys, s, now).Some? && Get(keys, s, now).value.HeldBy? && Get(keys, s, now).value.order in ids
           && !Sold(orders[Get(keys, s, now).value.order].status) && s in orders[Get(keys, s, now).value.order].seats
        then None else Get(keys, s, now)
  {
    if ids == [] {
    } else {
      var n := |ids| - 1;
      ReleaseUnsoldIsExact(keys, orders, ids[..n], now, s);
      assert ids == ids[..n] + [ids[n]];
    }
  }

  /** The webhook has to ask for the seats before it can decide. */
  predicate Asks(db: DB, p: Webhook, start: int) {
    ValidWebhook(p) && p.order in db.orders && p.txn !in db.payments && NeedsHold(db.orders[p.order], p, start)
  }

  function Answer(keys: Keys, db: DB, p: Webhook, now: int): HoldReply
    requires p.order in db.orders
  {
    if Taken(keys, db.orders[p.order].seats, p.order, now) == [] then HoldGranted else HoldTaken
  }

  /** The keys after a webhook: the re-hold it may have taken, then what its decision calls for. */
  function KeysAfter(keys: Keys, db: DB, p: Webhook, start: int, reply: HoldReply, heldAt: int, later: int): Keys {
    if p.order !in db.orders then keys
    else
      var seats := db.orders[p.order].seats;
      var held := if Asks(db, p, start) && reply != HoldFailed then Hold(keys, seats, p.order, heldAt, heldAt + Timed.LATE) else keys;
      var r := Pay(db, p, start, reply);
      if r.confirm then Confirm(held, seats, p.order, later)
      else if r.release then Release(held, seats, p.order, later)
      else held
  }

  // ---- what a webhook owes the inventory, from the keys alone ---------------------------------

  predicate LiveHold(keys: Keys, s: Seat, o: OrderId, now: int) {
    s in keys && keys[s].HeldBy? && keys[s].order == o && now < keys[s].until
  }

  predicate FreeOrOwn(keys: Keys, s: Seat, o: OrderId, now: int) {
    s !in keys || keys[s].order == o || (keys[s].HeldBy? && keys[s].until <= now)
  }

  predicate AllSold(keys: Keys, seats: seq<Seat>, o: OrderId) {
    forall s :: s in seats ==> s in keys && keys[s] == SoldTo(o)
  }

  predicate NoneHeld(keys: Keys, seats: seq<Seat>, o: OrderId, now: int) {
    forall s :: s in seats ==> !LiveHold(keys, s, o, now)
  }

  /** Seats that are somebody else's at this time are as they were. */
  predicate OthersKept(was: Keys, keys: Keys, o: OrderId, now: int) {
    forall s :: s in was && was[s].order != o && (was[s].SoldTo? || now < was[s].until) ==> s in keys && keys[s] == was[s]
  }

  /** The webhook sold the order, or repeats one that did. */
  predicate LeavesSold(r: Result, o: Order) {
    r == Recorded(Applied) || (r == Duplicate && o.status in {States.Paid, Ticketed})
  }

  /** The webhook gave up on an order whose seats may still be held: wrong amount while HELD, or a seat conflict. */
  predicate GivesUpSeats(was: DB, d: DB, p: Webhook) {
    && p.order in was.orders && p.txn !in was.payments && p.txn in d.refunds
    && ((d.refunds[p.txn].reason == AmountMismatch && was.orders[p.order].status == Held) || d.refunds[p.txn].reason == SeatConflict)
  }

  lemma ConfirmSellsAll(keys: Keys, seats: seq<Seat>, o: OrderId, now: int)
    requires forall s :: s in seats ==> FreeOrOwn(keys, s, o, now)
    ensures AllSold(Confirm(keys, seats, o, now), seats, o)
  {
    forall k | 0 <= k < |seats| ensures Confirmable(keys, seats[k], o, now) {
      assert seats[k] in seats;
    }
    forall s | s in seats ensures s in Confirm(keys, seats, o, now) && Confirm(keys, seats, o, now)[s] == SoldTo(o) {
      ConfirmSells(keys, seats, o, now, s);
    }
  }

  lemma ReleaseFreesAll(keys: Keys, seats: seq<Seat>, o: OrderId, now: int)
    ensures NoneHeld(Release(keys, seats, o, now), seats, o, now)
    ensures OthersKept(keys, Release(keys, seats, o, now), o, now)
  {
  }

  lemma {:induction false} ConfirmKeepsOthers(keys: Keys, seats: seq<Seat>, o: OrderId, now: int)
    ensures OthersKept(keys, Confirm(keys, seats, o, now), o, now)
    decreases |seats|
  {
    if seats == [] {
    } else if Confirmable(keys, seats[0], o, now) {
      ConfirmKeepsOthers(keys[seats[0] := SoldTo(o)], seats[1..], o, now);
    }
  }

  lemma HoldKeepsOthers(keys: Keys, seats: seq<Seat>, o: OrderId, now: int, until: int, later: int)
    requires now <= later
    ensures OthersKept(keys, Hold(keys, seats, o, now, until), o, later)
  {
    TakenIsExact(keys, seats, o, now);
  }

  /** After a granted hold every seat is the order's own, and stays free or its own when the hold lapses. */
  lemma HeldIsOwn(keys: Keys, seats: seq<Seat>, o: OrderId, now: int, until: int, later: int)
    requires Taken(keys, seats, o, now) == []
    ensures forall s :: s in seats ==> FreeOrOwn(Hold(keys, seats, o, now, until), s, o, later)
  {
  }

  class Service {
    const store: Store
    const redis: RedisInventory.Redis

    constructor (store: Store, redis: RedisInventory.Redis)
      ensures this.store == store && this.redis == redis
    {
      this.store := store;
      this.redis := redis;
    }

    /** Orders and seats of the store are sound. */
    ghost predicate Valid()
      reads store
    {
      store.Valid()
    }

    /** The order statuses, read under the row locks. */
    method LockStatuses(ids: seq<OrderId>) returns (status: map<OrderId, Status>)
      requires forall i :: 0 <= i < |ids| ==> ids[i] in store.orders
      ensures status == map id | id in ids :: store.orders[id].status
    {
      status := map[];
      for i := 0 to |ids|
        invariant status == map id | id in ids[..i] :: store.orders[id].status
      {
        assert ids[..i + 1] == ids[..i] + [ids[i]];
        status := status[ids[i] := store.orders[ids[i]].status];
      }
      assert ids[..|ids|] == ids;
    }

    /** releaseExpired: the seats of every order of the batch go back, except those a late payment has kept. */
    method ReleaseExpired(expired: seq<OrderId>, now: int)
      requires Valid() && forall i :: 0 <= i < |expired| ==> expired[i] in store.orders
      modifies redis
      ensures redis.keys == ReleaseUnsold(old(redis.keys), store.orders, expired, now)
    {
      hide Inv, Release, GoodSeats;
      var status := LockStatuses(expired);
      for i := 0 to |expired|
        invariant redis.keys == ReleaseUnsold(old(redis.keys), store.orders, expired[..i], now)
      {
        assert expired[..i + 1][..i] == expired[..i];
        var id := expired[i];
        if status[id] != States.Paid && status[id] != Ticketed {
          var o := store.orders[id];
          SeatsAreGood(store.State(), id);
          SeatsById(o.event, o.seats);
          redis.Release(o.event, RedisInventory.Ids(o.seats), id, now);
        }
      }
      assert expired[..|expired|] == expired;
    }

    /** What a late webhook hears from the inventory; a granted re-hold lasts for LATE from now. */
    method AskForSeats(id: OrderId, now: int, up: bool) returns (reply: HoldReply)
      requires Valid() && id in store.orders
      modifies redis
      ensures var seats := store.orders[id].seats;
        if !up then reply == HoldFailed && redis.keys == old(redis.keys)
        else redis.keys == Hold(old(redis.keys), seats, id, now, now + Timed.LATE)
             && reply == if Taken(old(redis.keys), seats, id, now) == [] then HoldGranted else HoldTaken
    {
      if !up {
        return HoldFailed;
      }
      var o := store.orders[id];
      SeatsAreGood(store.State(), id);
      SeatsById(o.event, o.seats);
      var taken := redis.Hold(o.event, RedisInventory.Ids(o.seats), id, Timed.LATE, now);
      reply := if taken == [] then HoldGranted else HoldTaken;
    }

    /** The inventory work after the commit. */
    method AfterCommit(id: OrderId, confirm: bool, release: bool, now: int)
      requires Valid() && ((confirm || release) ==> id in store.orders)
      modifies redis
      ensures !confirm && !release ==> redis.keys == old(redis.keys)
      ensures confirm && !release ==> redis.keys == Confirm(old(redis.keys), store.orders[id].seats, id, now)
      ensures !confirm && release ==> redis.keys == Release(old(redis.keys), store.orders[id].seats, id, now)
    {
      if confirm || release {
        SeatsAreGood(store.State(), id);
        SeatsById(store.orders[id].event, store.orders[id].seats);
      }
      if confirm {
        var ok := redis.Confirm(store.orders[id].event, RedisInventory.Ids(store.orders[id].seats), id, now);
      }
      if release {
        redis.Release(store.orders[id].event, RedisInventory.Ids(store.orders[id].seats), id, now);
      }
    }

    /** Cancel: a HELD order of this user is cancelled and its seats go back; anything else leaves the keys alone. */
    method CancelOrder(user: int, id: OrderId, now: int) returns (r: CancelResult)
      requires Valid()
      modifies store, redis
      ensures Valid()
      ensures r == CancelDone <==> id in old(store.orders) && old(store.orders)[id].user == user && old(store.orders)[id].status == Held
      ensures r == CancelDone ==> id in store.orders && store.orders[id].status == Cancelled
                                  && NoneHeld(redis.keys, store.orders[id].seats, id, now)
      ensures r != CancelDone ==> redis.keys == old(redis.keys) && store.State() == old(store.State())
      ensures OthersKept(old(redis.keys), redis.keys, id, now)
    {
      hide Inv;
      var release;
      r, release := store.Cancel(user, id);
      AfterCommit(id, false, release, now);
      if release {
        ReleaseFreesAll(old(redis.keys), store.orders[id].seats, id, now);
      }
    }

    /**
     Expirer.RunOnce: the overdue orders of the batch are EXPIRED, and no seat of theirs reads as held by them; the
     holds of all other orders stay.
     */
    method RunExpiry(locked: set<OrderId>, due: seq<OrderId>, now: int, later: int) returns (n: nat)
      requires Valid() && DueBatch(store.State(), locked, due, now)
      modifies store, redis
      ensures Valid() && n == |due|
      ensures OnlyOverdueMoved(old(store.State()), store.State(), locked, now)
      ensures OverdueMovedOrLeft(old(store.State()), store.State(), locked, due, now)
      ensures forall id :: id in due ==> id in store.orders && NoneHeld(redis.keys, store.orders[id].seats, id, later)
      ensures forall s :: s in old(redis.keys) && old(redis.keys)[s].order !in due ==>
        Get(redis.keys, s, later) == Get(old(redis.keys), s, later)
    {
      hide Inv, OnlyOverdueMoved, OverdueMovedOrLeft;
      ghost var was := store.State();
      BatchMoves(was, locked, due, now);
      var expired := store.ExpireDue(locked, due, now);
      hide DueBatch, Expire;
      n := |expired|;
      ReleaseExpired(expired, later);
      forall id | id in due ensures NoneHeld(redis.keys, store.orders[id].seats, id, later) {
        forall s | s in store.orders[id].seats ensures !LiveHold(redis.keys, s, id, later) {
          ReleaseUnsoldIsExact(old(redis.keys), store.orders, due, later, s);
        }
      }
      forall s | s in old(redis.keys) && old(redis.keys)[s].order !in due
        ensures Get(redis.keys, s, later) == Get(old(redis.keys), s, later)
      {
        ReleaseUnsoldIsExact(old(redis.keys), store.orders, due, later, s);
      }
    }

    /**
     A webhook from lock to confirm, with nothing in between: start is the transaction's now(), heldAt when it asked
     for the seats, later when it confirmed or released. The tables change as Pay says. After a sale, and after a repeat
     for a sold order, every seat reads as sold to the order if it was free or the order's own, and always after a late
     sale; after giving up, none reads as held by it; after anything else the keys are as they were.
     */
    method HandleWebhook(p: Webhook, start: int, heldAt: int, later: int, up: bool) returns (r: Result, ghost reply: HoldReply)
      requires Valid() && heldAt <= later
      modifies store, redis
      ensures Valid()
      ensures store.State() == Pay(old(store.State()), p, start, reply).db && r == Pay(old(store.State()), p, start, reply).result
      ensures redis.keys == KeysAfter(old(redis.keys), old(store.State()), p, start, reply, heldAt, later)
      ensures Asks(old(store.State()), p, start) ==>
        reply == if up then Answer(old(redis.keys), old(store.State()), p, heldAt) else HoldFailed
      ensures p.order in store.orders && LeavesSold(r, store.orders[p.order])
              && (Asks(old(store.State()), p, start)
                  || forall s :: s in store.orders[p.order].seats ==> FreeOrOwn(old(redis.keys), s, p.order, later))
              ==> AllSold(redis.keys, store.orders[p.order].seats, p.order)
      ensures GivesUpSeats(old(store.State()), store.State(), p) ==>
        p.order in store.orders && NoneHeld(redis.keys, store.orders[p.order].seats, p.order, later)
      ensures !(p.order in store.orders && LeavesSold(r, store.orders[p.order])) && !GivesUpSeats(old(store.State()), store.State(), p) ==>
        redis.keys == old(redis.keys)
      ensures OthersKept(old(redis.keys), redis.keys, p.order, later)
    {
      hide Inv, Pay;
      ghost var was := store.State();
      hide KeysAfter, GivesUpSeats, LeavesSold, FreeOrOwn, NoneHeld, AllSold, OthersKept;
      reply := HoldFailed;
      var answer := HoldFailed;
      var late := false;
      if ValidWebhook(p) && p.order in store.orders && p.txn !in store.payments {
        late := NeedsHold(store.orders[p.order], p, start);
        if late {
          answer := AskForSeats(p.order, heldAt, up);
          reply := answer;
        }
      }
      var confirm, release;
      r, confirm, release := store.ApplyPayment(p, start, answer);
      AfterCommit(p.order, confirm, release, later);
      assert p.txn !in was.payments ==> p.txn !in was.refunds by { NoStrayRefund(was, p.txn); }
      KeysAreRight(old(redis.keys), was, p, start, reply, heldAt, later);
    }
  }

  /** Every order of the batch ends up EXPIRED. */
  lemma BatchMoves(db: DB, locked: set<OrderId>, due: seq<OrderId>, now: int)
    requires DueBatch(db, locked, due, now)
    ensures forall i :: 0 <= i < |due| ==>
      due[i] in Expire(db, due, now).orders && Expire(db, due, now).orders[due[i]].status == Expired
  {
    ExpireBatchShape(db, due, now);
    hide Expire;
    forall i | 0 <= i < |due| ensures Expire(db, due, now).orders[due[i]].status == Expired {
      assert due[i] in due && Due(db, due[i], now);
    }
  }

  /** What HandleWebhook relies on of a decision. */
  lemma PayFacts(db: DB, p: Webhook, start: int, reply: HoldReply)
    requires p.order in db.orders && (p.txn !in db.payments ==> p.txn !in db.refunds)
    ensures var r := Pay(db, p, start, reply);
      && p.order in r.db.orders && r.db.orders[p.order].seats == db.orders[p.order].seats
      && (r.confirm <==> LeavesSold(r.result, r.db.orders[p.order]))
      && !(r.confirm && r.release)
      && (r.release <==> GivesUpSeats(db, r.db, p))
      && (Asks(db, p, start) && LeavesSold(r.result, r.db.orders[p.order]) ==> reply == HoldGranted)
      && (Asks(db, p, start) && reply == HoldGranted ==> r.confirm || r.release)
  {
    hide SeatsUnsold;
  }

  lemma NoStrayRefund(db: DB, t: Txn)
    requires Inv(db)
    ensures t !in db.payments ==> t !in db.refunds
  {
  }

  lemma NothingTaken(keys: Keys, db: DB, p: Webhook, now: int)
    requires p.order in db.orders && Answer(keys, db, p, now) == HoldTaken
    ensures Hold(keys, db.orders[p.order].seats, p.order, now, now + Timed.LATE) == keys
  {
  }

  lemma OthersKeptTwice(a: Keys, b: Keys, c: Keys, o: OrderId, now: int)
    requires OthersKept(a, b, o, now) && OthersKept(b, c, o, now)
    ensures OthersKept(a, c, o, now)
  {
  }

  /** The keys after a webhook, from what it left in the tables. */
  lemma KeysAreRight(keys: Keys, db: DB, p: Webhook, start: int, reply: HoldReply, heldAt: int, later: int)
    requires heldAt <= later && (p.txn !in db.payments ==> p.txn !in db.refunds)
    requires Asks(db, p, start) ==> reply == HoldFailed || reply == Answer(keys, db, p, heldAt)
    ensures var r, u := Pay(db, p, start, reply), KeysAfter(keys, db, p, start, reply, heldAt, later);
      && (p.order in db.orders ==> p.order in r.db.orders && r.db.orders[p.order].seats == db.orders[p.order].seats)
      && (p.order in db.orders && LeavesSold(r.result, r.db.orders[p.order])
          && (Asks(db, p, start) || forall s :: s in db.orders[p.order].seats ==> FreeOrOwn(keys, s, p.order, later))
          ==> AllSold(u, db.orders[p.order].seats, p.order))
      && (GivesUpSeats(db, r.db, p) ==> NoneHeld(u, db.orders[p.order].seats, p.order, later))
      && (!(p.order in db.orders && LeavesSold(r.result, r.db.orders[p.order])) && !GivesUpSeats(db, r.db, p) ==> u == keys)
      && OthersKept(keys, u, p.order, later)
  {
    hide Pay, Hold, Release, Confirm, Taken, LeavesSold, GivesUpSeats, AllSold, NoneHeld, OthersKept, FreeOrOwn;
    if p.order in db.orders {
      var seats := db.orders[p.order].seats;
      PayFacts(db, p, start, reply);
      var asked := Asks(db, p, start) && reply != HoldFailed;
      var held := if asked then Hold(keys, seats, p.order, heldAt, heldAt + Timed.LATE) else keys;
      if asked {
        HoldKeepsOthers(keys, seats, p.order, heldAt, heldAt + Timed.LATE, later);
        if reply == HoldGranted {
          HeldIsOwn(keys, seats, p.order, heldAt, heldAt + Timed.LATE, later);
        } else {
          NothingTaken(keys, db, p, heldAt);
        }
      } else {
        SameKept(keys, p.order, later);
      }
      AfterwardsRight(held, seats, p.order, later);
      SameKept(held, p.order, later);
      OthersKeptTwice(keys, held, KeysAfter(keys, db, p, start, reply, heldAt, later), p.order, later);
    } else {
      SameKept(keys, p.order, later);
      UnknownGivesNothing(db, p, start, reply);
    }
  }

  lemma SameKept(keys: Keys, o: OrderId, now: int)
    ensures OthersKept(keys, keys, o, now)
  {
  }

  lemma UnknownGivesNothing(db: DB, p: Webhook, start: int, reply: HoldReply)
    requires p.order !in db.orders
    ensures !GivesUpSeats(db, Pay(db, p, start, reply).db, p)
  {
  }

  lemma AfterwardsRight(held: Keys, seats: seq<Seat>, o: OrderId, later: int)
    ensures (forall s :: s in seats ==> FreeOrOwn(held, s, o, later)) ==> AllSold(Confirm(held, seats, o, later), seats, o)
    ensures NoneHeld(Release(held, seats, o, later), seats, o, later)
    ensures OthersKept(held, Release(held, seats, o, later), o, later) && OthersKept(held, Confirm(held, seats, o, later), o, later)
  {
    ReleaseFreesAll(held, seats, o, later);
    ConfirmKeepsOthers(held, seats, o, later);
    if forall s :: s in seats ==> FreeOrOwn(held, s, o, later) {
      ConfirmSellsAll(held, seats, o, later);
    }
  }
}
