/**
 The two inventory backends side by side. Redis learns of a sale only from Confirm, PostgreSQL from the ticket rows,
 so between the two a sold seat is still a hold in Redis. Up to that, every run gives the same answers on both.
 */
module Backends {
  import opened Saga
  import SeatKeys
  import opened RedisInventory
  import opened PgInventory

  type Keys = SeatKeys.Keys

  // ---- operations leave other orders alone ---------------------------------------

  /** Where confirm.lua stops: the first seat of another order. */
  function Stop(keys: Keys, seats: seq<Seat>, o: OrderId, now: int): (k: nat)
    ensures k <= |seats|
    ensures forall i :: 0 <= i < k ==> SeatKeys.Confirmable(keys, seats[i], o, now)
    ensures k < |seats| ==> !SeatKeys.Confirmable(keys, seats[k], o, now)
    decreases |seats|
  {
    if seats == [] || !SeatKeys.Confirmable(keys, seats[0], o, now) then 0 else 1 + Stop(keys, seats[1..], o, now)
  }

  lemma {:induction false} StopAfterSale(keys: Keys, seats: seq<Seat>, s: Seat, o: OrderId, now: int)
    requires SeatKeys.Confirmable(keys, s, o, now)
    ensures Stop(keys[s := SeatKeys.SoldTo(o)], seats, o, now) == Stop(keys, seats, o, now)
    decreases |seats|
  {
    if seats != [] && SeatKeys.Confirmable(keys, seats[0], o, now) {
      StopAfterSale(keys, seats[1..], s, o, now);
    }
  }

  lemma SellFirst(keys: Keys, s: Seat, rest: seq<Seat>, o: OrderId)
    ensures keys[s := SeatKeys.SoldTo(o)] + (map x | x in rest :: SeatKeys.SoldTo(o))
         == keys + map x | x in [s] + rest :: SeatKeys.SoldTo(o)
  {
  }

  /** Confirm sells exactly the seats before the first one of another order, and succeeds when there is none. */
  lemma {:induction false} ConfirmSellsPrefix(keys: Keys, seats: seq<Seat>, o: OrderId, now: int)
    ensures SeatKeys.ConfirmOk(keys, seats, o, now) <==> Stop(keys, seats, o, now) == |seats|
    ensures SeatKeys.Confirm(keys, seats, o, now)
         == keys + map s | s in seats[..Stop(keys, seats, o, now)] :: SeatKeys.SoldTo(o)
    decreases |seats|
  {
    hide SeatKeys.Confirmable;
    if seats != [] && SeatKeys.Confirmable(keys, seats[0], o, now) {
      var next := keys[seats[0] := SeatKeys.SoldTo(o)];
      var k := Stop(keys, seats[1..], o, now);
      ConfirmSellsPrefix(next, seats[1..], o, now);
      StopAfterSale(keys, seats[1..], seats[0], o, now);
      assert seats[..k + 1] == [seats[0]] + seats[1..][..k];
      SellFirst(keys, seats[0], seats[1..][..k], o);
    }
  }

  /** A seat that is somebody else's reads the same after any Release or Confirm, even one that stops part way. */
  lemma RedisLeavesOthers(keys: Keys, seats: seq<Seat>, o: OrderId, now: int, s: Seat)
    requires SeatKeys.Get(keys, s, now).Some? && SeatKeys.Get(keys, s, now).value.order != o
    ensures SeatKeys.Get(SeatKeys.Release(keys, seats, o, now), s, now) == SeatKeys.Get(keys, s, now)
    ensures SeatKeys.Get(SeatKeys.Confirm(keys, seats, o, now), s, now) == SeatKeys.Get(keys, s, now)
  {
    ConfirmSellsPrefix(keys, seats, o, now);
    var k := Stop(keys, seats, o, now);
    forall i | 0 <= i < k ensures seats[i] != s {
      assert SeatKeys.Confirmable(keys, seats[i], o, now);
    }
  }

  lemma PgLeavesOthers(pg: Pg, seats: seq<Seat>, o: OrderId, s: Seat)
    requires s in pg.holds && pg.holds[s].order != o
    ensures s in PgRelease(pg, seats, o).holds && PgRelease(pg, seats, o).holds[s] == pg.holds[s]
    ensures s in PgConfirm(pg, seats, o).holds && PgConfirm(pg, seats, o).holds[s] == pg.holds[s]
    ensures PgRelease(pg, seats, o).sold == pg.sold && PgConfirm(pg, seats, o).sold == pg.sold
  {
  }

  // ---- the relation ------------------------------------------------------------------

  datatype Both = Both(now: int, redis: Keys, pg: Pg)

  function PgGet(pg: Pg, s: Seat, now: int): Option<SeatKeys.Key> {
    if Live(pg, s, now) then Some(SeatKeys.HeldBy(pg.holds[s].order, pg.holds[s].expires)) else None
  }

  /** An unticketed seat is held by the same order until the same time; a ticketed one is its order's in Redis too. */
  predicate SameSeat(b: Both, s: Seat) {
    var v := SeatKeys.Get(b.redis, s, b.now);
    if s in b.pg.sold then v.Some? && v.value.order == b.pg.sold[s] else v == PgGet(b.pg, s, b.now)
  }

  ghost predicate Related(b: Both) {
    forall s :: SameSeat(b, s)
  }

  predicate Unticketed(pg: Pg, o: OrderId) {
    forall s :: s in pg.sold ==> pg.sold[s] != o
  }

  /** Ticketed in PostgreSQL, not yet confirmed in Redis. */
  predicate Unconfirmed(b: Both, s: Seat, o: OrderId) {
    && s in b.pg.sold && b.pg.sold[s] == o
    && var v := SeatKeys.Get(b.redis, s, b.now); v.Some? && v.value.HeldBy?
  }

  function RedisTaken(b: Both, seats: seq<Seat>, o: OrderId): set<Seat> {
    set s | s in SeatKeys.Taken(b.redis, seats, o, b.now)
  }

  /** The backends disagree about a requested seat exactly when it is the asking order's own unconfirmed sale. */
  lemma SeatAgreement(b: Both, seats: seq<Seat>, o: OrderId, s: Seat)
    requires Related(b) && s in seats
    ensures (s in RedisTaken(b, seats, o) <==> s in PgTaken(b.pg, seats, o, b.now)) <==> !Unconfirmed(b, s, o)
  {
    SeatKeys.TakenIsExact(b.redis, seats, o, b.now);
    assert SameSeat(b, s);
  }

  /** Hold reports the same seats taken if and only if no requested seat is the order's own unconfirmed sale. */
  lemma SameTakenIff(b: Both, seats: seq<Seat>, o: OrderId)
    requires Related(b)
    ensures RedisTaken(b, seats, o) == PgTaken(b.pg, seats, o, b.now) <==> forall s :: s in seats ==> !Unconfirmed(b, s, o)
  {
    hide Related;
    SeatKeys.TakenIsExact(b.redis, seats, o, b.now);
    forall s | s in seats
      ensures (s in RedisTaken(b, seats, o) <==> s in PgTaken(b.pg, seats, o, b.now)) <==> !Unconfirmed(b, s, o)
    {
      SeatAgreement(b, seats, o, s);
    }
    forall s ensures s in RedisTaken(b, seats, o) || s in PgTaken(b.pg, seats, o, b.now) ==> s in seats {
    }
  }

  /** Such a difference exists at the interface: an order that asks again for the seat it has just bought. */
  lemma TakenCanDiffer() returns (b: Both, s: Seat)
    ensures Related(b) && RedisTaken(b, [s], 1) != PgTaken(b.pg, [s], 1, b.now)
  {
    s := Seat(1, "A1");
    b := Both(0, map[s := SeatKeys.HeldBy(1, 10)], Pg({s}, map[s := HoldRow(1, 10)], map[s := 1]));
    assert Unconfirmed(b, s, 1);
    SameTakenIff(b, [s], 1);
    assert s in [s];
  }

  /** On either backend a hold gives the order every seat until the asked time, or changes nothing and names the taken ones. */
  lemma HoldAllOrNone(b: Both, seats: seq<Seat>, o: OrderId, ttl: int)
    requires ttl >= 1
    ensures var keys := SeatKeys.Hold(b.redis, seats, o, b.now, b.now + Ttl(ttl));
      if RedisTaken(b, seats, o) == {}
      then forall s :: s in seats ==> SeatKeys.Get(keys, s, b.now) == Some(SeatKeys.HeldBy(o, b.now + ttl))
      else keys == b.redis
    ensures var pg := PgHold(b.pg, seats, o, b.now, b.now + ttl);
      if PgTaken(b.pg, seats, o, b.now) == {}
      then forall s :: s in seats ==> PgGet(pg, s, b.now) == Some(SeatKeys.HeldBy(o, b.now + ttl)) && s !in pg.sold
      else pg == b.pg
  {
    if SeatKeys.Taken(b.redis, seats, o, b.now) != [] {
      assert SeatKeys.Taken(b.redis, seats, o, b.now)[0] in RedisTaken(b, seats, o);
    }
    assert forall s :: s in seats && s in b.pg.sold ==> s in PgTaken(b.pg, seats, o, b.now);
  }

  /** The seat map differs only on unconfirmed sales, which Redis still shows as held. */
  lemma SameStatus(b: Both, s: Seat)
    requires Related(b)
    ensures var r, p := StatusOf(SeatKeys.Get(b.redis, s, b.now)), PgStatus(b.pg, s, b.now);
      r == p || (s in b.pg.sold && Unconfirmed(b, s, b.pg.sold[s]) && r == HeldSeat && p == SoldSeat)
  {
    assert SameSeat(b, s);
  }

  // ---- runs ----------------------------------------------------------------------------

  datatype Op =
    | HoldOp(order: OrderId, seats: seq<Seat>, ttl: int)
    | ReleaseOp(order: OrderId, seats: seq<Seat>)
    | SellOp(order: OrderId, seats: seq<Seat>)      // the payment transaction inserts the tickets
    | ConfirmOp(order: OrderId, seats: seq<Seat>)
    | WaitOp(until: int)

  /** What the order service does: confirms follow the tickets, before the holds behind them lapse. */
  predicate Allowed(b: Both, op: Op) {
    match op
    case HoldOp(o, seats, ttl) => ttl >= 1 && Distinct(seats) && Unticketed(b.pg, o) && forall s :: s in seats ==> s in b.pg.known
    case ReleaseOp(o, seats) => Unticketed(b.pg, o)
    case SellOp(o, seats) =>
      forall s :: s in seats ==> s !in b.pg.sold && Live(b.pg, s, b.now) && b.pg.holds[s].order == o
    case ConfirmOp(o, seats) => Distinct(seats) && AllTicketed(b.pg, seats, o)
    case WaitOp(until) =>
      b.now <= until && forall s :: s in b.pg.sold && s in b.redis && b.redis[s].HeldBy? ==> until < b.redis[s].until
  }

  function Do(b: Both, op: Op): Both {
    match op
    case HoldOp(o, seats, ttl) =>
      b.(redis := SeatKeys.Hold(b.redis, seats, o, b.now, b.now + Ttl(ttl)), pg := PgHold(b.pg, seats, o, b.now, b.now + ttl))
    case ReleaseOp(o, seats) => b.(redis := SeatKeys.Release(b.redis, seats, o, b.now), pg := PgRelease(b.pg, seats, o))
    case SellOp(o, seats) => b.(pg := b.pg.(sold := b.pg.sold + map s | s in seats :: o))
    case ConfirmOp(o, seats) => b.(redis := SeatKeys.Confirm(b.redis, seats, o, b.now), pg := PgConfirm(b.pg, seats, o))
    case WaitOp(until) => b.(now := until)
  }

  /** Both backends give the caller the same answer. */
  predicate SameAnswer(b: Both, op: Op) {
    match op
    case HoldOp(o, seats, _) => RedisTaken(b, seats, o) == PgTaken(b.pg, seats, o, b.now)
    case ConfirmOp(o, seats) => SeatKeys.ConfirmOk(b.redis, seats, o, b.now) && AllTicketed(b.pg, seats, o)
    case _ => true
  }

  lemma HoldAgrees(b: Both, o: OrderId, seats: seq<Seat>, ttl: int)
    requires Related(b) && Allowed(b, HoldOp(o, seats, ttl))
    ensures Related(Do(b, HoldOp(o, seats, ttl))) && SameAnswer(b, HoldOp(o, seats, ttl))
  {
    SameTakenIff(b, seats, o);
    SeatKeys.TakenIsExact(b.redis, seats, o, b.now);
    if SeatKeys.Taken(b.redis, seats, o, b.now) != [] {
      assert SeatKeys.Taken(b.redis, seats, o, b.now)[0] in RedisTaken(b, seats, o);
    }
    forall s ensures SameSeat(Do(b, HoldOp(o, seats, ttl)), s) {
      assert SameSeat(b, s);
      assert s in seats && s in b.pg.sold ==> s in PgTaken(b.pg, seats, o, b.now);
    }
  }

  lemma ReleaseAgrees(b: Both, o: OrderId, seats: seq<Seat>)
    requires Related(b) && Unticketed(b.pg, o)
    ensures Related(Do(b, ReleaseOp(o, seats)))
  {
    forall s ensures SameSeat(Do(b, ReleaseOp(o, seats)), s) {
      assert SameSeat(b, s);
    }
  }

  /** A sale of unsold seats keeps the backends related exactly when the order has a live hold on each of them. */
  lemma SellAgreesIff(b: Both, o: OrderId, seats: seq<Seat>)
    requires Related(b) && forall s :: s in seats ==> s !in b.pg.sold
    ensures Related(Do(b, SellOp(o, seats))) <==> Allowed(b, SellOp(o, seats))
  {
    var u := Do(b, SellOp(o, seats));
    if Allowed(b, SellOp(o, seats)) {
      forall s ensures SameSeat(u, s) {
        assert SameSeat(b, s);
      }
    } else {
      var s :| s in seats && !(Live(b.pg, s, b.now) && b.pg.holds[s].order == o);
      assert SameSeat(b, s);
      assert !SameSeat(u, s);
    }
  }

  lemma ConfirmAgrees(b: Both, o: OrderId, seats: seq<Seat>)
    requires Related(b) && Allowed(b, ConfirmOp(o, seats))
    ensures Related(Do(b, ConfirmOp(o, seats))) && SameAnswer(b, ConfirmOp(o, seats))
  {
    ConfirmSellsPrefix(b.redis, seats, o, b.now);
    var k := Stop(b.redis, seats, o, b.now);
    forall i | 0 <= i < |seats| ensures SeatKeys.Confirmable(b.redis, seats[i], o, b.now) {
      assert SameSeat(b, seats[i]);
    }
    assert seats[..k] == seats;
    forall s ensures SameSeat(Do(b, ConfirmOp(o, seats)), s) {
      assert SameSeat(b, s);
    }
  }

  /** Letting time pass keeps the backends related exactly when no hold behind an unconfirmed sale lapses. */
  lemma WaitAgreesIff(b: Both, until: int)
    requires Related(b) && b.now <= until
    ensures Related(Do(b, WaitOp(until))) <==> Allowed(b, WaitOp(until))
  {
    var u := Do(b, WaitOp(until));
    if Allowed(b, WaitOp(until)) {
      forall s ensures SameSeat(u, s) {
        assert SameSeat(b, s);
      }
    } else {
      var s :| s in b.pg.sold && s in b.redis && b.redis[s].HeldBy? && b.redis[s].until <= until;
      assert !SameSeat(u, s);
    }
  }

  function Run(b: Both, ops: seq<Op>): Both {
    if ops == [] then b else Do(Run(b, ops[..|ops| - 1]), ops[|ops| - 1])
  }

  predicate AllAllowed(b: Both, ops: seq<Op>) {
    ops == [] || (AllAllowed(b, ops[..|ops| - 1]) && Allowed(Run(b, ops[..|ops| - 1]), ops[|ops| - 1]))
  }

  lemma OpAgrees(b: Both, op: Op)
    requires Related(b) && Allowed(b, op)
    ensures Related(Do(b, op)) && SameAnswer(b, op)
  {
    match op
    case HoldOp(o, seats, ttl) => HoldAgrees(b, o, seats, ttl);
    case ReleaseOp(o, seats) => ReleaseAgrees(b, o, seats);
    case SellOp(o, seats) => SellAgreesIff(b, o, seats);
    case ConfirmOp(o, seats) => ConfirmAgrees(b, o, seats);
    case WaitOp(until) => WaitAgreesIff(b, until);
  }

  lemma {:induction false} StayRelated(b: Both, ops: seq<Op>)
    requires Related(b) && AllAllowed(b, ops)
    ensures Related(Run(b, ops))
  {
    hide Related, SameAnswer, Allowed, Do;
    if ops == [] {
    } else {
      StayRelated(b, ops[..|ops| - 1]);
      OpAgrees(Run(b, ops[..|ops| - 1]), ops[|ops| - 1]);
    }
  }

  lemma {:induction false} AllowedPrefix(b: Both, ops: seq<Op>, n: nat)
    requires n <= |ops| && AllAllowed(b, ops)
    ensures AllAllowed(b, ops[..n])
    ensures n < |ops| ==> Allowed(Run(b, ops[..n]), ops[n])
  {
    hide Allowed, Do;
    if n < |ops| {
      var init := ops[..|ops| - 1];
      AllowedPrefix(b, init, n);
      assert init[..n] == ops[..n];
    } else {
      assert ops[..n] == ops;
    }
  }

  /** In every run of the order service the backends stay related, and every operation gets the same answer from both. */
  lemma BackendsAgree(b: Both, ops: seq<Op>, n: nat)
    requires Related(b) && AllAllowed(b, ops) && n < |ops|
    ensures Related(Run(b, ops[..n])) && SameAnswer(Run(b, ops[..n]), ops[n])
  {
    hide Related, SameAnswer, Allowed, Do, Run, AllAllowed;
    AllowedPrefix(b, ops, n);
    StayRelated(b, ops[..n]);
    OpAgrees(Run(b, ops[..n]), ops[n]);
  }
}
