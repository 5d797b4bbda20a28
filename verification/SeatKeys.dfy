/** The Redis seat keys and the three scripts that change them, as functions of the key store and the clock. */
module SeatKeys {
  import opened Saga

  datatype Key = HeldBy(order: OrderId, until: int) | SoldTo(order: OrderId)
  type Keys = map<Seat, Key>

  /** What GET answers: a hold is gone once its time is up, a sale stays. */
  function Get(keys: Keys, s: Seat, now: int): Option<Key> {
    if s in keys && (keys[s].SoldTo? || now < keys[s].until) then Some(keys[s]) else None
  }

  /** hold.lua may write this seat for order o. */
  predicate Holdable(keys: Keys, s: Seat, o: OrderId, now: int) {
    var v := Get(keys, s, now);
    v == None || (v.value.HeldBy? && v.value.order == o)
  }

  /** The seats hold.lua reports as taken, in the order they were asked for. */
  function Taken(keys: Keys, seats: seq<Seat>, o: OrderId, now: int): seq<Seat> {
    if seats == [] then []
    else
      var rest := Taken(keys, seats[..|seats| - 1], o, now);
      var s := seats[|seats| - 1];
      if Holdable(keys, s, o, now) then rest else rest + [s]
  }

  lemma {:induction false} TakenIsExact(keys: Keys, seats: seq<Seat>, o: OrderId, now: int)
    ensures forall s :: s in Taken(keys, seats, o, now) <==> s in seats && !Holdable(keys, s, o, now)
    ensures Taken(keys, seats, o, now) == [] <==> forall s :: s in seats ==> Holdable(keys, s, o, now)
  {
    if seats == [] {
    } else {
      TakenIsExact(keys, seats[..|seats| - 1], o, now);
      assert seats == seats[..|seats| - 1] + [seats[|seats| - 1]];
    }
  }

  /** hold.lua: all the seats or none. */
  function Hold(keys: Keys, seats: seq<Seat>, o: OrderId, now: int, until: int): Keys {
    if Taken(keys, seats, o, now) == [] then keys + (map s | s in seats :: HeldBy(o, until)) else keys
  }

  /** release.lua: delete only what o holds. */
  function Release(keys: Keys, seats: seq<Seat>, o: OrderId, now: int): Keys {
    map s | s in keys && !(s in seats && Get(keys, s, now).Some? && keys[s].HeldBy? && keys[s].order == o) :: keys[s]
  }

  predicate Confirmable(keys: Keys, s: Seat, o: OrderId, now: int) {
    Get(keys, s, now) == None || keys[s].order == o
  }

  /** confirm.lua: sell seat by seat and stop at the first one of another order. */
  function Confirm(keys: Keys, seats: seq<Seat>, o: OrderId, now: int): Keys
    decreases |seats|
  {
    if seats == [] || !Confirmable(keys, seats[0], o, now) then keys
    else Confirm(keys[seats[0] := SoldTo(o)], seats[1..], o, now)
  }

  predicate ConfirmOk(keys: Keys, seats: seq<Seat>, o: OrderId, now: int)
    decreases |seats|
  {
    seats == [] || (Confirmable(keys, seats[0], o, now) && ConfirmOk(keys[seats[0] := SoldTo(o)], seats[1..], o, now))
  }

  // ---- what the scripts leave alone ---------------------------------------

  /** Order o holds seat s until c at the earliest. */
  predicate Protected(keys: Keys, s: Seat, o: OrderId, c: int) {
    s in keys && keys[s].HeldBy? && keys[s].order == o && c <= keys[s].until
  }

  lemma HoldProtects(keys: Keys, seats: seq<Seat>, x: OrderId, now: int, until: int, s: Seat, o: OrderId, c: int)
    requires Protected(keys, s, o, c) && now < c && (o != x || c <= until)
    ensures Protected(Hold(keys, seats, x, now, until), s, o, c)
  {
    TakenIsExact(keys, seats, x, now);
  }

  lemma HoldGives(keys: Keys, seats: seq<Seat>, o: OrderId, now: int, until: int, s: Seat)
    requires Taken(keys, seats, o, now) == [] && s in seats
    ensures Protected(Hold(keys, seats, o, now, until), s, o, until)
  {
  }

  lemma ReleaseProtects(keys: Keys, seats: seq<Seat>, x: OrderId, now: int, s: Seat, o: OrderId, c: int)
    requires Protected(keys, s, o, c) && o != x
    ensures Protected(Release(keys, seats, x, now), s, o, c)
  {
  }

  lemma {:induction false} ConfirmProtects(keys: Keys, seats: seq<Seat>, x: OrderId, now: int, s: Seat, o: OrderId, c: int)
    requires Protected(keys, s, o, c) && now < c && o != x
    ensures Protected(Confirm(keys, seats, x, now), s, o, c)
    decreases |seats|
  {
    if seats != [] && Confirmable(keys, seats[0], x, now) {
      ConfirmProtects(keys[seats[0] := SoldTo(x)], seats[1..], x, now, s, o, c);
    }
  }

  /** Seat s is o's, held or sold. */
  predicate Owned(keys: Keys, s: Seat, o: OrderId, now: int) {
    var v := Get(keys, s, now);
    v.Some? && v.value.order == o
  }

  lemma HoldKeepsOwned(keys: Keys, seats: seq<Seat>, x: OrderId, now: int, until: int, s: Seat, o: OrderId)
    requires Owned(keys, s, o, now) && o != x
    ensures Owned(Hold(keys, seats, x, now, until), s, o, now)
  {
    TakenIsExact(keys, seats, x, now);
  }

  lemma ReleaseKeepsOwned(keys: Keys, seats: seq<Seat>, x: OrderId, now: int, s: Seat, o: OrderId)
    requires Owned(keys, s, o, now) && o != x
    ensures Owned(Release(keys, seats, x, now), s, o, now)
  {
  }

  lemma {:induction false} ConfirmKeepsOwned(keys: Keys, seats: seq<Seat>, x: OrderId, now: int, s: Seat, o: OrderId)
    requires Owned(keys, s, o, now)
    ensures Owned(Confirm(keys, seats, x, now), s, o, now)
    decreases |seats|
  {
    if seats != [] && Confirmable(keys, seats[0], x, now) {
      ConfirmKeepsOwned(keys[seats[0] := SoldTo(x)], seats[1..], x, now, s, o);
    }
  }

  /** A sale is never undone by any script. */
  lemma {:induction false} ConfirmKeepsSold(keys: Keys, seats: seq<Seat>, x: OrderId, now: int, s: Seat)
    requires s in keys && keys[s].SoldTo?
    ensures s in Confirm(keys, seats, x, now) && Confirm(keys, seats, x, now)[s] == keys[s]
    decreases |seats|
  {
    if seats != [] && Confirmable(keys, seats[0], x, now) {
      ConfirmKeepsSold(keys[seats[0] := SoldTo(x)], seats[1..], x, now, s);
    }
  }

  /** Confirming seats that are all o's or free sells every one of them. */
  lemma {:induction false} ConfirmSells(keys: Keys, seats: seq<Seat>, o: OrderId, now: int, s: Seat)
    requires forall k :: 0 <= k < |seats| ==> Confirmable(keys, seats[k], o, now)
    requires s in seats
    ensures ConfirmOk(keys, seats, o, now)
    ensures s in Confirm(keys, seats, o, now) && Confirm(keys, seats, o, now)[s] == SoldTo(o)
    decreases |seats|
  {
    var next := keys[seats[0] := SoldTo(o)];
    assert forall k :: 0 <= k < |seats[1..]| ==> Confirmable(next, seats[1..][k], o, now);
    if s in seats[1..] {
      ConfirmSells(next, seats[1..], o, now, s);
    } else {
      assert s == seats[0];
      ConfirmKeepsSold(next, seats[1..], o, now, s);
      if seats[1..] != [] {
        ConfirmSells(next, seats[1..], o, now, seats[1]);
      }
    }
  }
}
