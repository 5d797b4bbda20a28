/** The PostgreSQL backend: holds in seat_holds, sales in tickets, and row locks on the seats. */
module PgInventory {
  import opened Saga
  import opened RedisInventory

  datatype HoldRow = HoldRow(order: OrderId, expires: int)

  /** The seats rows, seat_holds by primary key, and tickets by their unique seat. */
  datatype Pg = Pg(known: set<Seat>, holds: map<Seat, HoldRow>, sold: map<Seat, OrderId>)

  predicate Live(pg: Pg, s: Seat, now: int) {
    s in pg.holds && now < pg.holds[s].expires
  }

  /** TakenSeats: held by another order and not yet expired, or ticketed. */
  function PgTaken(pg: Pg, seats: seq<Seat>, o: OrderId, now: int): set<Seat> {
    set s | s in seats && ((Live(pg, s, now) && pg.holds[s].order != o) || s in pg.sold)
  }

  function PgHold(pg: Pg, seats: seq<Seat>, o: OrderId, now: int, until: int): Pg {
    if PgTaken(pg, seats, o, now) == {} then pg.(holds := pg.holds + map s | s in seats :: HoldRow(o, until)) else pg
  }

  /** DeleteHolds. */
  function PgRelease(pg: Pg, seats: seq<Seat>, o: OrderId): Pg {
    pg.(holds := map s | s in pg.holds && !(s in seats && pg.holds[s].order == o) :: pg.holds[s])
  }

  predicate AllTicketed(pg: Pg, seats: seq<Seat>, o: OrderId) {
    forall s :: s in seats ==> s in pg.sold && pg.sold[s] == o
  }

  function PgConfirm(pg: Pg, seats: seq<Seat>, o: OrderId): Pg {
    if Distinct(seats) && AllTicketed(pg, seats, o) then PgRelease(pg, seats, o) else pg
  }

  function PgStatus(pg: Pg, s: Seat, now: int): SeatStatus {
    if s in pg.sold then SoldSeat else if Live(pg, s, now) then HeldSeat else Available
  }

  /** Rows counted against a list of seats: all present iff the list has no duplicate and no stranger. */
  lemma {:induction false} CountMatches(seats: seq<Seat>, rows: set<Seat>)
    ensures |set s | s in seats && s in rows| <= |seats|
    ensures |set s | s in seats && s in rows| == |seats| <==> Distinct(seats) && forall s :: s in seats ==> s in rows
  {
    if seats == [] {
    } else {
      var n := |seats| - 1;
      var init, last := seats[..n], seats[n];
      var all, most := set s | s in seats && s in rows, set s | s in init && s in rows;
      assert seats == init + [last];
      CountMatches(init, rows);
      if last in rows && last !in init {
        assert all == most + {last};
      } else {
        assert all == most;
        if last in init {
          var i :| 0 <= i < n && init[i] == last;
          assert seats[i] == seats[n];
        }
      }
      if Distinct(seats) {
        assert Distinct(init);
        assert last !in init;
      }
    }
  }

  datatype HoldResult = UnknownSeat | Answer(taken: set<string>)

  datatype StatusRow = StatusRow(id: string, status: SeatStatus)

  /** What SeatStatuses returns, in any order: a SOLD row per ticket and a HELD row per live hold. */
  predicate StatusRows(pg: Pg, event: int, ids: seq<string>, now: int, rows: seq<StatusRow>) {
    && (forall id :: id in ids && Seat(event, id) in pg.sold ==> StatusRow(id, SoldSeat) in rows)
    && (forall id :: id in ids && Live(pg, Seat(event, id), now) ==> StatusRow(id, HeldSeat) in rows)
    && (forall r :: r in rows ==>
          && r.id in ids
          && (r.status == SoldSeat ==> Seat(event, r.id) in pg.sold)
          && (r.status == HeldSeat ==> Live(pg, Seat(event, r.id), now))
          && r.status != Available)
  }

  class PgBackend {
    var known: set<Seat>
    var holds: map<Seat, HoldRow>
    var sold: map<Seat, OrderId>

    ghost function State(): Pg
      reads this
    {
      Pg(known, holds, sold)
    }

    constructor (seats: set<Seat>)
      ensures State() == Pg(seats, map[], map[])
    {
      known, holds, sold := seats, map[], map[];
    }

    method Hold(event: int, ids: seq<string>, o: OrderId, ttl: int, now: int) returns (r: HoldResult)
      modifies this
      ensures r.UnknownSeat? <==> !Distinct(ids) || exists id :: id in ids && Seat(event, id) !in known
      ensures r.UnknownSeat? ==> State() == old(State())
      ensures r.Answer? ==> forall id :: id in r.taken <==> Seat(event, id) in PgTaken(old(State()), SeatsOf(event, ids), o, now)
      ensures r.Answer? ==> State() == PgHold(old(State()), SeatsOf(event, ids), o, now, now + ttl)
    {
      var seats := SeatsOf(event, ids);
      var locked := set s | s in seats && s in known;
      CountMatches(seats, known);
      DistinctIds(event, ids);
      if |locked| != |ids| {
        return UnknownSeat;
      }
      var taken := set id | id in ids &&
        var s := Seat(event, id);
        (s in holds && now < holds[s].expires && holds[s].order != o) || s in sold;
      assert forall id :: id in taken <==> Seat(event, id) in PgTaken(State(), seats, o, now);
      if taken == {} {
        assert PgTaken(State(), seats, o, now) == {} by {
          assert forall s :: s in PgTaken(State(), seats, o, now) ==> s.id in taken;
        }
        holds := holds + map s | s in seats :: HoldRow(o, now + ttl);
      } else {
        var id :| id in taken;
        assert Seat(event, id) in PgTaken(State(), seats, o, now);
      }
      r := Answer(taken);
    }

    method Release(event: int, ids: seq<string>, o: OrderId)
      modifies this`holds
      ensures State() == PgRelease(old(State()), SeatsOf(event, ids), o)
      ensures forall id :: id in ids && Seat(event, id) in holds ==> holds[Seat(event, id)].order != o
    {
      DistinctIds(event, ids);
      holds := map s | s in holds && !(s in SeatsOf(event, ids) && holds[s].order == o) :: holds[s];
    }

    method Confirm(event: int, ids: seq<string>, o: OrderId) returns (ok: bool)
      modifies this`holds
      ensures ok == (Distinct(ids) && AllTicketed(old(State()), SeatsOf(event, ids), o))
      ensures State() == PgConfirm(old(State()), SeatsOf(event, ids), o)
      ensures ok ==> forall id :: id in ids && Seat(event, id) in holds ==> holds[Seat(event, id)].order != o
      ensures !ok ==> State() == old(State())
    {
      var seats := SeatsOf(event, ids);
      var mine := set s | s in sold && sold[s] == o;
      var n := |set s | s in seats && s in mine|;
      CountMatches(seats, mine);
      DistinctIds(event, ids);
      assert AllTicketed(State(), seats, o) <==> forall s :: s in seats ==> s in mine;
      ok := n == |ids|;
      if ok {
        Release(event, ids, o);
      }
    }

    /** Whatever order the rows come in, a ticket outranks a stale hold. */
    method Status(event: int, ids: seq<string>, now: int, rows: seq<StatusRow>) returns (out: map<string, SeatStatus>)
      requires StatusRows(State(), event, ids, now, rows)
      ensures out == map id | id in ids :: PgStatus(State(), Seat(event, id), now)
    {
      out := map[];
      for i := 0 to |ids|
        invariant out == map id | id in ids[..i] :: Available
      {
        assert ids[..i + 1] == ids[..i] + [ids[i]];
        out := out[ids[i] := Available];
      }
      assert ids[..|ids|] == ids;
      for i := 0 to |rows|
        invariant out.Keys == set id | id in ids
        invariant forall id :: id in ids ==>
          out[id] == if StatusRow(id, SoldSeat) in rows[..i] then SoldSeat
                     else if StatusRow(id, HeldSeat) in rows[..i] then HeldSeat
                     else Available
      {
        assert rows[..i + 1] == rows[..i] + [rows[i]];
        assert rows[i] in rows;
        if out[rows[i].id] != SoldSeat {
          out := out[rows[i].id := rows[i].status];
        }
      }
      assert rows[..|rows|] == rows;
    }
  }

  lemma DistinctIds(event: int, ids: seq<string>)
    ensures Distinct(SeatsOf(event, ids)) <==> Distinct(ids)
    ensures forall id :: id in ids <==> Seat(event, id) in SeatsOf(event, ids)
    ensures forall s :: s in SeatsOf(event, ids) <==> s.event == event && s.id in ids
  {
    forall id | id in ids ensures Seat(event, id) in SeatsOf(event, ids) {
      var i :| 0 <= i < |ids| && ids[i] == id;
      assert SeatsOf(event, ids)[i] == Seat(event, id);
    }
  }
}
