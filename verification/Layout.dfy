/** Expanding a seating layout into seats, and indexing an event's seats. */
module Layout {
  import Labels
  import Etags
  import opened Saga

  datatype Zone = Zone(name: string, rows: int, perRow: int, price: int)

  datatype SeatRow = SeatRow(id: string, zone: string, row: string, no: int, price: int)

  function SeatId(zone: string, row: string, no: nat): string {
    zone + "-" + row + "-" + Etags.Decimal(no)
  }

  /** Where a seat stands: zone, row and number. */
  datatype Spot = Spot(zone: nat, row: nat, no: nat)

  predicate InLayout(zones: seq<Zone>, p: Spot) {
    p.zone < |zones| && p.row < zones[p.zone].rows && 1 <= p.no <= zones[p.zone].perRow
  }

  /** s is the seat at p. */
  predicate IsSeatAt(zones: seq<Zone>, p: Spot, s: SeatRow) {
    && InLayout(zones, p)
    && s.zone == zones[p.zone].name && s.no == p.no && s.price == zones[p.zone].price
    && Labels.IsLabel(s.row) && Labels.Index(s.row) == p.row
    && s.id == SeatId(s.zone, s.row, p.no)
  }

  /** Display order: by zone, then row, then number. */
  predicate Ahead(p: Spot, q: Spot) {
    p.zone < q.zone || (p.zone == q.zone && (p.row < q.row || (p.row == q.row && p.no < q.no)))
  }

  /** out lists the seats at these spots, in display order. */
  predicate Lists(zones: seq<Zone>, out: seq<SeatRow>, spots: seq<Spot>) {
    && |out| == |spots|
    && (forall i :: 0 <= i < |out| ==> IsSeatAt(zones, spots[i], out[i]))
    && (forall i, j :: 0 <= i < j < |spots| ==> Ahead(spots[i], spots[j]))
  }

  ghost predicate Covers(zones: seq<Zone>, spots: seq<Spot>, end: Spot) {
    forall p :: InLayout(zones, p) && Ahead(p, end) ==> p in spots
  }

  /** Every spot listed so far lies before end. */
  predicate Until(spots: seq<Spot>, end: Spot) {
    forall i :: 0 <= i < |spots| ==> Ahead(spots[i], end)
  }

  predicate NamesDistinct(zones: seq<Zone>) {
    forall a, b :: 0 <= a < b < |zones| ==> zones[a].name != zones[b].name
  }

  /** Every spot of the layout, once each, in display order, and with distinct zone names under distinct ids. */
  method Seats(zones: seq<Zone>) returns (out: seq<SeatRow>, ghost spots: seq<Spot>)
    ensures Lists(zones, out, spots)
    ensures forall p :: InLayout(zones, p) <==> p in spots
    ensures NamesDistinct(zones) ==> forall i, j :: 0 <= i < j < |out| ==> out[i].id != out[j].id
  {
    out, spots := [], [];
    for z := 0 to |zones|
      invariant Lists(zones, out, spots) && Covers(zones, spots, Spot(z, 0, 1)) && Until(spots, Spot(z, 0, 1))
    {
      var r := 0;
      while r < zones[z].rows
        invariant 0 <= r && (r == 0 || r <= zones[z].rows)
        invariant Lists(zones, out, spots) && Covers(zones, spots, Spot(z, r, 1)) && Until(spots, Spot(z, r, 1))
      {
        var row := Labels.RowLabel(r);
        out, spots := SeatsOfRow(zones, z, r, row, out, spots);
        r := r + 1;
      }
      assert Covers(zones, spots, Spot(z + 1, 0, 1));
    }
    forall p | InLayout(zones, p) ensures p in spots {
      assert Ahead(p, Spot(|zones|, 0, 1));
    }
    forall p | p in spots ensures InLayout(zones, p) {
      var i :| 0 <= i < |spots| && spots[i] == p;
      assert IsSeatAt(zones, spots[i], out[i]);
    }
    if NamesDistinct(zones) {
      forall i, j | 0 <= i < j < |out| ensures out[i].id != out[j].id {
        IdsAreDistinct(zones, out, spots, i, j);
      }
    }
  }

  /** The innermost loop: the seats of one row are appended. */
  method SeatsOfRow(zones: seq<Zone>, z: nat, r: nat, row: string, before: seq<SeatRow>, ghost spotsBefore: seq<Spot>)
    returns (out: seq<SeatRow>, ghost spots: seq<Spot>)
    requires z < |zones| && r < zones[z].rows && Labels.IsLabel(row) && Labels.Index(row) == r
    requires Lists(zones, before, spotsBefore) && Covers(zones, spotsBefore, Spot(z, r, 1)) && Until(spotsBefore, Spot(z, r, 1))
    ensures Lists(zones, out, spots) && Covers(zones, spots, Spot(z, r + 1, 1)) && Until(spots, Spot(z, r + 1, 1))
  {
    out, spots := before, spotsBefore;
    var n := 1;
    while n <= zones[z].perRow
      invariant 1 <= n && (n == 1 || n <= zones[z].perRow + 1)
      invariant Lists(zones, out, spots) && Covers(zones, spots, Spot(z, r, n)) && Until(spots, Spot(z, r, n))
    {
      ghost var p := Spot(z, r, n);
      out := out + [SeatRow(SeatId(zones[z].name, row, n), zones[z].name, row, n, zones[z].price)];
      CoverOne(zones, spots, p);
      spots := spots + [p];
      n := n + 1;
    }
    forall p | InLayout(zones, p) && Ahead(p, Spot(z, r + 1, 1)) ensures p in spots {
      assert Ahead(p, Spot(z, r, n));
    }
  }

  lemma CoverOne(zones: seq<Zone>, spots: seq<Spot>, p: Spot)
    requires Covers(zones, spots, p)
    ensures Covers(zones, spots + [p], Spot(p.zone, p.row, p.no + 1))
  {
    forall q | InLayout(zones, q) && Ahead(q, Spot(p.zone, p.row, p.no + 1)) ensures q in spots + [p] {
      assert q == p || Ahead(q, p);
    }
  }

  // ---- ids are unique ------------------------------------------------------------------

  predicate NoDash(s: string) {
    forall i :: 0 <= i < |s| ==> s[i] != '-'
  }

  /** The last dash splits a string in one way only. */
  lemma LastDash(a: string, x: string, b: string, y: string)
    requires NoDash(x) && NoDash(y) && a + "-" + x == b + "-" + y
    ensures a == b && x == y
  {
    var s := a + "-" + x;
    assert s[|a|] == '-' && s[|b|] == '-';
    forall k | |a| < k < |s| ensures s[k] != '-' {
      assert s[k] == x[k - |a| - 1];
    }
    forall k | |b| < k < |s| ensures s[k] != '-' {
      assert s[k] == y[k - |b| - 1];
    }
    assert a == s[..|a|] && b == (b + "-" + y)[..|b|];
    assert x == s[|a| + 1..] && y == (b + "-" + y)[|b| + 1..];
  }

  /** An id gives back its zone, row and number, even if zone names contain dashes. */
  lemma SeatIdsAreInjective(z: string, r: string, n: nat, y: string, q: string, m: nat)
    requires Labels.IsLabel(r) && Labels.IsLabel(q) && SeatId(z, r, n) == SeatId(y, q, m)
    ensures z == y && r == q && n == m
  {
    LastDash(z + "-" + r, Etags.Decimal(n), y + "-" + q, Etags.Decimal(m));
    LastDash(z, r, y, q);
    Etags.DecimalRoundTrip(n);
    Etags.DecimalRoundTrip(m);
  }

  /** Row 0, seat 1 of zone VIP is VIP-A-1. */
  lemma FirstSeatOfVip(s: SeatRow, zones: seq<Zone>)
    requires zones != [] && zones[0].name == "VIP" && IsSeatAt(zones, Spot(0, 0, 1), s)
    ensures s.id == "VIP-A-1"
  {
    assert "A"[..0] == "";
    assert Labels.Value("A") == 1;
    Labels.LabelsAreInjective(s.row, "A");
    assert Etags.Decimal(1) == "1";
    assert "VIP" + "-" + "A" + "-" + "1" == "VIP-A-1";
  }

  /** With distinct zone names, no two seats of a layout share an id. */
  lemma IdsAreDistinct(zones: seq<Zone>, out: seq<SeatRow>, spots: seq<Spot>, i: nat, j: nat)
    requires Lists(zones, out, spots) && i < j < |out|
    requires NamesDistinct(zones)
    ensures out[i].id != out[j].id
  {
    var p, q := spots[i], spots[j];
    assert IsSeatAt(zones, p, out[i]) && IsSeatAt(zones, q, out[j]) && Ahead(p, q);
    if out[i].id == out[j].id {
      SeatIdsAreInjective(out[i].zone, out[i].row, p.no, out[j].zone, out[j].row, q.no);
    }
  }

  /** Two zones of one name do collide, so the condition on names is needed. */
  lemma SameNameCollides(zones: seq<Zone>, a: nat, b: nat, s: SeatRow, t: SeatRow)
    requires a < b < |zones| && zones[a].name == zones[b].name
    requires IsSeatAt(zones, Spot(a, 0, 1), s) && IsSeatAt(zones, Spot(b, 0, 1), t)
    ensures s.id == t.id
  {
    Labels.LabelsAreInjective(s.row, t.row);
  }

  // ---- the event's index -----------------------------------------------------------------

  datatype Summary = Summary(name: string, price: int, seats: nat)

  /** The zone and price of each seat, written out from the summary. */
  function Expand(zones: seq<Summary>): seq<(string, int)> {
    if zones == [] then []
    else
      var z := zones[|zones| - 1];
      Expand(zones[..|zones| - 1]) + seq(z.seats, _ => (z.name, z.price))
  }

  function Kinds(seats: seq<SeatRow>): (k: seq<(string, int)>)
    ensures |k| == |seats| && forall i :: 0 <= i < |k| ==> k[i] == (seats[i].zone, seats[i].price)
  {
    seq(|seats|, i requires 0 <= i < |seats| => (seats[i].zone, seats[i].price))
  }

  /** Neighbouring entries differ and none is empty. */
  predicate Compact(zones: seq<Summary>) {
    && (forall i :: 0 <= i < |zones| ==> zones[i].seats > 0)
    && (forall i :: 0 < i < |zones| ==> zones[i - 1].name != zones[i].name || zones[i - 1].price != zones[i].price)
  }

  lemma CountUp(zones: seq<Summary>, z: Summary)
    ensures Expand(zones + [z.(seats := z.seats + 1)]) == Expand(zones + [z]) + [(z.name, z.price)]
    ensures Expand(zones + [z.(seats := 0)]) == Expand(zones)
  {
    assert (zones + [z])[..|zones|] == zones;
    assert (zones + [z.(seats := z.seats + 1)])[..|zones|] == zones;
    assert (zones + [z.(seats := 0)])[..|zones|] == zones;
  }

  class Event {
    var seats: seq<SeatRow>
    var zones: seq<Summary>
    var seatIds: seq<string>
    var byId: map<string, nat>

    constructor ()
    {
      seats, zones, seatIds, byId := [], [], [], map[];
    }

    /** setSeats: ids in order, each id found at its last seat, and the zone summary the run-length form of the seats. */
    method SetSeats(all: seq<SeatRow>)
      modifies this
      ensures seats == all
      ensures |seatIds| == |all| && forall i :: 0 <= i < |all| ==> seatIds[i] == all[i].id
      ensures forall id :: id in byId <==> id in seatIds
      ensures forall id :: id in byId ==>
        byId[id] < |all| && all[byId[id]].id == id && forall j :: byId[id] < j < |all| ==> all[j].id != id
      ensures Compact(zones) && Expand(zones) == Kinds(all)
    {
      seats, zones, seatIds, byId := all, [], [], map[];
      for i := 0 to |all|
        invariant seats == all
        invariant |seatIds| == i && forall k :: 0 <= k < i ==> seatIds[k] == all[k].id
        invariant forall id :: id in byId <==> id in seatIds
        invariant forall id :: id in byId ==>
          byId[id] < i && all[byId[id]].id == id && forall j :: byId[id] < j < i ==> all[j].id != id
        invariant Compact(zones) && Expand(zones) == Kinds(all[..i])
      {
        var s := all[i];
        seatIds := seatIds + [s.id];
        byId := byId[s.id := i];
        assert Kinds(all[..i + 1]) == Kinds(all[..i]) + [(s.zone, s.price)];
        CountSeat(s);
      }
      assert all[..|all|] == all;
    }

    /** One more seat in the summary, in a new entry if it starts a new zone or price. */
    method CountSeat(s: SeatRow)
      requires Compact(zones)
      modifies this`zones
      ensures Compact(zones) && Expand(zones) == old(Expand(zones)) + [(s.zone, s.price)]
    {
      var n := |zones|;
      if n == 0 || zones[n - 1].name != s.zone || zones[n - 1].price != s.price {
        hide Expand;
        CountUp(zones, Summary(s.zone, s.price, 0));
        zones := zones + [Summary(s.zone, s.price, 1)];
      } else {
        hide Expand;
        var z := zones[n - 1];
        CountUp(zones[..n - 1], z);
        assert zones == zones[..n - 1] + [z];
        zones := zones[..n - 1] + [z.(seats := z.seats + 1)];
      }
    }
  }
}
