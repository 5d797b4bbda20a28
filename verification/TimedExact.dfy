/** The bounds are exact: when the delays do not fit, some interleaving inside them reaches a seat conflict. */
module TimedExact {
  import opened States
  import opened Saga
  import opened SeatKeys
  import opened Timed
  import opened TimedSafety
  import opened TimedBounds

  const SEAT := Seat(1, "VIP-A-1")
  const FIRST: OrderId := 0
  const SECOND: OrderId := 1
  const PAYMENT1 := Webhook("t1", FIRST, 1, true)
  const PAYMENT2 := Webhook("t2", SECOND, 1, true)

  function FirstOrder(c: Config, start: int): Order {
    Order(1, 1, Held, 1, "k1", "h", start + c.ttl, [SEAT])
  }

  function SecondOrder(c: Config, start: int): Order {
    Order(1, 2, Held, 1, "k2", "h", start + c.ttl, [SEAT])
  }

  /** Runs grow at the end. */
  lemma Extend(c: Config, b: Bounds, steps: seq<Timed.Step>, step: Timed.Step)
    requires AllWithin(c, b, steps) && Within(b, Timed.Run(c, START, steps), step)
    ensures AllWithin(c, b, steps + [step])
    ensures Timed.Run(c, START, steps + [step]) == Do(c, Timed.Run(c, START, steps), step)
  {
    assert (steps + [step])[..|steps|] == steps;
  }

  lemma NoStepsYet(c: Config, b: Bounds)
    ensures AllWithin(c, b, []) && Timed.Run(c, START, []) == START
  {
  }

  lemma FirstCanPlace(c: Config, d: int)
    ensures CanPlace(EMPTY, FIRST, FirstOrder(c, d))
  {
  }

  /** The first buyer places an order for the seat, with the insert starting d after the hold. */
  lemma FirstPlaces(c: Config, b: Bounds, d: nat) returns (steps: seq<Timed.Step>, w: World)
    requires d <= b.insert
    ensures AllWithin(c, b, steps) && w == Timed.Run(c, START, steps)
    ensures w == START.(db := Place(EMPTY, FIRST, FirstOrder(c, d)), keys := map[SEAT := HeldBy(FIRST, c.ttl + c.grace)],
                        now := d, granted := map[FIRST := c.ttl + c.grace])
    ensures w.db == DB(map[FIRST := FirstOrder(c, d)], map[], map[], [], [OrderHeld(FIRST)])
  {
    hide AllWithin, Timed.Run, KeyTaken, HasHeld;
    steps, w := [], START;
    NoStepsYet(c, b);
    var hold := TakeHold(FIRST, [SEAT]);
    assert Taken(w.keys, [SEAT], FIRST, 0) == [] by { TakenIsExact(w.keys, [SEAT], FIRST, 0); }
    Extend(c, b, steps, hold);
    steps, w := steps + [hold], Do(c, w, hold);
    assert w.keys == map[SEAT := HeldBy(FIRST, c.ttl + c.grace)];
    Extend(c, b, steps, Tick(d));
    steps, w := steps + [Tick(d)], Do(c, w, Tick(d));
    var insert := InsertOrder(FIRST, FirstOrder(c, d), d);
    assert CanPlace(EMPTY, FIRST, FirstOrder(c, d)) by { FirstCanPlace(c, d); }
    Extend(c, b, steps, insert);
    steps, w := steps + [insert], Do(c, w, insert);
  }

  /** The webhook of the first buyer starts at instant t and gets the order lock at once. */
  lemma FirstStartsPaying(c: Config, b: Bounds, d: nat, t: int) returns (steps: seq<Timed.Step>, w: World)
    requires d <= b.insert && d <= t
    ensures AllWithin(c, b, steps) && w == Timed.Run(c, START, steps)
    ensures w == START.(db := DB(map[FIRST := FirstOrder(c, d)], map[], map[], [], [OrderHeld(FIRST)]),
                        keys := map[SEAT := HeldBy(FIRST, c.ttl + c.grace)], now := t, granted := map[FIRST := c.ttl + c.grace],
                        pays := map[0 := PayTx(PAYMENT1, t, Locked)])
  {
    hide Place, AllWithin, Timed.Run;
    steps, w := FirstPlaces(c, b, d);
    Extend(c, b, steps, Tick(t));
    steps, w := steps + [Tick(t)], Do(c, w, Tick(t));
    Extend(c, b, steps, BeginPay(0, PAYMENT1));
    steps, w := steps + [BeginPay(0, PAYMENT1)], Do(c, w, BeginPay(0, PAYMENT1));
    Extend(c, b, steps, LockPay(0));
    steps, w := steps + [LockPay(0)], Do(c, w, LockPay(0));
  }

  /** The first buyer owns the ticket since instant at, but not yet the seat key, held until another instant. */
  ghost predicate SoldUntil(w: World, at: int, until: int) {
    && w.db.orders.Keys == {FIRST} && w.db.orders[FIRST].user == 1 && w.db.orders[FIRST].key == "k1"
    && w.db.tickets == [Ticket(FIRST, SEAT, false)]
    && w.db.payments.Keys == {"t1"}
    && w.creating == map[] && w.pays == map[] && w.expiring == {}
    && w.keys == map[SEAT := HeldBy(FIRST, until)] && w.now == at && w.paidAt == map[FIRST := at]
  }

  /** The first buyer owns the ticket, but not yet the seat key, whose hold has run out. */
  ghost predicate SoldUnconfirmed(w: World) {
    && w.db.orders.Keys == {FIRST} && w.db.orders[FIRST].user == 1 && w.db.orders[FIRST].key == "k1"
    && w.db.tickets == [Ticket(FIRST, SEAT, false)]
    && w.db.payments.Keys == {"t1"}
    && w.creating == map[] && w.pays == map[] && w.expiring == {}
    && w.keys.Keys == {SEAT} && w.keys[SEAT].HeldBy? && w.keys[SEAT].until <= w.now
  }

  /** From there a second buyer takes the seat, pays on time, and meets the first buyer's ticket. */
  lemma SecondConflicts(c: Config, b: Bounds, given: seq<Timed.Step>) returns (steps: seq<Timed.Step>)
    requires AllWithin(c, b, given) && SoldUnconfirmed(Timed.Run(c, START, given))
    ensures AllWithin(c, b, steps) && !NoConflict(Timed.Run(c, START, steps).db)
  {
    hide AllWithin, Timed.Run, CanPlace, KeyTaken, HasHeld;
    var w := Timed.Run(c, START, given);
    var t := w.now;
    var hold := TakeHold(SECOND, [SEAT]);
    assert Taken(w.keys, [SEAT], SECOND, t) == [] by { TakenIsExact(w.keys, [SEAT], SECOND, t); }
    Extend(c, b, given, hold);
    steps, w := given + [hold], Do(c, w, hold);
    var insert := InsertOrder(SECOND, SecondOrder(c, t), t);
    SecondCanPlace(c, w.db, t);
    Extend(c, b, steps, insert);
    steps := steps + [insert];
    steps := SecondPays(c, b, steps);
  }

  lemma SecondCanPlace(c: Config, db: DB, t: int)
    requires db.orders.Keys == {FIRST} && db.orders[FIRST].user == 1
    ensures CanPlace(db, SECOND, SecondOrder(c, t))
  {
    assert GoodSeats(1, [SEAT]);
  }

  /** A payment for a seat that already has another order's ticket. */
  lemma TicketMeansConflict(c: Config, db: DB, t: int)
    requires SECOND in db.orders && db.orders[SECOND] == SecondOrder(c, t)
    requires db.tickets == [Ticket(FIRST, SEAT, false)] && "t2" !in db.payments
    ensures !NoConflict(Pay(db, PAYMENT2, t, HoldFailed).db)
  {
    assert db.tickets[0].seat == db.orders[SECOND].seats[0];
    assert !SeatsUnsold(db, db.orders[SECOND].seats);
    assert Pay(db, PAYMENT2, t, HoldFailed).db.refunds["t2"].reason == SeatConflict;
  }

  lemma SecondLocks(c: Config, b: Bounds, given: seq<Timed.Step>) returns (steps: seq<Timed.Step>)
    requires AllWithin(c, b, given)
    requires var w := Timed.Run(c, START, given); w.pays == map[] && w.expiring == {} && SECOND in w.db.orders
    ensures AllWithin(c, b, steps)
    ensures var w := Timed.Run(c, START, given);
      Timed.Run(c, START, steps) == w.(pays := map[0 := PayTx(PAYMENT2, w.now, Locked)])
  {
    hide AllWithin, Timed.Run, Pay, Place;
    var w := Timed.Run(c, START, given);
    Extend(c, b, given, BeginPay(0, PAYMENT2));
    steps, w := given + [BeginPay(0, PAYMENT2)], Do(c, w, BeginPay(0, PAYMENT2));
    Extend(c, b, steps, LockPay(0));
    steps := steps + [LockPay(0)];
  }

  lemma SecondPays(c: Config, b: Bounds, given: seq<Timed.Step>) returns (steps: seq<Timed.Step>)
    requires AllWithin(c, b, given)
    requires var w := Timed.Run(c, START, given);
      && w.pays == map[] && w.expiring == {}
      && SECOND in w.db.orders && w.db.orders[SECOND] == SecondOrder(c, w.now)
      && w.db.tickets == [Ticket(FIRST, SEAT, false)]
      && w.db.payments.Keys == {"t1"}
    ensures AllWithin(c, b, steps) && !NoConflict(Timed.Run(c, START, steps).db)
  {
    hide AllWithin, Timed.Run, Pay, NoConflict, Place;
    steps := SecondLocks(c, b, given);
    var w := Timed.Run(c, START, steps);
    TicketMeansConflict(c, w.db, w.now);
    Extend(c, b, steps, CommitPay(0));
    steps := steps + [CommitPay(0)];
  }

  /** A locked webhook of the first buyer, on time or re-held, sells the seat as late as the payment delay allows. */
  lemma SaleCommits(c: Config, b: Bounds, given: seq<Timed.Step>, d: nat, t: int, until: int, phase: Phase) returns (steps: seq<Timed.Step>)
    requires AllWithin(c, b, given)
    requires (phase == Locked && t <= d + c.ttl) || (phase == Reheld(t, HoldGranted) && t > d + c.ttl)
    requires Timed.Run(c, START, given) ==
      START.(db := DB(map[FIRST := FirstOrder(c, d)], map[], map[], [], [OrderHeld(FIRST)]),
             keys := map[SEAT := HeldBy(FIRST, until)], now := t, granted := map[FIRST := until],
             pays := map[0 := PayTx(PAYMENT1, t, phase)])
    ensures AllWithin(c, b, steps) && SoldUntil(Timed.Run(c, START, steps), t + b.pay, until)
  {
    hide AllWithin, Timed.Run, Pay;
    var w := Timed.Run(c, START, given);
    steps := given;
    FirstIsSold(c, d, t, if phase == Locked then HoldFailed else HoldGranted);
    Extend(c, b, steps, Tick(t + b.pay));
    steps, w := steps + [Tick(t + b.pay)], Do(c, w, Tick(t + b.pay));
    Extend(c, b, steps, CommitPay(0));
    steps := steps + [CommitPay(0)];
  }

  /** And then the confirm is late. */
  lemma SaleLapses(c: Config, b: Bounds, given: seq<Timed.Step>, d: nat, t: int, until: int, phase: Phase) returns (steps: seq<Timed.Step>)
    requires AllWithin(c, b, given)
    requires (phase == Locked && t <= d + c.ttl) || (phase == Reheld(t, HoldGranted) && t > d + c.ttl)
    requires until <= t + b.pay + b.confirm
    requires Timed.Run(c, START, given) ==
      START.(db := DB(map[FIRST := FirstOrder(c, d)], map[], map[], [], [OrderHeld(FIRST)]),
             keys := map[SEAT := HeldBy(FIRST, until)], now := t, granted := map[FIRST := until],
             pays := map[0 := PayTx(PAYMENT1, t, phase)])
    ensures AllWithin(c, b, steps) && SoldUnconfirmed(Timed.Run(c, START, steps))
  {
    hide AllWithin, Timed.Run, Pay;
    steps := SaleCommits(c, b, given, d, t, until, phase);
    var late := Tick(t + b.pay + b.confirm);
    Extend(c, b, steps, late);
    steps := steps + [late];
  }

  lemma FirstIsSold(c: Config, d: int, t: int, reply: HoldReply)
    requires t <= d + c.ttl || reply == HoldGranted
    ensures var r := Pay(DB(map[FIRST := FirstOrder(c, d)], map[], map[], [], [OrderHeld(FIRST)]), PAYMENT1, t, reply);
      && r.result == Recorded(Applied) && !r.release
      && r.db.tickets == [Ticket(FIRST, SEAT, false)] && r.db.payments.Keys == {"t1"}
      && r.db.orders == map[FIRST := FirstOrder(c, d).(status := States.Paid)]
  {
    var db := DB(map[FIRST := FirstOrder(c, d)], map[], map[], [], [OrderHeld(FIRST)]);
    assert SeatsUnsold(db, [SEAT]);
    assert NewTickets(FIRST, [SEAT]) == [Ticket(FIRST, SEAT, false)];
  }

  /** Delays that outlast the grace period: the on-time payer's hold runs out before the confirm. */
  lemma OnTimeConflict(c: Config, b: Bounds) returns (steps: seq<Timed.Step>)
    requires b.insert + b.pay + b.confirm >= c.grace
    ensures AllWithin(c, b, steps) && !NoConflict(Timed.Run(c, START, steps).db)
  {
    hide AllWithin, Timed.Run;
    var w;
    var t := b.insert + c.ttl;
    steps, w := FirstStartsPaying(c, b, b.insert, t);
    steps := SaleLapses(c, b, steps, b.insert, t, c.ttl + c.grace, Locked);
    steps := SecondConflicts(c, b, steps);
  }

  /** Delays that outlast the late hold: the late payer's re-hold runs out before the confirm. */
  lemma LateConflict(c: Config, b: Bounds) returns (steps: seq<Timed.Step>)
    requires b.pay + b.confirm >= LATE
    ensures AllWithin(c, b, steps) && !NoConflict(Timed.Run(c, START, steps).db)
  {
    hide AllWithin, Timed.Run;
    var w;
    var t := c.ttl + 1;
    steps, w := FirstStartsPaying(c, b, 0, t);
    assert Taken(w.keys, [SEAT], FIRST, t) == [] by { TakenIsExact(w.keys, [SEAT], FIRST, t); }
    Extend(c, b, steps, Rehold(0));
    steps, w := steps + [Rehold(0)], Do(c, w, Rehold(0));
    assert w.keys == map[SEAT := HeldBy(FIRST, t + LATE)];
    steps := SaleLapses(c, b, steps, 0, t, t + LATE, Reheld(t, HoldGranted));
    steps := SecondConflicts(c, b, steps);
  }

  /** Seat conflicts are impossible exactly when the delays fit into the grace period and the late hold. */
  lemma ConflictFreeIffFits(c: Config, b: Bounds)
    ensures Fits(c, b) <==> forall steps :: AllWithin(c, b, steps) ==> NoConflict(Timed.Run(c, START, steps).db)
  {
    hide AllWithin, NoConflict, Timed.Run;
    if Fits(c, b) {
      forall steps | AllWithin(c, b, steps)
        ensures NoConflict(Timed.Run(c, START, steps).db)
      {
        FittingRunsHaveNoConflict(c, b, steps);
      }
    } else if b.pay + b.confirm >= LATE {
      var steps := LateConflict(c, b);
    } else {
      var steps := OnTimeConflict(c, b);
    }
  }

  // ---- payments on time ------------------------------------------------------

  /** Every instant at which an order can still be paid on time is covered by its hold. */
  ghost predicate AlwaysCovered(c: Config, insert: nat, pay: nat) {
    forall steps, id, k: nat | AllPrompt(c, insert, steps) && CanPay(c, pay, steps, id) && k < |SeatsOf(Timed.Run(c, START, steps), id)| ::
      HoldsSeat(Timed.Run(c, START, steps), id, k)
  }

  ghost predicate CanPay(c: Config, pay: nat, steps: seq<Timed.Step>, id: OrderId)
    ensures CanPay(c, pay, steps, id) ==> id in Timed.Run(c, START, steps).db.orders
  {
    Payable(pay, Timed.Run(c, START, steps), id)
  }

  predicate HoldsSeat(w: World, id: OrderId, k: nat)
    requires id in w.db.orders && k < |SeatsOf(w, id)|
  {
    Protected(w.keys, SeatsOf(w, id)[k], id, w.now + 1)
  }

  /** No two orders that can both still be paid on time share a seat. */
  ghost predicate AlwaysDisjoint(c: Config, insert: nat, pay: nat) {
    forall steps, x, y | AllPrompt(c, insert, steps) && x != y && CanPay(c, pay, steps, x) && CanPay(c, pay, steps, y) ::
      !ShareSeat(Timed.Run(c, START, steps), x, y)
  }

  predicate ShareSeat(w: World, x: OrderId, y: OrderId)
    requires x in w.db.orders && y in w.db.orders
  {
    exists s :: s in SeatsOf(w, x) && s in SeatsOf(w, y)
  }

  lemma {:induction false} WithinRunIsPrompt(c: Config, b: Bounds, steps: seq<Timed.Step>)
    requires AllWithin(c, b, steps)
    ensures AllPrompt(c, b.insert, steps)
  {
    hide Timed.Run, Within, Prompt;
    if steps == [] {
      assert AllPrompt(c, b.insert, steps);
    } else {
      WithinRunIsPrompt(c, b, steps[..|steps| - 1]);
      WithinIsPrompt(b, Timed.Run(c, START, steps[..|steps| - 1]), steps[|steps| - 1]);
    }
  }

  /** The first buyer's order can still be paid on time, and its hold has run out. */
  ghost predicate Uncovered(c: Config, pay: nat, w: World) {
    && w.db.orders.Keys == {FIRST} && w.db.orders[FIRST].user == 1 && w.db.orders[FIRST].key == "k1"
    && w.db.orders[FIRST].seats == [SEAT] && Payable(pay, w, FIRST)
    && w.creating == map[]
    && w.keys.Keys == {SEAT} && w.keys[SEAT].HeldBy? && w.keys[SEAT].until <= w.now
  }

  /** The create's hold runs out: the insert and the payment together take as long as the grace period. */
  lemma UncoveredInGrace(c: Config, insert: nat, pay: nat) returns (steps: seq<Timed.Step>)
    requires insert + pay >= c.grace
    ensures AllPrompt(c, insert, steps) && Uncovered(c, pay, Timed.Run(c, START, steps))
  {
    hide AllWithin, Timed.Run, Place;
    var b := Bounds(insert, pay, 0);
    var w;
    steps, w := FirstPlaces(c, b, insert);
    var late := Tick(insert + c.ttl + pay);
    Extend(c, b, steps, late);
    steps := steps + [late];
    WithinRunIsPrompt(c, b, steps);
  }

  /** A late webhook's shorter hold replaces the create's hold, and runs out while an on-time payment is still going on. */
  lemma UncoveredAfterRehold(c: Config, insert: nat, pay: nat) returns (steps: seq<Timed.Step>)
    requires pay > LATE
    ensures AllPrompt(c, insert, steps) && Uncovered(c, pay, Timed.Run(c, START, steps))
  {
    hide AllWithin, Timed.Run;
    var b := Bounds(insert, pay, 0);
    var t := c.ttl + 1;
    var w;
    steps, w := FirstStartsPaying(c, b, 0, t);
    assert Taken(w.keys, [SEAT], FIRST, t) == [] by { TakenIsExact(w.keys, [SEAT], FIRST, t); }
    Extend(c, b, steps, Rehold(0));
    steps, w := steps + [Rehold(0)], Do(c, w, Rehold(0));
    assert w.keys == map[SEAT := HeldBy(FIRST, t + LATE)];
    Extend(c, b, steps, Tick(t + LATE));
    steps := steps + [Tick(t + LATE)];
    WithinRunIsPrompt(c, b, steps);
  }

  lemma UncoveredRun(c: Config, insert: nat, pay: nat) returns (steps: seq<Timed.Step>)
    requires !FitsPayments(c, insert, pay)
    ensures AllPrompt(c, insert, steps) && Uncovered(c, pay, Timed.Run(c, START, steps))
  {
    if pay > LATE {
      steps := UncoveredAfterRehold(c, insert, pay);
    } else {
      steps := UncoveredInGrace(c, insert, pay);
    }
  }

  /** Holds cover all on-time payments exactly when the two delays fit; confirms do not matter. */
  lemma CoveredIffFits(c: Config, insert: nat, pay: nat)
    ensures FitsPayments(c, insert, pay) <==> AlwaysCovered(c, insert, pay)
  {
    hide AllPrompt, Timed.Run;
    if FitsPayments(c, insert, pay) {
      forall steps, id, k: nat | AllPrompt(c, insert, steps) && CanPay(c, pay, steps, id) && k < |SeatsOf(Timed.Run(c, START, steps), id)|
        ensures HoldsSeat(Timed.Run(c, START, steps), id, k)
      {
        PayableIsCovered(c, insert, pay, steps, id, k);
      }
    } else {
      var steps := UncoveredRun(c, insert, pay);
      assert CanPay(c, pay, steps, FIRST) && !HoldsSeat(Timed.Run(c, START, steps), FIRST, 0);
    }
  }

  lemma ExtendPrompt(c: Config, d: nat, steps: seq<Timed.Step>, step: Timed.Step)
    requires AllPrompt(c, d, steps) && Prompt(d, Timed.Run(c, START, steps), step)
    ensures AllPrompt(c, d, steps + [step])
    ensures Timed.Run(c, START, steps + [step]) == Do(c, Timed.Run(c, START, steps), step)
  {
    assert (steps + [step])[..|steps|] == steps;
  }

  /** On a seat whose hold ran out, a second buyer places a payable order next to the first one. */
  lemma SecondShares(c: Config, insert: nat, pay: nat, given: seq<Timed.Step>) returns (steps: seq<Timed.Step>)
    requires AllPrompt(c, insert, given) && Uncovered(c, pay, Timed.Run(c, START, given))
    ensures AllPrompt(c, insert, steps) && CanPay(c, pay, steps, FIRST) && CanPay(c, pay, steps, SECOND)
    ensures ShareSeat(Timed.Run(c, START, steps), FIRST, SECOND)
  {
    hide AllPrompt, Timed.Run, CanPlace, KeyTaken, HasHeld;
    var w := Timed.Run(c, START, given);
    var t := w.now;
    var hold := TakeHold(SECOND, [SEAT]);
    assert Taken(w.keys, [SEAT], SECOND, t) == [] by { TakenIsExact(w.keys, [SEAT], SECOND, t); }
    ExtendPrompt(c, insert, given, hold);
    steps, w := given + [hold], Do(c, w, hold);
    var place := InsertOrder(SECOND, SecondOrder(c, t), t);
    SecondCanPlace(c, w.db, t);
    ExtendPrompt(c, insert, steps, place);
    steps := steps + [place];
    assert SEAT in SeatsOf(Timed.Run(c, START, steps), FIRST) && SEAT in SeatsOf(Timed.Run(c, START, steps), SECOND);
  }

  /** Payable orders never share a seat exactly when the two delays fit. */
  lemma DisjointIffFits(c: Config, insert: nat, pay: nat)
    ensures FitsPayments(c, insert, pay) <==> AlwaysDisjoint(c, insert, pay)
  {
    hide AllPrompt, Timed.Run;
    if FitsPayments(c, insert, pay) {
      forall steps, x, y | AllPrompt(c, insert, steps) && x != y && CanPay(c, pay, steps, x) && CanPay(c, pay, steps, y)
        ensures !ShareSeat(Timed.Run(c, START, steps), x, y)
      {
        NoneShared(c, insert, pay, steps, x, y);
      }
    } else {
      var given := UncoveredRun(c, insert, pay);
      var steps := SecondShares(c, insert, pay, given);
    }
  }

  lemma NoneShared(c: Config, insert: nat, pay: nat, steps: seq<Timed.Step>, x: OrderId, y: OrderId)
    requires FitsPayments(c, insert, pay) && AllPrompt(c, insert, steps) && x != y
    requires CanPay(c, pay, steps, x) && CanPay(c, pay, steps, y)
    ensures !ShareSeat(Timed.Run(c, START, steps), x, y)
  {
    hide AllPrompt, Timed.Run;
    var w := Timed.Run(c, START, steps);
    if ShareSeat(w, x, y) {
      var s :| s in SeatsOf(w, x) && s in SeatsOf(w, y);
      var j: nat :| j < |SeatsOf(w, x)| && SeatsOf(w, x)[j] == s;
      var k: nat :| k < |SeatsOf(w, y)| && SeatsOf(w, y)[k] == s;
      PayableOrdersAreDisjoint(c, insert, pay, steps, x, y, j, k);
    }
  }
}
