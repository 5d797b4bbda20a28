/**
 The create flow as the service runs it: a two-round loop with a claimed flag and a deferred undo, and the admission
 ledger it claims from. Between any two of its own steps, any transactions of other requests may commit; they are a
 parameter, so the contracts hold for all of them.
 */
module Bookings {
  import opened States
  import opened Saga
  import opened SagaInv
  import opened Creates
  import opened CreatesProof

  predicate LiveIn(used: map<Jti, Claim>, j: Jti, now: int) {
    j in used && now < used[j].until
  }

  /** claim.lua: whoever comes first keeps the token. */
  function ClaimIn(used: map<Jti, Claim>, j: Jti, o: OrderId, now: int, ttl: int): map<Jti, Claim> {
    if LiveIn(used, j, now) then used else used[j := Creates.Claim(o, now + ttl)]
  }

  /** unclaim.lua: only the holder gives the token back. */
  function UnclaimIn(used: map<Jti, Claim>, j: Jti, o: OrderId, now: int): map<Jti, Claim> {
    if LiveIn(used, j, now) && used[j].order == o then used - {j} else used
  }

  /** A claim that was given back leaves no trace: from then on every token reads as if it had never been made. */
  lemma UnclaimUndoesClaim(used: map<Jti, Claim>, j: Jti, o: OrderId, at: int, ttl: int, later: int, k: Jti, after: int)
    requires !LiveIn(used, j, at) && at <= later < at + ttl && later <= after
    ensures var u := UnclaimIn(ClaimIn(used, j, o, at, ttl), j, o, later);
      && (LiveIn(u, k, after) <==> LiveIn(used, k, after))
      && (LiveIn(u, k, after) ==> u[k] == used[k])
  {
  }

  /** Nobody else's claim or unclaim touches a live claim, so a token serves one order until that order gives it back. */
  lemma ClaimIsExclusive(used: map<Jti, Claim>, j: Jti, now: int, ttl: int, k: Jti, x: OrderId)
    requires LiveIn(used, k, now) && used[k].order != x
    ensures LiveIn(ClaimIn(used, j, x, now, ttl), k, now) && ClaimIn(used, j, x, now, ttl)[k] == used[k]
    ensures LiveIn(UnclaimIn(used, j, x, now), k, now) && UnclaimIn(used, j, x, now)[k] == used[k]
  {
  }

  /** A claim that succeeds stays live for its order for the whole lifetime of a token. */
  lemma ClaimLasts(used: map<Jti, Claim>, j: Jti, o: OrderId, now: int, ttl: int, t: int)
    requires !LiveIn(used, j, now) && now <= t
    ensures LiveIn(ClaimIn(used, j, o, now, ttl), j, t) <==> t < now + ttl
    ensures ClaimIn(used, j, o, now, ttl)[j].order == o
    ensures forall k :: k in used && k != j ==> k in ClaimIn(used, j, o, now, ttl) && ClaimIn(used, j, o, now, ttl)[k] == used[k]
  {
  }

  /** Two ledgers that answer every later question alike. */
  ghost predicate SameClaims(a: map<Jti, Claim>, b: map<Jti, Claim>, now: int) {
    forall j, t :: now <= t ==> (LiveIn(a, j, t) <==> LiveIn(b, j, t)) && (LiveIn(a, j, t) ==> a[j] == b[j])
  }

  /** The ledger's two operations are the steps the interleaved requests take. */
  lemma LedgerIsTheStep(w: World, id: OrderId, r: Request, ttl: int)
    requires r.token.Some?
    ensures Ready(w, id, r, ClaimToken(false)) ==>
      UsedAfter(w, id, r, ClaimToken(false), ttl) == ClaimIn(w.used, r.token.value, id, w.now, ttl)
    ensures Ready(w, id, r, Move.GiveBack(false)) ==>
      SameClaims(UsedAfter(w, id, r, Move.GiveBack(false), ttl), UnclaimIn(w.used, r.token.value, id, w.now), w.now)
  {
  }

  class Ledger {
    const ttl: int
    var used: map<Jti, Claim>

    constructor (ttl: int)
      ensures used == map[] && this.ttl == ttl
    {
      this.ttl := ttl;
      used := map[];
    }

    predicate UsedNow(j: Jti, now: int)
      reads this
    {
      LiveIn(used, j, now)
    }

    /** Succeeds unless another order holds the token; claiming again for the same order changes nothing. */
    method Claim(j: Jti, o: OrderId, now: int) returns (ok: bool)
      modifies this`used
      ensures ok <==> !(old(UsedNow(j, now)) && old(used)[j].order != o)
      ensures used == ClaimIn(old(used), j, o, now, ttl)
    {
      if !UsedNow(j, now) {
        used := used[j := Creates.Claim(o, now + ttl)];
        return true;
      }
      ok := used[j].order == o;
    }

    /** Gives the token back only if o still holds it. */
    method Unclaim(j: Jti, o: OrderId, now: int)
      modifies this`used
      ensures used == UnclaimIn(old(used), j, o, now)
    {
      if UsedNow(j, now) && used[j].order == o {
        used := used - {j};
      }
    }
  }

  /** Transactions of others, none of which uses our freshly generated order id. */
  ghost predicate Foreign(steps: seq<Saga.Step>, mine: OrderId) {
    forall i :: 0 <= i < |steps| && steps[i].DoPlace? ==> steps[i].id != mine
  }

  lemma StepGrows(db: DB, s: Saga.Step)
    ensures Grows(db, Apply(db, s))
    ensures Apply(db, s).orders.Keys <= db.orders.Keys + if s.DoPlace? then {s.id} else {}
  {
    if s.DoPlace? {
      if CanPlace(db, s.id, s.order) {
        PlaceGrows(db, s.id, s.order);
      }
    } else {
      OtherGrows(db, s);
    }
  }

  /** Whatever others commit, orders stay and ours does not appear. */
  lemma {:induction false} ForeignRun(db: DB, steps: seq<Saga.Step>, mine: OrderId)
    requires Inv(db) && Foreign(steps, mine)
    ensures Inv(Saga.Run(db, steps)) && Grows(db, Saga.Run(db, steps))
    ensures mine in Saga.Run(db, steps).orders <==> mine in db.orders
  {
    hide Inv, Apply;
    if steps == [] {
    } else {
      var n := |steps| - 1;
      ForeignRun(db, steps[..n], mine);
      StepKeeps(Saga.Run(db, steps[..n]), steps[n]);
      StepGrows(Saga.Run(db, steps[..n]), steps[n]);
    }
  }

  /** Everything outside the request: what other systems answer in each round, and what commits between its steps. */
  datatype Surroundings = Surroundings(
    lock: Answer, ledgerUp: bool, hold: nat -> Answer, insertUp: nat -> bool, others: nat -> seq<Saga.Step>)

  /** The tables after the first n groups of foreign transactions, with nothing of ours in between. */
  ghost function DbAt(db: DB, env: Surroundings, n: nat): DB {
    if n == 0 then db else Saga.Run(DbAt(db, env, n - 1), env.others(n - 1))
  }

  // ---- which reply a request gets -------------------------------------------------------

  /** Another order has the token. */
  predicate UsedByOther(used: map<Jti, Claim>, token: Option<Jti>, id: OrderId, now: int) {
    token.Some? && token.value in used && now < used[token.value].until && used[token.value].order != id
  }

  /** There is no token to claim, or it can be claimed. */
  predicate TokenOpen(used: map<Jti, Claim>, token: Option<Jti>, id: OrderId, now: int, env: Surroundings) {
    token.None? || (env.ledgerUp && !UsedByOther(used, token, id, now))
  }

  /** What the request met: the tables when it looked for its key (look) and when it inserted (insert), and the ledger. */
  datatype Met = Met(look: DB, insert: DB, used: map<Jti, Claim>)

  predicate Unclaimed(m: Met, row: Order) {
    !KeyTaken(m.look, row.user, row.key)
  }

  /** Everything was up to the insert: key free, token open, seats held, database up. */
  predicate Inserts(m: Met, id: OrderId, row: Order, token: Option<Jti>, now: int, env: Surroundings) {
    && Unclaimed(m, row) && TokenOpen(m.used, token, id, now, env)
    && env.hold(0) == Yes && env.insertUp(0) && !KeyTaken(m.insert, row.user, row.key)
  }

  predicate Fails(m: Met, id: OrderId, row: Order, token: Option<Jti>, now: int, env: Surroundings) {
    && Unclaimed(m, row)
    && ((token.Some? && !env.ledgerUp)
        || (TokenOpen(m.used, token, id, now, env) && (env.hold(0) == Broken || (env.hold(0) == Yes && !env.insertUp(0)))))
  }

  /** The reply of a request that got the lock: one case each, and a replay or a reused key in all others. */
  predicate Replies(reply: Reply, m: Met, id: OrderId, row: Order, token: Option<Jti>, now: int, env: Surroundings) {
    && (reply == Created <==> Inserts(m, id, row, token, now, env) && !HasHeld(m.insert, row.event, row.user))
    && (reply == ActiveOrder <==> Inserts(m, id, row, token, now, env) && HasHeld(m.insert, row.event, row.user))
    && (reply == SeatsTaken <==> Unclaimed(m, row) && TokenOpen(m.used, token, id, now, env) && env.hold(0) == No)
    && (reply == AlreadyUsed <==> Unclaimed(m, row) && env.ledgerUp && UsedByOther(m.used, token, id, now))
    && (reply == Unavailable <==> Fails(m, id, row, token, now, env))
    && reply != StillConflicting && reply != InProgress
  }

  /** How a round ends that found no order: open tells whether the token can be claimed, d are the tables at its insert. */
  predicate RoundEnds(stop: Option<Reply>, open: bool, round: nat, d: DB, row: Order, env: Surroundings) {
    if !open then stop == Some(if env.ledgerUp then AlreadyUsed else Unavailable)
    else
      match env.hold(round)
      case Broken => stop == Some(Unavailable)
      case No => stop == Some(SeatsTaken)
      case Yes =>
        stop == if !env.insertUp(round) then Some(Unavailable)
                else if KeyTaken(d, row.user, row.key) then None
                else if HasHeld(d, row.event, row.user) then Some(ActiveOrder)
                else Some(Created)
  }

  lemma RoundReplies(stop: Option<Reply>, m: Met, id: OrderId, row: Order, token: Option<Jti>, now: int, env: Surroundings)
    requires Unclaimed(m, row) && RoundEnds(stop, TokenOpen(m.used, token, id, now, env), 0, m.insert, row, env)
    ensures stop.Some? ==> Replies(stop.value, m, id, row, token, now, env)
    ensures stop == Some(Created) ==> TokenOpen(m.used, token, id, now, env) && env.hold(0) == Yes
    ensures stop.None? ==>
      TokenOpen(m.used, token, id, now, env) && env.hold(0) == Yes && env.insertUp(0) && KeyTaken(m.insert, row.user, row.key)
  {
    hide KeyTaken, HasHeld;
  }

  /** A request that finds its key, at its first look or after a clash. */
  lemma FoundReplies(reply: Reply, m: Met, id: OrderId, row: Order, token: Option<Jti>, now: int, env: Surroundings)
    requires reply.Replayed? || reply == KeyReused
    requires !Unclaimed(m, row) ||
      (TokenOpen(m.used, token, id, now, env) && env.hold(0) == Yes && env.insertUp(0) && KeyTaken(m.insert, row.user, row.key))
    ensures Replies(reply, m, id, row, token, now, env)
  {
    hide KeyTaken, HasHeld;
  }

  class Service {
    var db: DB
    var held: map<OrderId, seq<Seat>>     // what the inventory holds on behalf of each request
    const ledger: Ledger

    constructor (ledger: Ledger)
      ensures db == EMPTY && Inv(db) && held == map[] && this.ledger == ledger
    {
      this.ledger := ledger;
      db, held := EMPTY, map[];
      new;
      EmptyInv();
    }

    /** Others commit. */
    method Yield(steps: seq<Saga.Step>, ghost mine: OrderId)
      requires Inv(db) && Foreign(steps, mine)
      modifies this`db
      ensures db == Saga.Run(old(db), steps)
      ensures Inv(db) && Grows(old(db), db) && (mine in db.orders <==> mine in old(db).orders)
    {
      ForeignRun(db, steps, mine);
      db := Saga.Run(db, steps);
    }

    method FindByKey(row: Order) returns (found: Option<OrderId>)
      ensures found.None? <==> !KeyTaken(db, row.user, row.key)
      ensures found.Some? ==> IsKeyOf(db, found.value, row)
    {
      if id :| id in db.orders && db.orders[id].user == row.user && db.orders[id].key == row.key {
        return Some(id);
      }
      return None;
    }

    method Insert(id: OrderId, row: Order, up: bool) returns (r: Insertion)
      requires Inv(db) && id !in db.orders && row.status == Held && GoodSeats(row.event, row.seats)
      modifies this`db
      ensures Inv(db) && Grows(old(db), db)
      ensures r == Inserted <==> id in db.orders
      ensures r == Inserted ==> db == Place(old(db), id, row) && db.orders[id] == row
      ensures r != Inserted ==> db == old(db)
      ensures r == KeyClash <==> up && KeyTaken(old(db), row.user, row.key)
      ensures r == HeldClash <==> up && !KeyTaken(old(db), row.user, row.key) && HasHeld(old(db), row.event, row.user)
      ensures r == InsertBroken <==> !up
    {
      if !up {
        return InsertBroken;
      }
      if KeyTaken(db, row.user, row.key) {
        return KeyClash;
      }
      if HasHeld(db, row.event, row.user) {
        return HeldClash;
      }
      PlaceKeeps(db, id, row);
      PlaceGrows(db, id, row);
      db := Place(db, id, row);
      r := Inserted;
    }

    /** A reply that tells the truth about the database. */
    ghost predicate Truthful(reply: Reply, id: OrderId, row: Order)
      reads this
    {
      && (reply == Created <==> id in db.orders)
      && (reply == Created ==> db.orders[id] == row)
      && (reply.Replayed? ==> IsKeyOf(db, reply.order, row) && db.orders[reply.order].hash == row.hash)
      && (reply == KeyReused ==> exists o :: IsKeyOf(db, o, row) && db.orders[o].hash != row.hash)
      && (reply == InProgress ==> !KeyTaken(db, row.user, row.key))
      && (reply == ActiveOrder ==> HasHeld(db, row.event, row.user))
    }

    lemma PlainReply(reply: Reply, id: OrderId, row: Order)
      requires reply in {Unavailable, AlreadyUsed} && id !in db.orders
      ensures Truthful(reply, id, row)
    {
    }

    /** Nothing of the ledger changed but, when claimed, our own entry. */
    twostate predicate ClaimFrame(claimed: bool, token: Option<Jti>, id: OrderId, now: int)
      reads ledger
    {
      && (claimed ==> token.Some? && ledger.UsedNow(token.value, now) && ledger.used[token.value].order == id)
      && (claimed ==> ledger.used - {token.value} == old(ledger.used) - {token.value})
      && (!claimed ==> ledger.used == old(ledger.used))
    }

    /** Claim the token for our order, unless there is none to claim; None means carry on. */
    method ClaimAdmission(id: OrderId, token: Option<Jti>, now: int, up: bool) returns (stop: Option<Reply>)
      requires ledger.ttl > 0
      modifies ledger
      ensures stop == Some(Unavailable) <==> token.Some? && !up
      ensures stop == Some(AlreadyUsed) <==> up && UsedByOther(old(ledger.used), token, id, now)
      ensures stop.Some? ==> stop.value in {Unavailable, AlreadyUsed}
      ensures ClaimFrame(stop == None && token.Some?, token, id, now)
    {
      if token.None? {
        return None;
      }
      if !up {
        return Some(Unavailable);
      }
      var ok := ledger.Claim(token.value, id, now);
      stop := if ok then None else Some(AlreadyUsed);
    }

    /** The end of a round: hold the seats, insert the order, release what was held for nothing. None: the key clashed. */
    method HoldAndInsert(round: nat, id: OrderId, row: Order, env: Surroundings) returns (stop: Option<Reply>)
      requires Inv(db) && id !in db.orders && id !in held && row.status == Held && GoodSeats(row.event, row.seats)
      requires forall k :: Foreign(env.others(k), id)
      modifies this`db, this`held
      ensures Inv(db) && Grows(old(db), db)
      ensures var d := Saga.Run(old(db), env.others(4 * round + 3));
        && RoundEnds(stop, true, round, d, row, env)
        && db == if env.hold(round) != Yes then old(db) else if stop == Some(Created) then Place(d, id, row) else d
      ensures held == if stop == Some(Created) then old(held)[id := row.seats] else old(held)
      ensures stop.None? ==> KeyTaken(db, row.user, row.key) && id !in db.orders
      ensures stop.Some? ==> Truthful(stop.value, id, row)
    {
      hide Inv, Place, CanPlace, Saga.Run;
      match env.hold(round)
      case Broken => return Some(Unavailable);
      case No => return Some(SeatsTaken);
      case Yes =>
        held := held[id := row.seats];
        Yield(env.others(4 * round + 3), id);
        var r := Insert(id, row, env.insertUp(round));
        if r == Inserted {
          return Some(Created);
        }
        held := held - {id};
        match r
        case HeldClash => return Some(ActiveOrder);
        case InsertBroken => return Some(Unavailable);
        case KeyClash => return None;
    }

    /** The start of a round: a key that is taken ends the request one way or the other. */
    method LookUp(round: nat, id: OrderId, row: Order, env: Surroundings) returns (stop: Option<Reply>)
      requires Inv(db) && id !in db.orders
      requires forall k :: Foreign(env.others(k), id)
      modifies this`db
      ensures db == Saga.Run(old(db), env.others(4 * round))
      ensures Inv(db) && Grows(old(db), db) && id !in db.orders
      ensures stop.None? <==> !KeyTaken(db, row.user, row.key)
      ensures KeyTaken(old(db), row.user, row.key) ==> stop.Some?
      ensures stop.Some? ==> (stop.value.Replayed? || stop.value.KeyReused?) && Truthful(stop.value, id, row)
    {
      hide Inv;
      Yield(env.others(4 * round), id);
      var found := FindByKey(row);
      if found.None? {
        return None;
      }
      stop := Some(if db.orders[found.value].hash == row.hash then Replayed(found.value) else KeyReused);
    }

    /** A round after its look-up found nothing: claim unless claimed already, hold, insert. */
    method Attempt(round: nat, id: OrderId, row: Order, token: Option<Jti>, now: int, env: Surroundings, already: bool)
      returns (stop: Option<Reply>, claimed: bool)
      requires Inv(db) && id !in db.orders && id !in held && row.status == Held && GoodSeats(row.event, row.seats) && ledger.ttl > 0
      requires forall k :: Foreign(env.others(k), id)
      requires already ==> token.Some?
      modifies this`db, this`held, ledger
      ensures Inv(db) && Grows(old(db), db)
      ensures var d1 := Saga.Run(old(db), env.others(4 * round + 1));
        var d2 := Saga.Run(d1, env.others(4 * round + 2));
        var d3 := Saga.Run(d2, env.others(4 * round + 3));
        var open := already || TokenOpen(old(ledger.used), token, id, now, env);
        && RoundEnds(stop, open, round, d3, row, env)
        && db == if !open then d1 else if env.hold(round) != Yes then d2 else if stop == Some(Created) then Place(d3, id, row) else d3
      ensures held == if stop == Some(Created) then old(held)[id := row.seats] else old(held)
      ensures stop.None? ==> KeyTaken(db, row.user, row.key) && id !in db.orders && (token.Some? ==> claimed)
      ensures stop.Some? ==> Truthful(stop.value, id, row)
      ensures stop == Some(Created) && token.Some? ==> claimed
      ensures if already then claimed && ledger.used == old(ledger.used) else ClaimFrame(claimed, token, id, now)
    {
      hide Inv, GoodSeats, Truthful, KeyTaken, HasHeld, Saga.Run, Place;
      claimed := already;
      Yield(env.others(4 * round + 1), id);
      if token.Some? && !claimed {
        stop := ClaimAdmission(id, token, now, env.ledgerUp);
        if stop.Some? {
          PlainReply(stop.value, id, row);
          return;
        }
        claimed := true;
      }
      Yield(env.others(4 * round + 2), id);
      stop := HoldAndInsert(round, id, row, env);
    }

    /** What the request meets, from where it starts. */
    ghost function Meets(env: Surroundings): Met
      reads this, ledger
    {
      Met(DbAt(db, env, 1), DbAt(db, env, 4), ledger.used)
    }

    /** Nothing of ours is in the tables but, if it was created, the order. */
    twostate predicate WroteOnly(reply: Reply, id: OrderId, row: Order, env: Surroundings)
      reads this
    {
      if reply == Created then db == Place(DbAt(old(db), env, 4), id, row)
      else exists n: nat :: n <= 5 && db == DbAt(old(db), env, n)
    }

    /** The two rounds under the lock. The second one, if there is one, finds the key. */
    method Rounds(id: OrderId, row: Order, token: Option<Jti>, now: int, env: Surroundings) returns (reply: Reply, claimed: bool)
      requires Inv(db) && id !in db.orders && id !in held && row.status == Held && GoodSeats(row.event, row.seats) && ledger.ttl > 0
      requires forall k :: Foreign(env.others(k), id)
      modifies this`db, this`held, ledger
      ensures Inv(db) && Grows(old(db), db)
      ensures Truthful(reply, id, row)
      ensures Replies(reply, old(Meets(env)), id, row, token, now, env)
      ensures WroteOnly(reply, id, row, env)
      ensures held == if reply == Created then old(held)[id := row.seats] else old(held)
      ensures ClaimFrame(claimed, token, id, now)
      ensures reply == Created && token.Some? ==> claimed
    {
      hide Inv, GoodSeats, Truthful, KeyTaken, HasHeld, Saga.Run, Place, Replies, RoundEnds, DbAt, TokenOpen, UsedByOther;
      claimed := false;
      ghost var m := Meets(env);
      DbSteps(db, env);
      for round := 0 to 2
        invariant Inv(db) && Grows(old(db), db) && id !in db.orders && held == old(held)
        invariant round == 0 ==> db == old(db) && !claimed && ledger.used == old(ledger.used)
        invariant round > 0 ==> round == 1 && db == DbAt(old(db), env, 4) && KeyTaken(db, row.user, row.key)
        invariant round == 1 ==> TokenOpen(m.used, token, id, now, env) && env.hold(0) == Yes && env.insertUp(0)
        invariant ClaimFrame(claimed, token, id, now)
      {
        var stop := LookUp(round, id, row, env);
        if stop.Some? {
          assert db == DbAt(old(db), env, if round == 0 then 1 else 5);
          FoundReplies(stop.value, m, id, row, token, now, env);
          return stop.value, claimed;
        }
        stop, claimed := Attempt(round, id, row, token, now, env, claimed);
        RoundReplies(stop, m, id, row, token, now, env);
        if stop.Some? {
          ghost var n := if !TokenOpen(m.used, token, id, now, env) then 2 else if env.hold(0) != Yes then 3 else 4;
          assert stop.value != Created ==> db == DbAt(old(db), env, n);
          return stop.value, claimed;
        }
      }
      assert false;
    }

    /**
     Create: exactly which reply the request gets, from the lock's answer and what it met. The reply is true of the
     tables, nothing is written or held unless the order was created, and an unused token stays claimed exactly then.
     */
    method Create(id: OrderId, row: Order, token: Option<Jti>, now: int, env: Surroundings) returns (reply: Reply)
      requires Inv(db) && id !in db.orders && id !in held && row.status == Held && GoodSeats(row.event, row.seats) && ledger.ttl > 0
      requires forall k :: Foreign(env.others(k), id)
      requires token.Some? && token.value in ledger.used ==> ledger.used[token.value].order != id
      modifies this`db, this`held, ledger
      ensures Inv(db) && Grows(old(db), db)
      ensures Truthful(reply, id, row)
      ensures match env.lock
        case Broken => reply == Unavailable
        case No => if Unclaimed(old(Meets(env)), row) then reply == InProgress else reply.Replayed? || reply == KeyReused
        case Yes => Replies(reply, old(Meets(env)), id, row, token, now, env)
      ensures WroteOnly(reply, id, row, env)
      ensures held == if reply == Created then old(held)[id := row.seats] else old(held)
      ensures token.Some? ==>
        ((token.value in ledger.used && ledger.used[token.value].order == id) <==> reply == Created)
      ensures token.Some? ==> ledger.used - {token.value} == old(ledger.used) - {token.value}
      ensures token.None? ==> ledger.used == old(ledger.used)
    {
      hide Inv, GoodSeats, HasHeld, Saga.Run, Replies;
      DbSteps(db, env);
      if env.lock == Broken {
        assert db == DbAt(old(db), env, 0);
        return Unavailable;
      }
      if env.lock == No {
        Yield(env.others(0), id);
        assert db == DbAt(old(db), env, 1);
        var found := FindByKey(row);
        if found.None? {
          return InProgress;
        }
        return if db.orders[found.value].hash == row.hash then Replayed(found.value) else KeyReused;
      }
      var claimed;
      reply, claimed := Rounds(id, row, token, now, env);
      if claimed && reply != Created {
        ledger.Unclaim(token.value, id, now);
      }
    }
  }

  lemma DbSteps(db: DB, env: Surroundings)
    ensures DbAt(db, env, 0) == db
    ensures DbAt(db, env, 1) == Saga.Run(db, env.others(0))
    ensures DbAt(db, env, 2) == Saga.Run(DbAt(db, env, 1), env.others(1))
    ensures DbAt(db, env, 3) == Saga.Run(DbAt(db, env, 2), env.others(2))
    ensures DbAt(db, env, 4) == Saga.Run(DbAt(db, env, 3), env.others(3))
    ensures DbAt(db, env, 5) == Saga.Run(DbAt(db, env, 4), env.others(4))
  {
    hide Saga.Run;
  }
}
