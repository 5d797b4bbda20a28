/** Every step of every request keeps what the theorems about create need. */
module CreatesProof {
  import opened States
  import opened Saga
  import opened SagaInv
  import opened Creates

  // ---- other transactions keep the identity of orders --------------------------------

  lemma {:induction false} ExpireGrows(db: DB, due: seq<OrderId>, now: int)
    ensures Expire(db, due, now).orders.Keys == db.orders.Keys && Grows(db, Expire(db, due, now))
  {
    if due == [] {
    } else {
      ExpireGrows(db, due[..|due| - 1], now);
    }
  }

  lemma OtherGrows(db: DB, s: Saga.Step)
    requires !s.DoPlace?
    ensures Apply(db, s).orders.Keys == db.orders.Keys && Grows(db, Apply(db, s))
  {
    if s.DoExpire? {
      ExpireGrows(db, s.due, s.now);
    }
  }

  lemma GrowsKeepsKeys(db: DB, d: DB, user: int, key: string)
    requires Grows(db, d) && KeyTaken(db, user, key)
    ensures KeyTaken(d, user, key)
  {
  }

  // ---- requests that do not move ---------------------------------------------------------

  /** Nothing a request relies on changed under it. */
  lemma StillOk(w: World, u: World, id: OrderId, r: Request)
    requires RequestOk(w, id, r) && Grows(w.db, u.db)
    requires id in u.db.orders ==> id in w.db.orders
    requires forall j :: j in w.tokens ==> j in u.tokens && u.tokens[j] == w.tokens[j]
    requires r.claimed && r.token.Some? ==> r.token.value in u.used && r.token.value in w.used && u.used[r.token.value] == w.used[r.token.value]
    ensures RequestOk(u, id, r)
  {
    hide GoodSeats, CanPlace;
    if KeyTaken(w.db, r.row.user, r.row.key) {
      GrowsKeepsKeys(w.db, u.db, r.row.user, r.row.key);
    }
  }

  lemma OthersStillOk(w: World, u: World, moved: OrderId)
    requires RequestsOk(w) && Grows(w.db, u.db)
    requires forall id :: id in u.db.orders && id != moved ==> id in w.db.orders
    requires forall j :: j in w.tokens ==> j in u.tokens && u.tokens[j] == w.tokens[j]
    requires forall id | id in w.reqs && id != moved && w.reqs[id].claimed && w.reqs[id].token.Some? ::
      var j := w.reqs[id].token.value; j in u.used && j in w.used && u.used[j] == w.used[j]
    ensures forall id :: id in w.reqs && id != moved ==> RequestOk(u, id, w.reqs[id])
  {
    hide RequestOk, Grows;
    forall id | id in w.reqs && id != moved ensures RequestOk(u, id, w.reqs[id]) {
      StillOk(w, u, id, w.reqs[id]);
    }
  }

  // ---- steps that move no request -----------------------------------------------------------

  lemma BackgroundKeeps(w: World, step: Creates.Step, ttl: int)
    requires Good(w, ttl) && Enabled(w, step) && (step.Tick? || step.IssueToken? || step.Other?)
    ensures Good(Do(w, step, ttl), ttl)
  {
    hide Inv, RequestOk, Apply;
    var u := Do(w, step, ttl);
    if step.Other? {
      OtherGrows(w.db, step.step);
      StepKeeps(w.db, step.step);
    } else {
      assert u.db == w.db;
    }
    forall id | id in u.reqs ensures RequestOk(u, id, u.reqs[id]) {
      assert RequestOk(w, id, w.reqs[id]);
      ClaimStays(w, u, id);
      StillOk(w, u, id, w.reqs[id]);
    }
  }

  lemma ClaimStays(w: World, u: World, id: OrderId)
    requires id in w.reqs && RequestOk(w, id, w.reqs[id]) && u.used == w.used
    ensures var r := w.reqs[id]; r.claimed && r.token.Some? ==>
      r.token.value in u.used && r.token.value in w.used && u.used[r.token.value] == w.used[r.token.value]
  {
  }

  lemma BeginKeeps(w: World, id: OrderId, row: Order, token: Option<Jti>, ttl: int)
    requires Good(w, ttl) && Enabled(w, Begin(id, row, token))
    ensures Good(Do(w, Begin(id, row, token), ttl), ttl)
  {
    hide Inv, RequestOk, GoodSeats;
    var u := Do(w, Begin(id, row, token), ttl);
    forall k | k in w.reqs ensures RequestOk(u, k, w.reqs[k]) {
      assert RequestOk(w, k, w.reqs[k]);
      ClaimStays(w, u, k);
      StillOk(w, u, k, w.reqs[k]);
    }
    FreshOk(u, id, row, token);
  }

  lemma FreshOk(u: World, id: OrderId, row: Order, token: Option<Jti>)
    requires row.status == Held && GoodSeats(row.event, row.seats) && id !in u.db.orders
    requires token.Some? ==> token.value in u.tokens
    ensures RequestOk(u, id, Request(row, token, false, Locking))
  {
  }

  // ---- steps of one request --------------------------------------------------------------------

  /** A claim on record is live as long as its token is, so nobody can overwrite it. */
  lemma RecordedIsLive(w: World, j: Jti)
    requires RequestsOk(w) && LedgerOk(w) && j in w.used && w.now < w.tokens[j]
    ensures LiveClaim(w, j)
  {
    assert RequestOk(w, w.used[j].order, w.reqs[w.used[j].order]);
  }

  /** The ledger changes only at the moving request's own token. */
  lemma UsedFrame(w: World, step: Creates.Step, ttl: int, id: OrderId)
    requires RequestsOk(w) && LedgerOk(w) && step.Proceed? && Enabled(w, step)
    requires id in w.reqs && id != step.id && w.reqs[id].claimed && w.reqs[id].token.Some?
    ensures var j := w.reqs[id].token.value; j in w.used && j in Do(w, step, ttl).used && Do(w, step, ttl).used[j] == w.used[j]
  {
    var j := w.reqs[id].token.value;
    assert RequestOk(w, id, w.reqs[id]);
    if step.move.ClaimToken? && w.reqs[step.id].token == Some(j) {
      RecordedIsLive(w, j);
    }
  }

  lemma ClaimMoves(w: World, u: World, id: OrderId, r: Request, m: Move, ttl: int)
    requires RequestOk(w, id, r) && Ready(w, id, r, m) && m.ClaimToken?
    requires w.tokens[r.token.value] <= w.now + ttl
    requires r.token.value in w.used ==> LiveClaim(w, r.token.value)
    requires r.token.value in w.used && w.used[r.token.value].order == id ==> w.tokens[r.token.value] <= w.used[r.token.value].until
    requires u == w.(used := UsedAfter(w, id, r, m, ttl), reqs := u.reqs)
    ensures RequestOk(u, id, Next(w, id, r, m))
  {
  }

  lemma LookMoves(w: World, id: OrderId, r: Request, m: Move)
    requires RequestOk(w, id, r) && Ready(w, id, r, m) && m.Look?
    ensures RequestOk(w, id, Next(w, id, r, m))
  {
  }

  lemma PlainMoves(w: World, id: OrderId, r: Request, m: Move)
    requires RequestOk(w, id, r) && Ready(w, id, r, m)
    requires m.TryLock? || m.HoldSeats? || m.Crash? || (m.Insert? && m.result != Inserted) || (m.GiveBack? && m.lost)
    ensures RequestOk(w, id, Next(w, id, r, m))
  {
  }

  lemma InsertMoves(w: World, u: World, id: OrderId, r: Request, expires: int)
    requires RequestOk(w, id, r) && r.phase.Inserting?
    requires u == w.(db := u.db, reqs := u.reqs) && u.db.orders == w.db.orders[id := r.row.(holdExpires := expires)]
    ensures RequestOk(u, id, Finish(r, Created))
  {
  }

  lemma GiveBackMoves(w: World, u: World, id: OrderId, r: Request)
    requires RequestOk(w, id, r) && r.phase.GivingBack?
    requires u == w.(used := u.used, reqs := u.reqs)
    ensures RequestOk(u, id, r.(phase := Done(r.phase.reply), claimed := false))
  {
  }

  lemma PlaceGrows(db: DB, id: OrderId, o: Order)
    requires CanPlace(db, id, o)
    ensures Place(db, id, o).orders == db.orders[id := o] && Grows(db, Place(db, id, o))
  {
  }

  lemma RequestsOnly(w: World, u: World, id: OrderId, r: Request)
    requires RequestOk(w, id, r) && u == w.(reqs := u.reqs)
    ensures RequestOk(u, id, r)
  {
  }

  /** What a claim needs of the ledger. */
  lemma ClaimNeeds(w: World, id: OrderId, ttl: int)
    requires Good(w, ttl) && id in w.reqs && Ready(w, id, w.reqs[id], ClaimToken(false))
    ensures var j := w.reqs[id].token.value;
      && w.tokens[j] <= w.now + ttl
      && (j in w.used ==> LiveClaim(w, j) && w.tokens[j] <= w.used[j].until)
  {
    hide Inv;
    var j := w.reqs[id].token.value;
    if j in w.used {
      RecordedIsLive(w, j);
      assert RequestOk(w, w.used[j].order, w.reqs[w.used[j].order]);
    }
  }

  lemma MovedOk(w: World, id: OrderId, m: Move, ttl: int)
    requires Good(w, ttl) && Enabled(w, Proceed(id, m))
    ensures RequestOk(Do(w, Proceed(id, m), ttl), id, Do(w, Proceed(id, m), ttl).reqs[id])
  {
    hide Inv, RequestOk, LedgerOk, CanPlace, Place;
    var r, u := w.reqs[id], Do(w, Proceed(id, m), ttl);
    assert RequestOk(w, id, r);
    if m.ClaimToken? {
      ClaimNeeds(w, id, ttl);
      ClaimMoves(w, u, id, r, m, ttl);
    } else if m.Insert? && m.result == Inserted {
      PlaceGrows(w.db, id, r.row.(holdExpires := m.expires));
      InsertMoves(w, u, id, r, m.expires);
    } else if m.GiveBack? && !m.lost {
      GiveBackMoves(w, u, id, r);
    } else {
      if m.Look? {
        LookMoves(w, id, r, m);
      } else {
        PlainMoves(w, id, r, m);
      }
      RequestsOnly(w, u, id, Next(w, id, r, m));
    }
  }

  lemma LedgerMoves(w: World, id: OrderId, m: Move, ttl: int)
    requires RequestsOk(w) && LedgerOk(w) && Enabled(w, Proceed(id, m))
    ensures LedgerOk(Do(w, Proceed(id, m), ttl))
  {
    hide GoodSeats, CanPlace, KeyTaken, HasHeld;
    var r, u := w.reqs[id], Do(w, Proceed(id, m), ttl);
    assert RequestOk(w, id, r);
    ClaimedMoves(w, id, r, m);
    forall j | j in u.used
      ensures j in u.tokens && u.used[j].order in u.reqs
      ensures u.reqs[u.used[j].order].claimed && u.reqs[u.used[j].order].token == Some(j)
    {
    }
  }

  /** A request drops its claim only by giving it back. */
  lemma ClaimedMoves(w: World, id: OrderId, r: Request, m: Move)
    requires Ready(w, id, r, m)
    ensures var n := Next(w, id, r, m);
      && n.token == r.token
      && (r.claimed ==> n.claimed || (m.GiveBack? && !m.lost))
      && (m.ClaimToken? && !m.broken && !LiveClaim(w, r.token.value) ==> n.claimed)
  {
  }

  lemma MoveKeeps(w: World, id: OrderId, m: Move, ttl: int)
    requires Good(w, ttl) && Enabled(w, Proceed(id, m))
    ensures Good(Do(w, Proceed(id, m), ttl), ttl)
  {
    hide Inv, RequestOk, LedgerOk, UsedAfter, Next, CanPlace;
    var u := Do(w, Proceed(id, m), ttl);
    MovedOk(w, id, m, ttl);
    LedgerMoves(w, id, m, ttl);
    forall k | k in w.reqs && k != id && w.reqs[k].claimed && w.reqs[k].token.Some?
      ensures var j := w.reqs[k].token.value; j in u.used && j in w.used && u.used[j] == w.used[j]
    {
      UsedFrame(w, Proceed(id, m), ttl, k);
    }
    if m.Insert? && m.result == Inserted {
      var o := w.reqs[id].row.(holdExpires := m.expires);
      PlaceGrows(w.db, id, o);
      PlaceKeeps(w.db, id, o);
    } else {
      assert u.db == w.db;
    }
    OthersStillOk(w, u, id);
  }

  lemma DoKeeps(w: World, step: Creates.Step, ttl: int)
    requires Good(w, ttl) && Enabled(w, step)
    ensures Good(Do(w, step, ttl), ttl)
  {
    hide Good, Enabled, Do;
    match step
    case Begin(id, row, token) => BeginKeeps(w, id, row, token, ttl);
    case Proceed(id, m) => MoveKeeps(w, id, m, ttl);
    case _ => BackgroundKeeps(w, step, ttl);
  }
}
