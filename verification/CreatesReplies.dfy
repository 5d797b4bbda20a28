/** Why a create request got its reply: in every interleaving, from the answers it was given on its way. */
module CreatesReplies {
  import opened Saga
  import opened Creates
  import opened CreatesTheorems

  predicate Ended(p: Phase) {
    p.GivingBack? || p.Done? || p.Stuck?
  }

  /** The move that ends request id with this reply, and what it met. */
  predicate Ends(w: World, id: OrderId, r: Request, m: Move, reply: Reply) {
    match reply
    case Created => m.Insert? && m.result == Inserted
    case Replayed(o) => m == Look(Some(o)) && o in w.db.orders && w.db.orders[o].hash == r.row.hash
    case KeyReused => m.Look? && m.found.Some? && m.found.value in w.db.orders && w.db.orders[m.found.value].hash != r.row.hash
    case InProgress => m == Look(None) && r.phase.Refused?
    case AlreadyUsed =>
      && m == ClaimToken(false) && r.token.Some? && r.token.value in w.used
      && w.now < w.used[r.token.value].until && w.used[r.token.value].order != id
    case SeatsTaken => m == HoldSeats(No)
    case ActiveOrder => m.Insert? && m.result == HeldClash
    case Unavailable => m == TryLock(Broken) || m == ClaimToken(true) || m == HoldSeats(Broken) || (m.Insert? && m.result == InsertBroken)
    case StillConflicting => m.Insert? && m.result == KeyClash && r.phase.Inserting? && r.phase.round >= 1
  }

  /** A request ends with a reply exactly through such a move. */
  lemma EndsIff(w: World, id: OrderId, r: Request, m: Move, reply: Reply)
    requires Ready(w, id, r, m) && !Ended(r.phase)
    ensures IsReply(Next(w, id, r, m).phase, reply) <==> Ends(w, id, r, m, reply)
  {
    hide CanPlace, KeyTaken, HasHeld;
  }

  ghost predicate Did(steps: seq<Creates.Step>, n: nat, id: OrderId, m: Move) {
    exists i :: 0 <= i < n && i < |steps| && steps[i] == Proceed(id, m)
  }

  /** Step i of the run ended request id with this reply, for the reason given. */
  ghost predicate EndedBy(ws: seq<World>, steps: seq<Creates.Step>, i: nat, id: OrderId, reply: Reply) {
    && i < |ws| && i < |steps| && steps[i].Proceed? && steps[i].id == id && id in ws[i].reqs
    && Ends(ws[i], id, ws[i].reqs[id], steps[i].move, reply)
  }

  ghost predicate WasEnded(ws: seq<World>, steps: seq<Creates.Step>, n: nat, id: OrderId, reply: Reply) {
    exists i: nat :: i < n && EndedBy(ws, steps, i, id, reply)
  }

  /** How far a request has come tells what it was answered: the lock, the claim and the hold. */
  ghost predicate PathOk(r: Request, steps: seq<Creates.Step>, n: nat, id: OrderId) {
    && (r.phase.Looking? || r.phase.Claiming? || r.phase.Holding? || r.phase.Inserting? ==> Did(steps, n, id, TryLock(Yes)))
    && (r.phase.Refused? ==> Did(steps, n, id, TryLock(No)))
    && (r.phase.Inserting? ==> Did(steps, n, id, HoldSeats(Yes)))
    && (r.claimed ==> Did(steps, n, id, ClaimToken(false)))
    && (IsReply(r.phase, Created) ==> Did(steps, n, id, TryLock(Yes)) && Did(steps, n, id, HoldSeats(Yes)))
  }

  /** And every reply has its reason. */
  ghost predicate Explained(ws: seq<World>, steps: seq<Creates.Step>, n: nat, id: OrderId)
    requires n < |ws| && id in ws[n].reqs
  {
    && PathOk(ws[n].reqs[id], steps, n, id)
    && forall reply :: IsReply(ws[n].reqs[id].phase, reply) ==> WasEnded(ws, steps, n, id, reply)
  }

  lemma DidMore(steps: seq<Creates.Step>, n: nat, id: OrderId)
    ensures forall m :: Did(steps, n, id, m) ==> Did(steps, n + 1, id, m)
    ensures n < |steps| && steps[n].Proceed? && steps[n].id == id ==> Did(steps, n + 1, id, steps[n].move)
  {
  }

  lemma EndedMore(ws: seq<World>, steps: seq<Creates.Step>, n: nat, id: OrderId, reply: Reply)
    requires WasEnded(ws, steps, n, id, reply) || EndedBy(ws, steps, n, id, reply)
    ensures WasEnded(ws, steps, n + 1, id, reply)
  {
    hide EndedBy;
  }

  lemma PathMoves(w: World, id: OrderId, r: Request, steps: seq<Creates.Step>, n: nat)
    requires n < |steps| && steps[n].Proceed? && steps[n].id == id && Ready(w, id, r, steps[n].move) && PathOk(r, steps, n, id)
    ensures PathOk(Next(w, id, r, steps[n].move), steps, n + 1, id)
  {
    hide Did, CanPlace, KeyTaken, HasHeld, LiveClaim;
    DidMore(steps, n, id);
  }

  /** A request that did not move is explained as before. */
  lemma StaysExplained(ws: seq<World>, steps: seq<Creates.Step>, n: nat, id: OrderId)
    requires n + 1 < |ws| && id in ws[n].reqs && id in ws[n + 1].reqs && ws[n + 1].reqs[id] == ws[n].reqs[id]
    requires Explained(ws, steps, n, id)
    ensures Explained(ws, steps, n + 1, id)
  {
    hide Did, WasEnded, IsReply;
    DidMore(steps, n, id);
    var p := ws[n].reqs[id].phase;
    forall reply | IsReply(p, reply) ensures WasEnded(ws, steps, n + 1, id, reply) {
      EndedMore(ws, steps, n, id, reply);
    }
  }

  lemma MoveExplains(ws: seq<World>, steps: seq<Creates.Step>, ttl: int, n: nat, id: OrderId)
    requires IsRun(ws, steps, ttl) && n < |steps| && steps[n].Proceed? && steps[n].id == id && id in ws[n].reqs
    requires Explained(ws, steps, n, id)
    ensures id in ws[n + 1].reqs && Explained(ws, steps, n + 1, id)
  {
    hide PathOk, WasEnded, Ends, IsReply, Next, UsedAfter, DbAfter;
    var w, m := ws[n], steps[n].move;
    var r := w.reqs[id];
    assert Enabled(w, steps[n]) && ws[n + 1] == Do(w, steps[n], ttl);
    PathMoves(w, id, r, steps, n);
    var p := Next(w, id, r, m).phase;
    forall reply | IsReply(p, reply) ensures WasEnded(ws, steps, n + 1, id, reply) {
      if Ended(r.phase) {
        StillReplies(w, id, r, m, reply);
      } else {
        EndsIff(w, id, r, m, reply);
      }
      EndedMore(ws, steps, n, id, reply);
    }
  }

  lemma StillReplies(w: World, id: OrderId, r: Request, m: Move, reply: Reply)
    requires Ready(w, id, r, m) && Ended(r.phase) && IsReply(Next(w, id, r, m).phase, reply)
    ensures IsReply(r.phase, reply)
  {
  }

  lemma FreshExplained(ws: seq<World>, steps: seq<Creates.Step>, n: nat, id: OrderId)
    requires n < |ws| && id in ws[n].reqs && ws[n].reqs[id].phase == Locking && !ws[n].reqs[id].claimed
    ensures Explained(ws, steps, n, id)
  {
  }

  /**
   In every run: a request that inserts was given the lock and the hold, one that carries a claim made it, and every
   reply was caused by a move of the request that met exactly what the reply says.
   */
  lemma {:induction false} RepliesAreExplained(ws: seq<World>, steps: seq<Creates.Step>, ttl: int, n: nat, id: OrderId)
    requires IsRun(ws, steps, ttl) && n < |ws| && id in ws[n].reqs
    ensures Explained(ws, steps, n, id)
  {
    if n > 0 {
      var s := steps[n - 1];
      assert Enabled(ws[n - 1], s) && ws[n] == Do(ws[n - 1], s, ttl);
      hide Explained;
      if id in ws[n - 1].reqs {
        RepliesAreExplained(ws, steps, ttl, n - 1, id);
        if s.Proceed? && s.id == id {
          MoveExplains(ws, steps, ttl, n - 1, id);
        } else {
          StaysExplained(ws, steps, n - 1, id);
        }
      } else {
        FreshExplained(ws, steps, n, id);
      }
    }
  }
}
