/** What every interleaving of create requests guarantees. */
module CreatesTheorems {
  import opened States
  import opened Saga
  import opened SagaInv
  import opened Creates
  import opened CreatesProof

  ghost predicate IsRun(ws: seq<World>, steps: seq<Creates.Step>, ttl: int) {
    && |ws| == |steps| + 1 && ws[0] == START
    && forall i :: 0 <= i < |steps| ==> Enabled(ws[i], steps[i]) && ws[i + 1] == Do(ws[i], steps[i], ttl)
  }

  lemma {:induction false} EveryStateIsGood(ws: seq<World>, steps: seq<Creates.Step>, ttl: int, n: nat)
    requires IsRun(ws, steps, ttl) && n < |ws|
    ensures Good(ws[n], ttl)
  {
    hide Enabled, Do, Good;
    if n == 0 {
      StartIsGood(ttl);
    } else {
      EveryStateIsGood(ws, steps, ttl, n - 1);
      DoKeeps(ws[n - 1], steps[n - 1], ttl);
    }
  }

  lemma StartIsGood(ttl: int)
    ensures Good(START, ttl)
  {
    EmptyInv();
  }

  lemma RequestFacts(w: World, ttl: int, id: OrderId)
    requires Good(w, ttl) && id in w.reqs
    ensures RequestOk(w, id, w.reqs[id])
  {
    hide Inv, RequestOk;
  }

  lemma UniqueKeys(w: World, ttl: int, a: OrderId, b: OrderId)
    requires Good(w, ttl) && a in w.db.orders && b in w.db.orders
    requires w.db.orders[a].user == w.db.orders[b].user && w.db.orders[a].key == w.db.orders[b].key
    ensures a == b
  {
    hide TicketClauses, PaymentsSound, AppliedOnce, UndoneOnce, EventClauses, Conserved, RequestsOk, LedgerOk;
  }

  /** Each user and key has at most one order. */
  lemma OneOrderPerKey(ws: seq<World>, steps: seq<Creates.Step>, ttl: int, a: OrderId, b: OrderId)
    requires IsRun(ws, steps, ttl) && a in ws[|steps|].db.orders && b in ws[|steps|].db.orders
    requires ws[|steps|].db.orders[a].user == ws[|steps|].db.orders[b].user
    requires ws[|steps|].db.orders[a].key == ws[|steps|].db.orders[b].key
    ensures a == b
  {
    hide Good, Enabled, Do;
    EveryStateIsGood(ws, steps, ttl, |steps|);
    UniqueKeys(ws[|steps|], ttl, a, b);
  }

  /** At most one request of a user and key is told that it created the order. */
  lemma CreatedOnce(ws: seq<World>, steps: seq<Creates.Step>, ttl: int, a: OrderId, b: OrderId)
    requires IsRun(ws, steps, ttl) && a in ws[|steps|].reqs && b in ws[|steps|].reqs
    requires ws[|steps|].reqs[a].row.user == ws[|steps|].reqs[b].row.user
    requires ws[|steps|].reqs[a].row.key == ws[|steps|].reqs[b].row.key
    requires ws[|steps|].reqs[a].phase == ws[|steps|].reqs[b].phase == Done(Created)
    ensures a == b
  {
    hide Good, Enabled, Do;
    EveryStateIsGood(ws, steps, ttl, |steps|);
    RequestFacts(ws[|steps|], ttl, a);
    RequestFacts(ws[|steps|], ttl, b);
    UniqueKeys(ws[|steps|], ttl, a, b);
  }

  /** The order a success reply names. */
  function Named(id: OrderId, reply: Reply): Option<OrderId> {
    match reply
    case Created => Some(id)
    case Replayed(o) => Some(o)
    case _ => None
  }

  /** Every success reply names the one order of this user and key, and that order has the request's body. */
  lemma RepliesNameTheOrder(ws: seq<World>, steps: seq<Creates.Step>, ttl: int, id: OrderId, o: OrderId)
    requires IsRun(ws, steps, ttl)
    requires var w := ws[|steps|]; id in w.reqs && w.reqs[id].phase.Done? && Named(id, w.reqs[id].phase.reply) == Some(o)
    ensures var w := ws[|steps|]; var row := w.reqs[id].row;
      && o in w.db.orders && w.db.orders[o].user == row.user && w.db.orders[o].key == row.key && w.db.orders[o].hash == row.hash
      && (forall x :: IsKeyOf(w.db, x, row) ==> x == o)
  {
    hide Good, Enabled, Do;
    var w := ws[|steps|];
    EveryStateIsGood(ws, steps, ttl, |steps|);
    RequestFacts(w, ttl, id);
    assert IsReply(w.reqs[id].phase, w.reqs[id].phase.reply);
    forall x | IsKeyOf(w.db, x, w.reqs[id].row) ensures x == o {
      UniqueKeys(w, ttl, x, o);
    }
  }

  /** No request ever gives up because its key still conflicts after the retry. */
  lemma NeverStillConflicting(ws: seq<World>, steps: seq<Creates.Step>, ttl: int, id: OrderId)
    requires IsRun(ws, steps, ttl) && id in ws[|steps|].reqs
    ensures !IsReply(ws[|steps|].reqs[id].phase, StillConflicting)
  {
    hide Good, Enabled, Do;
    EveryStateIsGood(ws, steps, ttl, |steps|);
    RequestFacts(ws[|steps|], ttl, id);
  }

  /** An admission token creates at most one order. */
  lemma OneOrderPerToken(ws: seq<World>, steps: seq<Creates.Step>, ttl: int, a: OrderId, b: OrderId)
    requires IsRun(ws, steps, ttl)
    requires var w := ws[|steps|];
      && a in w.reqs && b in w.reqs && a in w.db.orders && b in w.db.orders
      && w.reqs[a].token.Some? && w.reqs[a].token == w.reqs[b].token
    ensures a == b
  {
    hide Good, Enabled, Do;
    var w := ws[|steps|];
    EveryStateIsGood(ws, steps, ttl, |steps|);
    RequestFacts(w, ttl, a);
    RequestFacts(w, ttl, b);
  }

  /** Request id's token is marked used by it. */
  predicate LeftClaimed(w: World, id: OrderId) {
    id in w.reqs && w.reqs[id].token.Some? && w.reqs[id].token.value in w.used && w.used[w.reqs[id].token.value].order == id
  }

  /**
   A request that returned left its token claimed exactly when it created an order or its giving back failed; every
   claim outlives its token.
   */
  lemma ClaimedIffCreated(ws: seq<World>, steps: seq<Creates.Step>, ttl: int, id: OrderId)
    requires IsRun(ws, steps, ttl)
    requires var w := ws[|steps|]; id in w.reqs && (w.reqs[id].phase.Done? || w.reqs[id].phase.Stuck?) && w.reqs[id].token.Some?
    ensures LeftClaimed(ws[|steps|], id) <==> id in ws[|steps|].db.orders || ws[|steps|].reqs[id].phase.Stuck?
    ensures LeftClaimed(ws[|steps|], id) ==>
      var j := ws[|steps|].reqs[id].token.value; j in ws[|steps|].tokens && ws[|steps|].tokens[j] <= ws[|steps|].used[j].until
  {
    hide Good, Enabled, Do;
    var w := ws[|steps|];
    EveryStateIsGood(ws, steps, ttl, |steps|);
    RequestFacts(w, ttl, id);
    if LeftClaimed(w, id) {
      ClaimIsCarried(w, ttl, w.reqs[id].token.value);
    }
  }

  lemma ClaimIsCarried(w: World, ttl: int, j: Jti)
    requires Good(w, ttl) && j in w.used
    ensures w.used[j].order in w.reqs && w.reqs[w.used[j].order].claimed && j in w.tokens
  {
    hide Inv, RequestsOk;
  }
}
