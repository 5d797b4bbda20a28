/**
 Whole handlers on whole records. A record of order.paid is handled by one transaction; one of order.refund_requested
 by a read, a gateway call and a transaction. Any number of handlers, several of them perhaps on the same record, take
 their steps in any order; an attempt may fail between any two steps and start over, and a handler may be lost.
 */
module Handlers {
  import opened States
  import opened Saga
  import opened SagaInv
  import opened Deliveries

  datatype Record = PaidRecord(id: OrderId) | RefundRecord(txn: Txn)

  datatype Phase = Waiting | Checked | Asked | Finished

  datatype Handler = Handler(record: Record, phase: Phase)

  /** acts is the history of effects since the start; done the records some handler has finished. */
  datatype Site = Site(side: Side, handlers: map<nat, Handler>, acts: seq<Action>, begun: set<Record>, done: set<Record>)

  datatype Step =
    | Begin(h: nat, record: Record)
    | Proceed(h: nat)
    | Retry(h: nat)
    | Lose(h: nat)

  predicate Enabled(w: Site, step: Step) {
    match step
    case Begin(h, _) => h !in w.handlers
    case Proceed(h) => h in w.handlers && w.handlers[h].phase != Finished
    case Retry(h) => h in w.handlers && w.handlers[h].phase != Finished
    case Lose(h) => h in w.handlers
  }

  /** Nothing to do: the refund does not exist, or has succeeded already. */
  predicate Settled(db: DB, t: Txn) {
    t !in db.refunds || db.refunds[t].status == Succeeded
  }

  /** The effect of a handler's next step, if it has one, and the phase it leads to. */
  function NextOf(db: DB, h: Handler): (Option<Action>, Phase) {
    match h.record
    case PaidRecord(id) => (Some(IssueFor(id)), Finished)
    case RefundRecord(t) =>
      match h.phase
      case Waiting => (None, if Settled(db, t) then Finished else Checked)
      case Checked => (Some(AskFor(t)), Asked)
      case Asked => (Some(CompleteFor(t)), Finished)
      case Finished => (None, Finished)
  }

  function Do(w: Site, step: Step): Site
    requires Enabled(w, step)
  {
    match step
    case Begin(h, r) => w.(handlers := w.handlers[h := Handler(r, Waiting)], begun := w.begun + {r})
    case Retry(h) => w.(handlers := w.handlers[h := w.handlers[h].(phase := Waiting)])
    case Lose(h) => w.(handlers := w.handlers - {h})
    case Proceed(h) =>
      var (a, p) := NextOf(w.side.db, w.handlers[h]);
      w.(side := if a.Some? then Act(w.side, a.value) else w.side,
         acts := if a.Some? then w.acts + [a.value] else w.acts,
         handlers := w.handlers[h := w.handlers[h].(phase := p)],
         done := if p == Finished then w.done + {w.handlers[h].record} else w.done)
  }

  // ---- which actions a set of records calls for ---------------------------------------

  /** Some of the records needs this action, as things stood at the start. */
  ghost predicate Called(db: DB, records: set<Record>, a: Action) {
    match a
    case IssueFor(id) => PaidRecord(id) in records
    case AskFor(t) => RefundRecord(t) in records && !Settled(db, t)
    case CompleteFor(t) => RefundRecord(t) in records && !Settled(db, t)
  }

  /** Started at s: every effect was called for by a record begun, and every record finished had all its effects. */
  ghost predicate Good(s: Side, w: Site) {
    && w.side == ActAll(s, w.acts)
    && w.done <= w.begun
    && (forall a :: a in w.acts ==> Called(s.db, w.begun, a))
    && (forall a :: Called(s.db, w.done, a) ==> a in w.acts)
    && (forall t :: CompleteFor(t) in w.acts ==> AskFor(t) in w.acts)
    && (forall h :: h in w.handlers ==> HandlerOk(s, w, w.handlers[h]))
  }

  ghost predicate HandlerOk(s: Side, w: Site, h: Handler) {
    && h.record in w.begun
    && (h.phase in {Checked, Asked} ==> h.record.RefundRecord? && !Settled(s.db, h.record.txn))
    && (h.phase == Asked ==> h.record.RefundRecord? && AskFor(h.record.txn) in w.acts)
  }

  /** What a refunder reads: settled from the start, or completed since. */
  lemma ReadIsRight(s: Side, acts: seq<Action>, t: Txn)
    requires Inv(s.db)
    ensures Settled(ActAll(s, acts).db, t) <==> Settled(s.db, t) || CompleteFor(t) in acts
  {
    hide Inv, OrdersReached, TicketsReached, EventsReached, GatewayReached;
    AllReached(s, acts);
    assert CompleteFor(t) in ActionsOf(acts) <==> CompleteFor(t) in acts;
  }

  lemma ActSnoc(s: Side, acts: seq<Action>, a: Action)
    ensures ActAll(s, acts + [a]) == Act(ActAll(s, acts), a)
  {
    assert (acts + [a])[..|acts|] == acts;
  }

  lemma ProceedKeeps(s: Side, w: Site, h: nat)
    requires Inv(s.db) && Good(s, w) && Enabled(w, Proceed(h))
    ensures Good(s, Do(w, Proceed(h)))
  {
    hide Inv, Act, ActAll;
    var r := w.handlers[h].record;
    var (a, p) := NextOf(w.side.db, w.handlers[h]);
    assert HandlerOk(s, w, w.handlers[h]);
    if r.RefundRecord? {
      ReadIsRight(s, w.acts, r.txn);
    }
    if a.Some? {
      ActSnoc(s, w.acts, a.value);
    }
    var u := Do(w, Proceed(h));
    forall k | k in u.handlers ensures HandlerOk(s, u, u.handlers[k]) {
      assert HandlerOk(s, w, w.handlers[k]);
    }
  }

  lemma DoKeeps(s: Side, w: Site, step: Step)
    requires Inv(s.db) && Good(s, w) && Enabled(w, step)
    ensures Good(s, Do(w, step))
  {
    hide Inv, Act, ActAll;
    match step
    case Proceed(h) => ProceedKeeps(s, w, h);
    case _ =>
      var u := Do(w, step);
      forall k | k in u.handlers ensures HandlerOk(s, u, u.handlers[k]) {
        if k in w.handlers {
          assert HandlerOk(s, w, w.handlers[k]);
        }
      }
  }

  function Start(s: Side): Site {
    Site(s, map[], [], {}, {})
  }

  ghost predicate IsRun(s: Side, ws: seq<Site>, steps: seq<Step>) {
    && |ws| == |steps| + 1 && ws[0] == Start(s)
    && forall i :: 0 <= i < |steps| ==> Enabled(ws[i], steps[i]) && ws[i + 1] == Do(ws[i], steps[i])
  }

  lemma {:induction false} EveryStateIsGood(s: Side, ws: seq<Site>, steps: seq<Step>, n: nat)
    requires Inv(s.db) && IsRun(s, ws, steps) && n < |ws|
    ensures Good(s, ws[n])
  {
    hide Inv, Enabled, Do;
    if n == 0 {
      NothingDone(s);
    } else {
      EveryStateIsGood(s, ws, steps, n - 1);
      DoKeeps(s, ws[n - 1], steps[n - 1]);
    }
  }

  lemma NothingDone(s: Side)
    ensures Good(s, Start(s))
  {
  }

  // ---- each record once -------------------------------------------------------------------

  /** A handler run from beginning to end with nothing in between. */
  function Deliver(s: Side, r: Record): Side {
    match r
    case PaidRecord(id) => Act(s, IssueFor(id))
    case RefundRecord(t) => if Settled(s.db, t) then s else Act(Act(s, AskFor(t)), CompleteFor(t))
  }

  function RecordsOf(records: seq<Record>): set<Record> {
    set r | r in records
  }

  function DeliverAll(s: Side, records: seq<Record>): Side {
    if records == [] then s else Deliver(DeliverAll(s, records[..|records| - 1]), records[|records| - 1])
  }

  /** Delivering a list of records one after the other comes down to the actions they call for. */
  lemma {:induction false} DeliveredActions(s: Side, records: seq<Record>) returns (acts: seq<Action>)
    requires Inv(s.db)
    ensures DeliverAll(s, records) == ActAll(s, acts)
    ensures forall a :: a in acts <==> Called(s.db, RecordsOf(records), a)
  {
    hide Inv, Act, ActAll;
    if records == [] {
      acts := NoActs(s);
    } else {
      var n := |records| - 1;
      var r := records[n];
      assert records == records[..n] + [r];
      acts := DeliveredActions(s, records[..n]);
      match r
      case PaidRecord(id) =>
        ActSnoc(s, acts, IssueFor(id));
        acts := acts + [IssueFor(id)];
      case RefundRecord(t) =>
        ReadIsRight(s, acts, t);
        if !Settled(ActAll(s, acts).db, t) {
          ActSnoc(s, acts, AskFor(t));
          ActSnoc(s, acts + [AskFor(t)], CompleteFor(t));
          acts := acts + [AskFor(t)] + [CompleteFor(t)];
        }
    }
  }

  lemma NoActs(s: Side) returns (acts: seq<Action>)
    ensures acts == [] && ActAll(s, acts) == s
  {
    acts := [];
  }

  /**
   Whatever was redelivered, interleaved, retried or lost on the way: once every record that was begun has been finished
   by some handler, tables, events as a bag, and gateway refunds are what delivering each of these records once gives,
   in any order.
   */
  lemma HandlersConverge(s: Side, ws: seq<Site>, steps: seq<Step>, once: seq<Record>)
    requires Inv(s.db) && IsRun(s, ws, steps) && ws[|steps|].done == ws[|steps|].begun
    requires Distinct(once) && RecordsOf(once) == ws[|steps|].begun
    ensures var x, y := ws[|steps|].side, DeliverAll(s, once);
      && x.db.orders == y.db.orders && x.db.payments == y.db.payments && x.db.refunds == y.db.refunds
      && x.db.tickets == y.db.tickets
      && multiset(x.db.outbox) == multiset(y.db.outbox)
      && x.gateway == y.gateway
  {
    hide Inv, Act, ActAll, Enabled, Do, DeliverAll;
    EveryStateIsGood(s, ws, steps, |steps|);
    var acts := DeliveredActions(s, once);
    assert ActionsOf(ws[|steps|].acts) == ActionsOf(acts);
    RedeliveryConverges(s, ws[|steps|].acts, acts);
  }
}
