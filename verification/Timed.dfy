/**
 The saga and the seat keys together, interleaved and on a clock. Every transaction is split where it touches
 the keys outside its commit: a create holds and then inserts, an expired order is locked again before its seats
 are released, a late payment re-holds while it keeps the order locked, and seats are confirmed after the commit.
 */
module Timed {
  import opened States
  import opened Saga
  import opened SagaInv
  import opened SeatKeys

  /** The hold a late payment takes, in milliseconds. */
  const LATE := 60_000

  /** HOLD_TTL and HOLD_GRACE. */
  datatype Config = Config(ttl: nat, grace: nat)

  /** A create that holds its seats and has not yet inserted its order. */
  datatype Creating = Creating(seats: seq<Seat>, at: int)

  datatype Phase = Waiting | Locked | Reheld(at: int, reply: HoldReply)

  /** A webhook transaction: now() is its start, which comes before it gets the order lock. */
  datatype PayTx = PayTx(p: Webhook, start: int, phase: Phase)

  datatype World = World(
    db: DB,
    keys: Keys,
    now: int,
    creating: map<OrderId, Creating>,
    granted: map<OrderId, int>,    // until when the hold lasts that each order was granted last
    paidAt: map<OrderId, int>,     // when each sold order's tickets committed
    expired: set<OrderId>,         // expired, and the expirer still has to deal with the seats
    expiring: set<OrderId>,        // of those, the ones it has locked again
    releasing: set<OrderId>,       // decided against, with the release after the commit still to come
    pays: map<nat, PayTx>)

  const START := World(EMPTY, map[], 0, map[], map[], map[], {}, {}, {}, map[])

  datatype Step =
    | Tick(to: int)
    | TakeHold(id: OrderId, seats: seq<Seat>)
    | InsertOrder(id: OrderId, order: Order, start: int)
    | Abandon(id: OrderId, released: bool)
    | CancelOrder(user: int, id: OrderId)
    | ExpireOrder(id: OrderId)
    | LockExpired(id: OrderId)
    | ReleaseExpired(id: OrderId)
    | UnlockExpired(id: OrderId)
    | ReleaseLater(id: OrderId, released: bool)
    | BeginPay(pid: nat, p: Webhook)
    | LockPay(pid: nat)
    | Rehold(pid: nat)
    | CommitPay(pid: nat)
    | AbortPay(pid: nat)
    | ConfirmOrder(id: OrderId)
    | IssueOrder(id: OrderId)
    | CompleteRefund(txn: Txn)

  /** Nobody holds the row lock of order id. */
  predicate Unlocked(w: World, id: OrderId) {
    id !in w.expiring && forall pid :: pid in w.pays && w.pays[pid].p.order == id ==> w.pays[pid].phase == Waiting
  }

  /** The webhook cannot decide before it has asked the inventory for the seats. */
  predicate MustRehold(w: World, tx: PayTx) {
    && tx.p.order in w.db.orders
    && ValidWebhook(tx.p)
    && tx.p.txn !in w.db.payments
    && NeedsHold(w.db.orders[tx.p.order], tx.p, tx.start)
  }

  predicate Enabled(c: Config, w: World, step: Step) {
    match step
    case Tick(to) => w.now <= to
    case TakeHold(id, seats) => id !in w.db.orders && id !in w.creating && Taken(w.keys, seats, id, w.now) == []
    case InsertOrder(id, o, start) =>
      && id in w.creating && w.creating[id].at <= start <= w.now
      && o.seats == w.creating[id].seats && o.holdExpires == start + c.ttl
      && CanPlace(w.db, id, o)
    case Abandon(id, _) => id in w.creating
    case CancelOrder(user, id) => Unlocked(w, id) && CanCancel(w.db, user, id)
    case ExpireOrder(id) => Unlocked(w, id) && Due(w.db, id, w.now)
    case LockExpired(id) => id in w.expired && Unlocked(w, id)
    case ReleaseExpired(id) => id in w.expiring && id in w.db.orders && !Sold(w.db.orders[id].status)
    case UnlockExpired(id) => id in w.expiring
    case ReleaseLater(id, _) => id in w.releasing && id in w.db.orders
    case BeginPay(pid, _) => pid !in w.pays
    case LockPay(pid) =>
      pid in w.pays && w.pays[pid].phase == Waiting && w.pays[pid].p.order in w.db.orders && Unlocked(w, w.pays[pid].p.order)
    case Rehold(pid) => pid in w.pays && w.pays[pid].phase == Locked && MustRehold(w, w.pays[pid])
    case CommitPay(pid) =>
      pid in w.pays && (w.pays[pid].phase.Reheld? || (w.pays[pid].phase == Locked && !MustRehold(w, w.pays[pid])))
    case AbortPay(pid) => pid in w.pays
    case ConfirmOrder(id) => id in w.db.orders && Sold(w.db.orders[id].status)
    case IssueOrder(id) => Unlocked(w, id)
    case CompleteRefund(txn) => txn in w.db.refunds ==> Unlocked(w, w.db.refunds[txn].order)
  }

  function SeatsOf(w: World, id: OrderId): seq<Seat>
    requires id in w.db.orders
  {
    w.db.orders[id].seats
  }

  function DoRehold(w: World, pid: nat): World
    requires pid in w.pays && MustRehold(w, w.pays[pid])
  {
    var tx := w.pays[pid];
    var seats := SeatsOf(w, tx.p.order);
    var granted := Taken(w.keys, seats, tx.p.order, w.now) == [];
    w.(keys := Hold(w.keys, seats, tx.p.order, w.now, w.now + LATE),
       granted := if granted then w.granted[tx.p.order := w.now + LATE] else w.granted,
       pays := w.pays[pid := tx.(phase := Reheld(w.now, if granted then HoldGranted else HoldTaken))])
  }

  function ReplyOf(tx: PayTx): HoldReply {
    if tx.phase.Reheld? then tx.phase.reply else HoldFailed
  }

  function PayNow(w: World, tx: PayTx): Paying {
    Pay(w.db, tx.p, tx.start, ReplyOf(tx))
  }

  function DoCommit(w: World, pid: nat): World
    requires pid in w.pays
  {
    var tx := w.pays[pid];
    var r := PayNow(w, tx);
    w.(db := r.db,
       pays := w.pays - {pid},
       paidAt := if r.result == Recorded(Applied) then w.paidAt[tx.p.order := w.now] else w.paidAt,
       releasing := if r.release then w.releasing + {tx.p.order} else w.releasing)
  }

  function Do(c: Config, w: World, step: Step): World {
    if !Enabled(c, w, step) then w
    else
      match step
      case Tick(to) => w.(now := to)
      case TakeHold(id, seats) =>
        w.(keys := Hold(w.keys, seats, id, w.now, w.now + c.ttl + c.grace), creating := w.creating[id := Creating(seats, w.now)],
           granted := w.granted[id := w.now + c.ttl + c.grace])
      case InsertOrder(id, o, start) =>
        w.(db := Place(w.db, id, o), creating := w.creating - {id})
      case Abandon(id, released) =>
        w.(creating := w.creating - {id},
           keys := if released then Release(w.keys, w.creating[id].seats, id, w.now) else w.keys)
      case CancelOrder(user, id) => w.(db := Cancel(w.db, user, id), releasing := w.releasing + {id})
      case ExpireOrder(id) => w.(db := ExpireOne(w.db, id, w.now), expired := w.expired + {id})
      case LockExpired(id) => w.(expiring := w.expiring + {id})
      case ReleaseExpired(id) => w.(keys := Release(w.keys, SeatsOf(w, id), id, w.now))
      case UnlockExpired(id) => w.(expiring := w.expiring - {id}, expired := w.expired - {id})
      case ReleaseLater(id, released) =>
        w.(releasing := w.releasing - {id}, keys := if released then Release(w.keys, SeatsOf(w, id), id, w.now) else w.keys)
      case BeginPay(pid, p) => w.(pays := w.pays[pid := PayTx(p, w.now, Waiting)])
      case LockPay(pid) => w.(pays := w.pays[pid := w.pays[pid].(phase := Locked)])
      case Rehold(pid) => DoRehold(w, pid)
      case CommitPay(pid) => DoCommit(w, pid)
      case AbortPay(pid) => w.(pays := w.pays - {pid})
      case ConfirmOrder(id) => w.(keys := Confirm(w.keys, SeatsOf(w, id), id, w.now))
      case IssueOrder(id) => w.(db := Issue(w.db, id))
      case CompleteRefund(txn) => w.(db := Complete(w.db, txn))
  }

  function Run(c: Config, w: World, steps: seq<Step>): World {
    if steps == [] then w else Do(c, Run(c, w, steps[..|steps| - 1]), steps[|steps| - 1])
  }
}
