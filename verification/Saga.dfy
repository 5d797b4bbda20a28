/** The tables of the order saga and its transactions, each one atomic step under the order row lock. */
module Saga {
  import opened States

  type OrderId = nat
  type Txn = string
  datatype Seat = Seat(event: int, id: string)
  datatype Option<+T> = None | Some(value: T)

  datatype Order = Order(event: int, user: int, status: Status, total: int, key: string, hash: string,
                         holdExpires: int, seats: seq<Seat>)

  datatype Ticket = Ticket(order: OrderId, seat: Seat, issued: bool)

  /** Undecided is the empty outcome a payment row carries inside its own transaction. */
  datatype Outcome = Undecided | Applied | RefundRequired | IgnoredFailed
  datatype Payment = Payment(order: OrderId, amount: int, succeeded: bool, outcome: Outcome)

  datatype Reason = AmountMismatch | LatePaymentSeatTaken | PaidAfterCancel | DoublePayment | SeatConflict
  datatype RefundStatus = Pending | Succeeded
  datatype Refund = Refund(order: OrderId, amount: int, reason: Reason, status: RefundStatus)

  /** An outbox row; the constructor is its event type. */
  datatype Event =
    | OrderHeld(order: OrderId)
    | OrderPaid(order: OrderId)
    | OrderExpired(order: OrderId)
    | OrderCancelled(order: OrderId)
    | RefundRequested(order: OrderId, txn: Txn, amount: int, reason: Reason)
    | OrderRefunded(order: OrderId, txn: Txn, amount: int, reason: Reason)
    | TicketIssued(order: OrderId)

  /** The database: tables keyed by primary key, tickets and outbox rows in insertion order. */
  datatype DB = DB(orders: map<OrderId, Order>, payments: map<Txn, Payment>, refunds: map<Txn, Refund>,
                   tickets: seq<Ticket>, outbox: seq<Event>)

  const EMPTY := DB(map[], map[], map[], [], [])

  /** What the inventory answered to the hold a late payment asks for. */
  datatype HoldReply = HoldFailed | HoldTaken | HoldGranted

  datatype Webhook = Webhook(txn: Txn, order: OrderId, amount: int, succeeded: bool)

  datatype Result =
    | Recorded(outcome: Outcome)
    | Duplicate
    | UnknownOrder
    | Failed

  /** The effect of one webhook: the new tables, the answer, and the inventory work left for after the commit. */
  datatype Paying = Paying(db: DB, result: Result, confirm: bool, release: bool)

  // ---- create ------------------------------------------------------------

  predicate Distinct<T(==)>(s: seq<T>) {
    forall i, j :: 0 <= i < j < |s| ==> s[i] != s[j]
  }

  predicate KeyTaken(db: DB, user: int, key: string) {
    exists id :: id in db.orders && db.orders[id].user == user && db.orders[id].key == key
  }

  predicate HasHeld(db: DB, event: int, user: int) {
    exists id :: id in db.orders && db.orders[id].event == event && db.orders[id].user == user
                 && db.orders[id].status == Held
  }

  /** What normalize lets through: some seats, all of the event, none twice. */
  predicate GoodSeats(event: int, seats: seq<Seat>) {
    seats != [] && Distinct(seats) && forall s :: s in seats ==> s.event == event
  }

  predicate CanPlace(db: DB, id: OrderId, o: Order) {
    && id !in db.orders
    && o.status == Held
    && GoodSeats(o.event, o.seats)
    && !KeyTaken(db, o.user, o.key)
    && !HasHeld(db, o.event, o.user)
  }

  /** insertHeld: the order row, its seats and order.held commit together, or a constraint stops them all. */
  function Place(db: DB, id: OrderId, o: Order): DB {
    if CanPlace(db, id, o) then db.(orders := db.orders[id := o], outbox := db.outbox + [OrderHeld(id)]) else db
  }

  // ---- status changes ----------------------------------------------------

  function Move(db: DB, id: OrderId, to: Status): DB
    requires id in db.orders
  {
    db.(orders := db.orders[id := db.orders[id].(status := to)])
  }

  function Emit(db: DB, e: Event): DB {
    db.(outbox := db.outbox + [e])
  }

  predicate CanCancel(db: DB, user: int, id: OrderId) {
    id in db.orders && db.orders[id].user == user && db.orders[id].status == Held
  }

  function Cancel(db: DB, user: int, id: OrderId): DB {
    if CanCancel(db, user, id) then Emit(Move(db, id, Cancelled), OrderCancelled(id)) else db
  }

  predicate Due(db: DB, id: OrderId, now: int) {
    id in db.orders && db.orders[id].status == Held && db.orders[id].holdExpires < now
  }

  function ExpireOne(db: DB, id: OrderId, now: int): DB {
    if Due(db, id, now) then Emit(Move(db, id, Expired), OrderExpired(id)) else db
  }

  /** One expiry batch: every due order of the batch moves, and writes its event, in the same transaction. */
  function Expire(db: DB, due: seq<OrderId>, now: int): DB {
    if due == [] then db else ExpireOne(Expire(db, due[..|due| - 1], now), due[|due| - 1], now)
  }

  // ---- payment webhook ---------------------------------------------------

  predicate ValidWebhook(p: Webhook) {
    0 < |p.txn| <= 128 && p.amount >= 0 && (p.succeeded ==> p.amount > 0)
  }

  predicate HoldActive(o: Order, now: int) {
    now <= o.holdExpires
  }

  /** UNIQUE (event_id, seat_id) on tickets lets all these seats in. */
  predicate SeatsUnsold(db: DB, seats: seq<Seat>) {
    forall i, j :: 0 <= i < |db.tickets| && 0 <= j < |seats| ==> db.tickets[i].seat != seats[j]
  }

  function NewTickets(id: OrderId, seats: seq<Seat>): (r: seq<Ticket>)
    ensures |r| == |seats|
    ensures forall i :: 0 <= i < |r| ==> r[i] == Ticket(id, seats[i], false)
  {
    seq(|seats|, i requires 0 <= i < |seats| => Ticket(id, seats[i], false))
  }

  datatype Decision =
    | Ignore
    | Sell
    | GiveBack(reason: Reason, to: Option<Status>, release: bool)
    | Abort

  /** True when the webhook has to re-hold the seats before anything can be decided. */
  predicate NeedsHold(o: Order, p: Webhook, now: int) {
    && p.succeeded
    && p.amount == o.total
    && ((o.status == Held && !HoldActive(o, now)) || o.status == Expired)
  }

  /** What the money of p buys, given the order it names. */
  function Decide(db: DB, o: Order, p: Webhook, now: int, reply: HoldReply): Decision {
    if !p.succeeded then Ignore
    else if o.status in {Paid, Ticketed, Refunding, Refunded} then GiveBack(DoublePayment, None, false)
    else if p.amount != o.total then GiveBack(AmountMismatch, Some(Refunding), o.status == Held)
    else if o.status == Cancelled then GiveBack(PaidAfterCancel, Some(Refunding), false)
    else if NeedsHold(o, p, now) && reply == HoldFailed then Abort
    else if NeedsHold(o, p, now) && reply == HoldTaken then GiveBack(LatePaymentSeatTaken, Some(Refunding), false)
    else if SeatsUnsold(db, o.seats) then Sell
    else GiveBack(SeatConflict, Some(Refunding), true)
  }

  function RecordPayment(db: DB, p: Webhook, outcome: Outcome): DB {
    db.(payments := db.payments[p.txn := Payment(p.order, p.amount, p.succeeded, outcome)])
  }

  /** The rows a sale writes besides the payment: tickets, status and event. */
  function SaleRows(db: DB, p: Webhook): DB
    requires p.order in db.orders
  {
    Emit(Move(db.(tickets := db.tickets + NewTickets(p.order, db.orders[p.order].seats)), p.order, Paid), OrderPaid(p.order))
  }

  function SellSeats(db: DB, p: Webhook): DB
    requires p.order in db.orders
  {
    RecordPayment(SaleRows(db, p), p, Applied)
  }

  /** The rows a refund writes besides the payment: perhaps the status, the refund and its request. */
  function RefundRows(db: DB, p: Webhook, reason: Reason, to: Option<Status>): DB
    requires p.order in db.orders
  {
    var m := if to.Some? then Move(db, p.order, to.value) else db;
    Emit(m.(refunds := m.refunds[p.txn := Refund(p.order, p.amount, reason, Pending)]),
         RefundRequested(p.order, p.txn, p.amount, reason))
  }

  function GiveMoneyBack(db: DB, p: Webhook, reason: Reason, to: Option<Status>): DB
    requires p.order in db.orders
  {
    RecordPayment(RefundRows(db, p, reason, to), p, RefundRequired)
  }

  /** ApplyPayment behind the handler's validation: one transaction with the order row locked. */
  function Pay(db: DB, p: Webhook, now: int, reply: HoldReply): Paying {
    if !ValidWebhook(p) then Paying(db, Failed, false, false)
    else if p.order !in db.orders then Paying(db, UnknownOrder, false, false)
    else if p.txn in db.payments then Paying(db, Duplicate, Sold(db.orders[p.order].status), false)
    else
      match Decide(db, db.orders[p.order], p, now, reply)
      case Ignore => Paying(RecordPayment(db, p, IgnoredFailed), Recorded(IgnoredFailed), false, false)
      case Sell => Paying(SellSeats(db, p), Recorded(Applied), true, false)
      case GiveBack(reason, to, release) =>
        Paying(GiveMoneyBack(db, p, reason, to), Recorded(RefundRequired), false, release)
      case Abort => Paying(db, Failed, false, false)
  }

  // ---- consumers ---------------------------------------------------------

  function IssuedTickets(tickets: seq<Ticket>, id: OrderId): (r: seq<Ticket>)
    ensures |r| == |tickets|
    ensures forall i :: 0 <= i < |r| ==> r[i].order == tickets[i].order && r[i].seat == tickets[i].seat
    ensures forall i :: 0 <= i < |r| ==> r[i].issued == (tickets[i].issued || tickets[i].order == id)
  {
    seq(|tickets|, i requires 0 <= i < |tickets| =>
      if tickets[i].order == id then tickets[i].(issued := true) else tickets[i])
  }

  /** TicketIssuer.Issue: fill every QR payload and move PAID to TICKETED, once. */
  function Issue(db: DB, id: OrderId): DB {
    if id in db.orders && db.orders[id].status == Paid && (exists i :: 0 <= i < |db.tickets| && db.tickets[i].order == id)
    then Emit(Move(db.(tickets := IssuedTickets(db.tickets, id)), id, Ticketed), TicketIssued(id))
    else db
  }

  /** The transaction of RefundProcessor.Process: PENDING to SUCCEEDED once, and the order with it. */
  function Complete(db: DB, txn: Txn): DB {
    if txn in db.refunds && db.refunds[txn].status == Pending && db.refunds[txn].order in db.orders then
      var r := db.refunds[txn];
      var d := db.(refunds := db.refunds[txn := r.(status := Succeeded)]);
      var m := if r.reason != DoublePayment && d.orders[r.order].status == Refunding then Move(d, r.order, Refunded) else d;
      Emit(m, OrderRefunded(r.order, txn, r.amount, r.reason))
    else db
  }

  // ---- runs --------------------------------------------------------------

  /** One transaction of the system, in any order and with any inventory answer. */
  datatype Step =
    | DoPlace(id: OrderId, order: Order)
    | DoCancel(user: int, id: OrderId)
    | DoExpire(due: seq<OrderId>, now: int)
    | DoPay(p: Webhook, at: int, reply: HoldReply)
    | DoIssue(id: OrderId)
    | DoComplete(txn: Txn)

  function Apply(db: DB, step: Step): DB {
    match step
    case DoPlace(id, o) => Place(db, id, o)
    case DoCancel(user, id) => Cancel(db, user, id)
    case DoExpire(due, now) => Expire(db, due, now)
    case DoPay(p, at, reply) => Pay(db, p, at, reply).db
    case DoIssue(id) => Issue(db, id)
    case DoComplete(txn) => Complete(db, txn)
  }

  function Run(db: DB, steps: seq<Step>): DB {
    if steps == [] then db else Apply(Run(db, steps[..|steps| - 1]), steps[|steps| - 1])
  }
}
