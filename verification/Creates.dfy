/**
 Concurrent create requests, step by step: advisory lock, look-up by idempotency key, admission claim, seat hold,
 insert, one retry, and the deferred undo. Steps of different requests interleave freely with every other
 transaction. The lock and the inventory may answer anything, so a lock that expired or was lost is covered.
 */
module Creates {
  import opened States
  import opened Saga
  import opened SagaInv

  type Jti = nat

  /** The Redis entry of a used admission token: the order it was claimed for, until the entry lapses. */
  datatype Claim = Claim(order: OrderId, until: int)

  datatype Reply =
    | Created
    | Replayed(order: OrderId)
    | KeyReused
    | InProgress
    | AlreadyUsed
    | SeatsTaken
    | ActiveOrder
    | Unavailable
    | StillConflicting

  datatype Phase =
    | Locking
    | Refused
    | Looking(round: nat)
    | Claiming(round: nat)
    | Holding(round: nat)
    | Inserting(round: nat)
    | GivingBack(reply: Reply)   // the deferred unclaim
    | Done(reply: Reply)
    | Stuck(reply: Reply)        // the unclaim failed: the buyer must queue again
    | Crashed

  /** row is the order to insert; its id, the key in World.reqs, is generated once per request. */
  datatype Request = Request(row: Order, token: Option<Jti>, claimed: bool, phase: Phase)

  /** tokens maps an admission token to its expiry. */
  datatype World = World(db: DB, used: map<Jti, Claim>, tokens: map<Jti, int>, now: int, reqs: map<OrderId, Request>)

  const START := World(EMPTY, map[], map[], 0, map[])

  datatype Answer = Yes | No | Broken
  datatype Insertion = Inserted | KeyClash | HeldClash | InsertBroken

  /** One step of one request. */
  datatype Move =
    | TryLock(lock: Answer)
    | Look(found: Option<OrderId>)
    | ClaimToken(broken: bool)
    | HoldSeats(hold: Answer)
    | Insert(expires: int, result: Insertion)
    | GiveBack(lost: bool)
    | Crash

  datatype Step =
    | Tick(to: int)
    | IssueToken(jti: Jti)
    | Begin(id: OrderId, row: Order, token: Option<Jti>)
    | Proceed(id: OrderId, move: Move)
    | Other(step: Saga.Step)

  /** exp of an admission token issued now: whole seconds, as JWT times are. */
  function Expiry(now: int, ttl: int): (exp: int)
    ensures exp % 1000 == 0 && exp <= now + ttl < exp + 1000
  {
    now + ttl - (now + ttl) % 1000
  }

  predicate IsKeyOf(db: DB, id: OrderId, row: Order) {
    id in db.orders && db.orders[id].user == row.user && db.orders[id].key == row.key
  }

  predicate LiveClaim(w: World, j: Jti) {
    j in w.used && w.now < w.used[j].until
  }

  /** Request id, in state r, can make this move. A claim happens before its token expires. */
  predicate Ready(w: World, id: OrderId, r: Request, m: Move) {
    match m
    case TryLock(_) => r.phase.Locking?
    case Look(found) =>
      && (r.phase.Refused? || r.phase.Looking?)
      && (if found.Some? then IsKeyOf(w.db, found.value, r.row) else !KeyTaken(w.db, r.row.user, r.row.key))
    case ClaimToken(_) =>
      r.phase.Claiming? && r.token.Some? && r.token.value in w.tokens && w.now < w.tokens[r.token.value]
    case HoldSeats(_) => r.phase.Holding?
    case Insert(expires, Inserted) => r.phase.Inserting? && CanPlace(w.db, id, r.row.(holdExpires := expires))
    case Insert(_, KeyClash) => r.phase.Inserting? && KeyTaken(w.db, r.row.user, r.row.key)
    case Insert(_, HeldClash) => r.phase.Inserting? && HasHeld(w.db, r.row.event, r.row.user)
    case Insert(_, InsertBroken) => r.phase.Inserting?
    case GiveBack(_) => r.phase.GivingBack?
    case Crash => !r.phase.Done?
  }

  predicate Enabled(w: World, step: Step) {
    match step
    case Tick(to) => w.now <= to
    case IssueToken(j) => j !in w.tokens
    case Begin(id, row, token) =>
      && id !in w.reqs && id !in w.db.orders
      && row.status == Held && GoodSeats(row.event, row.seats)
      && (token.Some? ==> token.value in w.tokens)
    case Proceed(id, m) => id in w.reqs && Ready(w, id, w.reqs[id], m)
    case Other(s) => !s.DoPlace?
  }

  /** Returning without an order runs the deferred unclaim first. */
  function Finish(r: Request, reply: Reply): Request {
    r.(phase := if r.claimed && reply != Created then GivingBack(reply) else Done(reply))
  }

  function Found(db: DB, r: Request, found: OrderId): Reply
    requires found in db.orders
  {
    if db.orders[found].hash == r.row.hash then Replayed(found) else KeyReused
  }

  /** The request after a look-up that found nothing: claim unless claimed or no token is needed, else hold. */
  function NotFound(r: Request): Request {
    match r.phase
    case Looking(n) => r.(phase := if r.token.Some? && !r.claimed then Claiming(n) else Holding(n))
    case _ => r.(phase := Done(InProgress))
  }

  /** The loop runs two rounds. */
  function Retry(r: Request): Request {
    match r.phase
    case Inserting(n) => if n + 1 < 2 then r.(phase := Looking(n + 1)) else Finish(r, StillConflicting)
    case _ => r
  }

  function Next(w: World, id: OrderId, r: Request, m: Move): Request
    requires Ready(w, id, r, m)
  {
    match m
    case TryLock(Yes) => r.(phase := Looking(0))
    case TryLock(No) => r.(phase := Refused)
    case TryLock(Broken) => Finish(r, Unavailable)
    case Look(found) => if found.Some? then Finish(r, Found(w.db, r, found.value)) else NotFound(r)
    case ClaimToken(broken) =>
      if broken then Finish(r, Unavailable)
      else if LiveClaim(w, r.token.value) && w.used[r.token.value].order != id then Finish(r, AlreadyUsed)
      else r.(claimed := true, phase := Holding(r.phase.round))
    case HoldSeats(Yes) => r.(phase := Inserting(r.phase.round))
    case HoldSeats(No) => Finish(r, SeatsTaken)
    case HoldSeats(Broken) => Finish(r, Unavailable)
    case Insert(_, Inserted) => Finish(r, Created)
    case Insert(_, KeyClash) => Retry(r)
    case Insert(_, HeldClash) => Finish(r, ActiveOrder)
    case Insert(_, InsertBroken) => Finish(r, Unavailable)
    case GiveBack(lost) => if lost then r.(phase := Stuck(r.phase.reply)) else r.(phase := Done(r.phase.reply), claimed := false)
    case Crash => r.(phase := Crashed)
  }

  /** claim.lua and unclaim.lua; an entry that lapsed reads as absent to both. */
  function UsedAfter(w: World, id: OrderId, r: Request, m: Move, ttl: int): map<Jti, Claim>
    requires Ready(w, id, r, m)
  {
    if m.ClaimToken? && !m.broken && !LiveClaim(w, r.token.value) then w.used[r.token.value := Claim(id, w.now + ttl)]
    else if m.GiveBack? && !m.lost && r.token.Some? && r.token.value in w.used && w.used[r.token.value].order == id
    then w.used - {r.token.value}
    else w.used
  }

  function DbAfter(w: World, id: OrderId, r: Request, m: Move): DB {
    if m.Insert? && m.result == Inserted then Place(w.db, id, r.row.(holdExpires := m.expires)) else w.db
  }

  function Do(w: World, step: Step, ttl: int): World
    requires Enabled(w, step)
  {
    match step
    case Tick(to) => w.(now := to)
    case IssueToken(j) => w.(tokens := w.tokens[j := Expiry(w.now, ttl)])
    case Begin(id, row, token) => w.(reqs := w.reqs[id := Request(row, token, false, Locking)])
    case Proceed(id, m) =>
      var r := w.reqs[id];
      w.(db := DbAfter(w, id, r, m), used := UsedAfter(w, id, r, m, ttl), reqs := w.reqs[id := Next(w, id, r, m)])
    case Other(s) => w.(db := Apply(w.db, s))
  }

  // ---- what a request may rely on ---------------------------------------------------

  predicate Matches(o: Order, row: Order) {
    o.event == row.event && o.user == row.user && o.key == row.key && o.hash == row.hash && o.seats == row.seats
  }

  /** Orders stay, and what identifies them stays with them. */
  ghost predicate Grows(db: DB, d: DB) {
    forall id :: id in db.orders ==> id in d.orders && Matches(d.orders[id], db.orders[id])
  }

  predicate IsReply(p: Phase, reply: Reply) {
    p == GivingBack(reply) || p == Done(reply) || p == Stuck(reply)
  }

  /** A success reply names an order of this user, key and request body. */
  ghost predicate Answers(db: DB, r: Request) {
    forall o :: IsReply(r.phase, Replayed(o)) ==>
      IsKeyOf(db, o, r.row) && db.orders[o].hash == r.row.hash
  }

  /** The second round is entered only once the key is taken, so it always finds it. */
  predicate RoundOk(db: DB, r: Request) {
    match r.phase
    case Looking(n) => n == 0 || (n == 1 && KeyTaken(db, r.row.user, r.row.key))
    case Claiming(n) => n == 0 && r.token.Some? && !r.claimed
    case Holding(n) => n == 0
    case Inserting(n) => n == 0
    case GivingBack(reply) => reply != StillConflicting && reply != Created
    case Done(reply) => reply != StillConflicting
    case Stuck(reply) => reply != StillConflicting && reply != Created
    case _ => true
  }

  /** Who carries a claim: nobody before claiming, whoever holds seats or creates, nobody who returned empty-handed. */
  predicate ClaimOk(r: Request) {
    && (r.claimed ==> r.token.Some?)
    && (r.phase.Locking? || r.phase.Refused? ==> !r.claimed)
    && ((r.phase.Holding? || r.phase.Inserting? || r.phase == Done(Created)) && r.token.Some? ==> r.claimed)
    && (r.phase.Done? && r.phase.reply != Created ==> !r.claimed)
    && (r.phase.GivingBack? || r.phase.Stuck? ==> r.claimed)
  }

  /** A claim is recorded for its own order and outlives its token. */
  predicate Recorded(w: World, id: OrderId, r: Request) {
    r.claimed && r.token.Some? ==>
      var j := r.token.value;
      j in w.tokens && j in w.used && w.used[j].order == id && w.tokens[j] <= w.used[j].until
  }

  ghost predicate RequestOk(w: World, id: OrderId, r: Request) {
    && r.row.status == Held && GoodSeats(r.row.event, r.row.seats)
    && (r.token.Some? ==> r.token.value in w.tokens)
    && Answers(w.db, r) && RoundOk(w.db, r) && ClaimOk(r) && Recorded(w, id, r)
    && (id in w.db.orders <==> r.phase == Done(Created))
    && (id in w.db.orders ==> Matches(w.db.orders[id], r.row))
  }

  ghost predicate RequestsOk(w: World) {
    forall id :: id in w.reqs ==> RequestOk(w, id, w.reqs[id])
  }

  /** Every claim on record belongs to a request that carries it. */
  ghost predicate LedgerOk(w: World) {
    forall j :: j in w.used ==>
      && j in w.tokens && w.used[j].order in w.reqs
      && w.reqs[w.used[j].order].claimed && w.reqs[w.used[j].order].token == Some(j)
  }

  ghost predicate Good(w: World, ttl: int) {
    && Inv(w.db)
    && w.db.orders.Keys <= w.reqs.Keys
    && RequestsOk(w)
    && LedgerOk(w)
    && (forall j :: j in w.tokens ==> w.tokens[j] <= w.now + ttl)
  }
}
