/**
 Outbox to consumers: committed rows are relayed to Kafka at least once, and two consumer groups turn the records
 into tickets and refunds. Crashes can come between any two steps; batches are redelivered, even concurrently.
 */
module Pipeline {
  import opened States
  import opened Saga

  const RELAY_BATCH := 500

  datatype Topic = OrdersTopic | TicketsTopic

  /** A partition; records with the same key on the same topic share one. */
  datatype Part = Part(topic: Topic, n: nat)
  datatype Config = Config(part: OrderId -> nat)

  function TopicOf(e: Event): Topic {
    if e.TicketIssued? then TicketsTopic else OrdersTopic
  }

  function PartOf(c: Config, e: Event): Part {
    Part(TopicOf(e), c.part(e.order))
  }

  /** What the outbox table adds to event i: its id, and whether the relay is done with it. */
  datatype Row = Row(id: nat, published: bool, deleted: bool)

  /** The relay holds a batch of rows, in id order, and has sent the records at some positions of it. */
  datatype Relay = Idle | Sending(batch: seq<nat>, sent: set<nat>)

  datatype Group = TicketGroup | RefundGroup
  datatype GroupPart = GroupPart(group: Group, part: Part)
  datatype Slot = Slot(part: Part, off: nat)

  /** A consumer at work on one polled batch; ends are the offsets it commits afterwards. */
  datatype Member = Member(group: Group, batch: seq<Slot>, ends: map<Part, nat>, pos: nat, asked: bool)

  datatype Pipe = Pipe(
    db: DB,
    rows: seq<Row>,                    // rows[i] belongs to db.outbox[i]
    relay: Relay,
    log: map<Part, seq<nat>>,          // Kafka: the outbox rows behind the records of each partition
    offsets: map<GroupPart, nat>,      // committed by each group
    members: map<nat, Member>,
    gateway: map<Txn, int>)            // refunds the gateway has made

  const START := Pipe(EMPTY, [], Idle, map[], map[], map[], map[])

  function LogOf(s: Pipe, p: Part): seq<nat> {
    if p in s.log then s.log[p] else []
  }

  function Committed(s: Pipe, g: Group, p: Part): nat {
    if GroupPart(g, p) in s.offsets then s.offsets[GroupPart(g, p)] else 0
  }

  // ---- transactions --------------------------------------------------------

  predicate Fresh(s: Pipe, d: DB, ids: seq<nat>) {
    && |s.rows| == |s.db.outbox| <= |d.outbox|
    && |ids| == |d.outbox| - |s.db.outbox|
    && (forall i, k :: 0 <= i < |s.rows| && 0 <= k < |ids| ==> s.rows[i].id != ids[k])
    && (forall j, k :: 0 <= j < k < |ids| ==> ids[j] != ids[k])
  }

  /**
   Ids come from a sequence before the commit, so rows of different orders may commit in any id order; rows of one
   order are written under its row lock, so theirs grow.
   */
  predicate GoodIds(s: Pipe, d: DB, ids: seq<nat>) {
    && Fresh(s, d, ids)
    && (forall i, k :: 0 <= i < |s.rows| && 0 <= k < |ids| && s.db.outbox[i].order == d.outbox[|s.rows| + k].order
          ==> s.rows[i].id < ids[k])
    && (forall j, k :: 0 <= j < k < |ids| && d.outbox[|s.rows| + j].order == d.outbox[|s.rows| + k].order ==> ids[j] < ids[k])
  }

  function NewRows(ids: seq<nat>): (r: seq<Row>)
    ensures |r| == |ids| && forall k :: 0 <= k < |ids| ==> r[k] == Row(ids[k], false, false)
  {
    seq(|ids|, k requires 0 <= k < |ids| => Row(ids[k], false, false))
  }

  function WithDb(s: Pipe, d: DB, ids: seq<nat>): Pipe {
    s.(db := d, rows := s.rows + NewRows(ids))
  }

  // ---- relay -----------------------------------------------------------------

  /** LockUnpublished: the oldest unpublished rows by id, at most one batch of them. */
  predicate OldestBatch(s: Pipe, batch: seq<nat>) {
    && |batch| <= RELAY_BATCH
    && (forall b :: 0 <= b < |batch| ==> batch[b] < |s.rows| && !s.rows[batch[b]].published)
    && (forall a, b :: 0 <= a < b < |batch| ==> s.rows[batch[a]].id < s.rows[batch[b]].id)
    && (forall b, i :: 0 <= b < |batch| && 0 <= i < |s.rows| && !s.rows[i].published && s.rows[i].id < s.rows[batch[b]].id
          ==> i in batch)
    && (|batch| < RELAY_BATCH ==> forall i :: 0 <= i < |s.rows| && !s.rows[i].published ==> i in batch)
  }

  /** Within a partition records are produced in order, so only the next unsent one can go. */
  predicate CanSend(c: Config, s: Pipe, b: nat) {
    && s.relay.Sending? && b < |s.relay.batch| && b !in s.relay.sent
    && s.relay.batch[b] < |s.db.outbox|
    && (forall a | 0 <= a < b && s.relay.batch[a] < |s.db.outbox| ::
          PartOf(c, s.db.outbox[s.relay.batch[a]]) == PartOf(c, s.db.outbox[s.relay.batch[b]]) ==> a in s.relay.sent)
  }

  function Send(c: Config, s: Pipe, b: nat): Pipe
    requires CanSend(c, s, b)
  {
    var p := PartOf(c, s.db.outbox[s.relay.batch[b]]);
    s.(log := s.log[p := LogOf(s, p) + [s.relay.batch[b]]], relay := s.relay.(sent := s.relay.sent + {b}))
  }

  predicate AllSent(r: Relay) {
    r.Sending? && forall b :: 0 <= b < |r.batch| ==> b in r.sent
  }

  function MarkRows(rows: seq<Row>, batch: seq<nat>): (r: seq<Row>)
    ensures |r| == |rows|
    ensures forall i :: 0 <= i < |rows| ==> r[i] == if i in batch then rows[i].(published := true) else rows[i]
  {
    seq(|rows|, i requires 0 <= i < |rows| => if i in batch then rows[i].(published := true) else rows[i])
  }

  // ---- consumers -------------------------------------------------------------

  predicate InLog(s: Pipe, slot: Slot) {
    slot.off < |LogOf(s, slot.part)|
  }

  /** The event behind a record. */
  function EventAt(s: Pipe, slot: Slot): Option<Event> {
    if InLog(s, slot) && LogOf(s, slot.part)[slot.off] < |s.db.outbox|
    then Some(s.db.outbox[LogOf(s, slot.part)[slot.off]]) else None
  }

  /** Both groups subscribe to the orders topic and to no other. */
  predicate Subscribed(batch: seq<Slot>, ends: map<Part, nat>) {
    (forall b :: 0 <= b < |batch| ==> batch[b].part.topic == OrdersTopic) && (forall p :: p in ends ==> p.topic == OrdersTopic)
  }

  /** A poll returns, per partition, the records after the committed offset, up to what was fetched. */
  predicate GoodPoll(s: Pipe, g: Group, batch: seq<Slot>, ends: map<Part, nat>) {
    && Subscribed(batch, ends)
    && (forall b :: 0 <= b < |batch| ==> InLog(s, batch[b]))
    && (forall p :: p in ends ==> ends[p] <= |LogOf(s, p)|)
    && (forall p, k :: p in ends && Committed(s, g, p) <= k < ends[p] ==> Slot(p, k) in batch)
  }

  /** Where the member's own client stands: behind its last batch, whether or not that was committed. */
  function Position(s: Pipe, m: Member, p: Part): nat {
    if p in m.ends then m.ends[p] else Committed(s, m.group, p)
  }

  /** A client that has worked off its batch polls on from its own position, even if committing the batch failed. */
  predicate GoodNext(s: Pipe, m: Member, batch: seq<Slot>, ends: map<Part, nat>) {
    && Subscribed(batch, ends)
    && (forall b :: 0 <= b < |batch| ==> InLog(s, batch[b]))
    && (forall p :: p in ends ==> ends[p] <= |LogOf(s, p)|)
    && (forall p, k :: p in ends && Position(s, m, p) <= k < ends[p] ==> Slot(p, k) in batch)
  }

  /** The record the member is working on. */
  function Current(s: Pipe, m: Member): Option<Event> {
    if m.pos < |m.batch| then EventAt(s, m.batch[m.pos]) else None
  }

  /** The refund a refunder record asks for and that is still to be made. */
  predicate NeedsRefund(s: Pipe, m: Member) {
    var e := Current(s, m);
    && m.group == RefundGroup && e.Some? && e.value.RefundRequested?
    && e.value.txn in s.db.refunds && s.db.refunds[e.value.txn].status == Pending
  }

  /** handleRefund refuses what names no transaction or no money. */
  predicate GatewayAccepts(s: Pipe, txn: Txn) {
    txn in s.db.refunds && txn != "" && s.db.refunds[txn].amount > 0
  }

  function AskGateway(s: Pipe, mid: nat): Pipe
    requires mid in s.members && NeedsRefund(s, s.members[mid])
  {
    var m := s.members[mid];
    var t := Current(s, m).value.txn;
    if GatewayAccepts(s, t) then
      s.(gateway := if t in s.gateway then s.gateway else s.gateway[t := s.db.refunds[t].amount],
         members := s.members[mid := m.(asked := true)])
    else s
  }

  /** The table change of the handler: tickets for order.paid, the completed refund for order.refund_requested. */
  function Effect(s: Pipe, m: Member): DB {
    var e := Current(s, m);
    if e.None? then s.db
    else if m.group == TicketGroup && e.value.OrderPaid? then Issue(s.db, e.value.order)
    else if m.group == RefundGroup && e.value.RefundRequested? then Complete(s.db, e.value.txn)
    else s.db
  }

  /** The two branches that skip a record for good: an unknown order, or a refund that does not exist. */
  predicate PermanentSkip(s: Pipe, m: Member) {
    var e := Current(s, m);
    && e.Some?
    && ((m.group == TicketGroup && e.value.OrderPaid? && e.value.order !in s.db.orders)
        || (m.group == RefundGroup && e.value.RefundRequested? && (e.value.txn == "" || e.value.txn !in s.db.refunds)))
  }

  function Next(m: Member): Member {
    m.(pos := m.pos + 1, asked := false)
  }

  function CommitEnds(s: Pipe, m: Member): map<GroupPart, nat> {
    map k | k in s.offsets.Keys + (set p | p in m.ends :: GroupPart(m.group, p)) ::
      if k.group == m.group && k.part in m.ends then m.ends[k.part] else Committed(s, k.group, k.part)
  }

  // ---- steps -----------------------------------------------------------------

  datatype Step =
    | Transact(step: Saga.Step, ids: seq<nat>)
    | LockBatch(oldest: seq<nat>)
    | SendRecord(b: nat)
    | MarkPublished
    | RelayCrash
    | Cleanup(i: nat)
    | Poll(mid: nat, group: Group, batch: seq<Slot>, ends: map<Part, nat>)
    | PollOn(mid: nat, batch: seq<Slot>, ends: map<Part, nat>)
    | CallGateway(mid: nat)
    | Handle(mid: nat, ids: seq<nat>)
    | CommitOffsets(mid: nat)
    | Evict(mid: nat)

  predicate Enabled(c: Config, s: Pipe, step: Step) {
    match step
    case Transact(t, ids) => !t.DoIssue? && !t.DoComplete? && GoodIds(s, Apply(s.db, t), ids)
    case LockBatch(batch) => s.relay == Idle && batch != [] && OldestBatch(s, batch)
    case SendRecord(b) => CanSend(c, s, b)
    case MarkPublished => AllSent(s.relay)
    case RelayCrash => true
    case Cleanup(i) => i < |s.rows| && s.rows[i].published
    case Poll(mid, g, batch, ends) => mid !in s.members && GoodPoll(s, g, batch, ends)
    case PollOn(mid, batch, ends) =>
      mid in s.members && s.members[mid].pos == |s.members[mid].batch| && GoodNext(s, s.members[mid], batch, ends)
    case CallGateway(mid) => mid in s.members && NeedsRefund(s, s.members[mid])
    case Handle(mid, ids) =>
      && mid in s.members && s.members[mid].pos < |s.members[mid].batch|
      && (NeedsRefund(s, s.members[mid]) ==> s.members[mid].asked)
      && GoodIds(s, Effect(s, s.members[mid]), ids)
    case CommitOffsets(mid) => mid in s.members && s.members[mid].pos == |s.members[mid].batch|
    case Evict(mid) => mid in s.members
  }

  function Do(c: Config, s: Pipe, step: Step): Pipe {
    if !Enabled(c, s, step) then s
    else
      match step
      case Transact(t, ids) => WithDb(s, Apply(s.db, t), ids)
      case LockBatch(batch) => s.(relay := Sending(batch, {}))
      case SendRecord(b) => Send(c, s, b)
      case MarkPublished => s.(rows := MarkRows(s.rows, s.relay.batch), relay := Idle)
      case RelayCrash => s.(relay := Idle)
      case Cleanup(i) => s.(rows := s.rows[i := s.rows[i].(deleted := true)])
      case Poll(mid, g, batch, ends) => s.(members := s.members[mid := Member(g, batch, ends, 0, false)])
      case PollOn(mid, batch, ends) => s.(members := s.members[mid := Member(s.members[mid].group, batch, ends, 0, false)])
      case CallGateway(mid) => AskGateway(s, mid)
      case Handle(mid, ids) =>
        WithDb(s, Effect(s, s.members[mid]), ids).(members := s.members[mid := Next(s.members[mid])])
      case CommitOffsets(mid) => s.(offsets := CommitEnds(s, s.members[mid]))
      case Evict(mid) => s.(members := s.members - {mid})
  }

  function Run(c: Config, steps: seq<Step>): Pipe {
    if steps == [] then START else Do(c, Run(c, steps[..|steps| - 1]), steps[|steps| - 1])
  }
}
