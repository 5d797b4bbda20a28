/** From every reachable state, whatever crashed before, the relay and the consumers can drain the pipeline. */
module PipelineDrain {
  import opened States
  import opened Saga
  import opened Sums
  import opened SagaInv
  import opened Pipeline
  import opened PipelineInv
  import opened PipelineSteps
  import opened PipelineTheorems
  import Workers

  lemma Grow(c: Config, steps: seq<Pipeline.Step>, step: Pipeline.Step) returns (more: seq<Pipeline.Step>)
    ensures steps <= more && Pipeline.Run(c, more) == Do(c, Pipeline.Run(c, steps), step)
  {
    more := steps + [step];
    assert more[..|steps|] == steps;
  }

  // ---- the relay empties the outbox -----------------------------------------------------

  ghost function Waiting(s: Pipe): set<nat> {
    set i: nat | i < |s.rows| && !s.rows[i].published
  }

  lemma {:induction false} SmallestId(s: Pipe, from: set<nat>) returns (i: nat)
    requires from != {} && forall k :: k in from ==> k < |s.rows|
    ensures i in from && forall k :: k in from ==> s.rows[i].id <= s.rows[k].id
    decreases |from|
  {
    i :| i in from;
    var rest := from - {i};
    assert from == rest + {i};
    if rest == {} {
    } else {
      var j := SmallestId(s, rest);
      if s.rows[j].id < s.rows[i].id {
        i := j;
      }
    }
  }

  /** The rows of batch are waiting, in id order, and nothing older waits outside. */
  ghost predicate Oldest(s: Pipe, batch: seq<nat>) {
    && (forall b :: 0 <= b < |batch| ==> batch[b] in Waiting(s))
    && (forall a, b :: 0 <= a < b < |batch| ==> s.rows[batch[a]].id < s.rows[batch[b]].id)
    && (forall b, i :: 0 <= b < |batch| && i in Waiting(s) && s.rows[i].id < s.rows[batch[b]].id ==> i in batch)
  }

  lemma AppendOldest(s: Pipe, batch: seq<nat>, i: nat)
    requires RowsOk(s) && Oldest(s, batch) && i in Waiting(s) && i !in batch
    requires forall k :: k in Waiting(s) && k !in batch ==> s.rows[i].id <= s.rows[k].id
    ensures Oldest(s, batch + [i])
  {
    forall b | 0 <= b < |batch| ensures s.rows[batch[b]].id < s.rows[i].id {
      assert batch[b] in Waiting(s) && batch[b] != i;
    }
  }

  lemma {:induction false} Collect(s: Pipe, n: nat) returns (batch: seq<nat>)
    requires RowsOk(s)
    ensures Oldest(s, batch) && |batch| <= n && (|batch| < n ==> forall i :: i in Waiting(s) ==> i in batch)
  {
    if n == 0 {
      batch := [];
    } else {
      batch := Collect(s, n - 1);
      var left := set i | i in Waiting(s) && i !in batch;
      if left != {} {
        var i := SmallestId(s, left);
        AppendOldest(s, batch, i);
        batch := batch + [i];
      } else {
        forall i | i in Waiting(s) ensures i in batch {
          assert i !in left;
        }
      }
    }
  }

  lemma BatchExists(s: Pipe) returns (batch: seq<nat>)
    requires RowsOk(s)
    ensures OldestBatch(s, batch)
    ensures Waiting(s) != {} ==> batch != []
  {
    batch := Collect(s, RELAY_BATCH);
    assert forall i: nat :: i < |s.rows| && !s.rows[i].published ==> i in Waiting(s);
  }

  /** Only the log and the relay may differ. */
  ghost predicate SameButLog(s: Pipe, u: Pipe) {
    u == s.(log := u.log, relay := u.relay)
  }

  function Upto(n: nat): (r: set<nat>)
    ensures forall b :: b in r <==> 0 <= b < n
  {
    if n == 0 then {} else Upto(n - 1) + {n - 1}
  }

  lemma {:induction false} SendAll(c: Config, steps: seq<Pipeline.Step>, batch: seq<nat>, n: nat) returns (more: seq<Pipeline.Step>)
    requires n <= |batch| && Pipeline.Run(c, steps).relay == Sending(batch, {})
    requires forall b :: 0 <= b < |batch| ==> batch[b] < |Pipeline.Run(c, steps).db.outbox|
    ensures steps <= more && SameButLog(Pipeline.Run(c, steps), Pipeline.Run(c, more))
    ensures Pipeline.Run(c, more).relay == Sending(batch, Upto(n))
  {
    hide Pipeline.Run;
    if n == 0 {
      more := steps;
    } else {
      more := SendAll(c, steps, batch, n - 1);
      var s := Pipeline.Run(c, more);
      assert CanSend(c, s, n - 1);
      more := Grow(c, more, SendRecord(n - 1));
    }
  }

  lemma MarkShrinks(s: Pipe, batch: seq<nat>)
    requires Oldest(s, batch) && batch != []
    ensures |Waiting(s.(rows := MarkRows(s.rows, batch)))| < |Waiting(s)|
  {
    var u := s.(rows := MarkRows(s.rows, batch));
    assert Waiting(u) <= Waiting(s) - {batch[0]};
    SubsetIsSmaller(Waiting(u), Waiting(s) - {batch[0]});
    assert batch[0] in Waiting(s);
  }

  lemma BatchIsOldest(s: Pipe, batch: seq<nat>)
    requires OldestBatch(s, batch)
    ensures Oldest(s, batch)
  {
  }

  /** What a full run of the relay leaves. */
  ghost predicate AllOut(s: Pipe, u: Pipe) {
    && u == s.(log := u.log, rows := u.rows, relay := Idle)
    && |u.rows| == |s.rows|
    && Waiting(u) == {}
  }

  lemma RowsFact(c: Config, steps: seq<Pipeline.Step>)
    ensures RowsOk(Pipeline.Run(c, steps))
  {
    hide Pipeline.Run, Inv, OffsetsOk, MembersOk, GatewayOk, LogOk, PublishedIsSent, InOrder, RelayOk, RowsOk;
    PipelineSteps.RunKeeps(c, steps);
  }

  /** One batch goes out and is marked. */
  lemma PublishBatch(c: Config, steps: seq<Pipeline.Step>) returns (more: seq<Pipeline.Step>)
    requires Pipeline.Run(c, steps).relay == Idle && Waiting(Pipeline.Run(c, steps)) != {}
    ensures steps <= more
    ensures var s, u := Pipeline.Run(c, steps), Pipeline.Run(c, more);
      && u == s.(log := u.log, rows := u.rows, relay := Idle) && |u.rows| == |s.rows| && |Waiting(u)| < |Waiting(s)|
  {
    hide Pipeline.Run, Waiting, RowsOk, OldestBatch;
    var s := Pipeline.Run(c, steps);
    RowsFact(c, steps);
    var batch := BatchExists(s);
    BatchIsOldest(s, batch);
    MarkShrinks(s, batch);
    Workers.BatchInOutbox(c, s, steps, batch);
    var locked := Grow(c, steps, LockBatch(batch));
    var sent := SendAll(c, locked, batch, |batch|);
    more := Grow(c, sent, MarkPublished);
    assert AllSent(Pipeline.Run(c, sent).relay);
    SameWaiting(Pipeline.Run(c, more), s.(rows := MarkRows(s.rows, batch)));
  }

  lemma SameWaiting(s: Pipe, u: Pipe)
    requires u.rows == s.rows
    ensures Waiting(u) == Waiting(s)
  {
  }

  lemma {:induction false} PublishIdle(c: Config, steps: seq<Pipeline.Step>) returns (more: seq<Pipeline.Step>)
    requires Pipeline.Run(c, steps).relay == Idle
    ensures steps <= more && AllOut(Pipeline.Run(c, steps), Pipeline.Run(c, more))
    decreases |Waiting(Pipeline.Run(c, steps))|
  {
    hide Pipeline.Run, Waiting;
    more := steps;
    if Waiting(Pipeline.Run(c, steps)) != {} {
      more := PublishBatch(c, steps);
      more := PublishIdle(c, more);
    }
  }

  lemma PublishAll(c: Config, steps: seq<Pipeline.Step>) returns (more: seq<Pipeline.Step>)
    ensures steps <= more && AllOut(Pipeline.Run(c, steps), Pipeline.Run(c, more))
  {
    hide Pipeline.Run, Waiting;
    var idle := Grow(c, steps, RelayCrash);
    SameWaiting(Pipeline.Run(c, steps), Pipeline.Run(c, idle));
    more := PublishIdle(c, idle);
  }

  // ---- a group catches up ------------------------------------------------------------------

  lemma {:induction false} Listed(slots: set<Slot>) returns (list: seq<Slot>)
    ensures forall x :: x in list <==> x in slots
  {
    if slots == {} {
      list := [];
    } else {
      var x :| x in slots;
      var rest := Listed(slots - {x});
      list := [x] + rest;
    }
  }

  /** The partitions a group reads. */
  function Orders(log: map<Part, seq<nat>>): map<Part, nat> {
    map p | p in log && p.topic == OrdersTopic :: |log[p]|
  }

  /** A poll of everything Kafka has on the orders topic. */
  lemma WholePoll(s: Pipe, g: Group) returns (batch: seq<Slot>, ends: map<Part, nat>)
    ensures GoodPoll(s, g, batch, ends) && ends == Orders(s.log)
  {
    var slots := set p, k | p in s.log && p.topic == OrdersTopic && 0 <= k < |s.log[p]| :: Slot(p, k);
    batch := Listed(slots);
    ends := Orders(s.log);
    forall b | 0 <= b < |batch| ensures InLog(s, batch[b]) && batch[b].part.topic == OrdersTopic {
      assert batch[b] in batch;
    }
  }

  /** No consumer has anything left to do for these events. */
  ghost predicate Quiet(db: DB) {
    forall g, e :: e in db.outbox ==> Handled(db, g, e)
  }

  /** An event no handler acts on. */
  predicate Passive(e: Event) {
    !e.OrderPaid? && !e.RefundRequested?
  }

  /** What consuming leaves: rows and events are only appended, passive ones, and none if all was quiet. */
  ghost predicate Consumed(s: Pipe, u: Pipe) {
    && u.log == s.log && u.relay == s.relay
    && s.rows <= u.rows && s.db.outbox <= u.db.outbox
    && (forall i :: |s.db.outbox| <= i < |u.db.outbox| ==> Passive(u.db.outbox[i]))
    && (Quiet(s.db) ==> u.db == s.db && u.rows == s.rows)
  }

  lemma ConsumedTwice(s: Pipe, u: Pipe, v: Pipe)
    requires Consumed(s, u) && Consumed(u, v)
    ensures Consumed(s, v)
  {
    hide Quiet;
  }

  lemma EffectIsPassive(s: Pipe, m: Member)
    ensures s.db.outbox <= Effect(s, m).outbox
    ensures forall i :: |s.db.outbox| <= i < |Effect(s, m).outbox| ==> Passive(Effect(s, m).outbox[i])
  {
  }

  lemma QuietEffect(s: Pipe, m: Member)
    requires Quiet(s.db)
    ensures Effect(s, m) == s.db
  {
    var e := Current(s, m);
    if e.Some? {
      CurrentIsOutbox(s, m);
      assert Handled(s.db, TicketGroup, e.value) && Handled(s.db, RefundGroup, e.value);
    }
  }

  lemma HandleConsumes(c: Config, s: Pipe, mid: nat, ids: seq<nat>)
    requires Enabled(c, s, Handle(mid, ids)) && |ids| == |Effect(s, s.members[mid]).outbox| - |s.db.outbox|
    ensures Consumed(s, Do(c, s, Handle(mid, ids)))
  {
    hide Effect, Quiet, GoodIds, NeedsRefund;
    EffectIsPassive(s, s.members[mid]);
    if Quiet(s.db) {
      QuietEffect(s, s.members[mid]);
    }
  }

  /** One record, with the gateway call it may need. */
  lemma HandleOne(c: Config, steps: seq<Pipeline.Step>, mid: nat) returns (more: seq<Pipeline.Step>)
    requires var s := Pipeline.Run(c, steps); mid in s.members && s.members[mid].pos < |s.members[mid].batch|
    ensures steps <= more
    ensures var s, u := Pipeline.Run(c, steps), Pipeline.Run(c, more);
      && Consumed(s, u) && u.offsets == s.offsets && mid in u.members && u.members[mid] == Next(s.members[mid])
  {
    hide Pipeline.Run, GoodIds, Consumed, Effect, NeedsRefund;
    var s := Pipeline.Run(c, steps);
    Workers.AcceptedByGateway(c, s, steps, mid);
    Workers.AskedEnough(s, mid);
    SameConsumed(s, s);
    more := steps;
    if NeedsRefund(s, s.members[mid]) {
      more := Grow(c, steps, CallGateway(mid));
      SameConsumed(s, Pipeline.Run(c, more));
    }
    var t := Pipeline.Run(c, more);
    Workers.EffectGrows(c, t, more, mid);
    Workers.FreshIdsAreGood(t, Effect(t, t.members[mid]));
    var ids := Workers.FreshIds(t.rows, |Effect(t, t.members[mid]).outbox| - |t.db.outbox|);
    more := Grow(c, more, Handle(mid, ids));
    HandleConsumes(c, t, mid, ids);
    ConsumedTwice(s, t, Pipeline.Run(c, more));
  }

  lemma SameConsumed(s: Pipe, u: Pipe)
    requires u.log == s.log && u.relay == s.relay && u.rows == s.rows && u.db == s.db
    ensures Consumed(s, u)
  {
  }

  lemma {:induction false} HandleAll(c: Config, steps: seq<Pipeline.Step>, mid: nat) returns (more: seq<Pipeline.Step>)
    requires var s := Pipeline.Run(c, steps); mid in s.members && s.members[mid].pos <= |s.members[mid].batch|
    ensures steps <= more
    ensures var s, u := Pipeline.Run(c, steps), Pipeline.Run(c, more);
      && Consumed(s, u) && u.offsets == s.offsets
      && mid in u.members && u.members[mid] == s.members[mid].(pos := |s.members[mid].batch|, asked := u.members[mid].asked)
    decreases var s := Pipeline.Run(c, steps); |s.members[mid].batch| - s.members[mid].pos
  {
    hide Pipeline.Run, Consumed;
    var s := Pipeline.Run(c, steps);
    more := steps;
    SameConsumed(s, s);
    if s.members[mid].pos < |s.members[mid].batch| {
      var one := HandleOne(c, steps, mid);
      more := HandleAll(c, one, mid);
      ConsumedTwice(s, Pipeline.Run(c, one), Pipeline.Run(c, more));
    }
  }

  /** Group g has committed everything on the topic it reads, and the other group's offsets are as they were. */
  ghost predicate CaughtUp(s: Pipe, u: Pipe, g: Group) {
    forall h, p :: Committed(u, h, p) == if h == g && p.topic == OrdersTopic then |LogOf(u, p)| else Committed(s, h, p)
  }

  lemma CommitsAll(s: Pipe, t: Pipe, m: Member)
    requires t.log == s.log && t.offsets == s.offsets && m.ends == Orders(s.log)
    requires forall p :: Committed(s, m.group, p) <= |LogOf(s, p)|
    ensures CaughtUp(s, t.(offsets := CommitEnds(t, m)), m.group)
  {
    var u := t.(offsets := CommitEnds(t, m));
    forall h, p ensures Committed(u, h, p) == if h == m.group && p.topic == OrdersTopic then |LogOf(u, p)| else Committed(s, h, p) {
      assert GroupPart(h, p) in u.offsets <==> GroupPart(h, p) in t.offsets || (h == m.group && p in m.ends);
      if h == m.group && p.topic == OrdersTopic && p !in m.ends {
        assert LogOf(s, p) == [];
        assert Committed(s, h, p) == 0;
      }
    }
  }

  lemma OffsetsFact(c: Config, steps: seq<Pipeline.Step>, g: Group)
    ensures forall p :: Committed(Pipeline.Run(c, steps), g, p) <= |LogOf(Pipeline.Run(c, steps), p)|
  {
    hide Pipeline.Run, Inv, KafkaInv, MembersOk, GatewayOk;
    PipelineSteps.RunKeeps(c, steps);
  }

  lemma ConsumeAll(c: Config, steps: seq<Pipeline.Step>, g: Group) returns (more: seq<Pipeline.Step>)
    ensures steps <= more
    ensures var s, u := Pipeline.Run(c, steps), Pipeline.Run(c, more); Consumed(s, u) && CaughtUp(s, u, g)
  {
    hide Pipeline.Run, GoodPoll, Consumed, CaughtUp, CommitEnds;
    var s := Pipeline.Run(c, steps);
    var mid := FreshNat(s.members.Keys);
    var batch, ends := WholePoll(s, g);
    var polled := Grow(c, steps, Poll(mid, g, batch, ends));
    SameConsumed(s, Pipeline.Run(c, polled));
    var handled := HandleAll(c, polled, mid);
    ConsumedTwice(s, Pipeline.Run(c, polled), Pipeline.Run(c, handled));
    var t := Pipeline.Run(c, handled);
    more := Grow(c, handled, CommitOffsets(mid));
    var u := Pipeline.Run(c, more);
    SameConsumed(t, u);
    ConsumedTwice(s, t, u);
    ConsumedLog(s, t);
    OffsetsFact(c, steps, g);
    CommitsAll(s, t, t.members[mid]);
    SameOffsets(s, t.(offsets := CommitEnds(t, t.members[mid])), u, g);
  }

  lemma ConsumedLog(s: Pipe, u: Pipe)
    requires Consumed(s, u)
    ensures u.log == s.log && u.relay == s.relay
  {
  }

  lemma SameOffsets(s: Pipe, t: Pipe, u: Pipe, g: Group)
    requires CaughtUp(s, t, g) && u.log == t.log && u.offsets == t.offsets
    ensures CaughtUp(s, u, g)
  {
    assert forall h, p :: Committed(u, h, p) == Committed(t, h, p);
  }

  // ---- two rounds ------------------------------------------------------------------------------

  lemma BothGroups(c: Config, steps: seq<Pipeline.Step>) returns (more: seq<Pipeline.Step>)
    ensures steps <= more
    ensures var s, u := Pipeline.Run(c, steps), Pipeline.Run(c, more);
      Consumed(s, u) && AllRead(u)
  {
    hide Pipeline.Run, Consumed;
    var one := ConsumeAll(c, steps, TicketGroup);
    more := ConsumeAll(c, one, RefundGroup);
    var s, t, u := Pipeline.Run(c, steps), Pipeline.Run(c, one), Pipeline.Run(c, more);
    ConsumedTwice(s, t, u);
    ConsumedLog(t, u);
    forall g, p: Part | p.topic == OrdersTopic ensures Committed(u, g, p) == |LogOf(u, p)| {
      assert Committed(t, TicketGroup, p) == |LogOf(t, p)|;
      assert LogOf(u, p) == LogOf(t, p);
    }
  }

  /** After one round every event that was published is handled, and the new ones need no handling. */
  lemma RoundQuiets(c: Config, steps: seq<Pipeline.Step>, s: Pipe)
    requires var u := Pipeline.Run(c, steps);
      && Consumed(s, u) && Waiting(s) == {} && |s.rows| == |s.db.outbox|
      && AllRead(u)
    ensures Quiet(Pipeline.Run(c, steps).db)
  {
    hide Pipeline.Run, Inv, MembersOk, GatewayOk, LogOk, InOrder, RelayOk;
    var u := Pipeline.Run(c, steps);
    PipelineSteps.RunKeeps(c, steps);
    forall g, e | e in u.db.outbox ensures Handled(u.db, g, e) {
      var i :| 0 <= i < |u.db.outbox| && u.db.outbox[i] == e;
      if i < |s.db.outbox| {
        assert i !in Waiting(s);
        assert u.rows[i] == s.rows[i];
        HandledIfPublished(c, u, g, i);
      } else {
        assert Passive(u.db.outbox[i]);
      }
    }
  }

  lemma HandledIfPublished(c: Config, s: Pipe, g: Group, i: nat)
    requires PublishedIsSent(c, s) && OffsetsOk(s) && RowsOk(s) && i < |s.db.outbox| && s.rows[i].published
    requires AllRead(s)
    ensures Handled(s.db, g, s.db.outbox[i])
  {
    assert Sent(c, s, i);
    var p := PartOf(c, s.db.outbox[i]);
    if p.topic == OrdersTopic {
      var q :| 0 <= q < |LogOf(s, p)| && LogOf(s, p)[q] == i;
      assert q < Committed(s, g, p);
      assert HandledAt(s, g, Slot(p, q));
    }
  }

  /** Every reachable state can be drained: no crash, redelivery or lost acknowledgement leaves work stuck. */
  lemma CanAlwaysDrain(c: Config, steps: seq<Pipeline.Step>) returns (more: seq<Pipeline.Step>)
    ensures steps <= more && Drained(Pipeline.Run(c, more))
  {
    hide Pipeline.Run, Consumed, Waiting, Quiet;
    var out := PublishAll(c, steps);
    var quiet := BothGroups(c, out);
    RowsFact(c, out);
    RoundQuiets(c, quiet, Pipeline.Run(c, out));
    var again := PublishAll(c, quiet);
    more := BothGroups(c, again);
    DrainedWhenOut(Pipeline.Run(c, again), Pipeline.Run(c, more));
  }

  lemma DrainedWhenOut(s: Pipe, u: Pipe)
    requires Waiting(s) == {} && Quiet(s.db) && Consumed(s, u) && AllRead(u)
    ensures Drained(u)
  {
    hide Quiet;
    forall i | 0 <= i < |u.rows| ensures u.rows[i].published {
      assert i !in Waiting(s);
    }
  }
}
