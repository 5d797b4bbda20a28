/**
 An order's rows across both topics. Kafka may show a row before an earlier one of the same order on the other topic,
 but only while their batch is not marked; the published rows of an order are always a prefix of its rows.
 */
module PipelinePrefix {
  import opened States
  import opened Saga
  import opened SagaInv
  import opened Pipeline
  import opened PipelineInv
  import opened PipelineSteps

  /** Rows i and j are of one order, whatever their topics, and i has the smaller id. */
  ghost predicate Earlier(s: Pipe, i: nat, j: nat) {
    && i < |s.db.outbox| && j < |s.db.outbox| && |s.rows| == |s.db.outbox|
    && s.db.outbox[i].order == s.db.outbox[j].order
    && s.rows[i].id < s.rows[j].id
  }

  /** A locked batch contains every unpublished row that comes before one of its rows. */
  ghost predicate BatchClosed(s: Pipe) {
    s.relay.Sending? ==>
      forall b, i: nat :: 0 <= b < |s.relay.batch| && Earlier(s, i, s.relay.batch[b]) ==> s.rows[i].published || i in s.relay.batch
  }

  ghost predicate PublishedPrefix(s: Pipe) {
    forall i: nat, j: nat :: Earlier(s, i, j) && s.rows[j].published ==> s.rows[i].published
  }

  lemma AddEarlier(s: Pipe, d: DB, ids: seq<nat>)
    requires RowsOk(s) && s.db.outbox <= d.outbox && GoodIds(s, d, ids)
    requires forall b :: s.relay.Sending? && 0 <= b < |s.relay.batch| ==> s.relay.batch[b] < |s.db.outbox|
    requires BatchClosed(s) && PublishedPrefix(s)
    ensures BatchClosed(WithDb(s, d, ids)) && PublishedPrefix(WithDb(s, d, ids))
  {
    var u := WithDb(s, d, ids);
    assert forall i: nat, j: nat :: j < |s.rows| && Earlier(u, i, j) ==> Earlier(s, i, j);
  }

  lemma LockClosed(s: Pipe, batch: seq<nat>)
    requires RowsOk(s) && OldestBatch(s, batch)
    ensures BatchClosed(s.(relay := Sending(batch, {})))
  {
  }

  lemma MarkPrefix(s: Pipe)
    requires s.relay.Sending? && BatchClosed(s) && PublishedPrefix(s)
    ensures PublishedPrefix(s.(rows := MarkRows(s.rows, s.relay.batch), relay := Idle))
  {
    var u := s.(rows := MarkRows(s.rows, s.relay.batch), relay := Idle);
    forall i: nat, j: nat | Earlier(u, i, j) && u.rows[j].published ensures u.rows[i].published {
      assert Earlier(s, i, j);
      if j in s.relay.batch {
        var b :| 0 <= b < |s.relay.batch| && s.relay.batch[b] == j;
      }
    }
  }

  lemma OthersKeep(s: Pipe, u: Pipe)
    requires BatchClosed(s) && PublishedPrefix(s) && u.db == s.db && |u.rows| == |s.rows|
    requires forall i :: 0 <= i < |s.rows| ==> u.rows[i].id == s.rows[i].id && u.rows[i].published == s.rows[i].published
    requires u.relay.Sending? ==> s.relay.Sending? && u.relay.batch == s.relay.batch
    ensures BatchClosed(u) && PublishedPrefix(u)
  {
    assert forall i: nat, j: nat :: Earlier(u, i, j) <==> Earlier(s, i, j);
  }

  lemma BatchInRows(c: Config, s: Pipe)
    requires KafkaInv(c, s)
    ensures forall b :: s.relay.Sending? && 0 <= b < |s.relay.batch| ==> s.relay.batch[b] < |s.db.outbox|
  {
  }

  lemma StepPrefix(c: Config, s: Pipe, step: Pipeline.Step)
    requires PipeInv(c, s) && BatchClosed(s) && PublishedPrefix(s)
    ensures BatchClosed(Do(c, s, step)) && PublishedPrefix(Do(c, s, step))
  {
    hide Inv, LogOk, PublishedIsSent, InOrder, RelayOk, OffsetsOk, MembersOk, GatewayOk, Apply, Effect, GoodIds, OldestBatch;
    hide BatchClosed, PublishedPrefix, GoodPoll, GoodNext, NeedsRefund;
    if Enabled(c, s, step) {
      BatchInRows(c, s);
      match step
      case Transact(t, ids) =>
        TransactForward(s.db, t);
        AddEarlier(s, Apply(s.db, t), ids);
      case Handle(mid, ids) =>
        var v := WithDb(s, Effect(s, s.members[mid]), ids);
        EffectForward(s, s.members[mid]);
        AddEarlier(s, Effect(s, s.members[mid]), ids);
        OthersKeep(v, Do(c, s, step));
      case LockBatch(batch) =>
        LockClosed(s, batch);
        OthersKeep(s, s.(relay := Idle));
        PrefixOfRows(s, Do(c, s, step));
      case MarkPublished =>
        MarkPrefix(s);
        IdleIsClosed(Do(c, s, step));
      case _ => OthersKeep(s, Do(c, s, step));
    }
  }

  lemma IdleIsClosed(s: Pipe)
    requires s.relay == Idle
    ensures BatchClosed(s)
  {
  }

  lemma PrefixOfRows(s: Pipe, u: Pipe)
    requires PublishedPrefix(s) && u.db == s.db && u.rows == s.rows
    ensures PublishedPrefix(u)
  {
    assert forall i: nat, j: nat :: Earlier(u, i, j) <==> Earlier(s, i, j);
  }

  lemma EffectForward(s: Pipe, m: Member)
    ensures s.db.outbox <= Effect(s, m).outbox
  {
  }

  lemma {:induction false} RunPrefix(c: Config, steps: seq<Pipeline.Step>)
    ensures BatchClosed(Pipeline.Run(c, steps)) && PublishedPrefix(Pipeline.Run(c, steps))
  {
    hide Do, PipeInv;
    if steps == [] {
    } else {
      RunPrefix(c, steps[..|steps| - 1]);
      PipelineSteps.RunKeeps(c, steps[..|steps| - 1]);
      StepPrefix(c, Pipeline.Run(c, steps[..|steps| - 1]), steps[|steps| - 1]);
    }
  }

  /** A published row means every earlier row of its order is published, on either topic. */
  lemma PublishedRowsAreAPrefix(c: Config, steps: seq<Pipeline.Step>, i: nat, j: nat)
    requires Earlier(Pipeline.Run(c, steps), i, j) && Pipeline.Run(c, steps).rows[j].published
    ensures Pipeline.Run(c, steps).rows[i].published
  {
    RunPrefix(c, steps);
  }

  /** A gap in what Kafka shows of an order is between topics, and gone by the time the later row is published. */
  lemma GapIsBetweenTopics(c: Config, steps: seq<Pipeline.Step>, i: nat, j: nat)
    requires Earlier(Pipeline.Run(c, steps), i, j)
    requires Sent(c, Pipeline.Run(c, steps), j) && !Sent(c, Pipeline.Run(c, steps), i)
    ensures var s := Pipeline.Run(c, steps); TopicOf(s.db.outbox[i]) != TopicOf(s.db.outbox[j]) && !s.rows[j].published
  {
    hide Pipeline.Run, Inv, OffsetsOk, MembersOk, GatewayOk, LogOk, RelayOk;
    var s := Pipeline.Run(c, steps);
    RunPrefix(c, steps);
    PipelineSteps.RunKeeps(c, steps);
    var p := PartOf(c, s.db.outbox[j]);
    var q :| 0 <= q < |LogOf(s, p)| && LogOf(s, p)[q] == j;
    var shown := s.log[p][..q];
    assert Before(s, i, s.log[p][q]) ==> i in shown;
  }

  // ---- when a gap can open -------------------------------------------------------------

  predicate AllSends(more: seq<Pipeline.Step>) {
    forall k :: 0 <= k < |more| ==> more[k].SendRecord?
  }

  /** Sending changes the log and what the relay has sent, nothing else. */
  ghost predicate OnlySent(s: Pipe, u: Pipe) {
    && u == s.(log := u.log, relay := u.relay)
    && (s.relay.Sending? ==> u.relay.Sending? && u.relay.batch == s.relay.batch)
  }

  lemma {:induction false} SendsFrame(c: Config, steps: seq<Pipeline.Step>, more: seq<Pipeline.Step>)
    requires AllSends(more)
    ensures OnlySent(Pipeline.Run(c, steps), Pipeline.Run(c, steps + more))
  {
    if more == [] {
      assert steps + more == steps;
    } else {
      hide CanSend;
      var n := |more| - 1;
      SendsFrame(c, steps, more[..n]);
      assert (steps + more)[..|steps| + n] == steps + more[..n];
    }
  }

  /** Some way of sending on shows row j in Kafka while row i is missing. */
  ghost predicate CanOvertake(c: Config, steps: seq<Pipeline.Step>, i: nat, j: nat) {
    exists more :: AllSends(more) && Overtaken(c, Pipeline.Run(c, steps + more), i, j)
  }

  ghost predicate Overtaken(c: Config, s: Pipe, i: nat, j: nat) {
    i < |s.db.outbox| && j < |s.db.outbox| && Sent(c, s, j) && !Sent(c, s, i)
  }

  /** Every position below n of the batch that goes to partition p is sent. */
  ghost predicate SentBelow(c: Config, s: Pipe, p: Part, n: nat) {
    && s.relay.Sending?
    && forall b | 0 <= b < n && b < |s.relay.batch| && s.relay.batch[b] < |s.db.outbox| ::
         PartOf(c, s.db.outbox[s.relay.batch[b]]) == p ==> b in s.relay.sent
  }

  /** Only partition p has grown. */
  ghost predicate OnlyPart(s: Pipe, u: Pipe, p: Part) {
    OnlySent(s, u) && forall q :: q != p ==> LogOf(u, q) == LogOf(s, q)
  }

  lemma SendOne(c: Config, s: Pipe, p: Part, b: nat)
    requires s.relay.Sending? && b < |s.relay.batch| && s.relay.batch[b] < |s.db.outbox|
    requires PartOf(c, s.db.outbox[s.relay.batch[b]]) == p && SentBelow(c, s, p, b) && b !in s.relay.sent
    ensures CanSend(c, s, b) && SentBelow(c, Send(c, s, b), p, b + 1) && OnlyPart(s, Send(c, s, b), p)
  {
  }

  /** The relay sends the records of one partition, in order, up to position n. */
  lemma {:induction false} SendPartition(c: Config, steps: seq<Pipeline.Step>, p: Part, n: nat) returns (more: seq<Pipeline.Step>)
    requires Pipeline.Run(c, steps).relay.Sending? && n <= |Pipeline.Run(c, steps).relay.batch|
    requires forall b :: 0 <= b < n ==> Pipeline.Run(c, steps).relay.batch[b] < |Pipeline.Run(c, steps).db.outbox|
    ensures AllSends(more)
    ensures var s, u := Pipeline.Run(c, steps), Pipeline.Run(c, steps + more); OnlyPart(s, u, p) && SentBelow(c, u, p, n)
  {
    hide Pipeline.Run;
    if n == 0 {
      more := [];
      assert steps + more == steps;
    } else {
      more := SendPartition(c, steps, p, n - 1);
      var u := Pipeline.Run(c, steps + more);
      if PartOf(c, u.db.outbox[u.relay.batch[n - 1]]) == p && n - 1 !in u.relay.sent {
        SendOne(c, u, p, n - 1);
        RunSnoc(c, steps + more, SendRecord(n - 1));
        assert steps + (more + [SendRecord(n - 1)]) == steps + more + [SendRecord(n - 1)];
        more := more + [SendRecord(n - 1)];
      }
    }
  }

  lemma RunSnoc(c: Config, steps: seq<Pipeline.Step>, step: Pipeline.Step)
    ensures Pipeline.Run(c, steps + [step]) == Do(c, Pipeline.Run(c, steps), step)
  {
    assert (steps + [step])[..|steps|] == steps;
  }

  lemma SentIsInLog(c: Config, steps: seq<Pipeline.Step>, b: nat)
    requires Pipeline.Run(c, steps).relay.Sending? && b in Pipeline.Run(c, steps).relay.sent
    ensures var s := Pipeline.Run(c, steps); b < |s.relay.batch| && s.relay.batch[b] < |s.db.outbox| && Sent(c, s, s.relay.batch[b])
  {
    hide Pipeline.Run, Inv, OffsetsOk, MembersOk, GatewayOk, LogOk, PublishedIsSent, InOrder, RowsOk;
    PipelineSteps.RunKeeps(c, steps);
  }

  lemma BatchRows(c: Config, steps: seq<Pipeline.Step>)
    ensures var s := Pipeline.Run(c, steps);
      s.relay.Sending? ==> forall b :: 0 <= b < |s.relay.batch| ==> s.relay.batch[b] < |s.db.outbox|
  {
    hide Pipeline.Run, Inv, OffsetsOk, MembersOk, GatewayOk, LogOk, PublishedIsSent, InOrder, RowsOk;
    PipelineSteps.RunKeeps(c, steps);
  }

  /** On different topics the partition of row j can go out as far as j while the partition of row i stands still. */
  lemma OtherTopicOvertakes(c: Config, steps: seq<Pipeline.Step>, i: nat, j: nat)
    requires var s := Pipeline.Run(c, steps);
      s.relay.Sending? && j in s.relay.batch && Earlier(s, i, j) && !Sent(c, s, i)
      && TopicOf(s.db.outbox[i]) != TopicOf(s.db.outbox[j])
    ensures CanOvertake(c, steps, i, j)
  {
    hide Pipeline.Run;
    var s := Pipeline.Run(c, steps);
    var b: nat :| b < |s.relay.batch| && s.relay.batch[b] == j;
    BatchRows(c, steps);
    var p := PartOf(c, s.db.outbox[j]);
    var more := SendPartition(c, steps, p, b + 1);
    var u := Pipeline.Run(c, steps + more);
    SentIsInLog(c, steps + more, b);
    assert LogOf(u, PartOf(c, s.db.outbox[i])) == LogOf(s, PartOf(c, s.db.outbox[i]));
    assert Overtaken(c, u, i, j);
  }

  /**
   Exactly when the relay can show a later row of an order before an earlier one: it has locked a batch with the later
   row, the earlier row is not out yet, and the two go to different topics.
   */
  lemma OvertakesIffTopicsDiffer(c: Config, steps: seq<Pipeline.Step>, i: nat, j: nat)
    requires var s := Pipeline.Run(c, steps);
      s.relay.Sending? && j in s.relay.batch && Earlier(s, i, j) && !Sent(c, s, i)
    ensures var s := Pipeline.Run(c, steps);
      CanOvertake(c, steps, i, j) <==> TopicOf(s.db.outbox[i]) != TopicOf(s.db.outbox[j])
  {
    hide Pipeline.Run;
    var s := Pipeline.Run(c, steps);
    if TopicOf(s.db.outbox[i]) != TopicOf(s.db.outbox[j]) {
      OtherTopicOvertakes(c, steps, i, j);
    }
    if CanOvertake(c, steps, i, j) {
      var more :| AllSends(more) && Overtaken(c, Pipeline.Run(c, steps + more), i, j);
      SendsFrame(c, steps, more);
      GapIsBetweenTopics(c, steps + more, i, j);
    }
  }
}
