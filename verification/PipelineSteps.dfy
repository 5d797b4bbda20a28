/** Each step of the pipeline keeps its invariant. */
module PipelineSteps {
  import opened States
  import opened Saga
  import opened SagaInv
  import opened Pipeline
  import opened PipelineInv

  // ---- a transaction adds rows ---------------------------------------------

  lemma AddRows(s: Pipe, d: DB, ids: seq<nat>)
    requires RowsOk(s) && s.db.outbox <= d.outbox && GoodIds(s, d, ids)
    ensures RowsOk(WithDb(s, d, ids))
  {
  }

  /** A new row never belongs before an old one of its order. */
  lemma NewRowsComeLast(s: Pipe, d: DB, ids: seq<nat>, i: nat, j: nat)
    requires RowsOk(s) && s.db.outbox <= d.outbox && GoodIds(s, d, ids) && j < |s.rows|
    ensures Before(WithDb(s, d, ids), i, j) ==> i < |s.rows| && Before(s, i, j)
  {
  }

  lemma AddLog(c: Config, s: Pipe, d: DB, ids: seq<nat>)
    requires RowsOk(s) && LogOk(c, s) && PublishedIsSent(c, s) && s.db.outbox <= d.outbox && GoodIds(s, d, ids)
    ensures LogOk(c, WithDb(s, d, ids)) && PublishedIsSent(c, WithDb(s, d, ids))
  {
  }

  lemma AddOrder(c: Config, s: Pipe, d: DB, ids: seq<nat>)
    requires RowsOk(s) && LogOk(c, s) && InOrder(s) && s.db.outbox <= d.outbox && GoodIds(s, d, ids)
    ensures InOrder(WithDb(s, d, ids))
  {
    var u := WithDb(s, d, ids);
    forall p, q, i: nat | p in u.log && 0 <= q < |u.log[p]| && Before(u, i, u.log[p][q])
      ensures i in u.log[p][..q]
    {
      NewRowsComeLast(s, d, ids, i, s.log[p][q]);
    }
  }

  lemma AddRelay(c: Config, s: Pipe, d: DB, ids: seq<nat>)
    requires RowsOk(s) && RelayOk(c, s) && s.db.outbox <= d.outbox && GoodIds(s, d, ids)
    ensures RelayOk(c, WithDb(s, d, ids))
  {
    var u := WithDb(s, d, ids);
    if s.relay.Sending? {
      forall b, i: nat | 0 <= b < |u.relay.batch| && Before(u, i, u.relay.batch[b])
        ensures u.rows[i].published || i in u.relay.batch[..b]
      {
        NewRowsComeLast(s, d, ids, i, s.relay.batch[b]);
      }
    }
  }

  lemma AddKafka(c: Config, s: Pipe, d: DB, ids: seq<nat>)
    requires KafkaInv(c, s) && s.db.outbox <= d.outbox && GoodIds(s, d, ids)
    ensures KafkaInv(c, WithDb(s, d, ids))
  {
    hide RowsOk, LogOk, PublishedIsSent, InOrder, RelayOk, GoodIds;
    AddRows(s, d, ids);
    AddLog(c, s, d, ids);
    AddOrder(c, s, d, ids);
    AddRelay(c, s, d, ids);
  }

  /** Records below an offset stay what they were and stay handled. */
  lemma HandledAtStays(c: Config, s: Pipe, u: Pipe, g: Group, slot: Slot)
    requires LogOk(c, s) && Forward(s.db, u.db) && HandledAt(s, g, slot) && InLog(s, slot)
    requires LogOf(s, slot.part) <= LogOf(u, slot.part)
    ensures HandledAt(u, g, slot)
  {
    assert EventAt(s, slot).Some?;
    HandledStays(s.db, u.db, g, EventAt(s, slot).value);
  }

  lemma AddOffsets(c: Config, s: Pipe, u: Pipe)
    requires LogOk(c, s) && OffsetsOk(s) && Forward(s.db, u.db) && u.offsets == s.offsets
    requires forall p :: LogOf(s, p) <= LogOf(u, p)
    ensures OffsetsOk(u)
  {
    forall g, p, k | 0 <= k < Committed(u, g, p)
      ensures HandledAt(u, g, Slot(p, k))
    {
      assert Committed(u, g, p) == Committed(s, g, p);
      HandledAtStays(c, s, u, g, Slot(p, k));
    }
    forall g, p
      ensures Committed(u, g, p) <= |LogOf(u, p)|
    {
      assert Committed(u, g, p) == Committed(s, g, p);
    }
  }

  lemma MemberStays(c: Config, s: Pipe, u: Pipe, m: Member)
    requires LogOk(c, s) && MemberOk(s, m) && Forward(s.db, u.db) && s.gateway.Keys <= u.gateway.Keys
    requires forall p :: LogOf(s, p) <= LogOf(u, p)
    ensures MemberOk(u, m)
  {
    forall b | 0 <= b < m.pos
      ensures HandledAt(u, m.group, m.batch[b])
    {
      HandledAtStays(c, s, u, m.group, m.batch[b]);
    }
    forall p, k | p in m.ends && 0 <= k < m.ends[p]
      ensures HandledAt(u, m.group, Slot(p, k)) || Slot(p, k) in m.batch
    {
      if Slot(p, k) !in m.batch {
        HandledAtStays(c, s, u, m.group, Slot(p, k));
      }
    }
    forall b | 0 <= b < |m.batch|
      ensures InLog(u, m.batch[b])
    {
      assert LogOf(s, m.batch[b].part) <= LogOf(u, m.batch[b].part);
    }
    forall p | p in m.ends
      ensures m.ends[p] <= |LogOf(u, p)|
    {
      assert LogOf(s, p) <= LogOf(u, p);
    }
    if m.asked {
      assert LogOf(s, m.batch[m.pos].part) <= LogOf(u, m.batch[m.pos].part);
      assert Current(u, m) == Current(s, m);
    }
  }

  lemma AddMembers(c: Config, s: Pipe, u: Pipe)
    requires LogOk(c, s) && MembersOk(s) && Forward(s.db, u.db) && s.gateway.Keys <= u.gateway.Keys && u.members == s.members
    requires forall p :: LogOf(s, p) <= LogOf(u, p)
    ensures MembersOk(u)
  {
    hide MemberOk, LogOk, Forward;
    forall mid | mid in u.members
      ensures MemberOk(u, u.members[mid])
    {
      MemberStays(c, s, u, s.members[mid]);
    }
  }

  lemma AddGateway(s: Pipe, d: DB)
    requires GatewayOk(s) && Forward(s.db, d)
    requires forall t :: t in d.refunds && d.refunds[t].status == Succeeded ==> t in s.gateway
    ensures GatewayOk(s.(db := d))
  {
  }

  lemma SameLogs(s: Pipe, u: Pipe)
    requires u.log == s.log
    ensures forall p :: LogOf(s, p) <= LogOf(u, p)
  {
  }

  /** A transaction that moves the tables forward and completes only what the gateway has refunded. */
  lemma AddKeeps(c: Config, s: Pipe, d: DB, ids: seq<nat>)
    requires PipeInv(c, s) && Inv(d) && Forward(s.db, d) && GoodIds(s, d, ids)
    requires forall t :: t in d.refunds && d.refunds[t].status == Succeeded ==> t in s.gateway
    ensures PipeInv(c, WithDb(s, d, ids))
  {
    hide Inv, LogOk, OffsetsOk, MembersOk, GatewayOk, GoodIds, RowsOk, PublishedIsSent, InOrder, RelayOk;
    var u := WithDb(s, d, ids);
    AddKafka(c, s, d, ids);
    SameLogs(s, u);
    AddOffsets(c, s, u);
    AddMembers(c, s, u);
    AddGateway(s, d);
    assert GatewayOk(u) by { GatewayRows(s.(db := d), u); }
  }

  lemma GatewayRows(s: Pipe, u: Pipe)
    requires GatewayOk(s) && u.db == s.db && u.gateway == s.gateway
    ensures GatewayOk(u)
  {
  }

  lemma TransactKeeps(c: Config, s: Pipe, t: Saga.Step, ids: seq<nat>)
    requires PipeInv(c, s) && Enabled(c, s, Transact(t, ids))
    ensures PipeInv(c, Do(c, s, Transact(t, ids)))
  {
    hide Inv, KafkaInv, OffsetsOk, MembersOk, GoodIds, Apply;
    StepKeeps(s.db, t);
    TransactForward(s.db, t);
    AddKeeps(c, s, Apply(s.db, t), ids);
  }

  // ---- the relay -------------------------------------------------------------

  lemma LockRelay(c: Config, s: Pipe, batch: seq<nat>)
    requires RowsOk(s) && OldestBatch(s, batch)
    ensures RelayOk(c, s.(relay := Sending(batch, {})))
  {
    var u := s.(relay := Sending(batch, {}));
    forall b, i: nat | 0 <= b < |batch| && Before(u, i, batch[b])
      ensures u.rows[i].published || i in batch[..b]
    {
      if !s.rows[i].published {
        var a :| 0 <= a < |batch| && batch[a] == i;
        assert a < b;
      }
    }
  }

  lemma RelayOnly(c: Config, s: Pipe, u: Pipe)
    requires KafkaInv(c, s) && u == s.(relay := u.relay) && RelayOk(c, u)
    ensures KafkaInv(c, u)
  {
    hide RelayOk;
    assert forall i: nat, j: nat :: Before(u, i, j) <==> Before(s, i, j);
  }

  lemma ConsumersUnchanged(c: Config, s: Pipe, u: Pipe)
    requires LogOk(c, s) && OffsetsOk(s) && MembersOk(s) && GatewayOk(s)
    requires u.db == s.db && u.offsets == s.offsets && u.members == s.members && u.gateway == s.gateway
    requires forall p :: LogOf(s, p) <= LogOf(u, p)
    ensures OffsetsOk(u) && MembersOk(u) && GatewayOk(u)
  {
    hide LogOk, OffsetsOk, MembersOk;
    AddOffsets(c, s, u);
    AddMembers(c, s, u);
  }

  lemma LockKeeps(c: Config, s: Pipe, batch: seq<nat>)
    requires PipeInv(c, s) && Enabled(c, s, LockBatch(batch))
    ensures PipeInv(c, Do(c, s, LockBatch(batch)))
  {
    hide Inv, RowsOk, LogOk, PublishedIsSent, InOrder, RelayOk, OffsetsOk, MembersOk, GatewayOk, OldestBatch;
    var u := Do(c, s, LockBatch(batch));
    LockRelay(c, s, batch);
    RelayOnly(c, s, u);
    SameLogs(s, u);
    ConsumersUnchanged(c, s, u);
  }

  lemma CrashKeeps(c: Config, s: Pipe)
    requires PipeInv(c, s)
    ensures PipeInv(c, Do(c, s, RelayCrash))
  {
    hide Inv, RowsOk, LogOk, PublishedIsSent, InOrder, OffsetsOk, MembersOk, GatewayOk;
    var u := Do(c, s, RelayCrash);
    RelayOnly(c, s, u);
    SameLogs(s, u);
    ConsumersUnchanged(c, s, u);
  }

  lemma SendLog(c: Config, s: Pipe, b: nat)
    requires RowsOk(s) && LogOk(c, s) && PublishedIsSent(c, s) && CanSend(c, s, b)
    ensures LogOk(c, Send(c, s, b)) && PublishedIsSent(c, Send(c, s, b))
    ensures forall p :: LogOf(s, p) <= LogOf(Send(c, s, b), p)
  {
  }

  /** What belongs before the record being sent is already in the log: published earlier, or earlier in this batch. */
  lemma SendOrder(c: Config, s: Pipe, b: nat)
    requires RowsOk(s) && PublishedIsSent(c, s) && InOrder(s) && RelayOk(c, s) && CanSend(c, s, b)
    ensures InOrder(Send(c, s, b))
  {
    var u := Send(c, s, b);
    forall p, q, i: nat | p in u.log && 0 <= q < |u.log[p]| && Before(u, i, u.log[p][q])
      ensures i in u.log[p][..q]
    {
      if p in s.log && q < |s.log[p]| {
        assert u.log[p][q] == s.log[p][q] && u.log[p][..q] == s.log[p][..q];
        assert Before(s, i, s.log[p][q]);
      } else {
        assert u.log[p][..q] == LogOf(s, p);
        assert Before(s, i, s.relay.batch[b]);
        if !s.rows[i].published {
          assert i in s.relay.batch[..b];
          var a :| 0 <= a < b && s.relay.batch[a] == i;
          assert a in s.relay.sent;
        }
        assert Sent(c, s, i);
      }
    }
  }

  lemma SendRelay(c: Config, s: Pipe, b: nat)
    requires RelayOk(c, s) && CanSend(c, s, b)
    requires forall p :: LogOf(s, p) <= LogOf(Send(c, s, b), p)
    ensures RelayOk(c, Send(c, s, b))
  {
    var u := Send(c, s, b);
    forall a | a in u.relay.sent
      ensures Sent(c, u, u.relay.batch[a])
    {
      var p := PartOf(c, s.db.outbox[s.relay.batch[a]]);
      if a in s.relay.sent {
        assert Sent(c, s, s.relay.batch[a]) && LogOf(s, p) <= LogOf(u, p);
      }
    }
    assert forall i: nat, j: nat :: Before(u, i, j) <==> Before(s, i, j);
  }

  lemma SendKeeps(c: Config, s: Pipe, b: nat)
    requires PipeInv(c, s) && Enabled(c, s, SendRecord(b))
    ensures PipeInv(c, Do(c, s, SendRecord(b)))
  {
    hide Inv, LogOk, PublishedIsSent, InOrder, RelayOk, OffsetsOk, MembersOk, GatewayOk, CanSend;
    SendLog(c, s, b);
    SendOrder(c, s, b);
    SendRelay(c, s, b);
    ConsumersUnchanged(c, s, Send(c, s, b));
  }

  /** Published flags do not matter to ids, order and log. */
  lemma FlagsOnly(c: Config, s: Pipe, u: Pipe)
    requires RowsOk(s) && LogOk(c, s) && InOrder(s)
    requires u == s.(rows := u.rows, relay := u.relay) && |u.rows| == |s.rows|
    requires forall i :: 0 <= i < |s.rows| ==> u.rows[i].id == s.rows[i].id
    ensures RowsOk(u) && LogOk(c, u) && InOrder(u)
    ensures forall i: nat, j: nat :: Before(u, i, j) <==> Before(s, i, j)
  {
    assert forall i: nat, j: nat :: Before(u, i, j) <==> Before(s, i, j);
  }

  lemma MarkPublishedSent(c: Config, s: Pipe)
    requires RowsOk(s) && PublishedIsSent(c, s) && RelayOk(c, s) && AllSent(s.relay)
    ensures PublishedIsSent(c, Do(c, s, MarkPublished))
  {
    var u := Do(c, s, MarkPublished);
    forall i | 0 <= i < |u.rows| && i < |u.db.outbox| && u.rows[i].published
      ensures Sent(c, u, i)
    {
      if !s.rows[i].published {
        var b :| 0 <= b < |s.relay.batch| && s.relay.batch[b] == i;
        assert b in s.relay.sent;
      }
    }
  }

  lemma MarkKeeps(c: Config, s: Pipe)
    requires PipeInv(c, s) && Enabled(c, s, MarkPublished)
    ensures PipeInv(c, Do(c, s, MarkPublished))
  {
    hide Inv, RowsOk, LogOk, PublishedIsSent, InOrder, OffsetsOk, MembersOk, GatewayOk;
    var u := Do(c, s, MarkPublished);
    MarkPublishedSent(c, s);
    FlagsOnly(c, s, u);
    SameLogs(s, u);
    ConsumersUnchanged(c, s, u);
  }

  lemma CleanupRelay(c: Config, s: Pipe, i: nat)
    requires RowsOk(s) && RelayOk(c, s) && PublishedIsSent(c, s) && i < |s.rows| && s.rows[i].published
    ensures RelayOk(c, Do(c, s, Cleanup(i))) && PublishedIsSent(c, Do(c, s, Cleanup(i)))
  {
    var u := Do(c, s, Cleanup(i));
    assert forall a: nat, b: nat :: Before(u, a, b) <==> Before(s, a, b);
  }

  lemma CleanupKeeps(c: Config, s: Pipe, i: nat)
    requires PipeInv(c, s) && Enabled(c, s, Cleanup(i))
    ensures PipeInv(c, Do(c, s, Cleanup(i)))
  {
    hide Inv, RowsOk, LogOk, PublishedIsSent, InOrder, RelayOk, OffsetsOk, MembersOk, GatewayOk;
    var u := Do(c, s, Cleanup(i));
    CleanupRelay(c, s, i);
    FlagsOnly(c, s, u);
    SameLogs(s, u);
    ConsumersUnchanged(c, s, u);
  }

  // ---- the consumers -----------------------------------------------------------

  lemma PollOk(c: Config, s: Pipe, g: Group, batch: seq<Slot>, ends: map<Part, nat>)
    requires OffsetsOk(s) && GoodPoll(s, g, batch, ends)
    ensures MemberOk(s, Member(g, batch, ends, 0, false))
  {
  }

  /** Kafka and offsets do not depend on who is at work. */
  lemma MembersOnly(c: Config, s: Pipe, u: Pipe)
    requires KafkaInv(c, s) && OffsetsOk(s) && u == s.(members := u.members, gateway := u.gateway)
    ensures KafkaInv(c, u) && OffsetsOk(u)
  {
    hide LogOk, OffsetsOk, PublishedIsSent, RelayOk, InOrder;
    assert KafkaInv(c, u) by { KafkaSame(c, s, u); }
    assert OffsetsOk(u) by {
      SameLogs(s, u);
      AddOffsets(c, s, u);
    }
  }

  lemma KafkaSame(c: Config, s: Pipe, u: Pipe)
    requires KafkaInv(c, s) && u.db == s.db && u.rows == s.rows && u.relay == s.relay && u.log == s.log
    ensures KafkaInv(c, u)
  {
    assert forall i: nat, j: nat :: Before(u, i, j) <==> Before(s, i, j);
  }

  lemma MemberSame(s: Pipe, u: Pipe, m: Member)
    requires MemberOk(s, m) && u.db == s.db && u.log == s.log && s.gateway.Keys <= u.gateway.Keys
    ensures MemberOk(u, m)
  {
    forall g, slot ensures HandledAt(u, g, slot) <==> HandledAt(s, g, slot) {}
    assert Current(u, m) == Current(s, m);
  }

  lemma SetMember(s: Pipe, u: Pipe, mid: nat, m: Member)
    requires MembersOk(s) && u.db == s.db && u.log == s.log && s.gateway.Keys <= u.gateway.Keys
    requires u.members == s.members[mid := m] && MemberOk(u, m)
    ensures MembersOk(u)
  {
    hide MemberOk;
    forall k | k in u.members
      ensures MemberOk(u, u.members[k])
    {
      if k != mid {
        MemberSame(s, u, s.members[k]);
      }
    }
  }

  lemma PollKeeps(c: Config, s: Pipe, mid: nat, g: Group, batch: seq<Slot>, ends: map<Part, nat>)
    requires PipeInv(c, s) && Enabled(c, s, Poll(mid, g, batch, ends))
    ensures PipeInv(c, Do(c, s, Poll(mid, g, batch, ends)))
  {
    hide Inv, KafkaInv, OffsetsOk, MembersOk, GoodPoll, MemberOk;
    var u, m := Do(c, s, Poll(mid, g, batch, ends)), Member(g, batch, ends, 0, false);
    PollOk(c, s, g, batch, ends);
    MemberSame(s, u, m);
    MembersOnly(c, s, u);
    SetMember(s, u, mid, m);
  }

  /** Everything below a client's position is handled: it worked off its batch, or the offset was committed. */
  lemma NextPollOk(s: Pipe, m: Member, batch: seq<Slot>, ends: map<Part, nat>)
    requires OffsetsOk(s) && MemberOk(s, m) && m.pos == |m.batch| && GoodNext(s, m, batch, ends)
    ensures MemberOk(s, Member(m.group, batch, ends, 0, false))
  {
    forall p, k | p in ends && 0 <= k < ends[p]
      ensures HandledAt(s, m.group, Slot(p, k)) || Slot(p, k) in batch
    {
      var slot := Slot(p, k);
      assert slot in m.batch ==> HandledAt(s, m.group, slot);
    }
  }

  lemma PollOnKeeps(c: Config, s: Pipe, mid: nat, batch: seq<Slot>, ends: map<Part, nat>)
    requires PipeInv(c, s) && Enabled(c, s, PollOn(mid, batch, ends))
    ensures PipeInv(c, Do(c, s, PollOn(mid, batch, ends)))
  {
    hide Inv, KafkaInv, OffsetsOk, GoodNext, MemberOk;
    var u, m := Do(c, s, PollOn(mid, batch, ends)), Member(s.members[mid].group, batch, ends, 0, false);
    NextPollOk(s, s.members[mid], batch, ends);
    MemberSame(s, u, m);
    MembersOnly(c, s, u);
    SetMember(s, u, mid, m);
  }

  lemma DropKeeps(c: Config, s: Pipe, u: Pipe, mid: nat)
    requires MembersOk(s) && u == s.(members := u.members, offsets := u.offsets) && (u.members == s.members || u.members == s.members - {mid})
    ensures MembersOk(u)
  {
    hide MemberOk;
    forall k | k in u.members
      ensures MemberOk(u, u.members[k])
    {
      MemberSame(s, u, s.members[k]);
    }
  }

  lemma EvictKeeps(c: Config, s: Pipe, mid: nat)
    requires PipeInv(c, s) && Enabled(c, s, Evict(mid))
    ensures PipeInv(c, Do(c, s, Evict(mid)))
  {
    hide Inv, KafkaInv, OffsetsOk, MembersOk;
    var u := Do(c, s, Evict(mid));
    MembersOnly(c, s, u);
    DropKeeps(c, s, u, mid);
  }

  /** Committing after the whole batch leaves only handled records below the offsets. */
  lemma CommitOffsetsOk(s: Pipe, m: Member)
    requires OffsetsOk(s) && MemberOk(s, m) && m.pos == |m.batch|
    ensures OffsetsOk(s.(offsets := CommitEnds(s, m)))
  {
    var u := s.(offsets := CommitEnds(s, m));
    forall g, slot ensures HandledAt(u, g, slot) <==> HandledAt(s, g, slot) {}
    forall g, p
      ensures Committed(u, g, p) == if g == m.group && p in m.ends then m.ends[p] else Committed(s, g, p)
    {
      assert GroupPart(g, p) in u.offsets <==> GroupPart(g, p) in s.offsets || (g == m.group && p in m.ends);
    }
  }

  lemma CommitKeeps(c: Config, s: Pipe, mid: nat)
    requires PipeInv(c, s) && Enabled(c, s, CommitOffsets(mid))
    ensures PipeInv(c, Do(c, s, CommitOffsets(mid)))
  {
    hide Inv, KafkaInv, OffsetsOk, CommitEnds, MemberOk;
    var u := Do(c, s, CommitOffsets(mid));
    CommitOffsetsOk(s, s.members[mid]);
    assert KafkaInv(c, u) by { KafkaSame(c, s, u); }
    assert OffsetsOk(u) by { OffsetsSame(s.(offsets := u.offsets), u); }
    DropKeeps(c, s, u, mid);
  }

  lemma OffsetsSame(s: Pipe, u: Pipe)
    requires OffsetsOk(s) && u.db == s.db && u.log == s.log && u.offsets == s.offsets
    ensures OffsetsOk(u)
  {
    forall g, slot ensures HandledAt(u, g, slot) <==> HandledAt(s, g, slot) {}
    forall g, p ensures Committed(u, g, p) == Committed(s, g, p) {}
  }

  lemma AskedOk(s: Pipe, mid: nat)
    requires mid in s.members && MemberOk(s, s.members[mid]) && NeedsRefund(s, s.members[mid])
    ensures var u := AskGateway(s, mid); MemberOk(u, u.members[mid])
  {
    var u := AskGateway(s, mid);
    forall g, slot ensures HandledAt(u, g, slot) <==> HandledAt(s, g, slot) {}
    assert Current(u, u.members[mid]) == Current(s, s.members[mid]);
  }

  lemma CallKeeps(c: Config, s: Pipe, mid: nat)
    requires PipeInv(c, s) && Enabled(c, s, CallGateway(mid))
    ensures PipeInv(c, Do(c, s, CallGateway(mid)))
  {
    hide Inv, KafkaInv, OffsetsOk, MemberOk;
    var u := Do(c, s, CallGateway(mid));
    AskedOk(s, mid);
    MembersOnly(c, s, u);
    SetMember(s, u, mid, u.members[mid]);
  }

  /** The record a member works on is an outbox event. */
  lemma CurrentIsOutbox(s: Pipe, m: Member)
    requires Current(s, m).Some?
    ensures Current(s, m).value in s.db.outbox
  {
  }

  lemma EffectFacts(c: Config, s: Pipe, mid: nat)
    requires Inv(s.db) && GatewayOk(s) && mid in s.members && MemberOk(s, s.members[mid])
    requires NeedsRefund(s, s.members[mid]) ==> s.members[mid].asked
    ensures var m := s.members[mid]; var d := Effect(s, m);
      && Inv(d) && Forward(s.db, d)
      && (forall t :: t in d.refunds && d.refunds[t].status == Succeeded ==> t in s.gateway)
      && (Current(s, m).Some? ==> Handled(d, m.group, Current(s, m).value))
  {
    hide Inv, Issue, HandledAt;
    var m := s.members[mid];
    var e := Current(s, m);
    if e.Some? {
      CurrentIsOutbox(s, m);
      if m.group == TicketGroup && e.value.OrderPaid? {
        PaidEventIsSold(s.db, e.value.order);
        IssueKeeps(s.db, e.value.order);
        IssueForward(s.db, e.value.order);
        IssueHandles(s.db, e.value.order);
        assert e.value.order in Issue(s.db, e.value.order).orders by { IssueKeepsOrders(s.db, e.value.order); }
      } else if m.group == RefundGroup && e.value.RefundRequested? {
        RequestHasRefund(s.db, e.value);
        CompleteKeeps(s.db, e.value.txn);
        CompleteForward(s.db, e.value.txn);
      }
    }
  }

  lemma IssueKeepsOrders(db: DB, id: OrderId)
    ensures Issue(db, id).orders.Keys == db.orders.Keys
  {
  }

  lemma NextOk(s: Pipe, m: Member)
    requires MemberOk(s, m) && m.pos < |m.batch| && HandledAt(s, m.group, m.batch[m.pos])
    ensures MemberOk(s, Next(m))
  {
  }

  lemma HandleKeeps(c: Config, s: Pipe, mid: nat, ids: seq<nat>)
    requires PipeInv(c, s) && Enabled(c, s, Handle(mid, ids))
    ensures PipeInv(c, Do(c, s, Handle(mid, ids)))
  {
    hide Inv, KafkaInv, OffsetsOk, MemberOk, GoodIds, Effect, Forward, GatewayOk, NeedsRefund;
    var m := s.members[mid];
    var d := Effect(s, m);
    var v := WithDb(s, d, ids);
    var u := Do(c, s, Handle(mid, ids));
    EffectFacts(c, s, mid);
    AddKeeps(c, s, d, ids);
    assert HandledAt(v, m.group, m.batch[m.pos]) by { CurrentStays(c, s, d, ids, m); }
    NextOk(v, m);
    MemberSame(v, u, Next(m));
    SetMember(v, u, mid, Next(m));
    MembersOnly(c, v, u);
    GatewayRows(v, u);
  }

  lemma CurrentStays(c: Config, s: Pipe, d: DB, ids: seq<nat>, m: Member)
    requires KafkaInv(c, s) && MemberOk(s, m) && m.pos < |m.batch| && Forward(s.db, d)
    requires Current(s, m).Some? ==> Handled(d, m.group, Current(s, m).value)
    ensures HandledAt(WithDb(s, d, ids), m.group, m.batch[m.pos])
  {
    assert InLog(s, m.batch[m.pos]);
  }

  lemma DoKeeps(c: Config, s: Pipe, step: Pipeline.Step)
    requires PipeInv(c, s)
    ensures PipeInv(c, Do(c, s, step))
  {
    hide PipeInv, Enabled;
    if Enabled(c, s, step) {
      match step
      case Transact(t, ids) => TransactKeeps(c, s, t, ids);
      case LockBatch(batch) => LockKeeps(c, s, batch);
      case SendRecord(b) => SendKeeps(c, s, b);
      case MarkPublished => MarkKeeps(c, s);
      case RelayCrash => CrashKeeps(c, s);
      case Cleanup(i) => CleanupKeeps(c, s, i);
      case Poll(mid, g, batch, ends) => PollKeeps(c, s, mid, g, batch, ends);
      case PollOn(mid, batch, ends) => PollOnKeeps(c, s, mid, batch, ends);
      case CallGateway(mid) => CallKeeps(c, s, mid);
      case Handle(mid, ids) => HandleKeeps(c, s, mid, ids);
      case CommitOffsets(mid) => CommitKeeps(c, s, mid);
      case Evict(mid) => EvictKeeps(c, s, mid);
    }
  }

  lemma {:induction false} RunKeeps(c: Config, steps: seq<Pipeline.Step>)
    ensures PipeInv(c, Pipeline.Run(c, steps))
  {
    hide PipeInv, Do;
    if steps == [] {
      StartInv(c);
    } else {
      RunKeeps(c, steps[..|steps| - 1]);
      DoKeeps(c, Pipeline.Run(c, steps[..|steps| - 1]), steps[|steps| - 1]);
    }
  }
}
