/**
 The relay and the consumers as loops. Whatever the broker, the gateway or a shutdown does to them is a parameter; every
 move they make is a step of the pipeline, so its theorems hold of wherever they stop.
 */
module Workers {
  import opened Saga
  import opened SagaInv
  import opened Pipeline
  import opened PipelineInv
  import PipelineSteps
  import PipelineTheorems

  /** Retry backoff, in milliseconds. */
  const RETRY_MIN := 100
  const RETRY_MAX := 5_000

  const CLEANUP_BATCH := 10_000

  /** One call of a handler: it fails before or after its gateway call took effect, or it succeeds. */
  datatype Attempt = FailsEarly | FailsLate | Succeeds

  /** A fresh outbox id, above all that were drawn before. */
  function NextId(rows: seq<Row>): (id: nat)
    ensures forall i :: 0 <= i < |rows| ==> rows[i].id < id
  {
    if rows == [] then 1
    else
      var n := NextId(rows[..|rows| - 1]);
      if rows[|rows| - 1].id < n then n else rows[|rows| - 1].id + 1
  }

  function FreshIds(rows: seq<Row>, n: nat): (ids: seq<nat>)
    ensures |ids| == n && forall k :: 0 <= k < n ==> ids[k] == NextId(rows) + k
  {
    if n == 0 then [] else FreshIds(rows, n - 1) + [NextId(rows) + n - 1]
  }

  lemma FreshIdsAreGood(s: Pipe, d: DB)
    requires |s.rows| == |s.db.outbox| <= |d.outbox|
    ensures GoodIds(s, d, FreshIds(s.rows, |d.outbox| - |s.db.outbox|))
  {
  }

  /** Everything of partition p sent so far that failed keeps later records of p back. */
  predicate Kept(c: Config, s: Pipe, broken: set<Part>, n: nat) {
    s.relay.Sending? && forall b :: 0 <= b < n && b < |s.relay.batch| && s.relay.batch[b] < |s.db.outbox| ==>
      b in s.relay.sent || PartOf(c, s.db.outbox[s.relay.batch[b]]) in broken
  }

  class Worker {
    const c: Config
    var pipe: Pipe
    ghost var steps: seq<Pipeline.Step>

    /** The state is one the pipeline can reach. */
    ghost predicate Reachable()
      reads this
    {
      pipe == Pipeline.Run(c, steps)
    }

    constructor (c: Config)
      ensures Reachable() && pipe == START && this.c == c
    {
      this.c := c;
      pipe := START;
      steps := [];
    }

    method Take(step: Pipeline.Step)
      requires Reachable()
      modifies this
      ensures Reachable() && pipe == Do(c, old(pipe), step)
    {
      assert (steps + [step])[..|steps|] == steps;
      pipe := Do(c, pipe, step);
      steps := steps + [step];
    }

    // ---- the relay -------------------------------------------------------------

    /**
     ProduceSync: records go out in order within each partition; the first one a partition loses keeps its later ones
     back. True if every record was acknowledged.
     */
    method Produce(batch: seq<nat>, lost: nat -> bool) returns (all: bool)
      requires Reachable() && pipe.relay == Sending(batch, {}) && |pipe.rows| == |pipe.db.outbox|
      requires forall b :: 0 <= b < |batch| ==> batch[b] < |pipe.db.outbox|
      modifies this
      ensures Reachable() && pipe == old(pipe).(log := pipe.log, relay := pipe.relay)
      ensures all <==> AllSent(pipe.relay)
      ensures (forall b :: 0 <= b < |batch| ==> !lost(b)) ==> all
      ensures pipe.relay.Sending? && pipe.relay.batch == batch
    {
      var broken: set<Part> := {};
      all := true;
      ghost var missed := 0;
      for b := 0 to |batch|
        invariant Reachable() && pipe == old(pipe).(log := pipe.log, relay := pipe.relay)
        invariant pipe.relay.Sending? && pipe.relay.batch == batch
        invariant forall a :: a in pipe.relay.sent ==> a < b
        invariant Kept(c, pipe, broken, b)
        invariant all ==> broken == {} && forall a :: 0 <= a < b ==> a in pipe.relay.sent
        invariant !all ==> 0 <= missed < b && missed !in pipe.relay.sent
        invariant (forall a :: 0 <= a < b ==> !lost(a)) ==> all
      {
        var p := PartOf(c, pipe.db.outbox[batch[b]]);
        if lost(b) || p in broken {
          broken := broken + {p};
          if all {
            all, missed := false, b;
          }
        } else {
          assert CanSend(c, pipe, b);
          Take(SendRecord(b));
        }
      }
    }

    /** RunOnce: the locked batch is marked published only if every record was acknowledged, else nothing is marked. */
    method RunOnce(batch: seq<nat>, lost: nat -> bool) returns (n: nat)
      requires Reachable() && pipe.relay == Idle && OldestBatch(pipe, batch)
      modifies this
      ensures Reachable() && pipe.relay == Idle
      ensures pipe == old(pipe).(log := pipe.log, rows := pipe.rows)
      ensures n == 0 ==> pipe.rows == old(pipe).rows
      ensures n > 0 ==> n == |batch| && pipe.rows == MarkRows(old(pipe).rows, batch)
      ensures (forall b :: 0 <= b < |batch| ==> !lost(b)) ==> n == |batch|
    {
      hide OldestBatch, Pipeline.Run, CanSend;
      if batch == [] {
        return 0;
      }
      BatchInOutbox(c, pipe, steps, batch);
      Take(LockBatch(batch));
      var all := Produce(batch, lost);
      if all {
        Take(MarkPublished);
        n := |batch|;
      } else {
        Take(RelayCrash);
        n := 0;
      }
    }

    /** Cleanup: chunk by chunk until a short one; every row due is deleted and nothing else changes. */
    method Cleanup(due: set<nat>) returns (total: nat)
      requires Reachable() && forall i :: i in due ==> i < |pipe.rows| && pipe.rows[i].published && !pipe.rows[i].deleted
      modifies this
      ensures Reachable() && total == |due|
      ensures pipe == old(pipe).(rows := pipe.rows) && |pipe.rows| == |old(pipe).rows|
      ensures forall i :: 0 <= i < |pipe.rows| ==>
        pipe.rows[i] == if i in due then old(pipe).rows[i].(deleted := true) else old(pipe).rows[i]
    {
      total := 0;
      var left := due;
      while true
        invariant Reachable() && left <= due && total + |left| == |due|
        invariant pipe == old(pipe).(rows := pipe.rows) && |pipe.rows| == |old(pipe).rows|
        invariant forall i :: 0 <= i < |pipe.rows| ==>
          pipe.rows[i] == if i in due && i !in left then old(pipe).rows[i].(deleted := true) else old(pipe).rows[i]
        decreases |left|
      {
        var n := 0;
        ghost var before := left;
        while n < CLEANUP_BATCH && left != {}
          invariant Reachable() && left <= due && 0 <= n <= CLEANUP_BATCH && total + n + |left| == |due| && |left| + n == |before|
          invariant pipe == old(pipe).(rows := pipe.rows) && |pipe.rows| == |old(pipe).rows|
          invariant forall i :: 0 <= i < |pipe.rows| ==>
            pipe.rows[i] == if i in due && i !in left then old(pipe).rows[i].(deleted := true) else old(pipe).rows[i]
        {
          var i :| i in left;
          Take(Pipeline.Cleanup(i));
          left := left - {i};
          n := n + 1;
        }
        total := total + n;
        if n < CLEANUP_BATCH {
          return;
        }
      }
    }

    // ---- the consumers -----------------------------------------------------------

    /** One call of the handler on the member's current record; the permanent failures it knows cannot occur. */
    method Handler(mid: nat, a: Attempt) returns (ok: bool)
      requires Reachable() && mid in pipe.members && pipe.members[mid].pos < |pipe.members[mid].batch|
      modifies this
      ensures Reachable() && mid in pipe.members && pipe.offsets == old(pipe).offsets && pipe.log == old(pipe).log
      ensures ok == a.Succeeds?
      ensures pipe.members[mid] == if ok then Next(old(pipe).members[mid]) else old(pipe).members[mid].(asked := pipe.members[mid].asked)
    {
      hide Pipeline.Run, GoodIds, Effect, GatewayAccepts;
      if a.FailsEarly? {
        return false;
      }
      NeverPermanent(c, pipe, steps, mid);
      if PermanentSkip(pipe, pipe.members[mid]) {
        assert false;
      }
      AcceptedByGateway(c, pipe, steps, mid);
      if NeedsRefund(pipe, pipe.members[mid]) {
        Take(CallGateway(mid));
      }
      AskedEnough(old(pipe), mid);
      if a.FailsLate? {
        return false;
      }
      EffectGrows(c, pipe, steps, mid);
      FreshIdsAreGood(pipe, Effect(pipe, pipe.members[mid]));
      Take(Handle(mid, FreshIds(pipe.rows, |Effect(pipe, pipe.members[mid]).outbox| - |pipe.db.outbox|)));
      ok := true;
    }

    /** process: retry in place until the handler succeeds; false only when the attempts are cut short by a shutdown. */
    method Process(mid: nat, attempts: seq<Attempt>) returns (ok: bool)
      requires Reachable() && mid in pipe.members && pipe.members[mid].pos < |pipe.members[mid].batch|
      modifies this
      ensures Reachable() && mid in pipe.members && pipe.offsets == old(pipe).offsets && pipe.log == old(pipe).log
      ensures ok <==> Succeeds in attempts
      ensures pipe.members[mid] == if ok then Next(old(pipe).members[mid]) else old(pipe).members[mid].(asked := pipe.members[mid].asked)
    {
      var wait := RETRY_MIN;
      for i := 0 to |attempts|
        invariant Reachable() && mid in pipe.members && pipe.offsets == old(pipe).offsets && pipe.log == old(pipe).log
        invariant pipe.members[mid] == old(pipe).members[mid].(asked := pipe.members[mid].asked)
        invariant Succeeds !in attempts[..i]
        invariant RETRY_MIN <= wait <= RETRY_MAX
      {
        assert attempts[..i + 1] == attempts[..i] + [attempts[i]];
        var done := Handler(mid, attempts[i]);
        if done {
          return true;
        }
        wait := if wait * 2 < RETRY_MAX then wait * 2 else RETRY_MAX;
      }
      assert attempts[..|attempts|] == attempts;
      ok := false;
    }

    /**
     One round of Consume: records one at a time in poll order, offsets committed after the whole batch. A shutdown in
     the middle commits nothing; a commit that fails leaves the offsets behind, and the next round goes on from the
     client's own position. A client is new, or has worked off its previous batch.
     */
    method ConsumeBatch(mid: nat, g: Group, batch: seq<Slot>, ends: map<Part, nat>, attempts: nat -> seq<Attempt>, commits: bool)
      returns (ok: bool)
      requires Reachable()
      requires if mid in pipe.members
               then pipe.members[mid].group == g && pipe.members[mid].pos == |pipe.members[mid].batch|
                    && GoodNext(pipe, pipe.members[mid], batch, ends)
               else GoodPoll(pipe, g, batch, ends)
      modifies this
      ensures Reachable() && pipe.log == old(pipe).log && mid in pipe.members
      ensures ok <==> forall k :: 0 <= k < |batch| ==> Succeeds in attempts(k)
      ensures !ok || !commits ==> pipe.offsets == old(pipe).offsets
      ensures ok && commits ==>
        forall h, p :: Committed(pipe, h, p) == if h == g && p in ends then ends[p] else Committed(old(pipe), h, p)
      ensures ok ==> pipe.members[mid] == Member(g, batch, ends, |batch|, false)
      ensures ok ==> forall b :: 0 <= b < |batch| ==> HandledAt(pipe, g, batch[b])
    {
      hide Pipeline.Run, GoodPoll, GoodNext, HandledAt;
      if mid in pipe.members {
        Take(PollOn(mid, batch, ends));
      } else {
        Take(Poll(mid, g, batch, ends));
      }
      for k := 0 to |batch|
        invariant Reachable() && mid in pipe.members && pipe.offsets == old(pipe).offsets && pipe.log == old(pipe).log
        invariant pipe.members[mid] == Member(g, batch, ends, k, false)
        invariant forall j :: 0 <= j < k ==> Succeeds in attempts(j)
      {
        var done := Process(mid, attempts(k));
        if !done {
          return false;
        }
      }
      BatchHandled(c, pipe, steps, mid);
      ghost var before := pipe;
      if commits {
        Take(CommitOffsets(mid));
      }
      StillHandled(before, pipe, g, batch);
      ok := true;
    }
  }

  lemma BatchInOutbox(c: Config, s: Pipe, steps: seq<Pipeline.Step>, batch: seq<nat>)
    requires s == Pipeline.Run(c, steps) && OldestBatch(s, batch)
    ensures |s.rows| == |s.db.outbox| && forall b :: 0 <= b < |batch| ==> batch[b] < |s.db.outbox|
  {
    hide Pipeline.Run;
    PipelineSteps.RunKeeps(c, steps);
  }

  /** No record the pipeline delivers fails for good. */
  lemma NeverPermanent(c: Config, s: Pipe, steps: seq<Pipeline.Step>, mid: nat)
    requires s == Pipeline.Run(c, steps) && mid in s.members
    ensures !PermanentSkip(s, s.members[mid])
  {
    PipelineTheorems.NothingIsSkipped(c, steps, mid);
  }

  /** The gateway never refuses a refund the pipeline asks for. */
  lemma AcceptedByGateway(c: Config, s: Pipe, steps: seq<Pipeline.Step>, mid: nat)
    requires s == Pipeline.Run(c, steps) && mid in s.members
    ensures NeedsRefund(s, s.members[mid]) ==> GatewayAccepts(s, Current(s, s.members[mid]).value.txn)
  {
    hide Pipeline.Run, KafkaInv, OffsetsOk, MembersOk, GatewayOk;
    PipelineSteps.RunKeeps(c, steps);
    if NeedsRefund(s, s.members[mid]) {
      PipelineSteps.CurrentIsOutbox(s, s.members[mid]);
      RequestHasRefund(s.db, Current(s, s.members[mid]).value);
    }
  }

  /** After the gateway call, if one was needed, the record may be handled. */
  lemma AskedEnough(s: Pipe, mid: nat)
    requires mid in s.members
    requires NeedsRefund(s, s.members[mid]) ==> GatewayAccepts(s, Current(s, s.members[mid]).value.txn)
    ensures NeedsRefund(s, s.members[mid]) ==>
      var u := AskGateway(s, mid); NeedsRefund(u, u.members[mid]) && u.members[mid] == s.members[mid].(asked := true)
  {
  }

  lemma EffectGrows(c: Config, s: Pipe, steps: seq<Pipeline.Step>, mid: nat)
    requires s == Pipeline.Run(c, steps) && mid in s.members
    ensures |s.rows| == |s.db.outbox| <= |Effect(s, s.members[mid]).outbox|
  {
    hide Pipeline.Run, Inv, LogOk, PublishedIsSent, InOrder, RelayOk, OffsetsOk, MembersOk, GatewayOk;
    PipelineSteps.RunKeeps(c, steps);
    OutboxGrows(s, s.members[mid]);
  }

  lemma OutboxGrows(s: Pipe, m: Member)
    ensures |s.db.outbox| <= |Effect(s, m).outbox|
  {
  }

  lemma BatchHandled(c: Config, s: Pipe, steps: seq<Pipeline.Step>, mid: nat)
    requires s == Pipeline.Run(c, steps) && mid in s.members && s.members[mid].pos == |s.members[mid].batch|
    ensures forall b :: 0 <= b < |s.members[mid].batch| ==> HandledAt(s, s.members[mid].group, s.members[mid].batch[b])
  {
    hide Pipeline.Run, HandledAt;
    PipelineSteps.RunKeeps(c, steps);
    assert MemberOk(s, s.members[mid]);
  }

  lemma StillHandled(s: Pipe, u: Pipe, g: Group, batch: seq<Slot>)
    requires u.db == s.db && u.log == s.log
    requires forall b :: 0 <= b < |batch| ==> HandledAt(s, g, batch[b])
    ensures forall b :: 0 <= b < |batch| ==> HandledAt(u, g, batch[b])
  {
    forall b | 0 <= b < |batch| ensures HandledAt(u, g, batch[b]) {
      assert HandledAt(s, g, batch[b]);
      assert EventAt(u, batch[b]) == EventAt(s, batch[b]);
    }
  }
}
