/** The Redis backend: each operation is one script over the seat keys of an event, then a version bump. */
module RedisInventory {
  import opened Saga
  import opened SeatKeys

  datatype SeatStatus = Available | HeldSeat | SoldSeat

  /** MGET takes this many keys at a time. */
  const BATCH := 500

  function StatusOf(v: Option<Key>): SeatStatus {
    match v
    case None => Available
    case Some(HeldBy(_, _)) => HeldSeat
    case Some(SoldTo(_)) => SoldSeat
  }

  function Statuses(keys: Keys, event: int, ids: seq<string>, now: int): map<string, SeatStatus> {
    map id | id in ids :: StatusOf(Get(keys, Seat(event, id), now))
  }

  function Ids(seats: seq<Seat>): (r: seq<string>)
    ensures |r| == |seats| && forall i :: 0 <= i < |r| ==> r[i] == seats[i].id
  {
    seq(|seats|, i requires 0 <= i < |seats| => seats[i].id)
  }

  function SeatsOf(event: int, ids: seq<string>): (r: seq<Seat>)
    ensures |r| == |ids| && forall i :: 0 <= i < |r| ==> r[i] == Seat(event, ids[i])
  {
    seq(|ids|, i requires 0 <= i < |ids| => Seat(event, ids[i]))
  }

  /** The seats release.lua deletes. */
  function Released(keys: Keys, seats: seq<Seat>, o: OrderId, now: int): set<Seat> {
    set s | s in seats && Get(keys, s, now).Some? && keys[s].HeldBy? && keys[s].order == o
  }

  lemma ReleasedStep(keys: Keys, ks: seq<Seat>, i: nat, o: OrderId, now: int)
    requires i < |ks|
    ensures var done, next := Released(keys, ks[..i], o, now), Released(keys, ks[..i + 1], o, now);
      if ks[i] !in done && Get(keys, ks[i], now).Some? && keys[ks[i]].HeldBy? && keys[ks[i]].order == o
      then next == done + {ks[i]} && ks[i] in keys else next == done
  {
    assert ks[..i + 1] == ks[..i] + [ks[i]];
  }

  function Ttl(ms: int): int {
    if ms < 1 then 1 else ms
  }

  function Version(versions: map<int, int>, event: int): int {
    if event in versions then versions[event] else 0
  }

  class Redis {
    var keys: Keys
    var versions: map<int, int>

    constructor ()
      ensures keys == map[] && versions == map[]
    {
      keys, versions := map[], map[];
    }

    method BumpVersion(event: int)
      modifies this`versions
      ensures versions == old(versions)[event := Version(old(versions), event) + 1]
      ensures versions[event] == if event in old(versions) then old(versions)[event] + 1 else 1
    {
      versions := versions[event := Version(versions, event) + 1];
    }

    /** The first loop of hold.lua: the seats that belong to somebody else, in the order asked for. */
    method Blocked(ks: seq<Seat>, o: OrderId, now: int) returns (taken: seq<Seat>)
      ensures taken == Taken(keys, ks, o, now)
    {
      taken := [];
      for i := 0 to |ks|
        invariant taken == Taken(keys, ks[..i], o, now)
      {
        assert ks[..i + 1][..i] == ks[..i];
        var v := Get(keys, ks[i], now);
        if v.Some? && !(v.value.HeldBy? && v.value.order == o) {
          taken := taken + [ks[i]];
        }
      }
      assert ks[..|ks|] == ks;
    }

    /** The second loop of hold.lua. */
    method WriteHolds(ks: seq<Seat>, o: OrderId, until: int)
      modifies this`keys
      ensures keys == old(keys) + map s | s in ks :: HeldBy(o, until)
    {
      for i := 0 to |ks|
        invariant keys == old(keys) + map s | s in ks[..i] :: HeldBy(o, until)
      {
        assert ks[..i + 1] == ks[..i] + [ks[i]];
        keys := keys[ks[i] := HeldBy(o, until)];
      }
      assert ks[..|ks|] == ks;
    }

    method Hold(event: int, ids: seq<string>, o: OrderId, ttl: int, now: int) returns (taken: seq<string>)
      modifies this
      ensures taken == Ids(Taken(old(keys), SeatsOf(event, ids), o, now))
      ensures keys == SeatKeys.Hold(old(keys), SeatsOf(event, ids), o, now, now + Ttl(ttl))
      ensures versions == if taken == [] then old(versions)[event := Version(old(versions), event) + 1] else old(versions)
    {
      hide Taken, Holdable, Get;
      var ks := SeatsOf(event, ids);
      var blocked := Blocked(ks, o, now);
      taken := Ids(blocked);
      if blocked == [] {
        WriteHolds(ks, o, now + Ttl(ttl));
        BumpVersion(event);
      }
    }

    /** release.lua: the number of seats deleted. */
    method DeleteHeld(ks: seq<Seat>, o: OrderId, now: int) returns (n: nat)
      modifies this`keys
      ensures keys == SeatKeys.Release(old(keys), ks, o, now)
      ensures n == |Released(old(keys), ks, o, now)|
    {
      n := 0;
      for i := 0 to |ks|
        invariant keys == old(keys) - Released(old(keys), ks[..i], o, now)
        invariant n == |Released(old(keys), ks[..i], o, now)|
      {
        ReleasedStep(old(keys), ks, i, o, now);
        var v := Get(keys, ks[i], now);
        if v.Some? && v.value.HeldBy? && v.value.order == o {
          keys := keys - {ks[i]};
          n := n + 1;
        }
      }
      assert ks[..|ks|] == ks;
    }

    method Release(event: int, ids: seq<string>, o: OrderId, now: int)
      modifies this
      ensures keys == SeatKeys.Release(old(keys), SeatsOf(event, ids), o, now)
      ensures versions == if Released(old(keys), SeatsOf(event, ids), o, now) != {}
                          then old(versions)[event := Version(old(versions), event) + 1] else old(versions)
    {
      hide Released, SeatKeys.Release;
      var n := DeleteHeld(SeatsOf(event, ids), o, now);
      if n > 0 {
        BumpVersion(event);
      }
    }

    /** A mismatch stops at the seat of another order: what came before it stays sold, and nothing is bumped. */
    method Confirm(event: int, ids: seq<string>, o: OrderId, now: int) returns (ok: bool)
      modifies this
      ensures ok == ConfirmOk(old(keys), SeatsOf(event, ids), o, now)
      ensures keys == SeatKeys.Confirm(old(keys), SeatsOf(event, ids), o, now)
      ensures versions == if ok then old(versions)[event := Version(old(versions), event) + 1] else old(versions)
    {
      var ks := SeatsOf(event, ids);
      for i := 0 to |ks|
        invariant SeatKeys.Confirm(old(keys), ks, o, now) == SeatKeys.Confirm(keys, ks[i..], o, now)
        invariant ConfirmOk(old(keys), ks, o, now) == ConfirmOk(keys, ks[i..], o, now)
        invariant versions == old(versions)
      {
        assert ks[i..][0] == ks[i] && ks[i..][1..] == ks[i + 1..];
        var v := Get(keys, ks[i], now);
        if v == None || v.value.order == o {
          keys := keys[ks[i] := SoldTo(o)];
        } else {
          return false;
        }
      }
      ok := true;
      BumpVersion(event);
    }

    method Status(event: int, ids: seq<string>, now: int) returns (out: map<string, SeatStatus>)
      ensures out == Statuses(keys, event, ids, now)
    {
      var batches := Batches(event, ids, now);
      out := map[];
      var i := 0;
      for b := 0 to |batches|
        invariant i == |Joined(batches[..b])| && i <= |ids|
        invariant out == Statuses(keys, event, ids[..i], now)
      {
        assert batches[..b + 1][..b] == batches[..b];
        JoinedPrefix(batches, b + 1);
        assert forall j :: 0 <= j < |batches[b]| ==> Joined(batches)[i + j] == batches[b][j];
        out := ReadBatch(event, ids, now, i, batches[b], out);
        i := i + |batches[b]|;
      }
      assert batches[..|batches|] == batches;
      assert ids[..i] == ids;
    }

    /** The inner loop: one batch of answers, starting at the i-th id. */
    method ReadBatch(event: int, ids: seq<string>, now: int, i: nat, answers: seq<Option<Key>>, so: map<string, SeatStatus>)
      returns (out: map<string, SeatStatus>)
      requires i + |answers| <= |ids| && so == Statuses(keys, event, ids[..i], now)
      requires forall j :: 0 <= j < |answers| ==> answers[j] == Get(keys, Seat(event, ids[i + j]), now)
      ensures out == Statuses(keys, event, ids[..i + |answers|], now)
    {
      out := so;
      for j := 0 to |answers|
        invariant out == Statuses(keys, event, ids[..i + j], now)
      {
        assert ids[..i + j + 1] == ids[..i + j] + [ids[i + j]];
        out := out[ids[i + j] := StatusOf(answers[j])];
      }
    }

    /** The pipelined MGETs: at most BATCH keys each, answering key by key. */
    method Batches(event: int, ids: seq<string>, now: int) returns (batches: seq<seq<Option<Key>>>)
      ensures |Joined(batches)| == |ids|
      ensures forall i :: 0 <= i < |ids| ==> Joined(batches)[i] == Get(keys, Seat(event, ids[i]), now)
      ensures forall b :: 0 <= b < |batches| ==> 0 < |batches[b]| <= BATCH
    {
      batches := [];
      var start := 0;
      while start < |ids|
        invariant 0 <= start <= |ids| && |Joined(batches)| == start
        invariant forall i :: 0 <= i < start ==> Joined(batches)[i] == Get(keys, Seat(event, ids[i]), now)
        invariant forall b :: 0 <= b < |batches| ==> 0 < |batches[b]| <= BATCH
      {
        var end := if start + BATCH < |ids| then start + BATCH else |ids|;
        var values := seq(end - start, i requires 0 <= i < end - start reads this => Get(keys, Seat(event, ids[start + i]), now));
        assert (batches + [values])[..|batches|] == batches;
        batches := batches + [values];
        start := end;
      }
    }
  }

  function Joined<T>(parts: seq<seq<T>>): seq<T> {
    if parts == [] then [] else Joined(parts[..|parts| - 1]) + parts[|parts| - 1]
  }

  lemma {:induction false} JoinedPrefix<T>(parts: seq<seq<T>>, n: nat)
    requires n <= |parts|
    ensures Joined(parts[..n]) <= Joined(parts)
    decreases |parts|
  {
    if n < |parts| {
      JoinedPrefix(parts[..|parts| - 1], n);
      assert parts[..|parts| - 1][..n] == parts[..n];
    } else {
      assert parts[..n] == parts;
    }
  }
}
