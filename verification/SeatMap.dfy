/**
 Seat maps of one event while seats change. An inventory operation takes effect, and later, as a separate step, bumps
 the version; a bump may be delayed or lost. A reader first reads the version, then the seats, batch by batch, with
 anything in between.
 */
module SeatMap {
  import opened Saga
  import opened SeatKeys
  import opened RedisInventory
  import opened Etags
  import Backends

  datatype Change =
    | HoldSeats(order: OrderId, seats: seq<Seat>, until: int)
    | ReleaseSeats(order: OrderId, seats: seq<Seat>)
    | ConfirmSeats(order: OrderId, seats: seq<Seat>)

  function After(keys: Keys, c: Change, now: int): Keys {
    match c
    case HoldSeats(o, seats, until) => Hold(keys, seats, o, now, until)
    case ReleaseSeats(o, seats) => Release(keys, seats, o, now)
    case ConfirmSeats(o, seats) => Confirm(keys, seats, o, now)
  }

  /** The operation bumps the version once it took effect. */
  predicate Bumps(keys: Keys, c: Change, now: int) {
    match c
    case HoldSeats(o, seats, _) => Taken(keys, seats, o, now) == []
    case ReleaseSeats(o, seats) => Released(keys, seats, o, now) != {}
    case ConfirmSeats(o, seats) => ConfirmOk(keys, seats, o, now)
  }

  lemma NothingReleased(keys: Keys, seats: seq<Seat>, o: OrderId, now: int)
    ensures Released(keys, seats, o, now) == {} ==> Release(keys, seats, o, now) == keys
  {
    if Released(keys, seats, o, now) == {} {
      assert forall s :: s in keys ==> s !in Released(keys, seats, o, now);
    }
  }

  /** Seat s is held by order o at this time, and not sold. */
  predicate HoldsNow(keys: Keys, s: Seat, o: OrderId, now: int) {
    s in keys && keys[s].HeldBy? && keys[s].order == o && now < keys[s].until
  }

  predicate FreeNow(keys: Keys, s: Seat, now: int) {
    s !in keys || (keys[s].HeldBy? && keys[s].until <= now)
  }

  /**
   Exactly which operations owe a bump: a hold that gets all its seats, a release that finds one of the order's holds,
   a confirm that meets no seat of another order.
   */
  lemma BumpsIff(keys: Keys, c: Change, now: int)
    ensures c.HoldSeats? ==>
      (Bumps(keys, c, now) <==> forall s :: s in c.seats ==> FreeNow(keys, s, now) || HoldsNow(keys, s, c.order, now))
    ensures c.ReleaseSeats? ==> (Bumps(keys, c, now) <==> exists s :: s in c.seats && HoldsNow(keys, s, c.order, now))
    ensures c.ConfirmSeats? ==>
      (Bumps(keys, c, now) <==> forall s :: s in c.seats ==> FreeNow(keys, s, now) || (s in keys && keys[s].order == c.order))
  {
    match c
    case HoldSeats(o, seats, _) => TakenIsExact(keys, seats, o, now);
    case ReleaseSeats(o, seats) =>
      assert forall s :: s in Released(keys, seats, o, now) <==> s in seats && HoldsNow(keys, s, o, now);
    case ConfirmSeats(o, seats) =>
      Backends.ConfirmSellsPrefix(keys, seats, o, now);
      var k := Backends.Stop(keys, seats, o, now);
      assert k < |seats| ==> seats[k] in seats;
  }

  /** An operation that changes the store bumps the version, unless it is a confirm that stopped at another order's seat. */
  lemma ChangeIsBumpedIff(keys: Keys, c: Change, now: int)
    requires After(keys, c, now) != keys
    ensures Bumps(keys, c, now) <==> (c.ConfirmSeats? ==> Backends.Stop(keys, c.seats, c.order, now) == |c.seats|)
  {
    if c.ConfirmSeats? {
      Backends.ConfirmSellsPrefix(keys, c.seats, c.order, now);
    } else if c.ReleaseSeats? {
      NothingReleased(keys, c.seats, c.order, now);
    }
  }

  /** Such a confirm does change the map without a bump: here it sells A1 and stops at A2. */
  lemma PartialConfirmIsSilent()
    ensures exists keys: SeatKeys.Keys, c, now :: After(keys, c, now) != keys && !Bumps(keys, c, now)
  {
    var a, b := Seat(1, "A1"), Seat(1, "A2");
    var keys: SeatKeys.Keys := map[b := HeldBy(2, 10)];
    var c := ConfirmSeats(1, [a, b]);
    assert "A1"[1] != "A2"[1];
    assert [a, b][1..] == [b];
    var next := keys[a := SoldTo(1)];
    assert Confirmable(keys, a, 1, 0) && !Confirmable(next, b, 1, 0);
    assert Confirm(next, [b], 1, 0) == next && !ConfirmOk(next, [b], 1, 0);
    assert After(keys, c, 0) == keys[a := SoldTo(1)];
    assert a in After(keys, c, 0) && a !in keys;
    assert !Bumps(keys, c, 0);
  }

  /** One operation in the order they took effect: whether it owes a bump, and the version its bump produced. */
  datatype Op = Op(owes: bool, bump: Option<nat>)

  /** What a reader saw of one seat: how many operations had taken effect, and when. */
  datatype Reading = Reading(at: nat, time: int, status: SeatStatus)

  datatype Reader = Reader(version: nat, seats: map<Seat, Reading>)

  /** stores[i] is the key store after i operations. */
  datatype World = World(now: int, stores: seq<Keys>, ops: seq<Op>, version: nat, readers: map<nat, Reader>)

  const START := World(0, [map[]], [], 0, map[])

  datatype Step =
    | Tick(to: int)
    | TakeEffect(change: Change)
    | Bump(op: nat)
    | ReadVersion(reader: nat)
    | ReadBatch(reader: nat, batch: seq<Seat>)

  predicate Enabled(w: World, step: Step) {
    |w.stores| == |w.ops| + 1 &&
    match step
    case Tick(to) => w.now <= to
    case TakeEffect(_) => true
    case Bump(i) => i < |w.ops| && w.ops[i].owes && w.ops[i].bump == None
    case ReadVersion(r) => r !in w.readers
    case ReadBatch(r, batch) => r in w.readers && |batch| <= BATCH && forall s :: s in batch ==> s !in w.readers[r].seats
  }

  function Keys(w: World): SeatKeys.Keys
    requires |w.stores| == |w.ops| + 1
  {
    w.stores[|w.ops|]
  }

  function Do(w: World, step: Step): World
    requires Enabled(w, step)
  {
    match step
    case Tick(to) => w.(now := to)
    case TakeEffect(c) =>
      w.(stores := w.stores + [After(Keys(w), c, w.now)], ops := w.ops + [Op(Bumps(Keys(w), c, w.now), None)])
    case Bump(i) => w.(version := w.version + 1, ops := w.ops[i := w.ops[i].(bump := Some(w.version + 1))])
    case ReadVersion(r) => w.(readers := w.readers[r := Reader(w.version, map[])])
    case ReadBatch(r, batch) =>
      var now := map s | s in batch :: Reading(|w.ops|, w.now, StatusOf(Get(Keys(w), s, w.now)));
      w.(readers := w.readers[r := w.readers[r].(seats := w.readers[r].seats + now)])
  }

  // ---- invariant ----------------------------------------------------------------------

  predicate BumpedBy(op: Op, version: nat) {
    op.bump.Some? && op.bump.value <= version
  }

  /** Operations bumped by the reader's version had taken effect before the reader read any seat. */
  ghost predicate Fresh(w: World, r: Reader) {
    && r.version <= w.version
    && (forall i :: 0 <= i < |w.ops| && BumpedBy(w.ops[i], r.version) ==> forall s :: s in r.seats ==> i < r.seats[s].at)
  }

  /** Every reading is of the store as it was. */
  ghost predicate Faithful(w: World, r: Reader)
    requires |w.stores| == |w.ops| + 1
  {
    forall s :: s in r.seats ==>
      && r.seats[s].at <= |w.ops|
      && r.seats[s].time <= w.now
      && r.seats[s].status == StatusOf(Get(w.stores[r.seats[s].at], s, r.seats[s].time))
  }

  ghost predicate Good(w: World) {
    && |w.stores| == |w.ops| + 1
    && (forall i :: 0 <= i < |w.ops| && w.ops[i].bump.Some? ==> w.ops[i].bump.value <= w.version)
    && (forall r :: r in w.readers ==> Fresh(w, w.readers[r]) && Faithful(w, w.readers[r]))
  }

  lemma ReaderStays(w: World, u: World, r: Reader)
    requires |w.stores| == |w.ops| + 1 && |u.stores| == |u.ops| + 1 && Fresh(w, r) && Faithful(w, r)
    requires w.version <= u.version && w.now <= u.now && w.stores <= u.stores
    requires forall i :: 0 <= i < |u.ops| && u.ops[i].bump.Some? ==>
      u.ops[i].bump.value > w.version || (i < |w.ops| && w.ops[i].bump == u.ops[i].bump)
    ensures Fresh(u, r) && Faithful(u, r)
  {
    hide Get, StatusOf;
  }

  lemma ReaderReads(w: World, u: World, r: Reader, batch: seq<Seat>)
    requires Good(w) && Fresh(w, r) && Faithful(w, r) && u == w.(readers := u.readers)
    ensures var now := map s | s in batch :: Reading(|w.ops|, w.now, StatusOf(Get(Keys(w), s, w.now)));
      Fresh(u, r.(seats := r.seats + now)) && Faithful(u, r.(seats := r.seats + now))
  {
    hide Get, StatusOf;
  }

  lemma DoKeeps(w: World, step: Step)
    requires Good(w) && Enabled(w, step)
    ensures Good(Do(w, step))
  {
    hide Fresh, Faithful, After, Bumps;
    var u := Do(w, step);
    forall r | r in u.readers ensures Fresh(u, u.readers[r]) && Faithful(u, u.readers[r]) {
      if step.ReadVersion? && r == step.reader {
        NewReader(u, u.readers[r]);
      } else if step.ReadBatch? && r == step.reader {
        ReaderReads(w, u, w.readers[r], step.batch);
      } else {
        ReaderStays(w, u, w.readers[r]);
      }
    }
  }

  lemma NewReader(u: World, r: Reader)
    requires |u.stores| == |u.ops| + 1 && r == Reader(r.version, map[]) && r.version <= u.version
    ensures Fresh(u, r) && Faithful(u, r)
  {
  }

  ghost predicate IsRun(ws: seq<World>, steps: seq<Step>) {
    && |ws| == |steps| + 1 && ws[0] == START
    && forall i :: 0 <= i < |steps| ==> Enabled(ws[i], steps[i]) && ws[i + 1] == Do(ws[i], steps[i])
  }

  lemma {:induction false} EveryStateIsGood(ws: seq<World>, steps: seq<Step>, n: nat)
    requires IsRun(ws, steps) && n < |ws|
    ensures Good(ws[n])
  {
    hide Enabled, Do;
    if n > 0 {
      EveryStateIsGood(ws, steps, n - 1);
      DoKeeps(ws[n - 1], steps[n - 1]);
    }
  }

  // ---- what a client can rely on ----------------------------------------------------------

  /** In a map tagged v every seat shows a store that includes every operation bumped up to v. */
  lemma MapIsFresh(ws: seq<World>, steps: seq<Step>, r: nat, s: Seat, i: nat)
    requires IsRun(ws, steps) && r in ws[|steps|].readers && s in ws[|steps|].readers[r].seats && i < |ws[|steps|].ops|
    requires BumpedBy(ws[|steps|].ops[i], ws[|steps|].readers[r].version)
    ensures var w := ws[|steps|]; var seen := w.readers[r].seats[s];
      i < seen.at < |w.stores| && seen.status == StatusOf(Get(w.stores[seen.at], s, seen.time))
  {
    hide Enabled, Do, Get, StatusOf;
    EveryStateIsGood(ws, steps, |steps|);
    assert Fresh(ws[|steps|], ws[|steps|].readers[r]) && Faithful(ws[|steps|], ws[|steps|].readers[r]);
  }

  function Versions(w: World, maps: seq<nat>): (vs: seq<nat>)
    requires forall m :: m in maps ==> m in w.readers
    ensures |vs| == |maps| && forall k :: 0 <= k < |maps| ==> vs[k] == w.readers[maps[k]].version
  {
    seq(|maps|, k requires 0 <= k < |maps| => assert maps[k] in maps; w.readers[maps[k]].version)
  }

  /** Whatever map m misses of seat s had not been bumped when the version of reader cached was read. */
  ghost predicate MissesOnlyUnbumped(w: World, m: nat, cached: nat)
    requires m in w.readers && cached in w.readers
  {
    forall s, i | s in w.readers[m].seats && w.readers[m].seats[s].at <= i < |w.ops| :: !BumpedBy(w.ops[i], w.readers[cached].version)
  }

  /**
   A client keeps some maps and names all their tags; the server answers 304 on behalf of the entry of reader cached.
   Then one of the client's maps has the entry's version, and that map misses only changes that had not been bumped
   when an entry of this version read its version.
   */
  lemma NotModifiedMissesOnlyUnbumped(ws: seq<World>, steps: seq<Step>, maps: seq<nat>, cached: nat)
    requires IsRun(ws, steps) && maps != [] && cached in ws[|steps|].readers && forall m :: m in maps ==> m in ws[|steps|].readers
    requires EtagMatches(Header(Versions(ws[|steps|], maps)), VersionETag(ws[|steps|].readers[cached].version))
    ensures exists m :: m in maps && ws[|steps|].readers[m].version == ws[|steps|].readers[cached].version
                        && MissesOnlyUnbumped(ws[|steps|], m, cached)
  {
    hide Enabled, Do, Get, StatusOf, EtagMatches, Header, VersionETag;
    var w := ws[|steps|];
    EveryStateIsGood(ws, steps, |steps|);
    HeaderMatchesIff(Versions(w, maps), w.readers[cached].version);
    var k :| 0 <= k < |maps| && Versions(w, maps)[k] == w.readers[cached].version;
    assert maps[k] in maps;
    assert Fresh(w, w.readers[maps[k]]);
    assert MissesOnlyUnbumped(w, maps[k], cached);
  }

  /** Every operation so far has bumped or changed nothing. */
  ghost predicate Settled(w: World)
    requires |w.stores| == |w.ops| + 1
  {
    forall i :: 0 <= i < |w.ops| ==> w.ops[i].bump.Some? || w.stores[i + 1] == w.stores[i]
  }

  lemma {:induction false} SameStore(w: World, n: nat)
    requires |w.stores| == |w.ops| + 1 && n <= |w.ops|
    requires forall i :: n <= i < |w.ops| ==> w.stores[i + 1] == w.stores[i]
    ensures w.stores[n] == Keys(w)
    decreases |w.ops| - n
  {
    if n < |w.ops| {
      SameStore(w, n + 1);
    }
  }

  /** Once every change has bumped, a map that still matches the current version shows the current store. */
  lemma SettledMapIsCurrent(ws: seq<World>, steps: seq<Step>, mine: nat, s: Seat)
    requires IsRun(ws, steps) && mine in ws[|steps|].readers && s in ws[|steps|].readers[mine].seats
    requires |ws[|steps|].stores| == |ws[|steps|].ops| + 1 && Settled(ws[|steps|])
    requires ws[|steps|].readers[mine].version == ws[|steps|].version
    ensures ws[|steps|].readers[mine].seats[s].status
         == StatusOf(Get(Keys(ws[|steps|]), s, ws[|steps|].readers[mine].seats[s].time))
  {
    hide Enabled, Do, Get, StatusOf;
    var w := ws[|steps|];
    EveryStateIsGood(ws, steps, |steps|);
    assert Fresh(w, w.readers[mine]) && Faithful(w, w.readers[mine]);
    var at := w.readers[mine].seats[s].at;
    forall i | at <= i < |w.ops| ensures w.stores[i + 1] == w.stores[i] {
      assert !BumpedBy(w.ops[i], w.readers[mine].version);
    }
    SameStore(w, at);
  }

  // ---- the cache in front ------------------------------------------------------------------

  datatype Entry = Entry(body: string, etag: string, expires: int)

  class Cache {
    const ttl: int
    var entries: map<int, Entry>

    constructor (ttl: int)
      ensures entries == map[] && this.ttl == ttl
    {
      this.ttl := ttl;
      entries := map[];
    }

    /** Every entry was loaded less than ttl before it expires. */
    ghost predicate Valid(now: int)
      reads this
    {
      forall e :: e in entries ==> entries[e].expires <= now + ttl
    }

    /**
     get: an entry that has not expired is served as it is, else the loader's answer is stored and served. The clock
     reads now before the load and later after it. What is served was loaded at most ttl ago, and an error stores nothing.
     */
    method Get(event: int, now: int, load: Option<(string, string)>, later: int) returns (r: Option<Entry>)
      requires Valid(now) && now <= later
      modifies this
      ensures Valid(later)
      ensures old(event in entries && now < entries[event].expires) ==> r == Some(old(entries)[event]) && entries == old(entries)
      ensures !old(event in entries && now < entries[event].expires) ==>
        if load.Some? then r == Some(Entry(load.value.0, load.value.1, later + ttl)) && entries == old(entries)[event := r.value]
        else r == None && entries == old(entries)
      ensures r.Some? ==> now < r.value.expires <= later + ttl || ttl <= 0
    {
      if event in entries && now < entries[event].expires {
        return Some(entries[event]);
      }
      if load.None? {
        return None;
      }
      var e := Entry(load.value.0, load.value.1, later + ttl);
      entries := entries[event := e];
      r := Some(e);
    }
  }
}
