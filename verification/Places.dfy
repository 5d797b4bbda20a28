/**
 One place per user, under overlapping joins and workers. A join reads the user's key, then the token of the id it
 names, then that id's rank, and only then runs its script; other joins and any number of workers come between any two
 of these. This module says exactly which halls are safe, in the sense that no joins can give a user two ids that wait
 or show a token, and exactly which steps of the workers and the clock leave the safe halls.
 */
module Places {
  import opened Saga
  import opened Sums
  import opened WaitingRoom
  import Queue

  /** A join at work: it knows the user's id, has found no token for it, or is about to run the script. */
  datatype Look =
    | GotKey(user: User, qid: Qid)
    | NoToken(user: User, qid: Qid)
    | Ready(user: User, spent: Option<Qid>)

  /** who is a history: the user of every id ever given out. */
  datatype Hall = Hall(room: Room, places: map<User, Queue.Place>, who: map<Qid, User>, looks: map<nat, Look>)

  const EMPTY_HALL := Hall(START, map[], map[], map[])

  /** The id waits, or shows a token. */
  predicate Active(r: Room, q: Qid) {
    q in r.queue || LiveKey(r, q)
  }

  predicate HasPlace(h: Hall, u: User) {
    u in h.places && h.room.now < h.places[u].until
  }

  datatype Step =
    | InRoom(step: WaitingRoom.Step)
    | ReadKey(join: nat, user: User)
    | ReadToken(join: nat)
    | ReadRank(join: nat)
    | Enter(join: nat, newId: Qid)

  predicate Enabled(h: Hall, step: Step, batch: nat, ttl: nat) {
    match step
    case InRoom(s) => !s.Join? && WellFormed(h.room) && WaitingRoom.Enabled(h.room, s, batch, ttl)
    case ReadKey(j, _) => j !in h.looks
    case ReadToken(j) => j in h.looks && h.looks[j].GotKey?
    case ReadRank(j) => j in h.looks && h.looks[j].NoToken?
    case Enter(j, q) => j in h.looks && h.looks[j].Ready? && q !in h.room.joined && q !in h.who && q !in h.room.admitted
  }

  /** The script keeps a place the user's key names, unless it is the one the join found spent. */
  predicate Keeps(h: Hall, l: Look)
    requires l.Ready?
  {
    HasPlace(h, l.user) && Some(h.places[l.user].qid) != l.spent
  }

  function Arrive(r: Room, q: Qid, u: User): Room {
    r.(queue := r.queue[q := r.now], owner := r.owner[q := u], joined := r.joined[q := r.now])
  }

  function DoEnter(h: Hall, j: nat, q: Qid): Hall
    requires j in h.looks && h.looks[j].Ready?
  {
    var l := h.looks[j];
    if Keeps(h, l) then h.(looks := h.looks - {j})
    else
      Hall(Arrive(h.room, q, l.user), h.places[l.user := Queue.Place(q, h.room.now + Queue.USER_TTL)],
           h.who[q := l.user], h.looks - {j})
  }

  function Do(h: Hall, step: Step, batch: nat, ttl: nat): Hall
    requires Enabled(h, step, batch, ttl)
  {
    match step
    case InRoom(s) => h.(room := WaitingRoom.Do(h.room, s, batch, ttl))
    case ReadKey(j, u) => h.(looks := h.looks[j := if HasPlace(h, u) then GotKey(u, h.places[u].qid) else Ready(u, None)])
    case ReadToken(j) =>
      var l := h.looks[j];
      h.(looks := if LiveKey(h.room, l.qid) then h.looks - {j} else h.looks[j := NoToken(l.user, l.qid)])
    case ReadRank(j) =>
      var l := h.looks[j];
      h.(looks := if l.qid in h.room.queue then h.looks - {j} else h.looks[j := Ready(l.user, Some(l.qid))])
    case Enter(j, q) => DoEnter(h, j, q)
  }

  function Next(h: Hall, step: Step, batch: nat, ttl: nat): Hall {
    if Enabled(h, step, batch, ttl) then Do(h, step, batch, ttl) else h
  }

  function RunFrom(h: Hall, steps: seq<Step>, batch: nat, ttl: nat): Hall {
    if steps == [] then h else Next(RunFrom(h, steps[..|steps| - 1], batch, ttl), steps[|steps| - 1], batch, ttl)
  }

  function Run(steps: seq<Step>, batch: nat, ttl: nat): Hall {
    RunFrom(EMPTY_HALL, steps, batch, ttl)
  }

  lemma RunSnoc(h: Hall, steps: seq<Step>, step: Step, batch: nat, ttl: nat)
    ensures RunFrom(h, steps + [step], batch, ttl) == Next(RunFrom(h, steps, batch, ttl), step, batch, ttl)
  {
    assert (steps + [step])[..|steps|] == steps;
  }

  // ---- what every hall keeps ---------------------------------------------------------------

  predicate Owns(h: Hall, u: User, q: Qid) {
    q in h.who && h.who[q] == u
  }

  predicate LookOwned(h: Hall, l: Look) {
    match l
    case GotKey(u, q) => Owns(h, u, q)
    case NoToken(u, q) => Owns(h, u, q)
    case Ready(u, spent) => spent.Some? ==> Owns(h, u, spent.value)
  }

  /** The room is sound, and keys and joins name ids of their own users. */
  ghost predicate Sound(h: Hall, ttl: nat) {
    && Good(h.room, ttl) && KeysOk(h.room) && WellFormed(h.room)
    && h.who.Keys == h.room.joined.Keys
    && (forall u :: u in h.places ==> Owns(h, u, h.places[u].qid))
    && (forall j :: j in h.looks ==> LookOwned(h, h.looks[j]))
  }

  lemma RoomKeepsSound(h: Hall, s: WaitingRoom.Step, batch: nat, ttl: nat)
    requires Sound(h, ttl) && Enabled(h, InRoom(s), batch, ttl)
    ensures Sound(Do(h, InRoom(s), batch, ttl), ttl)
  {
    hide Good, KeysOk, WellFormed, WaitingRoom.Enabled;
    WaitingRoom.DoKeeps(h.room, s, batch, ttl);
    SameJoined(h.room, s, batch, ttl);
  }

  lemma SameJoined(r: Room, s: WaitingRoom.Step, batch: nat, ttl: nat)
    requires WellFormed(r) && WaitingRoom.Enabled(r, s, batch, ttl) && !s.Join?
    ensures WaitingRoom.Do(r, s, batch, ttl).joined == r.joined
  {
  }

  lemma EnterKeepsSound(h: Hall, j: nat, q: Qid, batch: nat, ttl: nat)
    requires Sound(h, ttl) && Enabled(h, Enter(j, q), batch, ttl)
    ensures Sound(Do(h, Enter(j, q), batch, ttl), ttl)
  {
    hide Good, KeysOk, WellFormed;
    var l := h.looks[j];
    if !Keeps(h, l) {
      WaitingRoom.DoKeeps(h.room, Join(q, l.user), batch, ttl);
      assert WaitingRoom.Do(h.room, Join(q, l.user), batch, ttl) == Arrive(h.room, q, l.user);
    }
  }

  lemma NextKeepsSound(h: Hall, step: Step, batch: nat, ttl: nat)
    requires Sound(h, ttl)
    ensures Sound(Next(h, step, batch, ttl), ttl)
  {
    if Enabled(h, step, batch, ttl) {
      hide Good, KeysOk, WellFormed, WaitingRoom.Enabled, WaitingRoom.Do, DoEnter;
      match step
      case InRoom(s) => RoomKeepsSound(h, s, batch, ttl);
      case Enter(j, q) => EnterKeepsSound(h, j, q, batch, ttl);
      case _ =>
    }
  }

  lemma {:induction false} RunIsSound(steps: seq<Step>, batch: nat, ttl: nat)
    ensures Sound(Run(steps, batch, ttl), ttl)
  {
    hide Sound, Next;
    if steps == [] {
      EmptyIsSound(ttl);
    } else {
      RunIsSound(steps[..|steps| - 1], batch, ttl);
      NextKeepsSound(Run(steps[..|steps| - 1], batch, ttl), steps[|steps| - 1], batch, ttl);
    }
  }

  lemma EmptyIsSound(ttl: nat)
    ensures Sound(EMPTY_HALL, ttl)
  {
    StartIsGood(ttl);
  }

  // ---- safe halls -----------------------------------------------------------------------------

  /** Whatever is active is what its user's key names. */
  ghost predicate OnePlace(h: Hall) {
    forall q :: q in h.who && Active(h.room, q) ==> HasPlace(h, h.who[q]) && h.places[h.who[q]].qid == q
  }

  /** A join that found no token will find a rank, or there is still no token; what a join found spent is spent. */
  predicate LookSafe(r: Room, l: Look) {
    match l
    case GotKey(_, _) => true
    case NoToken(_, q) => q in r.queue || !LiveKey(r, q)
    case Ready(_, spent) => spent.Some? ==> !Active(r, spent.value)
  }

  ghost predicate LooksOk(h: Hall) {
    forall j :: j in h.looks ==> LookSafe(h.room, h.looks[j])
  }

  ghost predicate Safe(h: Hall) {
    OnePlace(h) && LooksOk(h)
  }

  /** Some user has two ids that wait or show a token. */
  ghost predicate Doubled(h: Hall) {
    exists p, q :: p != q && SameUser(h, p, q) && Active(h.room, p) && Active(h.room, q)
  }

  predicate SameUser(h: Hall, p: Qid, q: Qid) {
    p in h.who && q in h.who && h.who[p] == h.who[q]
  }

  predicate AllJoins(steps: seq<Step>) {
    forall i :: 0 <= i < |steps| ==> !steps[i].InRoom?
  }

  /** Joins alone can give some user a second active id. */
  ghost predicate CanDouble(h: Hall, batch: nat, ttl: nat) {
    exists steps :: AllJoins(steps) && Doubled(RunFrom(h, steps, batch, ttl))
  }

  lemma EnterKeepsSafe(h: Hall, j: nat, q: Qid, batch: nat, ttl: nat)
    requires Sound(h, ttl) && Safe(h) && Enabled(h, Enter(j, q), batch, ttl)
    ensures Safe(Do(h, Enter(j, q), batch, ttl))
  {
    hide Good;
    var u, l := Do(h, Enter(j, q), batch, ttl), h.looks[j];
    if !Keeps(h, l) {
      assert LookSafe(h.room, l);
      forall p | p in u.who && Active(u.room, p) ensures HasPlace(u, u.who[p]) && u.places[u.who[p]].qid == p {
        if p != q {
          assert Active(h.room, p);
        }
      }
      forall k | k in u.looks ensures LookSafe(u.room, u.looks[k]) {
        assert LookSafe(h.room, h.looks[k]) && LookOwned(h, h.looks[k]);
      }
    }
  }

  lemma ReadKeepsSafe(h: Hall, step: Step, batch: nat, ttl: nat)
    requires Safe(h) && Enabled(h, step, batch, ttl) && (step.ReadKey? || step.ReadToken? || step.ReadRank?)
    ensures Safe(Do(h, step, batch, ttl))
  {
    var u := Do(h, step, batch, ttl);
    forall k | k in u.looks ensures LookSafe(u.room, u.looks[k]) {
      if k in h.looks {
        assert LookSafe(h.room, h.looks[k]);
      }
    }
  }

  lemma JoinKeepsSafe(h: Hall, step: Step, batch: nat, ttl: nat)
    requires Sound(h, ttl) && Safe(h) && !step.InRoom?
    ensures Safe(Next(h, step, batch, ttl))
  {
    hide Sound, Safe, DoEnter;
    if Enabled(h, step, batch, ttl) {
      match step
      case Enter(j, q) => EnterKeepsSafe(h, j, q, batch, ttl);
      case _ => ReadKeepsSafe(h, step, batch, ttl);
    }
  }

  lemma {:induction false} JoinsKeepSafe(h: Hall, steps: seq<Step>, batch: nat, ttl: nat)
    requires Sound(h, ttl) && Safe(h) && AllJoins(steps)
    ensures Sound(RunFrom(h, steps, batch, ttl), ttl) && Safe(RunFrom(h, steps, batch, ttl))
  {
    hide Sound, Safe, Next;
    if steps == [] {
    } else {
      var n := |steps| - 1;
      JoinsKeepSafe(h, steps[..n], batch, ttl);
      NextKeepsSound(RunFrom(h, steps[..n], batch, ttl), steps[n], batch, ttl);
      JoinKeepsSafe(RunFrom(h, steps[..n], batch, ttl), steps[n], batch, ttl);
    }
  }

  lemma SafeIsSingle(h: Hall)
    requires Safe(h)
    ensures !Doubled(h)
  {
  }

  // ---- unsafe halls -------------------------------------------------------------------------

  /** An id that was never used. */
  lemma UnusedId(h: Hall, ttl: nat) returns (q: Qid)
    requires Sound(h, ttl)
    ensures q !in h.room.joined && q !in h.who && q !in h.room.admitted
  {
    q := FreshNat(h.who.Keys + h.room.admitted.Keys);
    assert forall k :: k in h.who ==> k in h.who.Keys + h.room.admitted.Keys;
    assert forall k :: k in h.room.admitted ==> k in h.who.Keys + h.room.admitted.Keys;
  }

  /** A join that is about to run its script gives its user a second active id. */
  lemma EnterDoubles(h: Hall, j: nat, p: Qid, batch: nat, ttl: nat) returns (steps: seq<Step>)
    requires Sound(h, ttl) && j in h.looks && h.looks[j].Ready? && !Keeps(h, h.looks[j])
    requires Owns(h, h.looks[j].user, p) && Active(h.room, p)
    ensures AllJoins(steps) && Doubled(RunFrom(h, steps, batch, ttl))
  {
    var q := UnusedId(h, ttl);
    steps := [Enter(j, q)];
    assert steps == [] + [Enter(j, q)];
    RunSnoc(h, [], Enter(j, q), batch, ttl);
    var u := RunFrom(h, steps, batch, ttl);
    assert u == DoEnter(h, j, q);
    assert p != q && SameUser(u, p, q) && Active(u.room, p) && Active(u.room, q);
  }

  /** Runs can be put together. */
  lemma {:induction false} RunFromConcat(h: Hall, a: seq<Step>, b: seq<Step>, batch: nat, ttl: nat)
    ensures RunFrom(h, a + b, batch, ttl) == RunFrom(RunFrom(h, a, batch, ttl), b, batch, ttl)
  {
    hide Next;
    if b == [] {
      assert a + b == a;
    } else {
      var n := |b| - 1;
      RunFromConcat(h, a, b[..n], batch, ttl);
      assert (a + b)[..|a| + n] == a + b[..n];
    }
  }

  lemma StepThenDouble(h: Hall, step: Step, rest: seq<Step>, batch: nat, ttl: nat) returns (steps: seq<Step>)
    requires !step.InRoom? && AllJoins(rest) && Doubled(RunFrom(Next(h, step, batch, ttl), rest, batch, ttl))
    ensures AllJoins(steps) && Doubled(RunFrom(h, steps, batch, ttl))
  {
    hide Next, Doubled;
    steps := [step] + rest;
    RunFromConcat(h, [step], rest, batch, ttl);
    assert [step] == [] + [step];
    RunSnoc(h, [], step, batch, ttl);
    assert RunFrom(h, [], batch, ttl) == h;
  }

  /** A join that will find no rank although the id shows a token. */
  lemma RankDoubles(h: Hall, j: nat, p: Qid, batch: nat, ttl: nat) returns (steps: seq<Step>)
    requires Sound(h, ttl) && j in h.looks && h.looks[j].NoToken? && h.looks[j].qid !in h.room.queue
    requires HasPlace(h, h.looks[j].user) ==> h.places[h.looks[j].user].qid == h.looks[j].qid
    requires Owns(h, h.looks[j].user, p) && Active(h.room, p)
    ensures AllJoins(steps) && Doubled(RunFrom(h, steps, batch, ttl))
  {
    hide Good;
    var u := Next(h, ReadRank(j), batch, ttl);
    NextKeepsSound(h, ReadRank(j), batch, ttl);
    var rest := EnterDoubles(u, j, p, batch, ttl);
    steps := StepThenDouble(h, ReadRank(j), rest, batch, ttl);
  }

  /** A user whose key is gone, or names a spent id, while another of their ids is active: joining again doubles it. */
  lemma StrayDoubles(h: Hall, p: Qid, batch: nat, ttl: nat) returns (steps: seq<Step>)
    requires Sound(h, ttl) && p in h.who && Active(h.room, p)
    requires !(HasPlace(h, h.who[p]) && h.places[h.who[p]].qid == p)
    ensures AllJoins(steps) && Doubled(RunFrom(h, steps, batch, ttl))
  {
    hide Good;
    var u := h.who[p];
    var j := FreshNat(h.looks.Keys);
    var k := Next(h, ReadKey(j, u), batch, ttl);
    NextKeepsSound(h, ReadKey(j, u), batch, ttl);
    if !HasPlace(h, u) {
      var rest := EnterDoubles(k, j, p, batch, ttl);
      steps := StepThenDouble(h, ReadKey(j, u), rest, batch, ttl);
    } else if Active(h.room, h.places[u].qid) {
      steps := [];
      assert SameUser(h, p, h.places[u].qid);
    } else {
      var t := Next(k, ReadToken(j), batch, ttl);
      NextKeepsSound(k, ReadToken(j), batch, ttl);
      var rest := RankDoubles(t, j, p, batch, ttl);
      rest := StepThenDouble(k, ReadToken(j), rest, batch, ttl);
      steps := StepThenDouble(h, ReadKey(j, u), rest, batch, ttl);
    }
  }

  lemma UnsafeDoubles(h: Hall, batch: nat, ttl: nat) returns (steps: seq<Step>)
    requires Sound(h, ttl) && !Safe(h)
    ensures AllJoins(steps) && Doubled(RunFrom(h, steps, batch, ttl))
  {
    hide Good, RunFrom;
    if !OnePlace(h) {
      var p :| p in h.who && Active(h.room, p) && !(HasPlace(h, h.who[p]) && h.places[h.who[p]].qid == p);
      steps := StrayDoubles(h, p, batch, ttl);
    } else {
      var j :| j in h.looks && !LookSafe(h.room, h.looks[j]);
      var l := h.looks[j];
      assert LookOwned(h, l);
      match l
      case NoToken(u, q) => steps := RankDoubles(h, j, q, batch, ttl);
      case Ready(u, spent) => steps := EnterDoubles(h, j, spent.value, batch, ttl);
    }
  }

  /** For every reachable hall: joins alone can give a user two active ids if and only if the hall is not safe. */
  lemma JoinsDoubleIff(steps: seq<Step>, batch: nat, ttl: nat)
    ensures CanDouble(Run(steps, batch, ttl), batch, ttl) <==> !Safe(Run(steps, batch, ttl))
  {
    hide Sound, Safe, Doubled, RunFrom;
    var h := Run(steps, batch, ttl);
    RunIsSound(steps, batch, ttl);
    if !Safe(h) {
      var more := UnsafeDoubles(h, batch, ttl);
    }
    if CanDouble(h, batch, ttl) {
      var more :| AllJoins(more) && Doubled(RunFrom(h, more, batch, ttl));
      if Safe(h) {
        JoinsKeepSafe(h, more, batch, ttl);
        SafeIsSingle(RunFrom(h, more, batch, ttl));
      }
    }
  }

  // ---- which steps of the room leave the safe halls ---------------------------------------------

  /** A join in flight found id q spent, or found no token for it. */
  predicate Doubted(h: Hall, q: Qid) {
    exists j :: j in h.looks && (h.looks[j] == NoToken(h.looks[j].user, q) || h.looks[j] == Ready(h.looks[j].user, Some(q)))
  }

  /** The clock stays within the key of every user whose id will still be active. */
  predicate OrderlyTick(h: Hall, to: int) {
    forall u | u in h.places && HasPlace(h, u) && Active(h.room.(now := to), h.places[u].qid) :: to < h.places[u].until
  }

  /** A token that would make an id active again goes only to one that its user's key still names and no join doubts. */
  predicate OrderlyStore(h: Hall, q: Qid) {
    Active(h.room, q) || (q in h.who && HasPlace(h, h.who[q]) && h.places[h.who[q]].qid == q && !Doubted(h, q))
  }

  /** No join in flight has read the token of a removed id as absent before it was stored. */
  predicate OrderlyRemoval(h: Hall, head: seq<Qid>) {
    forall j | j in h.looks && h.looks[j].NoToken? && h.looks[j].qid in head :: !LiveKey(h.room, h.looks[j].qid)
  }

  predicate Orderly(h: Hall, step: WaitingRoom.Step) {
    match step
    case Tick(to) => OrderlyTick(h, to)
    case Execute(w) =>
      w in h.room.workers && h.room.workers[w].Piping? ==>
        var k := h.room.workers[w];
        if k.next < |k.head| then k.next < |k.plan| && k.plan[k.next].Some? ==> OrderlyStore(h, k.head[k.next])
        else k.next == |k.head| ==> OrderlyRemoval(h, k.head)
    case _ => true
  }

  lemma TickIff(h: Hall, to: int, ttl: nat)
    requires Sound(h, ttl) && Safe(h) && h.room.now <= to
    ensures Safe(h.(room := h.room.(now := to))) <==> OrderlyTick(h, to)
  {
    hide Good;
    var u := h.(room := h.room.(now := to));
    assert forall q :: Active(u.room, q) ==> Active(h.room, q);
    if OrderlyTick(h, to) {
      forall j | j in u.looks ensures LookSafe(u.room, u.looks[j]) {
        assert LookSafe(h.room, h.looks[j]);
      }
    } else {
      var x :| x in h.places && HasPlace(h, x) && Active(u.room, h.places[x].qid) && h.places[x].until <= to;
      assert Owns(h, x, h.places[x].qid);
      assert !OnePlace(u);
    }
  }

  lemma StoreIff(h: Hall, q: Qid, exp: int, ttl: nat)
    requires Sound(h, ttl) && Safe(h) && q in h.who && ttl > 0
    ensures Safe(h.(room := SetNx(h.room, q, exp, ttl))) <==> OrderlyStore(h, q)
  {
    hide Good;
    var u := h.(room := SetNx(h.room, q, exp, ttl));
    assert forall p :: Active(u.room, p) <==> Active(h.room, p) || p == q;
    if Active(h.room, q) {
      forall j | j in u.looks ensures LookSafe(u.room, u.looks[j]) {
        assert LookSafe(h.room, h.looks[j]);
      }
    } else if OrderlyStore(h, q) {
      forall j | j in u.looks ensures LookSafe(u.room, u.looks[j]) {
        assert LookSafe(h.room, h.looks[j]);
      }
    } else if Doubted(h, q) {
      var j :| j in h.looks && (h.looks[j] == NoToken(h.looks[j].user, q) || h.looks[j] == Ready(h.looks[j].user, Some(q)));
      assert !LookSafe(u.room, u.looks[j]);
    } else {
      assert !OnePlace(u);
    }
  }

  function Removed(r: Room, head: seq<Qid>): Room {
    r.(queue := map q | q in r.queue && q !in head :: r.queue[q])
  }

  lemma RemovalIff(h: Hall, head: seq<Qid>, ttl: nat)
    requires Sound(h, ttl) && Safe(h)
    ensures Safe(h.(room := Removed(h.room, head))) <==> OrderlyRemoval(h, head)
  {
    hide Good;
    var u := h.(room := Removed(h.room, head));
    assert forall p :: Active(u.room, p) ==> Active(h.room, p);
    if OrderlyRemoval(h, head) {
      forall j | j in u.looks ensures LookSafe(u.room, u.looks[j]) {
        assert LookSafe(h.room, h.looks[j]);
      }
    } else {
      var j :| j in h.looks && h.looks[j].NoToken? && h.looks[j].qid in head && LiveKey(h.room, h.looks[j].qid);
      assert !LookSafe(u.room, u.looks[j]);
    }
  }

  /** Workers and owners do not matter to places. */
  lemma SameSafe(h: Hall, u: Hall)
    requires u.room == h.room.(workers := u.room.workers, owner := u.room.owner) && u == h.(room := u.room)
    ensures Safe(u) <==> Safe(h)
  {
    assert forall q :: Active(u.room, q) <==> Active(h.room, q);
    assert forall j :: j in h.looks ==> (LookSafe(u.room, h.looks[j]) <==> LookSafe(h.room, h.looks[j]));
  }

  lemma HeadsAreKnown(h: Hall, w: Wid, ttl: nat)
    requires Sound(h, ttl) && w in h.room.workers
    ensures forall i :: 0 <= i < |h.room.workers[w].head| ==> h.room.workers[w].head[i] in h.who
    ensures h.room.workers[w].Piping? ==> |h.room.workers[w].plan| == |h.room.workers[w].head|
  {
    assert WorkerOk(h.room, h.room.workers[w]);
  }

  lemma ExecuteIff(h: Hall, w: Wid, batch: nat, ttl: nat)
    requires Sound(h, ttl) && Safe(h) && Enabled(h, InRoom(Execute(w)), batch, ttl) && ttl > 0
    ensures Safe(Do(h, InRoom(Execute(w)), batch, ttl)) <==> Orderly(h, Execute(w))
  {
    hide Sound, Safe, SetNx, OrderlyStore, OrderlyRemoval;
    HeadsAreKnown(h, w, ttl);
    var k := h.room.workers[w];
    var c := Command(h.room, k, ttl);
    SameSafe(h.(room := c), Do(h, InRoom(Execute(w)), batch, ttl));
    if k.next < |k.head| {
      if k.plan[k.next].Some? {
        StoreIff(h, k.head[k.next], k.plan[k.next].value, ttl);
      }
    } else if k.next == |k.head| {
      RemovalIff(h, k.head, ttl);
    } else {
      SameSafe(h, h.(room := c));
    }
  }

  /** From a safe hall a step of the room leads to a safe hall if and only if it is orderly. */
  lemma RoomStepIff(h: Hall, s: WaitingRoom.Step, batch: nat, ttl: nat)
    requires Sound(h, ttl) && Safe(h) && Enabled(h, InRoom(s), batch, ttl) && ttl > 0
    ensures Safe(Do(h, InRoom(s), batch, ttl)) <==> Orderly(h, s)
  {
    hide Sound, Safe, OrderlyTick, OrderlyStore, OrderlyRemoval;
    match s
    case Tick(to) => TickIff(h, to, ttl);
    case Execute(w) => ExecuteIff(h, w, batch, ttl);
    case ReadHead(_, _) => SameSafe(h, Do(h, InRoom(s), batch, ttl));
    case BuildPipe(_, _) => SameSafe(h, Do(h, InRoom(s), batch, ttl));
    case Leave(_) => SameSafe(h, Do(h, InRoom(s), batch, ttl));
  }

  // ---- runs ----------------------------------------------------------------------------------------

  ghost predicate AllOrderly(steps: seq<Step>, batch: nat, ttl: nat) {
    steps == [] ||
    (var n := |steps| - 1;
     AllOrderly(steps[..n], batch, ttl) && (steps[n].InRoom? ==> Orderly(Run(steps[..n], batch, ttl), steps[n].step)))
  }

  lemma {:induction false} OrderlyRunIsSafe(steps: seq<Step>, batch: nat, ttl: nat)
    requires AllOrderly(steps, batch, ttl) && ttl > 0
    ensures Safe(Run(steps, batch, ttl))
  {
    if steps == [] {
      assert Run(steps, batch, ttl) == EMPTY_HALL;
    } else {
      hide Sound, Safe, Orderly, Enabled, Do;
      var n := |steps| - 1;
      var h := Run(steps[..n], batch, ttl);
      OrderlyRunIsSafe(steps[..n], batch, ttl);
      RunIsSound(steps[..n], batch, ttl);
      if !steps[n].InRoom? {
        JoinKeepsSafe(h, steps[n], batch, ttl);
      } else if Enabled(h, steps[n], batch, ttl) {
        RoomStepIff(h, steps[n].step, batch, ttl);
      }
    }
  }

  /** In every orderly run a user has at most one queue id that waits or shows a token. */
  lemma OnePlacePerUser(steps: seq<Step>, batch: nat, ttl: nat, p: Qid, q: Qid)
    requires AllOrderly(steps, batch, ttl) && ttl > 0
    requires var h := Run(steps, batch, ttl); SameUser(h, p, q) && Active(h.room, p) && Active(h.room, q)
    ensures p == q
  {
    hide RunFrom, Active;
    OrderlyRunIsSafe(steps, batch, ttl);
  }

  /** After an orderly run, one more step of the room opens the way to a second place if and only if it is not orderly. */
  lemma DoublesIffDisorderly(steps: seq<Step>, s: WaitingRoom.Step, batch: nat, ttl: nat)
    requires AllOrderly(steps, batch, ttl) && ttl > 0 && Enabled(Run(steps, batch, ttl), InRoom(s), batch, ttl)
    ensures CanDouble(Run(steps + [InRoom(s)], batch, ttl), batch, ttl) <==> !Orderly(Run(steps, batch, ttl), s)
  {
    hide Sound, Safe, Orderly, Enabled, Do, RunFrom, CanDouble;
    OrderlyRunIsSafe(steps, batch, ttl);
    RunIsSound(steps, batch, ttl);
    RoomStepIff(Run(steps, batch, ttl), s, batch, ttl);
    RunSnoc(EMPTY_HALL, steps, InRoom(s), batch, ttl);
    JoinsDoubleIff(steps + [InRoom(s)], batch, ttl);
  }
}
