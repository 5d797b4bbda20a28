/** The three ways to a second place, each as a run from the empty hall that is orderly up to its last step. */
module SecondPlaces {
  import opened Saga
  import opened WaitingRoom
  import opened Places
  import Queue

  const BUYER: User := 7

  lemma Extend(steps: seq<Places.Step>, h: Hall, step: Places.Step, batch: nat, ttl: nat) returns (more: seq<Places.Step>)
    requires Places.Run(steps, batch, ttl) == h && AllOrderly(steps, batch, ttl)
    requires Places.Enabled(h, step, batch, ttl) && (step.InRoom? ==> Orderly(h, step.step))
    ensures Places.Run(more, batch, ttl) == Places.Do(h, step, batch, ttl) && AllOrderly(more, batch, ttl)
  {
    hide Orderly, Places.Enabled, Places.Do;
    more := steps + [step];
    assert more[..|steps|] == steps;
    RunSnoc(EMPTY_HALL, steps, step, batch, ttl);
  }

  lemma NoSteps(batch: nat, ttl: nat) returns (steps: seq<Places.Step>)
    ensures Places.Run(steps, batch, ttl) == EMPTY_HALL && AllOrderly(steps, batch, ttl)
  {
    steps := [];
  }

  /** The buyer waits with id 0, and these workers are at it. */
  function Waits(workers: map<Wid, Worker>, looks: map<nat, Look>): Hall {
    Hall(Room(0, map[0 := 0], map[0 := BUYER], map[], map[0 := 0], map[], workers),
         map[BUYER := Queue.Place(0, Queue.USER_TTL)], map[0 := BUYER], looks)
  }

  lemma BuyerWaits(batch: nat, ttl: nat) returns (steps: seq<Places.Step>)
    ensures Places.Run(steps, batch, ttl) == Waits(map[], map[]) && AllOrderly(steps, batch, ttl)
  {
    hide Places.Run, AllOrderly;
    steps := NoSteps(batch, ttl);
    var h := EMPTY_HALL.(looks := map[0 := Ready(BUYER, None)]);
    steps := Extend(steps, EMPTY_HALL, ReadKey(0, BUYER), batch, ttl);
    assert Places.Run(steps, batch, ttl) == h;
    steps := Extend(steps, h, Enter(0, 0), batch, ttl);
    assert h.looks - {0} == map[];
  }

  /** A step that is not orderly after such a run opens the way to a second place. */
  ghost predicate Breaks(steps: seq<Places.Step>, s: WaitingRoom.Step, batch: nat, ttl: nat) {
    && AllOrderly(steps, batch, ttl) && Places.Enabled(Places.Run(steps, batch, ttl), InRoom(s), batch, ttl)
    && !Orderly(Places.Run(steps, batch, ttl), s)
    && CanDouble(Places.Run(steps + [InRoom(s)], batch, ttl), batch, ttl)
  }

  lemma BreaksIf(steps: seq<Places.Step>, s: WaitingRoom.Step, batch: nat, ttl: nat)
    requires AllOrderly(steps, batch, ttl) && ttl > 0 && Places.Enabled(Places.Run(steps, batch, ttl), InRoom(s), batch, ttl)
    requires !Orderly(Places.Run(steps, batch, ttl), s)
    ensures Breaks(steps, s, batch, ttl)
  {
    hide Orderly, Places.Enabled, CanDouble, Places.Run, AllOrderly;
    DoublesIffDisorderly(steps, s, batch, ttl);
  }

  /** The user's key lapses while the user still waits. */
  lemma LapsedKeyGivesSecondPlace(batch: nat, ttl: nat) returns (steps: seq<Places.Step>)
    requires ttl > 0
    ensures Breaks(steps, Tick(Queue.USER_TTL), batch, ttl)
  {
    hide Places.Run, AllOrderly, Breaks;
    steps := BuyerWaits(batch, ttl);
    var h := Waits(map[], map[]);
    assert BUYER in h.places && HasPlace(h, BUYER) && Active(h.room.(now := Queue.USER_TTL), h.places[BUYER].qid);
    assert !OrderlyTick(h, Queue.USER_TTL);
    BreaksIf(steps, Tick(Queue.USER_TTL), batch, ttl);
  }

  /** A worker that has read the head and the owner, and has signed a token for id 0. */
  function Signed(ttl: nat, next: nat): Worker {
    Piping([0], [Some(ttl)], next)
  }

  lemma WorkerReads(steps: seq<Places.Step>, workers: map<Wid, Worker>, w: Wid, batch: nat, ttl: nat) returns (more: seq<Places.Step>)
    requires batch > 0 && w !in workers && Places.Run(steps, batch, ttl) == Waits(workers, map[]) && AllOrderly(steps, batch, ttl)
    requires WellFormed(Waits(workers, map[]).room)
    ensures Places.Run(more, batch, ttl) == Waits(workers[w := Signed(ttl, 0)], map[]) && AllOrderly(more, batch, ttl)
  {
    hide Places.Run, AllOrderly;
    var h := Waits(workers, map[]);
    assert [0][0] == 0;
    assert IsHead(h.room.queue, [0], batch);
    more := Extend(steps, h, InRoom(ReadHead(w, [0])), batch, ttl);
    var k := Waits(workers[w := Read([0])], map[]);
    assert Places.Run(more, batch, ttl) == k;
    more := Extend(more, k, InRoom(BuildPipe(w, [ttl])), batch, ttl);
    assert Plan(k.room.owner, [0], [ttl]) == [Some(ttl)];
    assert workers[w := Read([0])][w := Signed(ttl, 0)] == workers[w := Signed(ttl, 0)];
  }

  /** The token of id 0 is stored; id 0 still waits, or has left the queue. */
  function Admitted(waits: bool, now: int, ttl: nat, workers: map<Wid, Worker>, looks: map<nat, Look>): Hall {
    var h := Waits(workers, looks);
    h.(room := h.room.(now := now, queue := if waits then map[0 := 0] else map[],
                       admitted := map[0 := Admission(ttl, ttl)], stored := map[0 := [ttl]]))
  }

  lemma StoreToken(steps: seq<Places.Step>, workers: map<Wid, Worker>, looks: map<nat, Look>, w: Wid, batch: nat, ttl: nat)
    returns (more: seq<Places.Step>)
    requires Places.Run(steps, batch, ttl) == Waits(workers, looks) && AllOrderly(steps, batch, ttl)
    requires w in workers && workers[w] == Signed(ttl, 0) && WellFormed(Waits(workers, looks).room)
    ensures Places.Run(more, batch, ttl) == Admitted(true, 0, ttl, workers[w := Signed(ttl, 1)], looks) && AllOrderly(more, batch, ttl)
  {
    hide Places.Run, AllOrderly;
    var h := Waits(workers, looks);
    assert Active(h.room, 0);
    more := Extend(steps, h, InRoom(Execute(w)), batch, ttl);
    assert Tokens(h.room, 0) + [ttl] == [ttl];
    assert SetNx(h.room, 0, ttl, ttl) == Admitted(true, 0, ttl, workers, looks).room;
  }

  /**
   A waiting user joins again and finds no token; a worker stores the token and removes the entry; the rank is gone, and
   the id passes for spent.
   */
  lemma ReadsApartGiveSecondPlace(batch: nat, ttl: nat) returns (steps: seq<Places.Step>)
    requires batch > 0 && ttl > 0
    ensures Breaks(steps, Execute(0), batch, ttl)
  {
    hide Places.Run, AllOrderly, Breaks;
    steps := BuyerWaits(batch, ttl);
    steps := WorkerReads(steps, map[], 0, batch, ttl);
    var workers: map<Wid, Worker> := map[0 := Signed(ttl, 0)];
    steps := Extend(steps, Waits(workers, map[]), ReadKey(0, BUYER), batch, ttl);
    assert Places.Run(steps, batch, ttl) == Waits(workers, map[0 := GotKey(BUYER, 0)]);
    steps := Extend(steps, Waits(workers, map[0 := GotKey(BUYER, 0)]), ReadToken(0), batch, ttl);
    var looks := map[0 := NoToken(BUYER, 0)];
    assert Places.Run(steps, batch, ttl) == Waits(workers, looks);
    steps := StoreToken(steps, workers, looks, 0, batch, ttl);
    var h := Admitted(true, 0, ttl, workers[0 := Signed(ttl, 1)], looks);
    assert 0 in h.looks && h.looks[0].NoToken? && h.looks[0].qid in [0] && LiveKey(h.room, 0);
    assert !OrderlyRemoval(h, [0]);
    BreaksIf(steps, Execute(0), batch, ttl);
  }

  /** Two workers have signed tokens for id 0; the first has admitted it, and the token has run out. */
  lemma SpentWithLateWorker(batch: nat, ttl: nat) returns (steps: seq<Places.Step>)
    requires batch > 0 && ttl > 0
    ensures Places.Run(steps, batch, ttl) == Admitted(false, ttl, ttl, map[0 := Signed(ttl, 2), 1 := Signed(ttl, 0)], map[])
    ensures AllOrderly(steps, batch, ttl)
  {
    hide Places.Run, AllOrderly;
    steps := BuyerWaits(batch, ttl);
    steps := WorkerReads(steps, map[], 0, batch, ttl);
    steps := WorkerReads(steps, map[0 := Signed(ttl, 0)], 1, batch, ttl);
    var two := map[0 := Signed(ttl, 0)][1 := Signed(ttl, 0)];
    steps := StoreToken(steps, two, map[], 0, batch, ttl);
    var h := Admitted(true, 0, ttl, two[0 := Signed(ttl, 1)], map[]);
    steps := Extend(steps, h, InRoom(Execute(0)), batch, ttl);
    var gone := Admitted(false, 0, ttl, map[0 := Signed(ttl, 2), 1 := Signed(ttl, 0)], map[]);
    assert Command(h.room, h.room.workers[0], ttl).queue == map[];
    assert h.room.workers[0 := Signed(ttl, 2)] == gone.room.workers;
    assert Places.Run(steps, batch, ttl) == gone;
    assert !Active(gone.room.(now := ttl), 0);
    steps := Extend(steps, gone, InRoom(Tick(ttl)), batch, ttl);
  }

  /** The buyer, whose id 0 is spent, has joined again with id 1. */
  function Rejoined(ttl: nat): Hall {
    var h := Admitted(false, ttl, ttl, map[0 := Signed(ttl, 2), 1 := Signed(ttl, 0)], map[]);
    Hall(Arrive(h.room, 1, BUYER), map[BUYER := Queue.Place(1, ttl + Queue.USER_TTL)], map[0 := BUYER, 1 := BUYER], map[])
  }

  lemma BuyerRejoins(batch: nat, ttl: nat) returns (steps: seq<Places.Step>)
    requires batch > 0 && 0 < ttl < Queue.USER_TTL
    ensures Places.Run(steps, batch, ttl) == Rejoined(ttl) && AllOrderly(steps, batch, ttl)
  {
    hide Places.Run, AllOrderly;
    steps := SpentWithLateWorker(batch, ttl);
    var workers := map[0 := Signed(ttl, 2), 1 := Signed(ttl, 0)];
    var h := Admitted(false, ttl, ttl, workers, map[]);
    steps := Extend(steps, h, ReadKey(0, BUYER), batch, ttl);
    var k := Admitted(false, ttl, ttl, workers, map[0 := GotKey(BUYER, 0)]);
    assert Places.Run(steps, batch, ttl) == k;
    steps := Extend(steps, k, ReadToken(0), batch, ttl);
    var t := Admitted(false, ttl, ttl, workers, map[0 := NoToken(BUYER, 0)]);
    assert Places.Run(steps, batch, ttl) == t;
    steps := Extend(steps, t, ReadRank(0), batch, ttl);
    var r := Admitted(false, ttl, ttl, workers, map[0 := Ready(BUYER, Some(0))]);
    assert Places.Run(steps, batch, ttl) == r;
    steps := Extend(steps, r, Enter(0, 1), batch, ttl);
    assert !Keeps(r, r.looks[0]);
    assert DoEnter(r, 0, 1).looks == map[] && DoEnter(r, 0, 1).who == Rejoined(ttl).who && DoEnter(r, 0, 1).places == Rejoined(ttl).places;
    assert DoEnter(r, 0, 1) == Rejoined(ttl);
  }

  /** A worker that is late stores a token for an entry whose user has already joined again. */
  lemma LateTokenGivesSecondPlace(batch: nat, ttl: nat) returns (steps: seq<Places.Step>)
    requires batch > 0 && 0 < ttl < Queue.USER_TTL
    ensures Breaks(steps, Execute(1), batch, ttl)
  {
    hide Places.Run, AllOrderly, Breaks;
    steps := BuyerRejoins(batch, ttl);
    var h := Rejoined(ttl);
    assert !Active(h.room, 0) && h.places[h.who[0]].qid == 1;
    assert !OrderlyStore(h, 0);
    BreaksIf(steps, Execute(1), batch, ttl);
  }
}
