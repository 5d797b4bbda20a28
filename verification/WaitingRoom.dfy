/**
 The waiting room of one event under any number of overlapping workers. A worker reads the head of the queue, then the
 owners, then sends a pipeline: a SET NX per owned entry in head order, one ZREM and one HDEL for the whole head. The
 commands take effect one by one, may interleave with those of other workers, and may stop after any prefix. No lease
 is assumed.
 */
module WaitingRoom {
  import opened Saga

  type Qid = nat
  type User = int
  type Wid = nat

  /** The key of an admitted queue id: its token's exp, and when the key itself lapses. */
  datatype Admission = Admission(exp: int, until: int)

  datatype Worker =
    | Read(head: seq<Qid>)
    | Piping(head: seq<Qid>, plan: seq<Option<int>>, next: nat)   // plan[i]: exp of the token to store for head[i], if owned

  /** joined and stored are histories: the score of every entry ever queued, the tokens ever stored for it. */
  datatype Room = Room(now: int, queue: map<Qid, int>, owner: map<Qid, User>, admitted: map<Qid, Admission>,
                       joined: map<Qid, int>, stored: map<Qid, seq<int>>, workers: map<Wid, Worker>)

  const START := Room(0, map[], map[], map[], map[], map[], map[])

  /** ZRANGE order: by score, then by member. */
  predicate Before(queue: map<Qid, int>, a: Qid, b: Qid)
    requires a in queue && b in queue
  {
    queue[a] < queue[b] || (queue[a] == queue[b] && a < b)
  }

  /** head is what ZRANGE 0 .. batch-1 answers. */
  predicate IsHead(queue: map<Qid, int>, head: seq<Qid>, batch: nat) {
    && |head| <= batch
    && (forall i :: 0 <= i < |head| ==> head[i] in queue)
    && (forall i, j :: 0 <= i < j < |head| ==> Before(queue, head[i], head[j]))
    && (forall q, i :: q in queue && q !in head && 0 <= i < |head| ==> Before(queue, head[i], q))
    && (|head| < batch ==> forall q :: q in queue ==> q in head)
  }

  predicate LiveKey(r: Room, q: Qid) {
    q in r.admitted && r.now < r.admitted[q].until
  }

  datatype Step =
    | Tick(to: int)
    | Join(qid: Qid, user: User)
    | ReadHead(wid: Wid, head: seq<Qid>)
    | BuildPipe(wid: Wid, exps: seq<int>)    // reads the owners and signs a token per owned entry
    | Execute(wid: Wid)
    | Leave(wid: Wid)                          // done, or stopped after a prefix

  predicate Enabled(r: Room, step: Step, batch: nat, ttl: nat) {
    match step
    case Tick(to) => r.now <= to
    case Join(q, _) => q !in r.joined
    case ReadHead(w, head) => w !in r.workers && IsHead(r.queue, head, batch)
    case BuildPipe(w, exps) =>
      // tokens are signed by now, with exp = signing time + ttl rounded down
      && w in r.workers && r.workers[w].Read? && |exps| == |r.workers[w].head|
      && (forall i :: 0 <= i < |exps| ==> exps[i] <= r.now + ttl)
    case Execute(w) => w in r.workers && r.workers[w].Piping? && r.workers[w].next < |r.workers[w].head| + 2
    case Leave(w) => w in r.workers
  }

  function Plan(owner: map<Qid, User>, head: seq<Qid>, exps: seq<int>): (p: seq<Option<int>>)
    requires |exps| == |head|
    ensures |p| == |head|
    ensures forall i :: 0 <= i < |p| ==> p[i] == if head[i] in owner then Some(exps[i]) else None
  {
    seq(|head|, i requires 0 <= i < |head| => if head[i] in owner then Some(exps[i]) else None)
  }

  function Tokens(r: Room, q: Qid): seq<int> {
    if q in r.stored then r.stored[q] else []
  }

  /** SET NX of one token: it is stored unless a live key is there. */
  function SetNx(r: Room, q: Qid, exp: int, ttl: nat): Room {
    if LiveKey(r, q) then r
    else r.(admitted := r.admitted[q := Admission(exp, r.now + ttl)], stored := r.stored[q := Tokens(r, q) + [exp]])
  }

  /** The effect of command k of a pipeline on the shared state. */
  function Command(r: Room, w: Worker, ttl: nat): Room
    requires w.Piping? && |w.plan| == |w.head|
  {
    if w.next < |w.head| then
      (if w.plan[w.next].Some? then SetNx(r, w.head[w.next], w.plan[w.next].value, ttl) else r)
    else if w.next == |w.head| then r.(queue := map q | q in r.queue && q !in w.head :: r.queue[q])
    else r.(owner := map q | q in r.owner && q !in w.head :: r.owner[q])
  }

  predicate WellFormed(r: Room) {
    forall w :: w in r.workers && r.workers[w].Piping? ==> |r.workers[w].plan| == |r.workers[w].head|
  }

  function Do(r: Room, step: Step, batch: nat, ttl: nat): Room
    requires WellFormed(r) && Enabled(r, step, batch, ttl)
  {
    match step
    case Tick(to) => r.(now := to)
    case Join(q, u) => r.(queue := r.queue[q := r.now], owner := r.owner[q := u], joined := r.joined[q := r.now])
    case ReadHead(w, head) => r.(workers := r.workers[w := Read(head)])
    case BuildPipe(w, exps) =>
      var head := r.workers[w].head;
      r.(workers := r.workers[w := Piping(head, Plan(r.owner, head, exps), 0)])
    case Execute(w) =>
      var p := r.workers[w];
      Command(r, p, ttl).(workers := r.workers[w := p.(next := p.next + 1)])
    case Leave(w) => r.(workers := r.workers - {w})
  }

  // ---- invariant --------------------------------------------------------------------

  /** Entries keep their score; an entry without owner or out of the queue has had its token stored. */
  ghost predicate EntriesOk(r: Room) {
    && (forall q :: q in r.queue ==> q in r.joined && r.joined[q] == r.queue[q])
    && (forall q :: q in r.joined ==> r.joined[q] <= r.now)
    && (forall q :: q in r.joined && q !in r.owner ==> q in r.stored)
    && (forall q :: q in r.joined && q !in r.queue ==> q in r.stored)
    && (forall q :: q in r.stored ==> q in r.joined)
  }

  /** Everybody who joined in an earlier millisecond than head[i] is ahead of it in the head, or stored already. */
  ghost predicate HeadOk(r: Room, head: seq<Qid>) {
    && (forall i :: 0 <= i < |head| ==> head[i] in r.joined)
    && (forall i, j :: 0 <= i < j < |head| ==>
          r.joined[head[i]] < r.joined[head[j]] || (r.joined[head[i]] == r.joined[head[j]] && head[i] < head[j]))
    && (forall i, a :: 0 <= i < |head| && a in r.joined && r.joined[a] < r.joined[head[i]] ==> a in r.stored || a in head[..i])
  }

  ghost predicate WorkerOk(r: Room, w: Worker) {
    && HeadOk(r, w.head)
    && (w.Piping? ==>
          && |w.plan| == |w.head|
          && (forall i :: 0 <= i < |w.head| && w.plan[i].None? ==> w.head[i] in r.stored)
          && (forall i :: 0 <= i < |w.head| && i < w.next ==> w.head[i] in r.stored))
  }

  ghost predicate WorkersOk(r: Room, ttl: nat) {
    forall w :: w in r.workers ==> WorkerOk(r, r.workers[w]) && PlanOk(r, r.workers[w], ttl)
  }

  predicate PlanOk(r: Room, w: Worker, ttl: nat) {
    w.Piping? ==> forall i :: 0 <= i < |w.plan| && w.plan[i].Some? ==> w.plan[i].value <= r.now + ttl
  }

  /** First come, first served, by the millisecond. */
  ghost predicate Fifo(r: Room) {
    forall a, b :: b in r.stored && b in r.joined && a in r.joined && r.joined[a] < r.joined[b] ==> a in r.stored
  }

  /** Of the tokens ever stored for q only the last can be unexpired, and then its key is there to show it. */
  ghost predicate TokensOk(r: Room, q: Qid) {
    q in r.stored ==>
      var ts := r.stored[q];
      && |ts| > 0
      && (forall i :: 0 <= i < |ts| - 1 ==> ts[i] <= r.now)
      && (r.now < ts[|ts| - 1] ==> q in r.admitted && r.admitted[q].exp == ts[|ts| - 1] && r.admitted[q].exp <= r.admitted[q].until)
  }

  ghost predicate Good(r: Room, ttl: nat) {
    EntriesOk(r) && WorkersOk(r, ttl) && Fifo(r) && forall q :: TokensOk(r, q)
  }

  // ---- one step ------------------------------------------------------------------------

  /** Growing histories keep what a worker relies on; new entries come with the latest score. */
  lemma WorkerStays(r: Room, u: Room, w: Worker, ttl: nat)
    requires WorkerOk(r, w) && PlanOk(r, w, ttl) && r.now <= u.now
    requires forall q :: q in r.joined ==> q in u.joined && u.joined[q] == r.joined[q] && r.joined[q] <= r.now
    requires forall q :: q in u.joined && q !in r.joined ==> u.joined[q] >= r.now
    requires forall q :: q in r.stored ==> q in u.stored
    ensures WorkerOk(u, w) && PlanOk(u, w, ttl)
  {
  }

  lemma HeadIsOk(r: Room, head: seq<Qid>, batch: nat)
    requires EntriesOk(r) && IsHead(r.queue, head, batch)
    ensures HeadOk(r, head)
  {
    forall i, a | 0 <= i < |head| && a in r.joined && r.joined[a] < r.joined[head[i]]
      ensures a in r.stored || a in head[..i]
    {
      if a in r.queue {
        assert !Before(r.queue, head[i], a);
        if a in head {
          var k :| 0 <= k < |head| && head[k] == a;
          assert k < i;
          assert head[..i][k] == a;
        }
      }
    }
  }

  lemma JoinKeeps(r: Room, q: Qid, user: User, batch: nat, ttl: nat)
    requires Good(r, ttl) && WellFormed(r) && Enabled(r, Join(q, user), batch, ttl)
    ensures Good(Do(r, Join(q, user), batch, ttl), ttl)
  {
    hide WorkerOk;
    var u := Do(r, Join(q, user), batch, ttl);
    forall w | w in u.workers ensures WorkerOk(u, u.workers[w]) && PlanOk(u, u.workers[w], ttl) {
      WorkerStays(r, u, r.workers[w], ttl);
    }
    assert forall k :: TokensOk(r, k) ==> TokensOk(u, k);
  }

  lemma TickKeeps(r: Room, to: int, batch: nat, ttl: nat)
    requires Good(r, ttl) && WellFormed(r) && Enabled(r, Tick(to), batch, ttl)
    ensures Good(Do(r, Tick(to), batch, ttl), ttl)
  {
    hide WorkerOk;
    var u := Do(r, Tick(to), batch, ttl);
    forall w | w in u.workers ensures WorkerOk(u, u.workers[w]) && PlanOk(u, u.workers[w], ttl) {
      WorkerStays(r, u, r.workers[w], ttl);
    }
    forall k ensures TokensOk(u, k) {
      assert TokensOk(r, k);
    }
  }

  /** Steps that change one worker and nothing it or the others rely on. */
  lemma WorkerStepKeeps(r: Room, step: Step, batch: nat, ttl: nat)
    requires Good(r, ttl) && WellFormed(r) && Enabled(r, step, batch, ttl)
    requires step.ReadHead? || step.BuildPipe? || step.Leave?
    ensures Good(Do(r, step, batch, ttl), ttl)
  {
    hide IsHead, HeadOk, EntriesOk, Fifo, TokensOk, WorkerOk;
    var u := Do(r, step, batch, ttl);
    SameButWorkers(r, u);
    if step.ReadHead? {
      NewReader(r, step.head, batch);
    } else if step.BuildPipe? {
      assert WorkerOk(r, r.workers[step.wid]);
      PipeIsOk(r, r.workers[step.wid].head, step.exps);
    }
    forall w | w in u.workers ensures WorkerOk(u, u.workers[w]) && PlanOk(u, u.workers[w], ttl) {
      SameWorker(r, u, u.workers[w]);
    }
    forall k ensures TokensOk(u, k) {
      SameTokens(r, u, k);
    }
  }

  lemma NewReader(r: Room, head: seq<Qid>, batch: nat)
    requires EntriesOk(r) && IsHead(r.queue, head, batch)
    ensures WorkerOk(r, Read(head))
  {
    HeadIsOk(r, head, batch);
  }

  /** An entry of the head whose owner is gone was admitted by somebody else. */
  lemma PipeIsOk(r: Room, head: seq<Qid>, exps: seq<int>)
    requires EntriesOk(r) && WorkerOk(r, Read(head)) && |exps| == |head|
    ensures WorkerOk(r, Piping(head, Plan(r.owner, head, exps), 0))
  {
  }

  lemma SetNxTokens(r: Room, q: Qid, exp: int, ttl: nat, k: Qid)
    requires TokensOk(r, k) && exp <= r.now + ttl
    ensures TokensOk(SetNx(r, q, exp, ttl), k)
  {
  }

  /** Only entries with a history have a key. */
  ghost predicate KeysOk(r: Room) {
    forall q :: q in r.admitted ==> q in r.stored
  }

  lemma CommandFifo(r: Room, w: Worker, ttl: nat)
    requires WorkerOk(r, w) && w.Piping? && w.next < |w.head| + 2 && Fifo(r) && KeysOk(r)
    ensures Fifo(Command(r, w, ttl))
  {
    var u := Command(r, w, ttl);
    if w.next < |w.head| && w.plan[w.next].Some? {
      var q := w.head[w.next];
      var ahead := w.head[..w.next];
      forall a | a in r.joined && r.joined[a] < r.joined[q] ensures a in r.stored {
        assert a in ahead ==> a in r.stored;
      }
    }
  }

  lemma CommandEntries(r: Room, w: Worker, ttl: nat)
    requires WorkerOk(r, w) && w.Piping? && w.next < |w.head| + 2 && EntriesOk(r)
    ensures EntriesOk(Command(r, w, ttl))
  {
  }

  lemma CommandMoves(r: Room, w: Worker, ttl: nat)
    requires WorkerOk(r, w) && w.Piping? && w.next < |w.head| + 2 && KeysOk(r)
    requires w.next < |w.head| ==> TokensOk(r, w.head[w.next])
    ensures WorkerOk(Command(r, w, ttl), w.(next := w.next + 1))
    ensures KeysOk(Command(r, w, ttl))
  {
  }

  lemma CommandFrame(r: Room, w: Worker, ttl: nat)
    requires w.Piping? && |w.plan| == |w.head|
    ensures var u := Command(r, w, ttl); u.joined == r.joined && u.now == r.now && u.workers == r.workers
    ensures forall q :: q in r.stored ==> q in Command(r, w, ttl).stored
  {
    if w.next < |w.head| && w.plan[w.next].Some? {
      hide SetNx;
      SetNxFrame(r, w.head[w.next], w.plan[w.next].value, ttl);
    }
  }

  lemma SetNxFrame(r: Room, q: Qid, exp: int, ttl: nat)
    ensures var u := SetNx(r, q, exp, ttl);
      && u.joined == r.joined && u.now == r.now && u.workers == r.workers && forall k :: k in r.stored ==> k in u.stored
  {
  }

  lemma ExecuteKeeps(r: Room, id: Wid, batch: nat, ttl: nat)
    requires Good(r, ttl) && KeysOk(r) && WellFormed(r) && Enabled(r, Execute(id), batch, ttl)
    ensures Good(Do(r, Execute(id), batch, ttl), ttl) && KeysOk(Do(r, Execute(id), batch, ttl))
  {
    hide WorkerOk, HeadOk, EntriesOk, Fifo, TokensOk, Command;
    var w := r.workers[id];
    var c, u := Command(r, w, ttl), Do(r, Execute(id), batch, ttl);
    CommandFrame(r, w, ttl);
    CommandEntries(r, w, ttl);
    CommandFifo(r, w, ttl);
    CommandMoves(r, w, ttl);
    SameButWorkers(c, u);
    forall k | k in u.workers ensures WorkerOk(u, u.workers[k]) && PlanOk(u, u.workers[k], ttl) {
      if k == id {
        SameWorker(c, u, w.(next := w.next + 1));
      } else {
        JoinedByNow(r);
        WorkerStays(r, u, r.workers[k], ttl);
      }
    }
    forall k ensures TokensOk(u, k) {
      CommandTokens(r, w, ttl, k);
      SameTokens(c, u, k);
    }
  }

  lemma JoinedByNow(r: Room)
    requires EntriesOk(r)
    ensures forall q :: q in r.joined ==> r.joined[q] <= r.now
  {
  }

  lemma CommandTokens(r: Room, w: Worker, ttl: nat, k: Qid)
    requires w.Piping? && |w.plan| == |w.head| && PlanOk(r, w, ttl) && TokensOk(r, k)
    ensures TokensOk(Command(r, w, ttl), k)
  {
    if w.next < |w.head| && w.plan[w.next].Some? {
      hide TokensOk, SetNx;
      SetNxTokens(r, w.head[w.next], w.plan[w.next].value, ttl, k);
    }
  }

  lemma SameButWorkers(r: Room, u: Room)
    requires u == r.(workers := u.workers)
    ensures EntriesOk(r) ==> EntriesOk(u)
    ensures Fifo(r) ==> Fifo(u)
    ensures KeysOk(r) ==> KeysOk(u)
  {
  }

  lemma SameWorker(r: Room, u: Room, w: Worker)
    requires u == r.(workers := u.workers) && WorkerOk(r, w)
    ensures WorkerOk(u, w)
  {
  }

  lemma SameTokens(r: Room, u: Room, q: Qid)
    requires u == r.(workers := u.workers) && TokensOk(r, q)
    ensures TokensOk(u, q)
  {
  }

  lemma DoKeeps(r: Room, step: Step, batch: nat, ttl: nat)
    requires Good(r, ttl) && KeysOk(r) && WellFormed(r) && Enabled(r, step, batch, ttl)
    ensures Good(Do(r, step, batch, ttl), ttl) && KeysOk(Do(r, step, batch, ttl)) && WellFormed(Do(r, step, batch, ttl))
  {
    hide EntriesOk, HeadOk, Fifo, TokensOk, IsHead;
    match step {
      case Tick(to) => TickKeeps(r, to, batch, ttl);
      case Join(q, user) => JoinKeeps(r, q, user, batch, ttl);
      case Execute(w) => ExecuteKeeps(r, w, batch, ttl);
      case _ => WorkerStepKeeps(r, step, batch, ttl);
    }
  }

  // ---- every run ------------------------------------------------------------------------

  ghost predicate IsRun(rs: seq<Room>, steps: seq<Step>, batch: nat, ttl: nat) {
    && |rs| == |steps| + 1 && rs[0] == START
    && forall i :: 0 <= i < |steps| ==>
         WellFormed(rs[i]) && Enabled(rs[i], steps[i], batch, ttl) && rs[i + 1] == Do(rs[i], steps[i], batch, ttl)
  }

  lemma {:induction false} EveryStateIsGood(rs: seq<Room>, steps: seq<Step>, batch: nat, ttl: nat, n: nat)
    requires IsRun(rs, steps, batch, ttl) && n < |rs|
    ensures Good(rs[n], ttl) && KeysOk(rs[n]) && WellFormed(rs[n])
  {
    hide Good, KeysOk, WellFormed, Enabled, Do;
    if n == 0 {
      StartIsGood(ttl);
    } else {
      EveryStateIsGood(rs, steps, batch, ttl, n - 1);
      DoKeeps(rs[n - 1], steps[n - 1], batch, ttl);
    }
  }

  lemma StartIsGood(ttl: nat)
    ensures Good(START, ttl) && KeysOk(START) && WellFormed(START)
  {
  }

  /** Nobody leaves the queue before their token was stored, whatever crashed or overlapped. */
  lemma NobodyIsLost(rs: seq<Room>, steps: seq<Step>, batch: nat, ttl: nat, n: nat, q: Qid)
    requires IsRun(rs, steps, batch, ttl) && n < |rs| && q in rs[n].joined
    ensures q in rs[n].queue || (q in rs[n].stored && rs[n].stored[q] != [])
  {
    EveryStateIsGood(rs, steps, batch, ttl, n);
    assert TokensOk(rs[n], q);
  }

  /** An entry is admitted only after everybody who joined in an earlier millisecond. */
  lemma FirstComeFirstServed(rs: seq<Room>, steps: seq<Step>, batch: nat, ttl: nat, n: nat, a: Qid, b: Qid)
    requires IsRun(rs, steps, batch, ttl) && n < |rs|
    requires a in rs[n].joined && b in rs[n].joined && rs[n].joined[a] < rs[n].joined[b] && b in rs[n].stored
    ensures a in rs[n].stored
  {
    EveryStateIsGood(rs, steps, batch, ttl, n);
  }

  /**
   Within the head a worker read, tokens are stored front to back: when the worker has come to position i, whoever is
   ahead of that entry in the head, by joining time and within a millisecond by id, has a token.
   */
  lemma HeadOrder(rs: seq<Room>, steps: seq<Step>, batch: nat, ttl: nat, n: nat, w: Wid, i: nat, a: Qid)
    requires IsRun(rs, steps, batch, ttl) && n < |rs| && w in rs[n].workers && rs[n].workers[w].Piping?
    requires i <= rs[n].workers[w].next && i < |rs[n].workers[w].head| && a in rs[n].workers[w].head
    requires a in rs[n].joined && rs[n].workers[w].head[i] in rs[n].joined
    requires var b := rs[n].workers[w].head[i];
      rs[n].joined[a] < rs[n].joined[b] || (rs[n].joined[a] == rs[n].joined[b] && a < b)
    ensures a in rs[n].stored
  {
    hide EntriesOk, Fifo, TokensOk;
    EveryStateIsGood(rs, steps, batch, ttl, n);
    assert WorkerOk(rs[n], rs[n].workers[w]);
    var k :| 0 <= k < |rs[n].workers[w].head| && rs[n].workers[w].head[k] == a;
    assert k < i;
  }

  /** Of all tokens ever stored for a queue id at most one is unexpired, and it is the one its key shows. */
  lemma OneUnexpiredToken(rs: seq<Room>, steps: seq<Step>, batch: nat, ttl: nat, n: nat, q: Qid, i: nat, j: nat)
    requires IsRun(rs, steps, batch, ttl) && n < |rs| && q in rs[n].stored
    requires i < |rs[n].stored[q]| && j < |rs[n].stored[q]| && rs[n].now < rs[n].stored[q][i] && rs[n].now < rs[n].stored[q][j]
    ensures i == j && LiveKey(rs[n], q) && rs[n].admitted[q].exp == rs[n].stored[q][i]
  {
    hide EntriesOk, Fifo, WorkersOk;
    EveryStateIsGood(rs, steps, batch, ttl, n);
    assert TokensOk(rs[n], q);
  }
}
