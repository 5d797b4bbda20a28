/** The waiting room's Redis side, call by call: joining, asking for one's place, and one uninterrupted admission. */
module Queue {
  import opened Saga
  import opened Sums
  import opened WaitingRoom

  /** The user's key: the queue id they were given, until the key lapses. */
  datatype Place = Place(qid: Qid, until: int)

  datatype Standing = NotQueued | Waiting(position: nat) | Admitted(exp: int, left: int)

  /** A user keeps their place this long, in milliseconds. */
  const USER_TTL := 7_200_000

  /** How many are ahead: the 0-based ZRANK. */
  ghost function Rank(queue: map<Qid, int>, q: Qid): nat
    requires q in queue
  {
    |set p | p in queue && Before(queue, p, q)|
  }

  method ZRank(queue: map<Qid, int>, q: Qid) returns (rank: nat)
    requires q in queue
    ensures rank == Rank(queue, q)
  {
    rank := |set p | p in queue && Before(queue, p, q)|;
  }

  /** Ranks are places in one line: distinct, and below the length of the queue. */
  lemma RanksAreDistinct(queue: map<Qid, int>, a: Qid, b: Qid)
    requires a in queue && b in queue && Before(queue, a, b)
    ensures Rank(queue, a) < Rank(queue, b) < |queue|
  {
    var x, y := set p | p in queue && Before(queue, p, a), set p | p in queue && Before(queue, p, b);
    assert x + {a} <= y;
    SubsetIsSmaller(x + {a}, y);
    assert y + {b} <= queue.Keys;
    SubsetIsSmaller(y + {b}, queue.Keys);
  }

  function Owned(owner: map<Qid, User>, head: seq<Qid>): set<Qid> {
    set q | q in head && q in owner
  }

  /** The signed tokens of a pipeline: one exp per owned entry. */
  function Stored(admitted: map<Qid, Admission>, head: seq<Qid>, plan: seq<Option<int>>, now: int, ttl: nat): map<Qid, Admission>
    requires |plan| == |head|
  {
    if head == [] then admitted
    else
      var n := |head| - 1;
      var a := Stored(admitted, head[..n], plan[..n], now, ttl);
      if plan[n].Some? && !(head[n] in a && now < a[head[n]].until) then a[head[n] := Admission(plan[n].value, now + ttl)] else a
  }

  /** Storing touches only owned entries of the head, never replaces a live key, and leaves every owned entry with one. */
  lemma {:induction false} StoredIsExact(admitted: map<Qid, Admission>, head: seq<Qid>, plan: seq<Option<int>>, now: int, ttl: nat, q: Qid)
    requires |plan| == |head| && ttl > 0 && Distinct(head)
    ensures var a := Stored(admitted, head, plan, now, ttl);
      && (q in admitted && now < admitted[q].until ==> q in a && a[q] == admitted[q])
      && (forall i :: 0 <= i < |head| && head[i] == q && plan[i].Some? ==>
            q in a && now < a[q].until && (a[q] == Admission(plan[i].value, now + ttl) || (q in admitted && a[q] == admitted[q])))
      && ((forall i :: 0 <= i < |head| && head[i] == q ==> plan[i].None?) ==> (q in a <==> q in admitted) && (q in a ==> a[q] == admitted[q]))
  {
    if head == [] {
    } else {
      var n := |head| - 1;
      StoredIsExact(admitted, head[..n], plan[..n], now, ttl, q);
    }
  }

  class RedisQueue {
    var now: int
    var queue: map<Qid, int>
    var owner: map<Qid, User>
    var admitted: map<Qid, Admission>
    var places: map<User, Place>

    constructor ()
      ensures queue == map[] && owner == map[] && admitted == map[] && places == map[]
    {
      now, queue, owner, admitted, places := 0, map[], map[], map[], map[];
    }

    predicate Shown(q: Qid)
      reads this
    {
      q in admitted && now < admitted[q].until
    }

    predicate HasPlace(user: User)
      reads this
    {
      user in places && now < places[user].until
    }

    /** A token outranks a place in the queue: after a crash an entry may have both. */
    method Status(q: Qid) returns (s: Standing)
      ensures s.Admitted? <==> Shown(q)
      ensures s.Admitted? ==> s.exp == admitted[q].exp && s.left == admitted[q].until - now > 0
      ensures s.Waiting? <==> !Shown(q) && q in queue
      ensures s.Waiting? ==> s.position == Rank(queue, q) + 1
    {
      if Shown(q) {
        return Admitted(admitted[q].exp, admitted[q].until - now);
      }
      if q in queue {
        var rank := ZRank(queue, q);
        return Waiting(rank + 1);
      }
      return NotQueued;
    }

    /** join.lua: a place other than the one the caller found spent is kept. */
    method Enter(newId: Qid, user: User, spent: Option<Qid>) returns (q: Qid, position: nat)
      requires newId !in queue
      modifies this
      ensures old(HasPlace(user)) && Some(old(places)[user].qid) != spent ==>
        && q == old(places)[user].qid && unchanged(this)
        && position == if q in queue then Rank(queue, q) + 1 else 0
      ensures !(old(HasPlace(user)) && Some(old(places)[user].qid) != spent) ==>
        && queue == old(queue)[newId := now] && q == newId && position == Rank(queue, newId) + 1
        && owner == old(owner)[newId := user]
        && places == old(places)[user := Place(newId, now + USER_TTL)]
        && admitted == old(admitted) && now == old(now)
    {
      if HasPlace(user) && Some(places[user].qid) != spent {
        q := places[user].qid;
        if q in queue {
          var rank := ZRank(queue, q);
          position := rank + 1;
        } else {
          position := 0;
        }
        return;
      }
      q := newId;
      queue := queue[newId := now];
      owner := owner[newId := user];
      places := places[user := Place(newId, now + USER_TTL)];
      var rank := ZRank(queue, newId);
      position := rank + 1;
    }

    /** A user who waits or is admitted keeps their id; one whose admission ran out joins again behind everybody earlier. */
    method Join(user: User, newId: Qid) returns (q: Qid, position: nat)
      requires newId !in queue && newId !in admitted && forall p :: p in queue ==> queue[p] <= now
      modifies this
      ensures HasPlace(user) && places[user].qid == q && (q in queue || Shown(q))
      ensures old(HasPlace(user) && (places[user].qid in queue || Shown(places[user].qid))) ==>
        q == old(places)[user].qid && unchanged(this)
      ensures !old(HasPlace(user) && (places[user].qid in queue || Shown(places[user].qid))) ==>
        q == newId && queue == old(queue)[newId := now] && forall p :: p in old(queue) && old(queue)[p] < now ==> Before(queue, p, q)
      ensures position == if Shown(q) || q !in queue then 0 else Rank(queue, q) + 1
    {
      var spent := None;
      if HasPlace(user) {
        var s := Status(places[user].qid);
        match s
        case Admitted(_, _) => return places[user].qid, 0;
        case Waiting(p) => return places[user].qid, p;
        case NotQueued => spent := Some(places[user].qid);
      }
      q, position := Enter(newId, user, spent);
    }

    /**
     One admission round: every owned entry of the head ends up with a live token, tokens already shown are kept, and
     the whole head leaves the queue. Nothing happens without the lease or with an empty queue.
     */
    method Admit(leased: bool, head: seq<Qid>, exps: seq<int>, batch: nat, ttl: nat) returns (n: nat)
      requires IsHead(queue, head, batch) && |exps| == |head|
      modifies this
      ensures !leased || head == [] ==> n == 0 && unchanged(this)
      ensures leased ==>
        && n == |Owned(old(owner), head)|
        && queue == old(queue) - (set q | q in head)
        && owner == old(owner) - (set q | q in head)
        && admitted == Stored(old(admitted), head, Plan(old(owner), head, exps), now, ttl)
      ensures places == old(places) && now == old(now)
    {
      hide IsHead;
      n := 0;
      if !leased {
        return;
      }
      if head == [] {
        assert Owned(owner, head) == {};
        assert queue == queue - (set q | q in head) && owner == owner - (set q | q in head);
        return;
      }
      var plan;
      plan, n := Sign(head, exps, batch);
      StoreAll(head, plan, ttl);
      queue := queue - set q | q in head;
      owner := owner - set q | q in head;
    }

    /** Fills the pipeline: a token for each entry whose owner is known. */
    method Sign(head: seq<Qid>, exps: seq<int>, ghost batch: nat) returns (plan: seq<Option<int>>, n: nat)
      requires IsHead(queue, head, batch) && |exps| == |head|
      ensures plan == Plan(owner, head, exps) && n == |Owned(owner, head)|
    {
      plan, n := [], 0;
      for i := 0 to |head|
        invariant plan == Plan(owner, head, exps)[..i]
        invariant n == |Owned(owner, head[..i])|
      {
        CountOwned(owner, head, i, batch, queue);
        if head[i] in owner {
          plan := plan + [Some(exps[i])];
          n := n + 1;
        } else {
          plan := plan + [None];
        }
      }
      assert head[..|head|] == head;
    }

    /** The SET NX commands of the pipeline. */
    method StoreAll(head: seq<Qid>, plan: seq<Option<int>>, ttl: nat)
      requires |plan| == |head|
      modifies this`admitted
      ensures admitted == Stored(old(admitted), head, plan, now, ttl)
    {
      for i := 0 to |head|
        invariant admitted == Stored(old(admitted), head[..i], plan[..i], now, ttl)
      {
        assert head[..i + 1][..i] == head[..i] && plan[..i + 1][..i] == plan[..i];
        if plan[i].Some? && !Shown(head[i]) {
          admitted := admitted[head[i] := Admission(plan[i].value, now + ttl)];
        }
      }
      assert head[..|head|] == head && plan[..|head|] == plan;
    }
  }

  lemma CountOwned(owner: map<Qid, User>, head: seq<Qid>, i: nat, batch: nat, queue: map<Qid, int>)
    requires i < |head| && IsHead(queue, head, batch)
    ensures |Owned(owner, head[..i + 1])| == |Owned(owner, head[..i])| + (if head[i] in owner then 1 else 0)
  {
    assert head[..i + 1] == head[..i] + [head[i]];
    assert head[i] !in head[..i];
    if head[i] in owner {
      assert Owned(owner, head[..i + 1]) == Owned(owner, head[..i]) + {head[i]};
    } else {
      assert Owned(owner, head[..i + 1]) == Owned(owner, head[..i]);
    }
  }

  // ---- the round as the workers' single commands --------------------------------------------

  /** The worker's commands one after the other, with nothing in between. */
  function Commands(r: Room, w: Worker, n: nat, ttl: nat): Room
    requires w.Piping? && |w.plan| == |w.head|
  {
    if n == 0 then r else Command(Commands(r, w, n - 1, ttl), w.(next := n - 1), ttl)
  }

  lemma StoreCommand(r: Room, w: Worker, i: nat, ttl: nat)
    requires w.Piping? && |w.plan| == |w.head| && i < |w.head|
    ensures var u := Command(r, w.(next := i), ttl);
      && u.queue == r.queue && u.owner == r.owner && u.now == r.now
      && u.admitted == if w.plan[i].Some? && !(w.head[i] in r.admitted && r.now < r.admitted[w.head[i]].until)
                       then r.admitted[w.head[i] := Admission(w.plan[i].value, r.now + ttl)] else r.admitted
  {
  }

  lemma {:induction false} TokensStored(r: Room, w: Worker, n: nat, ttl: nat)
    requires w.Piping? && |w.plan| == |w.head| && n <= |w.head|
    ensures var u := Commands(r, w, n, ttl);
      && u.admitted == Stored(r.admitted, w.head[..n], w.plan[..n], r.now, ttl)
      && u.queue == r.queue && u.owner == r.owner && u.now == r.now
  {
    hide Command;
    if n == 0 {
    } else {
      TokensStored(r, w, n - 1, ttl);
      StoreCommand(Commands(r, w, n - 1, ttl), w, n - 1, ttl);
      assert w.head[..n][..n - 1] == w.head[..n - 1] && w.plan[..n][..n - 1] == w.plan[..n - 1];
    }
  }

  /** An uninterrupted pipeline leaves what one admission round does: tokens stored, and the head gone from queue and owners. */
  lemma PipelineIsOneRound(r: Room, head: seq<Qid>, exps: seq<int>, ttl: nat)
    requires |exps| == |head|
    ensures var w := Piping(head, Plan(r.owner, head, exps), 0);
      var u := Commands(r, w, |head| + 2, ttl);
      && u.admitted == Stored(r.admitted, head, Plan(r.owner, head, exps), r.now, ttl)
      && u.queue == r.queue - (set q | q in head) && u.owner == r.owner - (set q | q in head)
  {
    var w := Piping(head, Plan(r.owner, head, exps), 0);
    TokensStored(r, w, |head|, ttl);
    assert w.head[..|head|] == head && w.plan[..|head|] == w.plan;
    var stored := Commands(r, w, |head|, ttl);
    var gone := Command(stored, w.(next := |head|), ttl);
    assert Commands(r, w, |head| + 1, ttl) == gone;
    assert Commands(r, w, |head| + 2, ttl) == Command(gone, w.(next := |head| + 1), ttl);
  }
}
