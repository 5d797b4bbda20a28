/**
 Concurrent requests for one event's seat map through the cache. A request looks at the entry under the mutex; if it is
 missing or expired it joins the load in flight, or starts one. Looking and joining are two steps, so other requests and
 the end of a load can come in between.
 */
module Loads {
  import opened Saga

  /** version counts the loads that were stored; expires is when the stored entry runs out. */
  datatype Entry = Entry(version: nat, expires: int)

  /** A request that missed at time at, when seen loads had been stored; or one that waits for the load in flight. */
  datatype Request = Missed(at: int, seen: nat) | Sharing(at: int, seen: nat) | Served(at: int, seen: nat, entry: Entry)

  datatype Cache = Cache(now: int, entry: Option<Entry>, stored: nat, loading: bool, requests: map<nat, Request>)

  const START := Cache(0, None, 0, false, map[])

  datatype Step =
    | Tick(to: int)
    | Look(id: nat)
    | Share(id: nat)
    | Finish
    | Fail

  predicate Fresh(c: Cache) {
    c.entry.Some? && c.now < c.entry.value.expires
  }

  predicate Enabled(c: Cache, step: Step) {
    match step
    case Tick(to) => c.now <= to
    case Look(id) => id !in c.requests
    case Share(id) => id in c.requests && c.requests[id].Missed?
    case Finish => c.loading
    case Fail => c.loading
  }

  /** The end of a load serves everybody who shares it. */
  function ServeAll(requests: map<nat, Request>, e: Entry): map<nat, Request> {
    map id | id in requests :: match requests[id] case Sharing(at, seen) => Served(at, seen, e) case r => r
  }

  function Do(c: Cache, step: Step, ttl: int): Cache
    requires Enabled(c, step)
  {
    match step
    case Tick(to) => c.(now := to)
    case Look(id) =>
      c.(requests := c.requests[id := if Fresh(c) then Served(c.now, c.stored, c.entry.value) else Missed(c.now, c.stored)])
    case Share(id) => c.(loading := true, requests := c.requests[id := Sharing(c.requests[id].at, c.requests[id].seen)])
    case Finish =>
      var e := Entry(c.stored + 1, c.now + ttl);
      c.(entry := Some(e), stored := c.stored + 1, loading := false, requests := ServeAll(c.requests, e))
    case Fail => c.(loading := false, requests := map id | id in c.requests && !c.requests[id].Sharing? :: c.requests[id])
  }

  /** A step that starts a load although an unexpired entry is stored. */
  predicate Wasted(c: Cache, step: Step) {
    step.Share? && !c.loading && Fresh(c)
  }

  ghost predicate RequestOk(c: Cache, r: Request, ttl: int) {
    && r.seen <= c.stored && r.at <= c.now
    && (r.Missed? && Fresh(c) ==> r.seen < c.stored)
    && (r.Sharing? ==> c.loading)
    && (r.Served? ==> r.at < r.entry.expires || (r.seen < r.entry.version && r.at + ttl <= r.entry.expires))
  }

  ghost predicate Good(c: Cache, ttl: int) {
    && (c.entry.Some? <==> c.stored > 0)
    && (c.entry.Some? ==> c.entry.value.version == c.stored && c.entry.value.expires <= c.now + ttl)
    && (forall id :: id in c.requests ==> RequestOk(c, c.requests[id], ttl))
  }

  lemma DoKeeps(c: Cache, step: Step, ttl: int)
    requires Good(c, ttl) && Enabled(c, step)
    ensures Good(Do(c, step, ttl), ttl)
  {
    var u := Do(c, step, ttl);
    forall id | id in u.requests ensures RequestOk(u, u.requests[id], ttl) {
      if id in c.requests {
        assert RequestOk(c, c.requests[id], ttl);
      }
    }
  }

  ghost predicate IsRun(cs: seq<Cache>, steps: seq<Step>, ttl: int) {
    && |cs| == |steps| + 1 && cs[0] == START
    && forall i :: 0 <= i < |steps| ==> Enabled(cs[i], steps[i]) && cs[i + 1] == Do(cs[i], steps[i], ttl)
  }

  lemma {:induction false} EveryStateIsGood(cs: seq<Cache>, steps: seq<Step>, ttl: int, n: nat)
    requires IsRun(cs, steps, ttl) && n < |cs|
    ensures Good(cs[n], ttl)
  {
    hide Enabled, Do;
    if n == 0 {
      assert cs[0] == START;
    } else {
      EveryStateIsGood(cs, steps, ttl, n - 1);
      DoKeeps(cs[n - 1], steps[n - 1], ttl);
    }
  }

  /** Whoever is served gets an entry that was unexpired when they asked, or was loaded after they asked. */
  lemma ServedIsFresh(cs: seq<Cache>, steps: seq<Step>, ttl: int, id: nat)
    requires IsRun(cs, steps, ttl) && id in cs[|steps|].requests && cs[|steps|].requests[id].Served?
    ensures var r := cs[|steps|].requests[id]; r.at < r.entry.expires || (r.seen < r.entry.version && r.at + ttl <= r.entry.expires)
  {
    EveryStateIsGood(cs, steps, ttl, |steps|);
  }

  /**
   A request that finds no load in flight starts one. It does so next to an unexpired entry exactly when that entry, not
   yet expired, was stored between the request's look and now.
   */
  lemma WastedIff(cs: seq<Cache>, steps: seq<Step>, ttl: int, id: nat)
    requires IsRun(cs, steps, ttl) && Enabled(cs[|steps|], Share(id)) && !cs[|steps|].loading
    ensures var c := cs[|steps|];
      Wasted(c, Share(id)) <==> c.requests[id].seen < c.stored && c.entry.Some? && c.now < c.entry.value.expires
  {
    EveryStateIsGood(cs, steps, ttl, |steps|);
  }

  /** That does happen: two requests miss together, and one joins only after the other's load has ended. */
  lemma SecondLoadWithinTtl(ttl: int) returns (cs: seq<Cache>, steps: seq<Step>)
    requires ttl > 0
    ensures IsRun(cs, steps, ttl) && Enabled(cs[|steps|], Share(1)) && Wasted(cs[|steps|], Share(1))
  {
    steps := [Look(0), Look(1), Share(0), Finish];
    var a := Do(START, Look(0), ttl);
    var b := Do(a, Look(1), ttl);
    var c := Do(b, Share(0), ttl);
    var d := Do(c, Finish, ttl);
    cs := [START, a, b, c, d];
    assert d.requests[1] == Missed(0, 0);
  }
}
