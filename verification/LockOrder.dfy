/**
 Row locks of concurrent transactions. Seats (by seat_id) and orders (by id) are numbered in the order the queries lock
 them. A waiting lock blocks until the row is free; a SKIP LOCKED one passes over a row that is not. The transactions
 are those of LockSeats, LockOrderStatuses, the single-row order locks, and ExpireDueOrders, which only skips.
 */
module LockOrder {

  datatype Want = Want(lock: int, skip: bool)

  datatype Tx = Tx(plan: seq<Want>, next: nat, held: set<int>, done: bool)

  type System = seq<Tx>

  /** Whatever a transaction waits for comes after everything it asked for before. */
  predicate Ascending(plan: seq<Want>) {
    forall a, b :: 0 <= a < b < |plan| && !plan[b].skip ==> plan[a].lock < plan[b].lock
  }

  predicate TxOk(t: Tx) {
    && Ascending(t.plan)
    && t.next <= |t.plan|
    && (forall l :: l in t.held ==> exists a :: 0 <= a < t.next && t.plan[a].lock == l)
    && (!t.done ==> forall a :: 0 <= a < t.next && !t.plan[a].skip ==> t.plan[a].lock in t.held)
    && (t.done ==> t.held == {})
  }

  /** Each transaction is sound, and no row is locked twice. */
  predicate Sound(s: System) {
    && (forall i :: 0 <= i < |s| ==> TxOk(s[i]))
    && (forall i, j :: 0 <= i < j < |s| ==> s[i].held !! s[j].held)
  }

  predicate HeldByOther(s: System, i: nat, lock: int)
    requires i < |s|
  {
    exists j :: 0 <= j < |s| && j != i && lock in s[j].held
  }

  predicate Unfinished(s: System, i: nat) {
    i < |s| && !s[i].done
  }

  predicate Waits(s: System, i: nat) {
    Unfinished(s, i) && s[i].next < |s[i].plan| && !s[i].plan[s[i].next].skip && HeldByOther(s, i, s[i].plan[s[i].next].lock)
  }

  /** Transaction i waits for a row that j holds. */
  predicate WaitsFor(s: System, i: nat, j: nat) {
    Waits(s, i) && j < |s| && j != i && s[i].plan[s[i].next].lock in s[j].held
  }

  /** One step of a transaction that need not wait: take or skip the next row, or commit and release. */
  function Advance(s: System, i: nat): System
    requires Unfinished(s, i) && !Waits(s, i)
  {
    var t := s[i];
    if t.next >= |t.plan| then s[i := t.(held := {}, done := true)]
    else
      var l := t.plan[t.next].lock;
      s[i := t.(next := t.next + 1, held := if HeldByOther(s, i, l) then t.held else t.held + {l})]
  }

  lemma AdvanceKeeps(s: System, i: nat)
    requires Sound(s) && Unfinished(s, i) && !Waits(s, i)
    ensures Sound(Advance(s, i))
  {
    var u := Advance(s, i);
    assert TxOk(s[i]);
    forall l | l in u[i].held ensures exists a :: 0 <= a < u[i].next && u[i].plan[a].lock == l {
      if l in s[i].held {
        var a :| 0 <= a < s[i].next && s[i].plan[a].lock == l;
        assert u[i].plan[a].lock == l;
      } else {
        assert u[i].plan[s[i].next].lock == l;
      }
    }
    assert TxOk(u[i]);
    forall a, b | 0 <= a < b < |u| ensures u[a].held !! u[b].held {
      assert s[a].held !! s[b].held;
      if a == i && u[i].held != s[i].held && u[i].held != {} {
        assert s[i].plan[s[i].next].lock !in s[b].held;
      }
      if b == i && u[i].held != s[i].held && u[i].held != {} {
        assert s[i].plan[s[i].next].lock !in s[a].held;
      }
    }
  }

  // ---- no deadlock -----------------------------------------------------------------------

  function Wanted(s: System, i: nat): int
    requires Waits(s, i)
  {
    s[i].plan[s[i].next].lock
  }

  /** A transaction that is waited for can itself only wait for a later row. */
  lemma WaitingClimbs(s: System, i: nat, j: nat)
    requires Sound(s) && WaitsFor(s, i, j)
    ensures Unfinished(s, j)
    ensures Waits(s, j) ==> Wanted(s, i) < Wanted(s, j)
  {
    assert TxOk(s[j]);
    var a :| 0 <= a < s[j].next && s[j].plan[a].lock == Wanted(s, i);
  }

  predicate WaitChain(s: System, chain: seq<nat>) {
    forall k :: 0 <= k < |chain| - 1 ==> WaitsFor(s, chain[k], chain[k + 1])
  }

  lemma {:induction false} ChainClimbs(s: System, chain: seq<nat>)
    requires Sound(s) && |chain| >= 2 && WaitChain(s, chain) && Waits(s, chain[|chain| - 1])
    ensures Waits(s, chain[0]) && Wanted(s, chain[0]) < Wanted(s, chain[|chain| - 1])
  {
    var n := |chain| - 1;
    assert WaitsFor(s, chain[n - 1], chain[n]);
    WaitingClimbs(s, chain[n - 1], chain[n]);
    if n > 1 {
      forall k | 0 <= k < n - 1 ensures WaitsFor(s, chain[..n][k], chain[..n][k + 1]) {
        assert WaitsFor(s, chain[k], chain[k + 1]);
      }
      ChainClimbs(s, chain[..n]);
    }
  }

  /** No transactions ever wait for each other in a circle. */
  lemma NoWaitCycle(s: System, cycle: seq<nat>)
    requires Sound(s) && |cycle| >= 2 && cycle[0] == cycle[|cycle| - 1]
    ensures !WaitChain(s, cycle)
  {
    if WaitChain(s, cycle) {
      assert WaitsFor(s, cycle[0], cycle[1]);
      ChainClimbs(s, cycle);
    }
  }

  /** A bound on every row that is asked for. */
  function Bound(s: System): (b: int)
    ensures forall i, a :: 0 <= i < |s| && 0 <= a < |s[i].plan| ==> s[i].plan[a].lock < b
  {
    if s == [] then 0
    else
      var b, c := Bound(s[..|s| - 1]), PlanBound(s[|s| - 1].plan);
      if b < c then c else b
  }

  function PlanBound(plan: seq<Want>): (b: int)
    ensures forall a :: 0 <= a < |plan| ==> plan[a].lock < b
  {
    if plan == [] then 0
    else
      var b, l := PlanBound(plan[..|plan| - 1]), plan[|plan| - 1].lock;
      if b <= l then l + 1 else b
  }

  /** Follow who waits for whom: the rows climb, so the walk ends at a transaction that can proceed. */
  lemma {:induction false} FollowWaits(s: System, i: nat, bound: int) returns (r: nat)
    requires Sound(s) && Unfinished(s, i)
    requires forall k, a :: 0 <= k < |s| && 0 <= a < |s[k].plan| ==> s[k].plan[a].lock < bound
    ensures Unfinished(s, r) && !Waits(s, r)
    decreases if Waits(s, i) then bound - Wanted(s, i) + 1 else 0
  {
    r := i;
    if Waits(s, i) {
      var j: nat :| j < |s| && j != i && s[i].plan[s[i].next].lock in s[j].held;
      assert WaitsFor(s, i, j);
      WaitingClimbs(s, i, j);
      r := FollowWaits(s, j, bound);
    }
  }

  /** As long as somebody is unfinished, somebody can proceed. */
  lemma SomebodyCanProceed(s: System, i: nat)
    requires Sound(s) && Unfinished(s, i)
    ensures exists r: nat :: Unfinished(s, r) && !Waits(s, r)
  {
    var r := FollowWaits(s, i, Bound(s));
  }

  // ---- and so everybody finishes -----------------------------------------------------------

  function Left(t: Tx): nat {
    if t.done || t.next > |t.plan| then 0 else |t.plan| - t.next + 1
  }

  function Work(s: System): nat {
    if s == [] then 0 else Work(s[..|s| - 1]) + Left(s[|s| - 1])
  }

  lemma {:induction false} WorkUpdate(s: System, i: nat, t: Tx)
    requires i < |s|
    ensures Work(s[i := t]) == Work(s) - Left(s[i]) + Left(t)
  {
    var u, n := s[i := t], |s| - 1;
    if i < n {
      WorkUpdate(s[..n], i, t);
      assert u[..n] == s[..n][i := t];
    } else {
      assert u[..n] == s[..n];
    }
  }

  predicate Finished(s: System) {
    forall i :: 0 <= i < |s| ==> s[i].done
  }

  /** A schedule in which nobody steps while they have to wait. */
  predicate Schedules(s: System, order: seq<nat>)
    decreases |order|
  {
    order == [] || (Unfinished(s, order[0]) && !Waits(s, order[0]) && Schedules(Advance(s, order[0]), order[1..]))
  }

  function Result(s: System, order: seq<nat>): System
    requires Schedules(s, order)
    decreases |order|
  {
    if order == [] then s else Result(Advance(s, order[0]), order[1..])
  }

  lemma Progress(s: System, i: nat)
    requires Sound(s) && Unfinished(s, i) && !Waits(s, i)
    ensures Work(Advance(s, i)) == Work(s) - 1
  {
    assert TxOk(s[i]);
    WorkUpdate(s, i, Advance(s, i)[i]);
    assert Advance(s, i) == s[i := Advance(s, i)[i]];
  }

  /** However far the transactions have got, they can all commit: no reachable state is stuck, not even partly. */
  lemma {:induction false} EverybodyFinishes(s: System) returns (order: seq<nat>)
    requires Sound(s)
    ensures Schedules(s, order) && Finished(Result(s, order))
    decreases Work(s)
  {
    order := [];
    if !Finished(s) {
      var i :| 0 <= i < |s| && !s[i].done;
      var r := FollowWaits(s, i, Bound(s));
      Progress(s, r);
      AdvanceKeeps(s, r);
      var rest := EverybodyFinishes(Advance(s, r));
      order := [r] + rest;
      assert order[1..] == rest;
    }
  }

  // ---- the service's transactions -------------------------------------------------------------

  /** What a transaction asks for: rows in order of their number, one row, or any rows that are free. */
  datatype Kind =
    | InOrder(ids: set<int>)        // LockSeats by seat_id, LockOrderStatuses by id
    | OneRow(id: int)               // a payment, a cancel, an issue
    | RefundThenOrder(refund: nat, order: nat)    // a completed refund
    | SkipLocked(rows: seq<int>)    // ExpireDueOrders, by deadline

  predicate Increasing(s: seq<int>) {
    forall i, j :: 0 <= i < j < |s| ==> s[i] < s[j]
  }

  lemma Member<T>(s: set<T>) returns (x: T)
    requires s != {}
    ensures x in s
  {
    x :| x in s;
  }

  lemma {:induction false} Smallest(ids: set<int>) returns (m: int)
    requires ids != {}
    ensures m in ids && forall x :: x in ids ==> m <= x
    decreases |ids|
  {
    m := Member(ids);
    var rest := ids - {m};
    assert ids == rest + {m};
    if rest == {} {
    } else {
      var n := Smallest(rest);
      if n < m {
        m := n;
      }
    }
  }

  /** ORDER BY over the requested ids: each once, in order. */
  ghost function SortedRows(ids: set<int>): (s: seq<int>)
    ensures Increasing(s) && forall x :: x in s <==> x in ids
    decreases |ids|
  {
    if ids == {} then []
    else
      assert exists m :: m in ids && forall x :: x in ids ==> m <= x by {
        var m := Smallest(ids);
      }
      var m :| m in ids && forall x :: x in ids ==> m <= x;
      [m] + SortedRows(ids - {m})
  }

  function Wants(rows: seq<int>, skip: bool): (p: seq<Want>)
    ensures |p| == |rows| && forall i :: 0 <= i < |p| ==> p[i] == Want(rows[i], skip)
  {
    seq(|rows|, i requires 0 <= i < |rows| => Want(rows[i], skip))
  }

  /** Refunds are numbered before orders and seats. */
  function RefundRow(n: nat): int {
    -1 - n
  }

  ghost function PlanOf(k: Kind): seq<Want> {
    match k
    case InOrder(ids) => Wants(SortedRows(ids), false)
    case OneRow(id) => [Want(id, false)]
    case RefundThenOrder(refund, order) => [Want(RefundRow(refund), false), Want(order, false)]
    case SkipLocked(rows) => Wants(rows, true)
  }

  /** Any number of transactions, none of which has started. */
  ghost function Fresh(kinds: seq<Kind>): (s: System)
    ensures |s| == |kinds| && forall i :: 0 <= i < |s| ==> s[i] == Tx(PlanOf(kinds[i]), 0, {}, false)
  {
    seq(|kinds|, i requires 0 <= i < |kinds| => Tx(PlanOf(kinds[i]), 0, {}, false))
  }

  lemma FreshIsSound(kinds: seq<Kind>)
    ensures Sound(Fresh(kinds))
  {
    forall i | 0 <= i < |kinds| ensures Ascending(PlanOf(kinds[i])) {
      PlanAscends(kinds[i]);
    }
  }

  lemma PlanAscends(k: Kind)
    ensures Ascending(PlanOf(k))
  {
  }

  lemma {:induction false} ScheduleIsSound(s: System, order: seq<nat>)
    requires Sound(s) && Schedules(s, order)
    ensures Sound(Result(s, order))
    decreases |order|
  {
    if order == [] {
    } else {
      AdvanceKeeps(s, order[0]);
      ScheduleIsSound(Advance(s, order[0]), order[1..]);
    }
  }

  /** However the service's transactions have been scheduled so far, none of them wait for each other in a circle. */
  lemma ServiceNeverDeadlocks(kinds: seq<Kind>, order: seq<nat>, cycle: seq<nat>)
    requires Schedules(Fresh(kinds), order) && |cycle| >= 2 && cycle[0] == cycle[|cycle| - 1]
    ensures !WaitChain(Result(Fresh(kinds), order), cycle)
  {
    FreshIsSound(kinds);
    ScheduleIsSound(Fresh(kinds), order);
    NoWaitCycle(Result(Fresh(kinds), order), cycle);
  }

  /** And from there they can all commit. */
  lemma ServiceFinishes(kinds: seq<Kind>, order: seq<nat>) returns (rest: seq<nat>)
    requires Schedules(Fresh(kinds), order)
    ensures Schedules(Result(Fresh(kinds), order), rest) && Finished(Result(Result(Fresh(kinds), order), rest))
  {
    FreshIsSound(kinds);
    ScheduleIsSound(Fresh(kinds), order);
    rest := EverybodyFinishes(Result(Fresh(kinds), order));
  }
}
