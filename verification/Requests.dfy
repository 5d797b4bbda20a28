/** Validating and normalising a create request: the form that is hashed and stored. */
module Requests {
  import opened Saga

  datatype Request = Request(event: int, seats: seq<string>)

  datatype Problem = NoSeats | TooMany | DuplicateSeat(id: string) | UnknownSeat(id: string)
  datatype Result = Good(req: Request) | Bad(problem: Problem)

  // ---- string order ---------------------------------------------------------------------

  /** Character by character; a proper prefix comes first. */
  predicate Le(a: string, b: string) {
    a == "" || (b != "" && (a[0] < b[0] || (a[0] == b[0] && Le(a[1..], b[1..]))))
  }

  /** Ascending, with a prefix before what it begins. */
  lemma LeAscends(c: char, d: char, s: string)
    ensures Le([c], [d]) <==> c <= d
    ensures Le("", s) && (s != "" ==> !Le(s, ""))
  {
    assert [c][1..] == "" && [d][1..] == "";
  }

  lemma {:induction false} LeTotal(a: string, b: string)
    ensures Le(a, b) || Le(b, a)
  {
    if a != "" && b != "" && a[0] == b[0] {
      LeTotal(a[1..], b[1..]);
    }
  }

  lemma {:induction false} LeAntisymmetric(a: string, b: string)
    requires Le(a, b) && Le(b, a)
    ensures a == b
  {
    if a == "" {
    } else {
      LeAntisymmetric(a[1..], b[1..]);
      assert a == [a[0]] + a[1..] && b == [b[0]] + b[1..];
    }
  }

  lemma {:induction false} LeTransitive(a: string, b: string, c: string)
    requires Le(a, b) && Le(b, c)
    ensures Le(a, c)
  {
    if a != "" && a[0] == b[0] && b[0] == c[0] {
      LeTransitive(a[1..], b[1..], c[1..]);
    }
  }

  // ---- sorting -----------------------------------------------------------------------------

  predicate Sorted(s: seq<string>) {
    forall i, j :: 0 <= i < j < |s| ==> Le(s[i], s[j])
  }

  function Insert(x: string, s: seq<string>): seq<string> {
    if s == [] || Le(x, s[0]) then [x] + s else [s[0]] + Insert(x, s[1..])
  }

  /** What slices.Sort leaves. */
  function Sort(s: seq<string>): seq<string> {
    if s == [] then [] else Insert(s[0], Sort(s[1..]))
  }

  lemma {:induction false} InsertKeeps(x: string, s: seq<string>)
    ensures multiset(Insert(x, s)) == multiset(s) + multiset{x}
  {
    if s != [] && !Le(x, s[0]) {
      InsertKeeps(x, s[1..]);
      assert s == [s[0]] + s[1..];
    }
  }

  lemma {:induction false} InsertSorts(x: string, s: seq<string>)
    requires Sorted(s)
    ensures Sorted(Insert(x, s))
  {
    if s == [] {
    } else if Le(x, s[0]) {
      forall j | 0 <= j < |s| ensures Le(x, s[j]) {
        if j > 0 {
          LeTransitive(x, s[0], s[j]);
        }
      }
    } else {
      var rest := Insert(x, s[1..]);
      InsertSorts(x, s[1..]);
      InsertKeeps(x, s[1..]);
      LeTotal(x, s[0]);
      forall j | 0 <= j < |rest| ensures Le(s[0], rest[j]) {
        assert rest[j] in multiset(rest);
        if rest[j] != x {
          assert rest[j] in multiset(s[1..]);
          assert rest[j] in s[1..];
        }
      }
    }
  }

  /** Sorting gives an ordered permutation. */
  lemma {:induction false} SortIsRight(s: seq<string>)
    ensures Sorted(Sort(s)) && multiset(Sort(s)) == multiset(s)
  {
    if s == [] {
    } else {
      SortIsRight(s[1..]);
      InsertSorts(s[0], Sort(s[1..]));
      InsertKeeps(s[0], Sort(s[1..]));
      assert s == [s[0]] + s[1..];
    }
  }

  lemma SameMembers(s: seq<string>)
    ensures |Sort(s)| == |s| && forall x :: x in Sort(s) <==> x in s
  {
    SortIsRight(s);
    assert |Sort(s)| == |multiset(Sort(s))| == |s|;
    forall x ensures x in Sort(s) <==> x in s {
      assert x in Sort(s) <==> x in multiset(Sort(s));
      assert x in s <==> x in multiset(s);
    }
  }

  lemma {:induction false} DistinctIffOnce(s: seq<string>)
    ensures Distinct(s) <==> forall x :: multiset(s)[x] <= 1
  {
    if s == [] {
    } else {
      var n := |s| - 1;
      assert s == s[..n] + [s[n]];
      DistinctIffOnce(s[..n]);
      if Distinct(s) {
        assert s[n] !in s[..n];
        assert multiset(s[..n])[s[n]] == 0;
      } else if Distinct(s[..n]) {
        var i :| 0 <= i < n && s[i] == s[n];
        assert s[..n][i] == s[n];
        assert multiset(s[..n])[s[n]] >= 1;
        assert multiset(s)[s[n]] >= 2;
      } else {
        var x :| multiset(s[..n])[x] > 1;
        assert multiset(s)[x] > 1;
      }
    }
  }

  lemma SortKeepsDistinct(s: seq<string>)
    ensures Distinct(Sort(s)) <==> Distinct(s)
  {
    SortIsRight(s);
    DistinctIffOnce(s);
    DistinctIffOnce(Sort(s));
  }

  // ---- normalize ------------------------------------------------------------------------------

  /** A request the event can serve. */
  predicate Valid(r: Request, max: int, known: set<string>) {
    0 < |r.seats| <= max && Distinct(r.seats) && forall id :: id in r.seats ==> id in known
  }

  predicate Fine(seats: seq<string>, known: set<string>, i: int)
    requires 0 <= i < |seats|
  {
    seats[i] in known && (i > 0 ==> seats[i - 1] != seats[i])
  }

  /** Problem p is about entry i, and there is none before; a repeated id is reported as such even if unknown. */
  predicate FirstWrong(seats: seq<string>, known: set<string>, i: int, p: Problem) {
    && 0 <= i < |seats|
    && (forall k :: 0 <= k < i ==> Fine(seats, known, k))
    && !Fine(seats, known, i)
    && p == if i > 0 && seats[i - 1] == seats[i] then DuplicateSeat(seats[i]) else UnknownSeat(seats[i])
  }

  /** normalize: the sorted copy of a valid request, and otherwise the first thing wrong with it in sorted order. */
  method Normalize(r: Request, max: int, known: set<string>) returns (res: Result)
    ensures res.Good? <==> Valid(r, max, known)
    ensures res.Good? ==> res.req == Request(r.event, Sort(r.seats))
    ensures res == Bad(NoSeats) <==> r.seats == []
    ensures res == Bad(TooMany) <==> r.seats != [] && |r.seats| > max
    ensures res.Bad? && res.problem.DuplicateSeat? ==> multiset(r.seats)[res.problem.id] > 1
    ensures res.Bad? && 0 < |r.seats| <= max ==> exists i :: FirstWrong(Sort(r.seats), known, i, res.problem)
  {
    var n := |r.seats|;
    if n == 0 {
      return Bad(NoSeats);
    }
    if n > max {
      return Bad(TooMany);
    }
    hide Sort, Le, Sorted;
    var seats := Sort(r.seats);
    SameMembers(r.seats);
    SortIsRight(r.seats);
    SortKeepsDistinct(r.seats);
    DistinctIffOnce(r.seats);
    var problem := Scan(seats, known);
    res := if problem.Some? then Bad(problem.value) else Good(Request(r.event, seats));
  }

  /** The scan over the sorted ids: the first one that repeats its neighbour or is unknown. */
  method Scan(seats: seq<string>, known: set<string>) returns (p: Option<Problem>)
    requires Sorted(seats)
    ensures p.None? <==> Distinct(seats) && forall id :: id in seats ==> id in known
    ensures p.Some? ==> exists i :: FirstWrong(seats, known, i, p.value)
    ensures p.Some? && p.value.DuplicateSeat? ==> multiset(seats)[p.value.id] > 1
  {
    for i := 0 to |seats|
      invariant forall k :: 0 <= k < i ==> seats[k] in known
      invariant forall k :: 0 < k < i ==> seats[k - 1] != seats[k]
    {
      if i > 0 && seats[i - 1] == seats[i] {
        Twice(seats, i);
        assert FirstWrong(seats, known, i, DuplicateSeat(seats[i]));
        return Some(DuplicateSeat(seats[i]));
      }
      if seats[i] !in known {
        assert FirstWrong(seats, known, i, UnknownSeat(seats[i]));
        return Some(UnknownSeat(seats[i]));
      }
    }
    NeighboursSuffice(seats);
    p := None;
  }

  lemma Twice(t: seq<string>, i: nat)
    requires 0 < i < |t| && t[i - 1] == t[i]
    ensures multiset(t)[t[i]] > 1
  {
    assert t == t[..i] + [t[i]] + t[i + 1..];
    assert t[..i][i - 1] == t[i];
    assert multiset(t[..i])[t[i]] >= 1;
  }

  /** In a sorted list it is enough to compare neighbours. */
  lemma NeighboursSuffice(s: seq<string>)
    requires Sorted(s) && forall k :: 0 < k < |s| ==> s[k - 1] != s[k]
    ensures Distinct(s)
  {
    forall i, j | 0 <= i < j < |s| ensures s[i] != s[j] {
      if s[i] == s[j] && i + 1 < j {
        LeAntisymmetric(s[i], s[i + 1]);
      }
    }
  }

  // ---- equal normal forms ------------------------------------------------------------------------

  /** A strictly ordered list is determined by its members. */
  lemma {:induction false} SortedIsUnique(s: seq<string>, t: seq<string>)
    requires Sorted(s) && Sorted(t) && Distinct(s) && Distinct(t)
    requires forall x :: x in s <==> x in t
    ensures s == t
  {
    assert t != [] ==> t[0] in t;
    if s == [] {
    } else {
      assert s[0] in s && t != [];
      var i :| 0 <= i < |t| && t[i] == s[0];
      var j :| 0 <= j < |s| && s[j] == t[0];
      if i > 0 && j > 0 {
        LeAntisymmetric(s[0], t[0]);
      }
      assert s[0] == t[0];
      forall x ensures x in s[1..] <==> x in t[1..] {
        TailMembers(s, x);
        TailMembers(t, x);
      }
      SortedIsUnique(s[1..], t[1..]);
      assert s == [s[0]] + s[1..] && t == [t[0]] + t[1..];
    }
  }

  lemma TailMembers(s: seq<string>, x: string)
    requires s != [] && Distinct(s)
    ensures x in s[1..] <==> x in s && x != s[0]
  {
    if x in s && x != s[0] {
      var i :| 0 <= i < |s| && s[i] == x;
      assert s[1..][i - 1] == x;
    }
  }

  /** Two valid requests have the same normal form exactly when they name the same event and the same seats. */
  lemma SameNormalFormIff(r: Request, q: Request, max: int, known: set<string>)
    requires Valid(r, max, known) && Valid(q, max, known)
    ensures Request(r.event, Sort(r.seats)) == Request(q.event, Sort(q.seats))
       <==> r.event == q.event && (set x | x in r.seats) == (set x | x in q.seats)
  {
    SameMembers(r.seats);
    SameMembers(q.seats);
    SortIsRight(r.seats);
    SortIsRight(q.seats);
    SortKeepsDistinct(r.seats);
    SortKeepsDistinct(q.seats);
    var a, b := set x | x in r.seats, set x | x in q.seats;
    if a == b {
      forall x ensures x in Sort(r.seats) <==> x in Sort(q.seats) {
        assert x in r.seats <==> x in a;
        assert x in q.seats <==> x in b;
      }
      SortedIsUnique(Sort(r.seats), Sort(q.seats));
    }
    if Sort(r.seats) == Sort(q.seats) {
      assert forall x :: x in r.seats <==> x in q.seats;
      assert a == b;
    }
  }

  /** With a hash that does not collide, an idempotency key may be reused exactly for the same event and seats. */
  lemma SameHashIff(hash: Request -> string, r: Request, q: Request, max: int, known: set<string>)
    requires forall a, b :: hash(a) == hash(b) ==> a == b
    requires Valid(r, max, known) && Valid(q, max, known)
    ensures hash(Request(r.event, Sort(r.seats))) == hash(Request(q.event, Sort(q.seats)))
       <==> r.event == q.event && (set x | x in r.seats) == (set x | x in q.seats)
  {
    SameNormalFormIff(r, q, max, known);
  }
}
