/** The order state machine: statuses, the transition table, and what every legal history looks like. */
module States {

  datatype Status = Held | Paid | Ticketed | Expired | Cancelled | Refunding | Refunded

  /** The complete table: anything not listed is illegal. */
  function Transitions(from: Status): seq<Status> {
    match from
    case Held => [Paid, Cancelled, Expired, Refunding]
    case Paid => [Ticketed]
    case Expired => [Paid, Refunding]
    case Cancelled => [Refunding]
    case Refunding => [Refunded]
    case Ticketed => []
    case Refunded => []
  }

  predicate CanTransition(from: Status, to: Status) {
    to in Transitions(from)
  }

  /** An order that keeps its seats for good: its tickets exist. */
  predicate Sold(s: Status) {
    s == Paid || s == Ticketed
  }

  /** Every entry of h follows from the one before it by a listed transition. */
  predicate LegalChain(h: seq<Status>) {
    forall i :: 0 < i < |h| ==> CanTransition(h[i - 1], h[i])
  }

  function Rank(s: Status): nat {
    match s
    case Held => 0
    case Expired | Cancelled => 1
    case Paid | Refunding => 2
    case Ticketed | Refunded => 3
  }

  /** Along a legal history the rank grows with the position, so no status comes back. */
  lemma {:induction false} RankGrows(h: seq<Status>, i: nat, j: nat)
    requires LegalChain(h) && i < j < |h|
    ensures Rank(h[i]) + (j - i) <= Rank(h[j])
    decreases j - i
  {
    assert CanTransition(h[j - 1], h[j]);
    if i < j - 1 {
      RankGrows(h, i, j - 1);
    }
  }

  /** No order changes status more than three times, and no status is ever reached twice. */
  lemma LegalHistoryIsShort(h: seq<Status>)
    requires LegalChain(h)
    ensures |h| <= 4
    ensures forall i, j :: 0 <= i < j < |h| ==> h[i] != h[j]
  {
    if |h| > 0 && |h| - 1 > 0 {
      RankGrows(h, 0, |h| - 1);
    }
    forall i, j | 0 <= i < j < |h|
      ensures h[i] != h[j]
    {
      RankGrows(h, i, j);
    }
  }

  /** A history that ends sold passed through PAID, and one that ends refunded passed through REFUNDING. */
  lemma HistoryMilestones(h: seq<Status>)
    requires LegalChain(h) && |h| > 0 && h[0] == Held
    ensures Sold(h[|h| - 1]) ==> Paid in h
    ensures h[|h| - 1] in {Refunding, Refunded} ==> Refunding in h
    ensures Paid in h ==> Sold(h[|h| - 1])
    ensures Ticketed in h ==> h[|h| - 1] == Ticketed
  {
    if |h| > 1 {
      assert CanTransition(h[|h| - 2], h[|h| - 1]);
    }
    forall i | 0 <= i < |h| - 1
      ensures h[i] == Paid ==> h[|h| - 1] == Ticketed
      ensures h[i] != Ticketed
    {
      assert CanTransition(h[i], h[i + 1]);
      if h[i] == Paid {
        RankGrows(h, i, |h| - 1);
        assert i + 1 == |h| - 1;
      }
    }
  }
}
