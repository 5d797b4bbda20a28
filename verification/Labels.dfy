/** Row labels: 0 is A, 25 is Z, 26 is AA, like spreadsheet columns. */
module Labels {

  function Letter(d: nat): (c: char)
    requires d < 26
    ensures 'A' <= c <= 'Z' && c as nat == 'A' as nat + d
  {
    "ABCDEFGHIJKLMNOPQRSTUVWXYZ"[d]
  }

  predicate Letters(s: string) {
    forall i :: 0 <= i < |s| ==> 'A' <= s[i] <= 'Z'
  }

  predicate IsLabel(s: string) {
    s != "" && Letters(s)
  }

  /** The number a label writes in bijective base 26, A being 1. */
  function Value(s: string): nat
    requires Letters(s)
  {
    if s == "" then 0 else 26 * Value(s[..|s| - 1]) + (s[|s| - 1] as nat - 'A' as nat) + 1
  }

  /** The row a label names. */
  function Index(s: string): nat
    requires IsLabel(s)
  {
    Value(s) - 1
  }

  lemma ValueStep(c: char, s: string)
    requires Letters(s) && 'A' <= c <= 'Z'
    ensures Letters(s + [c]) && Value(s + [c]) == 26 * Value(s) + (c as nat - 'A' as nat) + 1
  {
    assert (s + [c])[..|s|] == s;
  }

  function Pow(n: nat): nat {
    if n == 0 then 1 else 26 * Pow(n - 1)
  }

  /** Putting a letter in front adds it at the highest place. */
  lemma {:induction false} ValueFront(c: char, s: string)
    requires Letters(s) && 'A' <= c <= 'Z'
    ensures Letters([c] + s)
    ensures Value([c] + s) == (c as nat - 'A' as nat + 1) * Pow(|s|) + Value(s)
  {
    if s == "" {
      assert [c] + s == "" + [c];
      ValueStep(c, "");
    } else {
      var n := |s| - 1;
      ValueFront(c, s[..n]);
      assert [c] + s == ([c] + s[..n]) + [s[n]];
      ValueStep(s[n], [c] + s[..n]);
      Distribute(c as nat - 'A' as nat + 1, Pow(n), Value(s[..n]));
    }
  }

  lemma Distribute(a: nat, p: nat, v: nat)
    ensures 26 * (a * p + v) == a * (26 * p) + 26 * v
  {
  }

  lemma Carry(k: nat, q: nat, d: nat, p: nat)
    requires k - 1 == 26 * q + d
    ensures k * p == q * (26 * p) + (d + 1) * p
  {
    assert k == 26 * q + (d + 1);
  }

  /** The number still to write, at its place, and the letters written so far always make up the same total. */
  function Total(k: nat, name: string): nat
    requires Letters(name)
  {
    k * Pow(|name|) + Value(name)
  }

  lemma WriteLetter(k: nat, name: string)
    requires k > 0 && Letters(name)
    ensures var next := [Letter((k - 1) % 26)] + name; Letters(next) && Total((k - 1) / 26, next) == Total(k, name)
  {
    var d := (k - 1) % 26;
    ValueFront(Letter(d), name);
    Carry(k, (k - 1) / 26, d, Pow(|name|));
  }

  /** Built in a loop from the last letter to the first. The label is the one that names row i. */
  method RowLabel(i: nat) returns (name: string)
    ensures IsLabel(name) && Index(name) == i
  {
    hide Value, Pow, Total;
    name := "";
    var k: nat := i + 1;
    WholeTotal(k, name);
    while k > 0
      invariant Letters(name) && Total(k, name) == i + 1
      invariant k == 0 ==> name != ""
    {
      WriteLetter(k, name);
      name := [Letter((k - 1) % 26)] + name;
      k := (k - 1) / 26;
    }
    WholeTotal(k, name);
  }

  lemma WholeTotal(k: nat, name: string)
    requires Letters(name)
    ensures k == 0 ==> Total(k, name) == Value(name)
    ensures name == "" ==> Total(k, name) == k
  {
  }

  // ---- one label per row, in order -------------------------------------------------------

  /** Labels are told apart by the row they name. */
  lemma {:induction false} LabelsAreInjective(a: string, b: string)
    requires Letters(a) && Letters(b) && Value(a) == Value(b)
    ensures a == b
  {
    if a == "" || b == "" {
      assert a == b;
    } else {
      var m, n := |a| - 1, |b| - 1;
      SameDigits(Value(a[..m]), a[m] as nat - 'A' as nat, Value(b[..n]), b[n] as nat - 'A' as nat);
      LabelsAreInjective(a[..m], b[..n]);
      assert a == a[..m] + [a[m]] && b == b[..n] + [b[n]];
    }
  }

  lemma SameDigits(x: nat, d: nat, y: nat, e: nat)
    requires d < 26 && e < 26 && 26 * x + d == 26 * y + e
    ensures x == y && d == e
  {
  }

  /** Display order: shorter labels first, then letter by letter. */
  predicate Earlier(a: string, b: string) {
    |a| < |b| || (|a| == |b| && LetterwiseLess(a, b))
  }

  predicate LetterwiseLess(a: string, b: string)
    requires |a| == |b|
  {
    a != "" && (a[0] < b[0] || (a[0] == b[0] && LetterwiseLess(a[1..], b[1..])))
  }

  /** Every label of n letters names one of the rows between the all-A and the all-Z label of that length. */
  function Lowest(n: nat): nat {
    if n == 0 then 0 else Pow(n - 1) + Lowest(n - 1)
  }

  lemma {:induction false} ValueRange(s: string)
    requires Letters(s)
    ensures Lowest(|s|) <= Value(s) < Lowest(|s|) + Pow(|s|) == Lowest(|s| + 1)
  {
    if s == "" {
    } else {
      ValueRange(s[1..]);
      ValueFront(s[0], s[1..]);
      assert [s[0]] + s[1..] == s;
      FrontRange(s[0] as nat - 'A' as nat, Pow(|s| - 1), Value(s[1..]), Lowest(|s| - 1));
    }
  }

  lemma FrontRange(d: nat, p: nat, v: nat, low: nat)
    requires d < 26 && low <= v < low + p
    ensures p + low <= (d + 1) * p + v < (p + low) + 26 * p
  {
    assert p <= (d + 1) * p <= 26 * p;
  }

  lemma {:induction false} LongerIsLater(m: nat, n: nat)
    requires m < n
    ensures Lowest(m) + Pow(m) <= Lowest(n)
  {
    if m + 1 < n {
      LongerIsLater(m, n - 1);
    }
  }

  lemma {:induction false} LetterwiseOrder(a: string, b: string)
    requires Letters(a) && Letters(b) && |a| == |b|
    ensures LetterwiseLess(a, b) ==> Value(a) < Value(b)
  {
    hide Value, Pow, Lowest;
    if LetterwiseLess(a, b) {
      var p := Pow(|a| - 1);
      ValueFront(a[0], a[1..]);
      ValueFront(b[0], b[1..]);
      assert [a[0]] + a[1..] == a && [b[0]] + b[1..] == b;
      if a[0] == b[0] {
        LetterwiseOrder(a[1..], b[1..]);
      } else {
        ValueRange(a[1..]);
        ValueRange(b[1..]);
        BiggerFront(a[0] as nat - 'A' as nat, b[0] as nat - 'A' as nat, p, Value(a[1..]), Value(b[1..]), Lowest(|a| - 1));
      }
    }
  }

  lemma BiggerFront(d: nat, e: nat, p: nat, v: nat, w: nat, low: nat)
    requires d < e && low <= v < low + p && low <= w
    ensures (d + 1) * p + v < (e + 1) * p + w
  {
    assert (d + 2) * p <= (e + 1) * p;
    assert (d + 2) * p == (d + 1) * p + p;
  }

  lemma {:induction false} LetterwiseTotal(a: string, b: string)
    requires |a| == |b|
    ensures a == b || LetterwiseLess(a, b) || LetterwiseLess(b, a)
  {
    if a != "" && a[0] == b[0] {
      LetterwiseTotal(a[1..], b[1..]);
      assert [a[0]] + a[1..] == a && [b[0]] + b[1..] == b;
    }
  }

  lemma EarlierIsLess(a: string, b: string)
    requires Letters(a) && Letters(b) && Earlier(a, b)
    ensures Value(a) < Value(b)
  {
    if |a| < |b| {
      ValueRange(a);
      ValueRange(b);
      LongerIsLater(|a|, |b|);
    } else {
      LetterwiseOrder(a, b);
    }
  }

  /** Display order of labels is the order of their rows. */
  lemma LabelOrder(a: string, b: string)
    requires IsLabel(a) && IsLabel(b)
    ensures Earlier(a, b) <==> Index(a) < Index(b)
  {
    if Earlier(a, b) {
      EarlierIsLess(a, b);
    } else if |a| == |b| {
      LetterwiseTotal(a, b);
      if a != b {
        EarlierIsLess(b, a);
      }
    } else {
      EarlierIsLess(b, a);
    }
  }
}
