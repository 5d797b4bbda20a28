/** Entity tags of seat maps and the If-None-Match comparison of section 13.1.2 of RFC 9110. */
module Etags {

  function Digit(d: nat): (c: char)
    requires d < 10
    ensures '0' <= c <= '9'
  {
    "0123456789"[d]
  }

  /** strconv.FormatInt in base 10, for the counters INCR produces. */
  function Decimal(n: nat): (s: string)
    ensures s != "" && forall i :: 0 <= i < |s| ==> '0' <= s[i] <= '9'
  {
    if n < 10 then [Digit(n)] else Decimal(n / 10) + [Digit(n % 10)]
  }

  function Value(s: string): nat
    requires forall i :: 0 <= i < |s| ==> '0' <= s[i] <= '9'
  {
    if s == "" then 0 else 10 * Value(s[..|s| - 1]) + (s[|s| - 1] as nat - '0' as nat)
  }

  lemma {:induction false} DecimalRoundTrip(n: nat)
    ensures Value(Decimal(n)) == n
  {
    assert forall d: nat :: d < 10 ==> Digit(d) as nat - '0' as nat == d;
    if n < 10 {
      assert [Digit(n)][..0] == "";
    } else {
      DecimalRoundTrip(n / 10);
      var s := Decimal(n / 10) + [Digit(n % 10)];
      assert s[..|s| - 1] == Decimal(n / 10);
    }
  }

  function VersionETag(v: nat): string {
    "W/\"v" + Decimal(v) + "\""
  }

  /** White space in the sense of Unicode, as strings.TrimSpace trims it. */
  predicate Space(c: char) {
    var u := c as int;
    || 0x09 <= u <= 0x0d || u == 0x20 || u == 0x85 || u == 0xa0
    || u == 0x1680 || 0x2000 <= u <= 0x200a || u == 0x2028 || u == 0x2029 || u == 0x202f || u == 0x205f || u == 0x3000
  }

  function TrimLeft(s: string): string {
    if s != "" && Space(s[0]) then TrimLeft(s[1..]) else s
  }

  function TrimRight(s: string): string {
    if s != "" && Space(s[|s| - 1]) then TrimRight(s[..|s| - 1]) else s
  }

  function TrimSpace(s: string): string {
    TrimRight(TrimLeft(s))
  }

  function Unweak(s: string): string {
    if "W/" <= s then s[2..] else s
  }

  /** strings.Split on commas. */
  function Split(s: string): (parts: seq<string>)
    ensures parts != []
  {
    if s == "" then [""]
    else
      var rest := Split(s[1..]);
      if s[0] == ',' then [""] + rest else [[s[0]] + rest[0]] + rest[1..]
  }

  predicate Candidate(part: string, etag: string) {
    var c := TrimSpace(part);
    c == "*" || Unweak(c) == Unweak(etag)
  }

  /** Whether an If-None-Match header matches etag, by the weak comparison. */
  predicate EtagMatches(header: string, etag: string) {
    header != "" && etag != "" && exists i :: 0 <= i < |Split(header)| && Candidate(Split(header)[i], etag)
  }

  /** The loop over the candidates computes it. */
  method Matches(header: string, etag: string) returns (r: bool)
    ensures r == EtagMatches(header, etag)
  {
    if header == "" || etag == "" {
      return false;
    }
    var parts := Split(header);
    for i := 0 to |parts|
      invariant forall j :: 0 <= j < i ==> !Candidate(parts[j], etag)
    {
      var c := TrimSpace(parts[i]);
      if c == "*" || Unweak(c) == Unweak(etag) {
        assert Candidate(parts[i], etag);
        return true;
      }
    }
    r := false;
  }

  // ---- headers a client sends -----------------------------------------------------------

  /** A client that remembers several maps lists their tags. */
  function Header(vs: seq<nat>): string
    requires vs != []
  {
    if |vs| == 1 then VersionETag(vs[0]) else VersionETag(vs[0]) + ", " + Header(vs[1..])
  }

  /** The tag of version 12. */
  lemma TagOfTwelve()
    ensures VersionETag(12) == "W/\"v12\""
  {
    assert Decimal(1) == "1" && Decimal(12) == Decimal(1) + "2";
  }

  predicate Plain(s: string) {
    forall i :: 0 <= i < |s| ==> s[i] != ','
  }

  lemma {:induction false} SplitPlain(s: string)
    requires Plain(s)
    ensures Split(s) == [s]
  {
    if s == "" {
    } else {
      SplitPlain(s[1..]);
      assert [s[0]] + s[1..] == s;
    }
  }

  lemma {:induction false} SplitAt(s: string, rest: string)
    requires Plain(s)
    ensures Split(s + "," + rest) == [s] + Split(rest)
  {
    var all := s + "," + rest;
    if s == "" {
      assert all[1..] == rest;
    } else {
      SplitAt(s[1..], rest);
      assert all[1..] == s[1..] + "," + rest;
      assert [s[0]] + s[1..] == s;
    }
  }

  /** A leading space of the header stays with its first part. */
  lemma SplitSpace(s: string)
    ensures Split(" " + s) == [" " + Split(s)[0]] + Split(s)[1..]
  {
    assert (" " + s)[1..] == s;
  }

  lemma TagShape(v: nat)
    ensures Plain(VersionETag(v)) && VersionETag(v) != ""
    ensures TrimSpace(VersionETag(v)) == VersionETag(v) && TrimSpace(" " + VersionETag(v)) == VersionETag(v)
    ensures Unweak(VersionETag(v)) == "\"v" + Decimal(v) + "\""
  {
    var t := VersionETag(v);
    assert t[0] == 'W' && t[|t| - 1] == '"';
    assert (" " + t)[1..] == t;
    assert TrimLeft(t) == t && TrimRight(t) == t;
    assert TrimLeft(" " + t) == TrimLeft(t);
  }

  lemma TagsAreInjective(v: nat, w: nat)
    ensures Unweak(VersionETag(v)) == Unweak(VersionETag(w)) ==> v == w
  {
    TagShape(v);
    TagShape(w);
    if Unweak(VersionETag(v)) == Unweak(VersionETag(w)) {
      var a, b := "\"v" + Decimal(v) + "\"", "\"v" + Decimal(w) + "\"";
      assert Decimal(v) == a[2..|a| - 1] == b[2..|b| - 1] == Decimal(w);
      DecimalRoundTrip(v);
      DecimalRoundTrip(w);
    }
  }

  lemma TagCandidate(part: string, v: nat, w: nat)
    requires part == VersionETag(v) || part == " " + VersionETag(v)
    ensures Candidate(part, VersionETag(w)) <==> v == w
  {
    TagShape(v);
    TagShape(w);
    TagsAreInjective(v, w);
    assert VersionETag(v)[0] != '*';
  }

  /** The i-th candidate of a header listing versions is the i-th tag, perhaps after a space. */
  lemma {:induction false} HeaderParts(vs: seq<nat>, i: nat)
    requires vs != [] && i < |vs|
    ensures |Split(Header(vs))| == |vs|
    ensures Split(Header(vs))[i] == VersionETag(vs[i]) || Split(Header(vs))[i] == " " + VersionETag(vs[i])
    ensures Split(Header(vs))[0] == VersionETag(vs[0])
  {
    TagShape(vs[0]);
    if |vs| == 1 {
      SplitPlain(VersionETag(vs[0]));
    } else {
      HeaderParts(vs[1..], if i == 0 then 0 else i - 1);
      assert VersionETag(vs[0]) + ", " + Header(vs[1..]) == VersionETag(vs[0]) + "," + (" " + Header(vs[1..]));
      SplitAt(VersionETag(vs[0]), " " + Header(vs[1..]));
      SplitSpace(Header(vs[1..]));
    }
  }

  /** A header listing tags matches a map exactly when it lists that map's version. */
  lemma HeaderMatchesIff(vs: seq<nat>, w: nat)
    requires vs != []
    ensures EtagMatches(Header(vs), VersionETag(w)) <==> w in vs
  {
    hide Split, Header, VersionETag, Candidate;
    var h, t := Header(vs), VersionETag(w);
    NotEmpty(vs);
    TagShape(w);
    HeaderParts(vs, 0);
    forall i | 0 <= i < |vs| ensures Candidate(Split(h)[i], t) <==> vs[i] == w {
      HeaderParts(vs, i);
      TagCandidate(Split(h)[i], vs[i], w);
    }
  }

  lemma NotEmpty(vs: seq<nat>)
    requires vs != []
    ensures Header(vs) != ""
  {
    TagShape(vs[0]);
  }

  // ---- other headers ----------------------------------------------------------------------

  /** A star matches every map, an empty header or a map without a tag matches nothing. */
  lemma StarAndEmpty(etag: string)
    ensures EtagMatches("*", etag) <==> etag != ""
    ensures !EtagMatches("", etag) && !EtagMatches(etag, "")
  {
    SplitPlain("*");
    assert Split("*")[0] == "*";
    assert TrimLeft("*") == "*" && TrimRight("*") == "*";
    assert etag != "" ==> Candidate(Split("*")[0], etag);
  }

  /** The comparison is weak: a tag sent back without its W/ matches as well, and only its own version. */
  lemma StrongTagMatchesIff(v: nat, w: nat)
    ensures EtagMatches(Unweak(VersionETag(v)), VersionETag(w)) <==> v == w
  {
    var t := Unweak(VersionETag(v));
    TagShape(v);
    TagShape(w);
    TagsAreInjective(v, w);
    assert t == "\"v" + Decimal(v) + "\"";
    assert t[0] == '"' && t[|t| - 1] == '"';
    SplitPlain(t);
    assert TrimSpace(t) == t && Unweak(t) == t;
    assert Split(t)[0] == t;
    assert Candidate(t, VersionETag(w)) <==> v == w;
  }
}
