/**
 The string operations the broker and the agent rely on: byte-wise order and sorting,
 trimming, lower-casing, and cutting a name at its dots.

 A string is a sequence of code points. Ordering UTF-8 bytes and ordering code points
 agree, so `Less` is the order of `sort.Strings`.
 */
module Text {

  /******* Order *******/

  predicate Less(a: string, b: string) {
    |b| > 0 && (|a| == 0 || a[0] < b[0] || (a[0] == b[0] && Less(a[1..], b[1..])))
  }

  lemma {:induction false} LessTotal(a: string, b: string)
    ensures a == b || Less(a, b) || Less(b, a)
    ensures !(Less(a, b) && Less(b, a))
    ensures a == b ==> !Less(a, b)
  {
    if |a| > 0 && |b| > 0 && a[0] == b[0] {
      LessTotal(a[1..], b[1..]);
      assert a == [a[0]] + a[1..] && b == [b[0]] + b[1..];
    } else if |a| == 0 && |b| == 0 {
    }
  }

  lemma SamePrefixFirst(a: string, b: string, n: nat)
    requires n <= |a| && n <= |b| && a[..n] == b[..n]
    ensures n > 0 ==> a[0] == b[0]
  {
    assert n > 0 ==> a[..n][0] == a[0] && b[..n][0] == b[0];
  }

  /** The order of strings: by the first character that differs, a prefix coming first. */
  lemma {:induction false} LessExactly(a: string, b: string)
    ensures Less(a, b)
            <==> exists n :: 0 <= n <= |a| && n < |b| && a[..n] == b[..n] && (n == |a| || a[n] < b[n])
  {
    if |b| > 0 && |a| > 0 && a[0] == b[0] {
      LessExactly(a[1..], b[1..]);
      if n :| 0 <= n <= |a[1..]| && n < |b[1..]|
              && a[1..][..n] == b[1..][..n] && (n == |a[1..]| || a[1..][n] < b[1..][n])
      {
        assert a[..n + 1] == [a[0]] + a[1..][..n] && b[..n + 1] == [b[0]] + b[1..][..n];
      }
      if n :| 0 <= n <= |a| && n < |b| && a[..n] == b[..n] && (n == |a| || a[n] < b[n]) {
        assert n > 0;
        assert a[1..][..n - 1] == a[..n][1..] && b[1..][..n - 1] == b[..n][1..];
      }
    } else if |b| > 0 {
      assert a[..0] == b[..0];
      forall n | 0 <= n <= |a| && n < |b| && a[..n] == b[..n] && (n == |a| || a[n] < b[n])
        ensures n == 0
      {
        SamePrefixFirst(a, b, n);
      }
    }
  }

  lemma {:induction false} LessTransitive(a: string, b: string, c: string)
    requires Less(a, b) && Less(b, c)
    ensures Less(a, c)
  {
    if |a| > 0 && a[0] == b[0] == c[0] {
      LessTransitive(a[1..], b[1..], c[1..]);
    }
  }

  ghost predicate StrictlySorted(s: seq<string>) {
    forall i, j :: 0 <= i < j < |s| ==> Less(s[i], s[j])
  }

  ghost predicate Sorted(s: seq<string>) {
    forall i, j :: 0 <= i < j < |s| ==> !Less(s[j], s[i])
  }

  ghost function Elements(s: seq<string>): set<string> {
    set x | x in s
  }

  lemma StrictlySortedIsDistinct(s: seq<string>, i: nat, j: nat)
    requires StrictlySorted(s) && i < |s| && j < |s| && s[i] == s[j]
    ensures i == j
  {
    LessTotal(s[i], s[j]);
  }

  /** A set of strings has only one strictly increasing listing. */
  lemma {:induction false} SortedListingUnique(a: seq<string>, b: seq<string>)
    requires StrictlySorted(a) && StrictlySorted(b)
    requires Elements(a) == Elements(b)
    ensures a == b
  {
    assert a != [] ==> a[0] in Elements(a);
    assert b != [] ==> b[0] in Elements(b);
    if a != [] && b != [] {
      var i :| 0 <= i < |b| && b[i] == a[0];
      var j :| 0 <= j < |a| && a[j] == b[0];
      LessTotal(a[0], b[0]);
      assert a[0] == b[0];
      TailElements(a);
      TailElements(b);
      SortedListingUnique(a[1..], b[1..]);
      assert a == [a[0]] + a[1..] && b == [b[0]] + b[1..];
    }
  }

  lemma TailElements(s: seq<string>)
    requires StrictlySorted(s) && s != []
    ensures StrictlySorted(s[1..])
    ensures Elements(s[1..]) == Elements(s) - {s[0]}
  {
    forall x ensures x in Elements(s[1..]) <==> x in Elements(s) - {s[0]} {
      if x in Elements(s) - {s[0]} {
        var i :| 0 <= i < |s| && s[i] == x;
        assert x == s[1..][i - 1];
      }
      if x in s[1..] {
        var i :| 0 <= i < |s[1..]| && s[1..][i] == x;
        assert s[i + 1] == x;
        LessTotal(s[0], x);
      }
    }
  }

  /******* Sorting *******/

  function Insert(x: string, s: seq<string>): (r: seq<string>)
    ensures multiset(r) == multiset(s) + multiset{x}
  {
    if s == [] then [x]
    else if Less(s[0], x) then
      assert s == [s[0]] + s[1..];
      [s[0]] + Insert(x, s[1..])
    else [x] + s
  }

  /** What `sort.Strings` leaves in the slice. */
  function Sort(s: seq<string>): (r: seq<string>)
    ensures multiset(r) == multiset(s)
  {
    if s == [] then []
    else
      assert s == [s[0]] + s[1..];
      Insert(s[0], Sort(s[1..]))
  }

  lemma {:induction false} InsertSorted(x: string, s: seq<string>)
    requires Sorted(s)
    ensures Sorted(Insert(x, s))
  {
    if s == [] {
    } else if Less(s[0], x) {
      InsertSorted(x, s[1..]);
      var t := Insert(x, s[1..]);
      forall k | 0 <= k < |t| ensures !Less(t[k], s[0]) {
        assert t[k] in multiset(t);
        assert t[k] == x || t[k] in s[1..];
        LessTotal(s[0], x);
      }
    } else {
      forall k | 0 <= k < |s| ensures !Less(s[k], x) {
        if Less(s[k], x) {
          LessTotal(s[0], x);
          LessTotal(s[0], s[k]);
          if s[0] != x && s[0] != s[k] {
            LessTransitive(s[k], x, s[0]);
          }
        }
      }
    }
  }

  lemma {:induction false} SortSorts(s: seq<string>)
    ensures Sorted(Sort(s)) && Elements(Sort(s)) == Elements(s) && |Sort(s)| == |s|
  {
    if s != [] {
      SortSorts(s[1..]);
      InsertSorted(s[0], Sort(s[1..]));
    }
    assert |multiset(Sort(s))| == |multiset(s)|;
    forall x ensures x in Elements(Sort(s)) <==> x in Elements(s) {
      assert x in Sort(s) <==> x in multiset(Sort(s));
      assert x in s <==> x in multiset(s);
    }
  }

  ghost predicate Distinct(s: seq<string>) {
    forall i, j :: 0 <= i < j < |s| ==> s[i] != s[j]
  }

  lemma DistinctCounts(s: seq<string>, x: string)
    requires Distinct(s)
    ensures multiset(s)[x] <= 1
  {
    if s != [] {
      assert s == [s[0]] + s[1..];
      DistinctCounts(s[1..], x);
      if s[0] == x {
        assert x !in s[1..];
      }
    }
  }

  lemma CountsDistinct(s: seq<string>)
    requires forall x :: multiset(s)[x] <= 1
    ensures Distinct(s)
  {
    forall i, j | 0 <= i < j < |s| ensures s[i] != s[j] {
      assert s == s[..j] + s[j..];
      assert multiset(s)[s[j]] == multiset(s[..j])[s[j]] + multiset(s[j..])[s[j]];
      assert s[j] == s[j..][0];
      assert s[i] == s[..j][i] && s[i] in multiset(s[..j]);
    }
  }

  lemma SortDistinct(s: seq<string>)
    requires Distinct(s)
    ensures StrictlySorted(Sort(s)) && Elements(Sort(s)) == Elements(s)
  {
    SortSorts(s);
    forall x ensures multiset(Sort(s))[x] <= 1 { DistinctCounts(s, x); }
    CountsDistinct(Sort(s));
    var r := Sort(s);
    forall i, j | 0 <= i < j < |r| ensures Less(r[i], r[j]) {
      LessTotal(r[i], r[j]);
    }
  }

  ghost predicate Lists(r: seq<string>, s: set<string>) {
    StrictlySorted(r) && Elements(r) == s
  }

  lemma {:induction false} ListingExists(s: set<string>) returns (r: seq<string>)
    ensures Lists(r, s)
  {
    if s == {} {
      r := [];
    } else {
      var x :| x in s;
      var rest := ListingExists(s - {x});
      ListingStep(x, rest);
      r := Sort([x] + rest);
    }
  }

  /** The increasing listing of a set of strings; `SortedListingUnique` says there is no other. */
  ghost function Listing(s: set<string>): (r: seq<string>)
    ensures StrictlySorted(r) && Elements(r) == s
  {
    assert exists r :: Lists(r, s) by { var r := ListingExists(s); }
    var r :| Lists(r, s);
    r
  }

  lemma ListingStep(x: string, rest: seq<string>)
    requires StrictlySorted(rest) && x !in rest
    ensures StrictlySorted(Sort([x] + rest)) && Elements(Sort([x] + rest)) == Elements(rest) + {x}
  {
    var s := [x] + rest;
    forall i, j | 0 <= i < j < |s| ensures s[i] != s[j] {
      if i > 0 { LessTotal(s[i], s[j]); assert Less(rest[i - 1], rest[j - 1]); }
    }
    SortDistinct(s);
    assert Elements(s) == Elements(rest) + {x};
  }

  /** `sortedMapKeys`: the keys in whatever order the map yields them, then sorted. */
  method SortedKeys<V>(m: map<string, V>) returns (keys: seq<string>)
    ensures keys == Listing(m.Keys)
  {
    keys := [];
    var left := m.Keys;
    while left != {}
      invariant left <= m.Keys && Elements(keys) == m.Keys - left
      invariant Distinct(keys)
      decreases left
    {
      var k :| k in left;
      assert k !in Elements(keys);
      ghost var before := keys;
      keys := keys + [k];
      assert Elements(keys) == Elements(before) + {k};
      left := left - {k};
    }
    SortDistinct(keys);
    keys := Sort(keys);
    SortedListingUnique(keys, Listing(m.Keys));
  }

  /******* Trimming and lower-casing *******/

  /** `unicode.IsSpace`. */
  predicate IsSpace(c: char) {
    || '\U{0009}' <= c <= '\U{000D}'
    || c == ' ' || c == '\U{0085}' || c == '\U{00A0}'
    || c == '\U{1680}'
    || '\U{2000}' <= c <= '\U{200A}'
    || c == '\U{2028}' || c == '\U{2029}' || c == '\U{202F}' || c == '\U{205F}' || c == '\U{3000}'
  }

  function TrimLeft(s: string): string {
    if |s| > 0 && IsSpace(s[0]) then TrimLeft(s[1..]) else s
  }

  function TrimRight(s: string): string {
    if |s| > 0 && IsSpace(s[|s| - 1]) then TrimRight(s[..|s| - 1]) else s
  }

  /** `strings.TrimSpace`. */
  function Trim(s: string): string {
    TrimRight(TrimLeft(s))
  }

  predicate Trimmed(s: string) {
    |s| > 0 ==> !IsSpace(s[0]) && !IsSpace(s[|s| - 1])
  }

  lemma {:induction false} TrimLeftShape(s: string)
    ensures |TrimLeft(s)| <= |s| && TrimLeft(s) == s[|s| - |TrimLeft(s)|..]
    ensures |TrimLeft(s)| > 0 ==> !IsSpace(TrimLeft(s)[0])
  {
    if |s| > 0 && IsSpace(s[0]) {
      TrimLeftShape(s[1..]);
    }
  }

  lemma {:induction false} TrimRightShape(s: string)
    ensures |TrimRight(s)| <= |s| && TrimRight(s) == s[..|TrimRight(s)|]
    ensures |TrimRight(s)| > 0 ==> !IsSpace(TrimRight(s)[|TrimRight(s)| - 1])
  {
    if |s| > 0 && IsSpace(s[|s| - 1]) {
      TrimRightShape(s[..|s| - 1]);
    }
  }

  /** Trimming removes every surrounding space, and a string without any is left alone. */
  lemma TrimIsTrimmed(s: string)
    ensures Trimmed(Trim(s))
    ensures Trimmed(s) ==> Trim(s) == s
  {
    TrimLeftShape(s);
    TrimRightShape(TrimLeft(s));
  }

  lemma TrimIdempotent(s: string)
    ensures Trim(Trim(s)) == Trim(s)
  {
    TrimIsTrimmed(s);
    TrimIsTrimmed(Trim(s));
  }

  /** The white space of Unicode, as section 4.4 of its data file has it. */
  const SPACES: string :=
    "\U{9}\U{A}\U{B}\U{C}\U{D} \U{85}\U{A0}\U{1680}\U{2000}\U{2001}\U{2002}\U{2003}\U{2004}\U{2005}\U{2006}\U{2007}"
    + "\U{2008}\U{2009}\U{200A}\U{2028}\U{2029}\U{202F}\U{205F}\U{3000}"

  lemma SpacesAre(c: char)
    ensures IsSpace(c) <==> c in SPACES
  {
  }

  /** Nothing but white space. */
  predicate Blank(s: string) {
    forall i :: 0 <= i < |s| ==> s[i] in SPACES
  }

  lemma BlankGrows(s: string, c: char)
    requires Blank(s) && IsSpace(c)
    ensures Blank(s + [c]) && Blank([c] + s)
  {
    SpacesAre(c);
    hide IsSpace;
  }

  lemma BlankEmpty()
    ensures Blank("")
  {
  }

  lemma TrimLeftStep(s: string)
    ensures if |s| > 0 && IsSpace(s[0]) then TrimLeft(s) == TrimLeft(s[1..]) else TrimLeft(s) == s
  {
    hide IsSpace;
  }

  lemma TrimRightStep(s: string)
    ensures if |s| > 0 && IsSpace(s[|s| - 1]) then TrimRight(s) == TrimRight(s[..|s| - 1]) else TrimRight(s) == s
  {
    hide IsSpace;
  }

  lemma {:induction false} TrimLeftParts(s: string) returns (a: string)
    ensures Blank(a) && s == a + TrimLeft(s)
  {
    hide *;
    TrimLeftStep(s);
    BlankEmpty();
    a := "";
    if |s| > 0 && IsSpace(s[0]) {
      var first, rest := s[0], s[1..];
      var c := TrimLeftParts(rest);
      BlankGrows(c, first);
      a := [first] + c;
      assert s == [first] + rest;
      assert [first] + (c + TrimLeft(rest)) == ([first] + c) + TrimLeft(rest);
    }
  }

  lemma {:induction false} TrimRightParts(s: string) returns (b: string)
    ensures Blank(b) && s == TrimRight(s) + b
  {
    hide *;
    TrimRightStep(s);
    BlankEmpty();
    b := "";
    if |s| > 0 && IsSpace(s[|s| - 1]) {
      var front, last := s[..|s| - 1], s[|s| - 1];
      var c := TrimRightParts(front);
      BlankGrows(c, last);
      b := c + [last];
      assert s == front + [last];
      assert (TrimRight(front) + c) + [last] == TrimRight(front) + (c + [last]);
    }
  }

  lemma {:induction false} TrimLeftOf(a: string, m: string)
    requires Blank(a) && (m != "" ==> m[0] !in SPACES)
    ensures TrimLeft(a + m) == m
  {
    if a == "" {
      assert a + m == m;
      if m != "" { SpacesAre(m[0]); }
    } else {
      SpacesAre(a[0]);
      assert (a + m)[1..] == a[1..] + m;
      TrimLeftOf(a[1..], m);
    }
  }

  lemma {:induction false} TrimRightOf(m: string, b: string)
    requires Blank(b) && (m != "" ==> m[|m| - 1] !in SPACES)
    ensures TrimRight(m + b) == m
    decreases |b|
  {
    if b == "" {
      assert m + b == m;
      if m != "" { SpacesAre(m[|m| - 1]); }
    } else {
      SpacesAre(b[|b| - 1]);
      assert (m + b)[..|m + b| - 1] == m + b[..|b| - 1];
      TrimRightOf(m, b[..|b| - 1]);
    }
  }

  /** Trimming takes away white space around a string, all of it, and nothing else. */
  lemma TrimOf(a: string, m: string, b: string)
    requires Blank(a) && Blank(b) && m != "" && m[0] !in SPACES && m[|m| - 1] !in SPACES
    ensures Trim(a + m + b) == m
  {
    assert a + m + b == a + (m + b);
    TrimLeftOf(a, m + b);
    TrimRightOf(m, b);
  }

  lemma TrimParts(s: string) returns (a: string, b: string)
    ensures Blank(a) && Blank(b) && s == a + Trim(s) + b
  {
    a := TrimLeftParts(s);
    b := TrimRightParts(TrimLeft(s));
    assert a + (Trim(s) + b) == a + Trim(s) + b;
  }

  lemma BlankTrims(a: string, b: string)
    requires Blank(a) && Blank(b)
    ensures Trim(a + b) == ""
  {
    assert a + b == (a + b) + "";
    TrimLeftOf(a + b, "");
  }

  /** The string between white space. */
  predicate Between(s: string, a: string, m: string, b: string) {
    Blank(a) && Blank(b) && s == a + m + b
  }

  /** No white space at either end. */
  predicate Bare(m: string) {
    m != "" ==> m[0] !in SPACES && m[|m| - 1] !in SPACES
  }

  lemma TrimmedIsBare(m: string)
    ensures Trimmed(m) <==> Bare(m)
  {
    if m != "" {
      SpacesAre(m[0]);
      SpacesAre(m[|m| - 1]);
      hide IsSpace, SPACES;
    }
  }

  lemma BareBetween(s: string, a: string, m: string, b: string)
    requires Between(s, a, m, b) && Bare(m)
    ensures Trim(s) == m
  {
    hide Trim, TrimLeft, TrimRight, SPACES;
    if m == "" {
      BlankTrims(a, b);
      assert s == a + b;
    } else {
      TrimOf(a, m, b);
    }
  }

  /** Trimming, said without its loops: the one middle part without white space at either end. */
  lemma TrimExactly(s: string, m: string)
    ensures Trim(s) == m <==> Bare(m) && exists a, b :: Between(s, a, m, b)
  {
    hide Trim, Trimmed, Blank, SPACES, Bare;
    if Trim(s) == m {
      var a, b := TrimParts(s);
      TrimIsTrimmed(s);
      TrimmedIsBare(m);
      assert Between(s, a, m, b);
    }
    if Bare(m) && exists a, b :: Between(s, a, m, b) {
      var a, b :| Between(s, a, m, b);
      BareBetween(s, a, m, b);
    }
  }

  /**
   `unicode.ToLower`. The Kelvin sign and the dotted capital I are the only code points outside
   ASCII whose lower case is inside it. The other non-ASCII letters stay outside ASCII, which is
   all that matters to a DNS name, so they are left as they are.
   */
  function LowerChar(c: char): char {
    if 'A' <= c <= 'Z' then (c as int + 32) as char
    else if c == '\U{212A}' then 'k'
    else if c == '\U{0130}' then 'i'
    else c
  }

  function Lower(s: string): string {
    seq(|s|, i requires 0 <= i < |s| => LowerChar(s[i]))
  }

  /** `strings.TrimSuffix(s, ".")`: at most one dot goes. */
  function DropFinalDot(s: string): string {
    if |s| > 0 && s[|s| - 1] == '.' then s[..|s| - 1] else s
  }

  /******* Cutting at dots *******/

  /** `strings.Split(s, ".")`. */
  function Split(s: string): (labels: seq<string>)
    ensures |labels| >= 1
  {
    if s == [] then [""]
    else
      var rest := Split(s[1..]);
      if s[0] == '.' then [""] + rest else [[s[0]] + rest[0]] + rest[1..]
  }

  function Join(labels: seq<string>): string {
    if |labels| == 0 then ""
    else if |labels| == 1 then labels[0]
    else labels[0] + "." + Join(labels[1..])
  }

  /** A character put in front of the first label comes out in front. */
  lemma JoinHead(c: char, rest: seq<string>)
    requires |rest| >= 1
    ensures Join([[c] + rest[0]] + rest[1..]) == [c] + Join(rest)
  {
    var labels := [[c] + rest[0]] + rest[1..];
    var more := Join(rest[1..]);
    assert labels[0] == [c] + rest[0] && labels[1..] == rest[1..] && |labels| == |rest|;
    assert |rest| > 1 ==> Join(labels) == labels[0] + "." + more && Join(rest) == rest[0] + "." + more;
    assert |rest| == 1 ==> Join(labels) == labels[0] && Join(rest) == rest[0];
    hide Join;
    Regroup([c], rest[0], ".", more);
  }

  lemma Regroup(a: string, b: string, c: string, d: string)
    ensures (a + b) + c + d == a + (b + c + d)
  {
  }

  lemma {:induction false} SplitThenJoin(s: string)
    ensures Join(Split(s)) == s
    ensures forall k :: 0 <= k < |Split(s)| ==> '.' !in Split(s)[k]
  {
    if s != [] {
      SplitThenJoin(s[1..]);
      var rest := Split(s[1..]);
      if s[0] == '.' {
        assert ([""] + rest)[1..] == rest;
      } else {
        JoinHead(s[0], rest);
      }
      assert s == [s[0]] + s[1..];
    }
  }

  lemma {:induction false} JoinThenSplit(labels: seq<string>)
    requires |labels| >= 1
    requires forall k :: 0 <= k < |labels| ==> '.' !in labels[k]
    ensures Split(Join(labels)) == labels
    decreases |labels|, |labels[0]|
  {
    if labels[0] == "" {
      if |labels| > 1 {
        JoinThenSplit(labels[1..]);
        assert Join(labels)[1..] == Join(labels[1..]);
        assert labels == [""] + labels[1..];
      } else {
        assert labels == [""];
      }
    } else {
      var shorter := [labels[0][1..]] + labels[1..];
      assert shorter[1..] == labels[1..];
      JoinThenSplit(shorter);
      assert Join(labels)[1..] == Join(shorter);
      assert Join(labels)[0] == labels[0][0];
      assert labels[0][0] in labels[0];
      assert labels[0] == [labels[0][0]] + shorter[0];
      assert labels == [labels[0]] + shorter[1..];
    }
  }
}
