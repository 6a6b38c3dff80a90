/**
 DNS names: the form the broker and the agent compare names in, and the sorted lists of
 such names that stand for sets of names.
 */
module DnsName {
  import opened Wrappers
  import opened Text

  datatype NameError =
    | EmptyName
    | HasWhitespace
    | EmptyLabel
    | NotAscii
    | InvalidWildcard
    | TooFewLabels
    | LabelTooLong
    | HyphenAtEdge
    | InvalidCharacter

  const MAX_LABEL := 63

  /** The rewriting steps of `Canonical`: trim, drop one final dot, lower-case. */
  function Fold(name: string): string {
    Lower(DropFinalDot(Trim(name)))
  }

  predicate HasSplitSpace(name: string) {
    ' ' in name || '\t' in name || '\n' in name || '\r' in name
  }

  predicate HasDoubleDot(name: string) {
    exists i :: 0 <= i < |name| - 1 && name[i] == '.' && name[i + 1] == '.'
  }

  predicate HasNonAscii(name: string) {
    exists i :: 0 <= i < |name| && name[i] as int > 127
  }

  function StarCount(name: string): nat {
    if name == "" then 0 else (if name[0] == '*' then 1 else 0) + StarCount(name[1..])
  }

  predicate IsValidWildcard(name: string) {
    && |name| >= 2 && name[..2] == "*."
    && StarCount(name) == 1
    && var labels := Split(name[2..]);
       |labels| >= 2 && labels[0] != "" && labels[1] != ""
  }

  predicate PlainChar(c: char) {
    'a' <= c <= 'z' || '0' <= c <= '9' || c == '-'
  }

  function LabelError(part: string): Option<NameError> {
    if part == "" then Some(EmptyLabel)
    else if |part| > MAX_LABEL then Some(LabelTooLong)
    else if part == "*" then None
    else if part[0] == '-' || part[|part| - 1] == '-' then Some(HyphenAtEdge)
    else if exists i :: 0 <= i < |part| && !PlainChar(part[i]) then Some(InvalidCharacter)
    else None
  }

  function FirstLabelError(labels: seq<string>): Option<NameError> {
    if labels == [] then None
    else
      var e := LabelError(labels[0]);
      if e.Some? then e else FirstLabelError(labels[1..])
  }

  function CheckFolded(name: string): Option<NameError> {
    if name == "" then Some(EmptyName)
    else if HasSplitSpace(name) then Some(HasWhitespace)
    else if HasDoubleDot(name) then Some(EmptyLabel)
    else if HasNonAscii(name) then Some(NotAscii)
    else if '*' in name && !IsValidWildcard(name) then Some(InvalidWildcard)
    else if |Split(name)| < 2 then Some(TooFewLabels)
    else FirstLabelError(Split(name))
  }

  /** What `Canonical` answers; the method `Canonicalise` computes it with the program's loops. */
  function Canonical(name: string): Result<string, NameError> {
    var e := CheckFolded(Fold(name));
    if e.Some? then Failure(e.value) else Success(Fold(name))
  }

  lemma {:induction false} FirstLabelErrorFrom(labels: seq<string>, n: nat)
    requires n <= |labels|
    requires forall k :: 0 <= k < n ==> LabelError(labels[k]).None?
    ensures FirstLabelError(labels) == FirstLabelError(labels[n..])
  {
    if n > 0 {
      FirstLabelErrorFrom(labels[1..], n - 1);
      assert labels[1..][n - 1..] == labels[n..];
    } else {
      assert labels[0..] == labels;
    }
  }

  method Canonicalise(name: string) returns (r: Result<string, NameError>)
    ensures r == Canonical(name)
  {
    var n := Trim(name);
    n := DropFinalDot(n);
    n := Lower(n);
    if n == "" { return Failure(EmptyName); }
    if HasSplitSpace(n) { return Failure(HasWhitespace); }
    if HasDoubleDot(n) { return Failure(EmptyLabel); }
    for i := 0 to |n|
      invariant forall j :: 0 <= j < i ==> n[j] as int <= 127
    {
      if n[i] as int > 127 { return Failure(NotAscii); }
    }
    if '*' in n && !IsValidWildcard(n) { return Failure(InvalidWildcard); }
    var labels := Split(n);
    if |labels| < 2 { return Failure(TooFewLabels); }
    for k := 0 to |labels|
      invariant forall j :: 0 <= j < k ==> LabelError(labels[j]).None?
    {
      var part := labels[k];
      FirstLabelErrorFrom(labels, k);
      assert labels[k..][0] == part;
      if part == "" { return Failure(EmptyLabel); }
      if |part| > MAX_LABEL { return Failure(LabelTooLong); }
      if part != "*" {
        if part[0] == '-' || part[|part| - 1] == '-' { return Failure(HyphenAtEdge); }
        for i := 0 to |part|
          invariant forall j :: 0 <= j < i ==> PlainChar(part[j])
        {
          if !PlainChar(part[i]) { return Failure(InvalidCharacter); }
        }
      }
    }
    FirstLabelErrorFrom(labels, |labels|);
    return Success(n);
  }

  /******* Which names are accepted *******/

  /** A label of 1 to 63 letters, digits and hyphens, with no hyphen at either end. */
  predicate PlainLabel(part: string) {
    && 1 <= |part| <= 63
    && (forall c :: c in part ==> 'a' <= c <= 'z' || '0' <= c <= '9' || c == '-')
    && part[0] != '-' && part[|part| - 1] != '-'
  }

  ghost predicate HostLabels(labels: seq<string>) {
    |labels| >= 2 && forall k :: 0 <= k < |labels| ==> PlainLabel(labels[k])
  }

  ghost predicate IsHostName(name: string) {
    exists labels :: HostLabels(labels) && name == Join(labels)
  }

  ghost predicate IsWildcardName(name: string) {
    |name| >= 2 && name[..2] == "*." && IsHostName(name[2..])
  }

  lemma LabelErrorExactly(part: string)
    ensures LabelError(part).None? <==> part == "*" || PlainLabel(part)
  {
    forall i | 0 <= i < |part| ensures part[i] in part {
    }
  }

  lemma {:induction false} LabelsOk(labels: seq<string>)
    ensures FirstLabelError(labels).None?
            <==> forall k :: 0 <= k < |labels| ==> labels[k] == "*" || PlainLabel(labels[k])
  {
    if labels != [] {
      LabelsOk(labels[1..]);
      assert forall k :: 0 < k < |labels| ==> labels[k] == labels[1..][k - 1];
      assert forall k :: 0 <= k < |labels[1..]| ==> labels[1..][k] == labels[k + 1];
      var l := labels[0];
      LabelErrorExactly(l);
    }
  }

  lemma {:induction false} SplitChars(s: string, k: nat, c: char)
    requires k < |Split(s)| && c in Split(s)[k]
    ensures c in s
  {
    if s != [] {
      var rest := Split(s[1..]);
      if s[0] == '.' {
        SplitChars(s[1..], k - 1, c);
      } else if k > 0 || c != s[0] {
        assert c in rest[k];
        SplitChars(s[1..], k, c);
      }
    }
  }

  lemma {:induction false} JoinChars(labels: seq<string>, c: char)
    requires c in Join(labels)
    ensures c == '.' || exists k :: 0 <= k < |labels| && c in labels[k]
  {
    if |labels| > 1 && c !in labels[0] && c != '.' {
      JoinChars(labels[1..], c);
      var k :| 0 <= k < |labels[1..]| && c in labels[1..][k];
      assert c in labels[k + 1];
    }
  }

  lemma {:induction false} DoubleDotLeavesEmptyLabel(s: string)
    requires HasDoubleDot(s)
    ensures exists k :: 1 <= k < |Split(s)| && Split(s)[k] == ""
  {
    var i :| 0 <= i < |s| - 1 && s[i] == '.' && s[i + 1] == '.';
    var rest := Split(s[1..]);
    if i == 0 {
      assert s[1..][0] == '.' && rest[0] == "";
      SplitFirst(s);
      assert Split(s)[1] == "";
    } else {
      assert s[1..][i - 1] == '.' && s[1..][i] == '.';
      DoubleDotLeavesEmptyLabel(s[1..]);
      var k :| 1 <= k < |rest| && rest[k] == "";
      SplitFirst(s);
      hide Split;
      assert Split(s)[if s[0] == '.' then k + 1 else k] == "";
    }
  }

  /** The labels after the first come from the rest. */
  lemma SplitFirst(s: string)
    requires s != ""
    ensures var rest := Split(s[1..]);
            if s[0] == '.' then Split(s) == [""] + rest
            else |Split(s)| == |rest| && Split(s)[1..] == rest[1..]
  {
  }

  lemma {:induction false} NoStarNoCount(s: string)
    ensures '*' !in s <==> StarCount(s) == 0
  {
    if s != "" {
      NoStarNoCount(s[1..]);
      assert s == [s[0]] + s[1..];
    }
  }

  lemma SplitWildcard(name: string)
    requires |name| >= 2 && name[..2] == "*."
    ensures Split(name) == ["*"] + Split(name[2..])
    ensures StarCount(name) == 1 + StarCount(name[2..])
  {
    assert name[0] == name[..2][0] == '*' && name[1] == name[..2][1] == '.';
    assert name[1..][0] == '.' && name[1..][1..] == name[2..];
    assert Split(name[1..]) == [""] + Split(name[2..]);
    assert Split(name)[0] == "*";
  }

  lemma {:induction false} JoinShape(labels: seq<string>)
    requires |labels| >= 1 && forall k :: 0 <= k < |labels| ==> PlainLabel(labels[k])
    ensures |Join(labels)| > 0 && Join(labels)[|Join(labels)| - 1] != '.' && Join(labels)[0] != '.'
  {
    assert labels[0][0] in labels[0];
    assert labels[0][|labels[0]| - 1] in labels[0];
    if |labels| > 1 {
      JoinShape(labels[1..]);
    }
  }

  /** The characters of a host name, and how it is cut. */
  lemma HostNameShape(name: string)
    requires IsHostName(name)
    ensures HostLabels(Split(name))
    ensures name != "" && name[0] != '.' && name[|name| - 1] != '.'
    ensures forall c :: c in name ==> c == '.' || PlainChar(c)
    ensures !HasDoubleDot(name)
  {
    var labels :| HostLabels(labels) && name == Join(labels);
    PlainLabelsNoDots(labels);
    JoinThenSplit(labels);
    JoinShape(labels);
    hide Split, Join;
    forall c | c in name ensures c == '.' || PlainChar(c) { JoinChars(labels, c); }
    if HasDoubleDot(name) {
      DoubleDotLeavesEmptyLabel(name);
    }
  }

  lemma PlainLabelsNoDots(labels: seq<string>)
    requires forall k :: 0 <= k < |labels| ==> PlainLabel(labels[k])
    ensures forall k :: 0 <= k < |labels| ==> '.' !in labels[k]
  {
  }

  /** Cutting decides host names: no choice of labels has to be guessed. */
  lemma HostNameByCut(name: string)
    ensures IsHostName(name) <==> HostLabels(Split(name))
  {
    SplitThenJoin(name);
    if IsHostName(name) {
      HostNameShape(name);
    }
  }

  ghost predicate IsDnsName(name: string) {
    IsHostName(name) || IsWildcardName(name)
  }

  lemma DnsNameShape(name: string)
    requires IsDnsName(name)
    ensures name != "" && name[|name| - 1] != '.'
    ensures forall c :: c in name ==> c == '.' || c == '*' || PlainChar(c)
    ensures !HasDoubleDot(name)
  {
    if IsHostName(name) {
      HostNameShape(name);
    } else {
      var host := name[2..];
      HostNameShape(host);
      assert name == "*." + host;
      assert name[0] == '*' && name[2] == host[0];
      forall i | 2 <= i < |name| - 1 ensures !(name[i] == '.' && name[i + 1] == '.') {
        assert name[i] == host[i - 2] && name[i + 1] == host[i - 1];
      }
    }
  }

  lemma CheckAcceptsOnly(name: string)
    requires CheckFolded(name).None?
    ensures IsDnsName(name)
    ensures IsWildcardName(name) <==> '*' in name
  {
    var labels := Split(name);
    LabelsOk(labels);
    HostNameByCut(name);
    if '*' !in name {
      forall k | 0 <= k < |labels| ensures PlainLabel(labels[k]) {
        if labels[k] == "*" { SplitChars(name, k, labels[k][0]); }
      }
    } else {
      var host := name[2..];
      SplitWildcard(name);
      NoStarNoCount(host);
      HostNameByCut(host);
      forall k | 0 <= k < |Split(host)| ensures PlainLabel(Split(host)[k]) {
        assert Split(host)[k] == labels[k + 1];
        if labels[k + 1] == "*" { SplitChars(host, k, labels[k + 1][0]); }
      }
      assert name[0] == name[..2][0];
    }
  }

  lemma CheckAcceptsAll(name: string)
    requires IsDnsName(name)
    ensures CheckFolded(name).None?
  {
    DnsNameShape(name);
    HostNameByCut(name);
    LabelsOk(Split(name));
    forall i | 0 <= i < |name| ensures name[i] as int <= 127 { assert name[i] in name; }
    assert !HasSplitSpace(name);
    if IsHostName(name) {
      HostNameShape(name);
      assert '*' !in name;
    } else {
      var host := name[2..];
      SplitWildcard(name);
      HostNameShape(host);
      NoStarNoCount(host);
      assert forall k :: 1 <= k < |Split(name)| ==> Split(name)[k] == Split(host)[k - 1];
    }
  }

  /**
   `Canonical` accepts exactly the inputs whose folded form is a host name or "*." and a host
   name, and answers that folded form.
   */
  lemma CanonicalAccepts(name: string)
    ensures Canonical(name).Success? <==> IsDnsName(Fold(name))
    ensures Canonical(name).Success? ==> Canonical(name).value == Fold(name)
  {
    if Canonical(name).Success? {
      CheckAcceptsOnly(Fold(name));
    }
    if IsDnsName(Fold(name)) {
      CheckAcceptsAll(Fold(name));
    }
  }

  lemma LowersToItself(name: string)
    requires forall c :: c in name ==> c == '.' || c == '*' || PlainChar(c)
    ensures Lower(name) == name
  {
    forall i | 0 <= i < |name| ensures Lower(name)[i] == name[i] { assert name[i] in name; }
  }

  lemma DnsNameFoldsToItself(name: string)
    requires IsDnsName(name)
    ensures Fold(name) == name
  {
    DnsNameShape(name);
    hide IsDnsName, HasDoubleDot;
    assert name[0] in name && name[|name| - 1] in name;
    LowersToItself(name);
    TrimIsTrimmed(name);
    hide Trim, Lower;
  }

  /**
   One name spelled like another: the same letters up to the case of ASCII, or with one of the two
   other letters whose lower case is in ASCII, the Kelvin sign and the dotted capital I.
   */
  ghost predicate SpelledLike(m: string, n: string) {
    |m| == |n| && forall i :: 0 <= i < |m| ==>
      || (m[i] == n[i] && !('A' <= m[i] <= 'Z') && m[i] != '\U{212A}' && m[i] != '\U{0130}')
      || ('A' <= m[i] <= 'Z' && n[i] as int == m[i] as int + 32)
      || (m[i] == '\U{212A}' && n[i] == 'k')
      || (m[i] == '\U{0130}' && n[i] == 'i')
  }

  lemma LowerExactly(m: string, n: string)
    ensures Lower(m) == n <==> SpelledLike(m, n)
  {
    if SpelledLike(m, n) {
      forall i | 0 <= i < |m| ensures Lower(m)[i] == n[i] {
      }
    }
  }

  /** A raw name is the spelling of a name, perhaps with one dot at its end, between white space. */
  ghost predicate Spells(raw: string, name: string) {
    exists a, m, b :: SpellsBy(raw, name, a, m, b)
  }

  ghost predicate SpellsBy(raw: string, name: string, a: string, m: string, b: string) {
    Blank(a) && Blank(b) && SpelledLike(m, name) && (raw == a + m + b || raw == a + (m + ".") + b)
  }

  /** The spelling of a DNS name neither begins nor ends with white space, and ends with no dot. */
  lemma SpellingEnds(m: string, n: string)
    requires IsDnsName(n) && SpelledLike(m, n)
    ensures m != "" && m[0] !in SPACES && m[|m| - 1] !in SPACES && m[|m| - 1] != '.'
  {
    DnsNameShape(n);
    assert n[0] in n && n[|n| - 1] in n;
    SpacesAre(m[0]);
    SpacesAre(m[|m| - 1]);
  }

  lemma SpelledNamesFold(raw: string, n: string)
    requires IsDnsName(n) && Spells(raw, n)
    ensures Fold(raw) == n
  {
    hide IsDnsName;
    var a, m, b :| SpellsBy(raw, n, a, m, b);
    SpellingEnds(m, n);
    LowerExactly(m, n);
    if raw == a + m + b {
      TrimOf(a, m, b);
    } else {
      var dotted := m + ".";
      assert dotted[0] == m[0] && dotted[|dotted| - 1] == '.';
      SpacesAre('.');
      TrimOf(a, dotted, b);
      assert dotted[..|dotted| - 1] == m;
    }
  }

  lemma FoldedNamesSpell(raw: string)
    ensures Spells(raw, Fold(raw))
  {
    var a, b := TrimParts(raw);
    var t := Trim(raw);
    var m := DropFinalDot(t);
    LowerExactly(m, Fold(raw));
    hide Trim, Lower, SpelledLike;
    if m != t {
      assert t == m + ".";
    }
    assert SpellsBy(raw, Fold(raw), a, m, b);
  }

  /**
   What `Canonical` is: it answers a name exactly when that is a DNS name which the input spells.
   So case, white space around a name and one dot at its end make no difference, and nothing
   else is forgiven.
   */
  lemma CanonicalExactly(raw: string, name: string)
    ensures Canonical(raw) == Success(name) <==> IsDnsName(name) && Spells(raw, name)
  {
    CanonicalAccepts(raw);
    FoldedNamesSpell(raw);
    if IsDnsName(name) && Spells(raw, name) { SpelledNamesFold(raw, name); }
  }

  /** A canonical name is its own canonical form. */
  lemma CanonicalIdempotent(name: string)
    requires Canonical(name).Success?
    ensures Canonical(Canonical(name).value) == Canonical(name)
  {
    CanonicalAccepts(name);
    DnsNameFoldsToItself(Fold(name));
  }

  /**
   Canonical names split in two: those without a star, which are host names, and those with
   exactly one, in front, which `IsValidWildcard` recognises.
   */
  lemma CanonicalStars(name: string)
    requires Canonical(name).Success?
    ensures var c := Canonical(name).value;
            if IsValidWildcard(c) then IsWildcardName(c) && '*' !in c[1..]
            else IsHostName(c) && '*' !in c
  {
    var c := Fold(name);
    CheckAcceptsOnly(c);
    if '*' in c {
      SplitWildcard(c);
      NoStarNoCount(c[2..]);
      assert c[1..] == "." + c[2..];
    } else {
      NoStarNoCount(c);
      assert !IsWildcardName(c);
    }
  }

  /******* Why names are refused *******/

  lemma {:induction false} ErrorOfLabel(labels: seq<string>) returns (k: nat)
    requires FirstLabelError(labels).Some?
    ensures k < |labels| && LabelError(labels[k]) == FirstLabelError(labels)
    ensures forall j :: 0 <= j < k ==> LabelError(labels[j]).None?
  {
    k := 0;
    if LabelError(labels[0]).None? {
      k := ErrorOfLabel(labels[1..]);
      assert forall j :: 0 < j < k + 1 ==> labels[j] == labels[1..][j - 1];
      k := k + 1;
    }
  }

  /** Each error names a defect that the folded name has, and labels are looked at from the left. */
  lemma RefusedBecause(raw: string)
    requires Canonical(raw).Failure?
    ensures var n := Fold(raw);
            match Canonical(raw).error
            case EmptyName => n == ""
            case HasWhitespace => ' ' in n || '\t' in n || '\n' in n || '\r' in n
            case EmptyLabel => HasDoubleDot(n) || exists k :: 0 <= k < |Split(n)| && Split(n)[k] == ""
            case NotAscii => exists i :: 0 <= i < |n| && n[i] as int > 127
            case InvalidWildcard => '*' in n && !IsWildcardName(n)
            case TooFewLabels => |Split(n)| == 1
            case LabelTooLong => exists k :: 0 <= k < |Split(n)| && |Split(n)[k]| > 63
            case HyphenAtEdge =>
              exists k :: 0 <= k < |Split(n)| && Split(n)[k] != ""
                && (Split(n)[k][0] == '-' || Split(n)[k][|Split(n)[k]| - 1] == '-')
            case InvalidCharacter =>
              exists k, c :: 0 <= k < |Split(n)| && c in Split(n)[k] && Split(n)[k] != "*" && !PlainChar(c)
  {
    var n := Fold(raw);
    hide Fold, Split, IsWildcardName;
    var e := Canonical(raw).error;
    if e.InvalidWildcard? && IsWildcardName(n) {
      WildcardIsValid(n);
    }
    if FirstLabelError(Split(n)) == Some(e) {
      var k := ErrorOfLabel(Split(n));
      var part := Split(n)[k];
      if e.InvalidCharacter? {
        var i :| 0 <= i < |part| && !PlainChar(part[i]);
        assert part[i] in part;
      }
    }
  }

  lemma WildcardIsValid(n: string)
    ensures IsWildcardName(n) ==> IsValidWildcard(n)
  {
    if IsWildcardName(n) {
      CheckAcceptsAll(n);
      assert n[0] == '*' by { assert n[..2][0] == '*'; }
    }
  }

  /******* Lists of names *******/

  /** One pass over the names: their canonical forms without repeats, or the first error. */
  function Collect(names: seq<string>): Result<seq<string>, NameError>
    decreases |names|
  {
    if names == [] then Success([])
    else
      var out := Collect(names[..|names| - 1]);
      var c := Canonical(names[|names| - 1]);
      if out.Failure? then out
      else if c.Failure? then Failure(c.error)
      else if c.value in out.value then out
      else Success(out.value + [c.value])
  }

  /** What `CanonicalList` answers; `CanonicaliseList` computes it with the program's loop. */
  function CanonicalList(names: seq<string>): Result<seq<string>, NameError> {
    var out := Collect(names);
    if out.Failure? then out else Success(Sort(out.value))
  }

  lemma {:induction false} CollectFailureSticks(names: seq<string>, n: nat)
    requires n <= |names| && Collect(names[..n]).Failure?
    ensures Collect(names) == Collect(names[..n])
    decreases |names|
  {
    if n == |names| {
      assert names[..n] == names;
    } else {
      var front := names[..|names| - 1];
      assert front[..n] == names[..n];
      CollectFailureSticks(front, n);
    }
  }

  method CanonicaliseList(names: seq<string>) returns (r: Result<seq<string>, NameError>)
    ensures r == CanonicalList(names)
  {
    var seen: set<string> := {};
    var out: seq<string> := [];
    for i := 0 to |names|
      invariant Collect(names[..i]) == Success(out)
      invariant forall x :: x in seen <==> x in out
    {
      assert names[..i + 1][..i] == names[..i];
      var c := Canonicalise(names[i]);
      if c.Failure? {
        CollectFailureSticks(names, i + 1);
        return Failure(c.error);
      }
      if c.value !in seen {
        seen := seen + {c.value};
        out := out + [c.value];
      }
    }
    assert names[..|names|] == names;
    return Success(Sort(out));
  }

  ghost predicate AllValid(names: seq<string>) {
    forall n :: n in names ==> Canonical(n).Success?
  }

  /** The set of canonical names that a list of names denotes. */
  ghost function Denoted(names: seq<string>): set<string> {
    set n | n in names && Canonical(n).Success? :: Canonical(n).value
  }

  lemma {:induction false} CollectMeaning(names: seq<string>)
    ensures Collect(names).Success? <==> AllValid(names)
    ensures Collect(names).Success? ==>
              Distinct(Collect(names).value) && Elements(Collect(names).value) == Denoted(names)
    decreases |names|
  {
    if names != [] {
      var front, last := names[..|names| - 1], names[|names| - 1];
      CollectMeaning(front);
      assert forall n :: n in names <==> n in front || n == last;
      if Collect(names).Success? {
        assert Denoted(names) == Denoted(front) + {Canonical(last).value};
      }
    }
  }

  /** The normal form: strictly increasing, and exactly the image of the input. */
  lemma CanonicalListIsNormalForm(names: seq<string>)
    ensures CanonicalList(names).Success? <==> AllValid(names)
    ensures CanonicalList(names).Success? ==>
              StrictlySorted(CanonicalList(names).value)
              && Elements(CanonicalList(names).value) == Denoted(names)
  {
    CollectMeaning(names);
    if CanonicalList(names).Success? {
      SortDistinct(Collect(names).value);
    }
  }

  /** An invalid list is refused for its first invalid name. */
  lemma {:induction false} FirstInvalidName(names: seq<string>) returns (k: nat)
    requires CanonicalList(names).Failure?
    ensures k < |names| && Canonical(names[k]).Failure? && CanonicalList(names).error == Canonical(names[k]).error
    ensures forall j :: 0 <= j < k ==> Canonical(names[j]).Success?
    decreases |names|
  {
    hide Canonical;
    var front := names[..|names| - 1];
    k := |front|;
    if Collect(front).Failure? {
      k := FirstInvalidName(front);
    } else {
      CollectMeaning(front);
      forall j | 0 <= j < k ensures Canonical(names[j]).Success? { assert front[j] in front; }
    }
  }

  /** Two valid lists have the same normal form exactly when they denote the same set. */
  lemma SameListSameSet(a: seq<string>, b: seq<string>)
    requires AllValid(a) && AllValid(b)
    ensures CanonicalList(a) == CanonicalList(b) <==> Denoted(a) == Denoted(b)
  {
    CanonicalListIsNormalForm(a);
    CanonicalListIsNormalForm(b);
    if Denoted(a) == Denoted(b) {
      SortedListingUnique(CanonicalList(a).value, CanonicalList(b).value);
    }
  }

  /** A normal form is its own normal form. */
  lemma CanonicalListIdempotent(names: seq<string>)
    requires CanonicalList(names).Success?
    ensures CanonicalList(CanonicalList(names).value) == CanonicalList(names)
  {
    CanonicalListIsNormalForm(names);
    var list := CanonicalList(names).value;
    forall c | c in list ensures Canonical(c) == Success(c) {
      assert c in Elements(list);
      var n :| n in names && Canonical(n).Success? && Canonical(n).value == c;
      CanonicalIdempotent(n);
    }
    assert Denoted(list) == Elements(list);
    CanonicalListIsNormalForm(list);
    SortedListingUnique(list, CanonicalList(list).value);
  }

  /** `sameStringSet` and the loop of `EqualSet`: equal length, then equal place by place. */
  method SameStrings(a: seq<string>, b: seq<string>) returns (same: bool)
    ensures same <==> a == b
  {
    if |a| != |b| { return false; }
    for i := 0 to |a|
      invariant a[..i] == b[..i]
    {
      if a[i] != b[i] { return false; }
    }
    return true;
  }

  method EqualSet(a: seq<string>, b: seq<string>) returns (same: bool)
    ensures same <==> AllValid(a) && AllValid(b) && Denoted(a) == Denoted(b)
  {
    CanonicalListIsNormalForm(a);
    CanonicalListIsNormalForm(b);
    var ca := CanonicaliseList(a);
    if ca.Failure? { return false; }
    var cb := CanonicaliseList(b);
    if cb.Failure? { return false; }
    SameListSameSet(a, b);
    same := SameStrings(ca.value, cb.value);
  }
}
