/**
 The two-level sliding-window limiter as a function on tables of admission times, and what its
 decisions amount to over whole runs. `Limiter.dfy` holds the program's own form, with slices.
 */
module RateLimit {
  import opened Durations

  datatype Limits = Limits(perIdentity: int, perIdentityProfile: int)

  /** The two maps of the limiter, each list being the contents of a slice. */
  datatype Table = Table(identity: map<string, seq<int>>, profile: map<string, seq<int>>)

  datatype Verdict = Admitted | IdentityLimited | ProfileLimited

  datatype Outcome = Outcome(verdict: Verdict, table: Table)

  const EMPTY := Table(map[], map[])

  function PairKey(identity: string, profile: string): string {
    identity + "\0" + profile
  }

  function At(m: map<string, seq<int>>, k: string): seq<int> {
    if k in m then m[k] else []
  }

  /** The times strictly after `after`, in order. */
  function Kept(times: seq<int>, after: int): seq<int>
    decreases |times|
  {
    if times == [] then []
    else
      var last := times[|times| - 1];
      var front := Kept(times[..|times| - 1], after);
      if last > after then front + [last] else front
  }

  function Decide(l: Limits, identityCount: nat, profileCount: nat): Verdict {
    if l.perIdentity > 0 && identityCount >= l.perIdentity then IdentityLimited
    else if l.perIdentityProfile > 0 && profileCount >= l.perIdentityProfile then ProfileLimited
    else Admitted
  }

  function Allow(l: Limits, t: Table, identity: string, profile: string, now: int): Outcome {
    var key := PairKey(identity, profile);
    var byIdentity := Kept(At(t.identity, identity), now - HOUR);
    var byProfile := Kept(At(t.profile, key), now - HOUR);
    var verdict := Decide(l, |byIdentity|, |byProfile|);
    if verdict == Admitted then
      Outcome(Admitted, Table(t.identity[identity := byIdentity + [now]], t.profile[key := byProfile + [now]]))
    else
      Outcome(verdict, Table(t.identity[identity := byIdentity], t.profile[key := byProfile]))
  }

  /******* Runs *******/

  datatype Call = Call(identity: string, profile: string, now: int)

  /** The clock the limiter reads never goes back. */
  ghost predicate Ordered(calls: seq<Call>) {
    forall i, j :: 0 <= i < j < |calls| ==> calls[i].now <= calls[j].now
  }

  function TableAfter(l: Limits, calls: seq<Call>, n: nat): Table
    requires n <= |calls|
  {
    if n == 0 then EMPTY
    else
      var c := calls[n - 1];
      Allow(l, TableAfter(l, calls, n - 1), c.identity, c.profile, c.now).table
  }

  function VerdictAt(l: Limits, calls: seq<Call>, n: nat): Verdict
    requires n < |calls|
  {
    var c := calls[n];
    Allow(l, TableAfter(l, calls, n), c.identity, c.profile, c.now).verdict
  }

  /** The calls admitted among the first `n`: a history from which nothing is ever pruned. */
  function Admissions(l: Limits, calls: seq<Call>, n: nat): seq<Call>
    requires n <= |calls|
  {
    if n == 0 then []
    else
      var before := Admissions(l, calls, n - 1);
      if VerdictAt(l, calls, n - 1) == Admitted then before + [calls[n - 1]] else before
  }

  /** What is counted: an identity, a key of the profile map, or an identity/profile pair. */
  datatype Level = ByIdentity(identity: string) | ByKey(key: string) | ByPair(who: string, profile: string)
  {
    predicate Matches(c: Call) {
      match this
      case ByIdentity(id) => c.identity == id
      case ByKey(k) => PairKey(c.identity, c.profile) == k
      case ByPair(id, p) => c.identity == id && c.profile == p
    }

    function Limit(l: Limits): int {
      if ByIdentity? then l.perIdentity else l.perIdentityProfile
    }

    /** The list the limiter keeps at this level; it keeps none per pair, only per key. */
    function Stored(t: Table): seq<int> {
      match this
      case ByIdentity(id) => At(t.identity, id)
      case ByKey(k) => At(t.profile, k)
      case ByPair(id, p) => At(t.profile, PairKey(id, p))
    }
  }

  function Times(history: seq<Call>, level: Level): seq<int>
    decreases |history|
  {
    if history == [] then []
    else
      var last := history[|history| - 1];
      var before := Times(history[..|history| - 1], level);
      if level.Matches(last) then before + [last.now] else before
  }

  /** How many calls of the history match, with times in (lo, hi]. */
  function Count(history: seq<Call>, level: Level, lo: int, hi: int): nat
    decreases |history|
  {
    if history == [] then 0
    else
      var last := history[|history| - 1];
      Count(history[..|history| - 1], level, lo, hi)
      + if level.Matches(last) && lo < last.now <= hi then 1 else 0
  }

  /******* The pruned lists refine the whole history *******/

  lemma {:induction false} KeptTwice(times: seq<int>, a: int, b: int)
    requires a <= b
    ensures Kept(Kept(times, a), b) == Kept(times, b)
    decreases |times|
  {
    if times != [] {
      var front, last := times[..|times| - 1], times[|times| - 1];
      KeptTwice(front, a, b);
      if last > a {
        KeptSnoc(Kept(front, a), last, b);
      }
    }
  }

  lemma KeptSnoc(times: seq<int>, t: int, after: int)
    ensures Kept(times + [t], after) == if t > after then Kept(times, after) + [t] else Kept(times, after)
  {
    assert (times + [t])[..|times|] == times;
  }

  lemma TimesSnoc(history: seq<Call>, c: Call, level: Level)
    ensures Times(history + [c], level)
            == if level.Matches(c) then Times(history, level) + [c.now] else Times(history, level)
  {
    assert (history + [c])[..|history|] == history;
  }

  lemma CountSnoc(history: seq<Call>, c: Call, level: Level, lo: int, hi: int)
    ensures Count(history + [c], level, lo, hi)
            == Count(history, level, lo, hi) + if level.Matches(c) && lo < c.now <= hi then 1 else 0
  {
    assert (history + [c])[..|history|] == history;
  }

  /** One call changes the list at a level only if it matches: prune, then append if admitted. */
  lemma StoredStep(l: Limits, t: Table, c: Call, level: Level)
    requires !level.ByPair?
    ensures var o := Allow(l, t, c.identity, c.profile, c.now);
            var pruned := Kept(level.Stored(t), c.now - HOUR);
            level.Stored(o.table) ==
              if !level.Matches(c) then level.Stored(t)
              else if o.verdict == Admitted then pruned + [c.now]
              else pruned
  {
    hide Kept, PairKey;
  }

  lemma VerdictStep(l: Limits, t: Table, c: Call)
    ensures Allow(l, t, c.identity, c.profile, c.now).verdict
            == Decide(l, |Kept(ByIdentity(c.identity).Stored(t), c.now - HOUR)|,
                      |Kept(ByKey(PairKey(c.identity, c.profile)).Stored(t), c.now - HOUR)|)
  {
    hide Kept, PairKey;
  }

  /** Pruning first, and appending then, makes no difference to a window still in reach. */
  lemma PruneThenAppend(stored: seq<int>, times: seq<int>, now: int, after: int)
    requires Kept(stored, after) == Kept(times, after) && now - HOUR <= after
    ensures Kept(Kept(stored, now - HOUR), after) == Kept(times, after)
    ensures Kept(Kept(stored, now - HOUR) + [now], after) == Kept(times + [now], after)
  {
    hide Kept;
    KeptTwice(stored, now - HOUR, after);
    KeptSnoc(Kept(stored, now - HOUR), now, after);
    KeptSnoc(times, now, after);
  }

  /**
   The pruned lists hold what a history that is never pruned would say about any window that
   has not slid out of reach.
   */
  lemma {:induction false} ListsRefineHistory(l: Limits, calls: seq<Call>, n: nat, level: Level, after: int)
    requires n <= |calls| && Ordered(calls) && !level.ByPair?
    requires n > 0 ==> after >= calls[n - 1].now - HOUR
    ensures Kept(level.Stored(TableAfter(l, calls, n)), after) == Kept(Times(Admissions(l, calls, n), level), after)
  {
    hide Allow, Kept, Times, Level.Stored, TableAfter, Admissions;
    if n == 0 {
      NothingYet(l, calls, level);
    } else {
      if n > 1 { LastInOrder(calls, n - 1); }
      ListsRefineHistory(l, calls, n - 1, level, after);
      CallRefines(l, calls, n - 1, level, after);
    }
  }

  lemma NothingYet(l: Limits, calls: seq<Call>, level: Level)
    ensures level.Stored(TableAfter(l, calls, 0)) == [] == Times(Admissions(l, calls, 0), level)
  {
    hide PairKey;
  }

  /** What one call makes of the table and of the history. */
  lemma OneMoreCall(l: Limits, calls: seq<Call>, n: nat)
    requires n < |calls|
    ensures var c := calls[n];
            var o := Allow(l, TableAfter(l, calls, n), c.identity, c.profile, c.now);
            && TableAfter(l, calls, n + 1) == o.table
            && Admissions(l, calls, n + 1)
               == if o.verdict == Admitted then Admissions(l, calls, n) + [c] else Admissions(l, calls, n)
  {
    hide Allow;
  }

  /** One call keeps the lists and the history in step. */
  lemma CallRefines(l: Limits, calls: seq<Call>, n: nat, level: Level, after: int)
    requires n < |calls| && !level.ByPair? && after >= calls[n].now - HOUR
    requires Kept(level.Stored(TableAfter(l, calls, n)), after) == Kept(Times(Admissions(l, calls, n), level), after)
    ensures Kept(level.Stored(TableAfter(l, calls, n + 1)), after)
            == Kept(Times(Admissions(l, calls, n + 1), level), after)
  {
    hide *;
    var c, t, adm := calls[n], TableAfter(l, calls, n), Admissions(l, calls, n);
    OneMoreCall(l, calls, n);
    StoredStep(l, t, c, level);
    TimesSnoc(adm, c, level);
    PruneThenAppend(level.Stored(t), Times(adm, level), c.now, after);
  }

  lemma {:induction false} KeptCounts(history: seq<Call>, level: Level, lo: int, hi: int)
    requires forall c :: c in history ==> c.now <= hi
    ensures |Kept(Times(history, level), lo)| == Count(history, level, lo, hi)
    decreases |history|
  {
    if history != [] {
      var front, last := history[..|history| - 1], history[|history| - 1];
      KeptCounts(front, level, lo, hi);
      KeptSnoc(Times(front, level), last.now, lo);
    }
  }

  lemma {:induction false} AdmissionsInThePast(l: Limits, calls: seq<Call>, n: nat, now: int)
    requires n <= |calls| && Ordered(calls) && (n > 0 ==> calls[n - 1].now <= now)
    ensures forall c :: c in Admissions(l, calls, n) ==> c.now <= now
  {
    hide Allow;
    if n > 0 {
      AdmissionsInThePast(l, calls, n - 1, now);
    }
  }

  /**
   `Allow` decides as if it counted the full admission history over the hour that ends now, at
   both levels.
   */
  lemma DecisionByHistory(l: Limits, calls: seq<Call>, n: nat)
    requires n < |calls| && Ordered(calls)
    ensures var c, adm := calls[n], Admissions(l, calls, n);
            VerdictAt(l, calls, n) == Decide(l,
              Count(adm, ByIdentity(c.identity), c.now - HOUR, c.now),
              Count(adm, ByKey(PairKey(c.identity, c.profile)), c.now - HOUR, c.now))
  {
    hide Allow, PairKey, Kept, Times, Count, Admissions;
    var c := calls[n];
    AdmissionsInThePast(l, calls, n, c.now);
    var who, key := ByIdentity(c.identity), ByKey(PairKey(c.identity, c.profile));
    ListsRefineHistory(l, calls, n, who, c.now - HOUR);
    ListsRefineHistory(l, calls, n, key, c.now - HOUR);
    KeptCounts(Admissions(l, calls, n), who, c.now - HOUR, c.now);
    KeptCounts(Admissions(l, calls, n), key, c.now - HOUR, c.now);
    VerdictStep(l, TableAfter(l, calls, n), c);
  }

  /**
   In plain numbers: a call is admitted exactly when at each level the limit is not positive or
   fewer than the limit were admitted in the hour that ends now. The identity is looked at first.
   */
  lemma AdmittedExactly(l: Limits, calls: seq<Call>, n: nat)
    requires n < |calls| && Ordered(calls)
    ensures var c, adm := calls[n], Admissions(l, calls, n);
            var mine := Count(adm, ByIdentity(c.identity), c.now - HOUR, c.now);
            var ours := Count(adm, ByKey(PairKey(c.identity, c.profile)), c.now - HOUR, c.now);
            && (VerdictAt(l, calls, n) == IdentityLimited <==> 0 < l.perIdentity <= mine)
            && (VerdictAt(l, calls, n) == ProfileLimited
                <==> !(0 < l.perIdentity <= mine) && 0 < l.perIdentityProfile <= ours)
            && (VerdictAt(l, calls, n) == Admitted
                <==> !(0 < l.perIdentity <= mine) && !(0 < l.perIdentityProfile <= ours))
  {
    hide Allow, PairKey, Kept, Times, Count, Admissions, TableAfter, VerdictAt;
    DecisionByHistory(l, calls, n);
  }

  /******* The bound on every window *******/

  lemma {:induction false} CountMonotone(history: seq<Call>, level: Level, lo: int, hi: int, lo2: int, hi2: int)
    requires lo2 <= lo && hi <= hi2
    ensures Count(history, level, lo, hi) <= Count(history, level, lo2, hi2)
    decreases |history|
  {
    if history != [] {
      CountMonotone(history[..|history| - 1], level, lo, hi, lo2, hi2);
    }
  }

  /** A time at or after every admission sees the same window as the latest instant does. */
  lemma {:induction false} CountCapped(history: seq<Call>, level: Level, lo: int, hi: int, now: int)
    requires now <= hi && forall c :: c in history ==> c.now <= now
    ensures Count(history, level, lo, hi) == Count(history, level, lo, now)
    decreases |history|
  {
    if history != [] {
      CountCapped(history[..|history| - 1], level, lo, hi, now);
    }
  }

  /** An admitted call had found fewer admissions than the limit in any hour that it falls into. */
  lemma RoomWhenAdmitted(l: Limits, calls: seq<Call>, n: nat, level: Level, instant: int)
    requires n < |calls| && Ordered(calls) && !level.ByPair? && level.Limit(l) > 0
    requires VerdictAt(l, calls, n) == Admitted && level.Matches(calls[n]) && calls[n].now <= instant
    ensures Count(Admissions(l, calls, n), level, instant - HOUR, instant) < level.Limit(l)
  {
    hide PairKey, VerdictAt, Admissions, Count, Ordered;
    var c, adm := calls[n], Admissions(l, calls, n);
    DecisionByHistory(l, calls, n);
    assert Count(adm, level, c.now - HOUR, c.now) < level.Limit(l);
    LastInOrder(calls, n);
    AdmissionsInThePast(l, calls, n, c.now);
    CountCapped(adm, level, instant - HOUR, instant, c.now);
    CountMonotone(adm, level, instant - HOUR, c.now, c.now - HOUR, c.now);
  }

  lemma LastInOrder(calls: seq<Call>, n: nat)
    requires n < |calls| && Ordered(calls)
    ensures n > 0 ==> calls[n - 1].now <= calls[n].now
  {
  }

  /**
   No hour, wherever it ends, ever contains more admissions than the limit: for an identity,
   for a key of the profile map, and for an identity/profile pair.
   */
  lemma {:induction false} WindowBound(l: Limits, calls: seq<Call>, n: nat, level: Level, instant: int)
    requires n <= |calls| && Ordered(calls) && level.Limit(l) > 0
    ensures Count(Admissions(l, calls, n), level, instant - HOUR, instant) <= level.Limit(l)
    decreases n, if level.ByPair? then 1 else 0
  {
    hide Allow, PairKey, Kept;
    if level.ByPair? {
      WindowBound(l, calls, n, ByKey(PairKey(level.who, level.profile)), instant);
      PairWithinKey(Admissions(l, calls, n), level.who, level.profile, instant - HOUR, instant);
    } else if n > 0 {
      var c, adm := calls[n - 1], Admissions(l, calls, n - 1);
      WindowBound(l, calls, n - 1, level, instant);
      CountSnoc(adm, c, level, instant - HOUR, instant);
      if VerdictAt(l, calls, n - 1) == Admitted && level.Matches(c) && c.now <= instant {
        RoomWhenAdmitted(l, calls, n - 1, level, instant);
      }
    }
  }

  lemma {:induction false} PairWithinKey(history: seq<Call>, identity: string, profile: string, lo: int, hi: int)
    ensures Count(history, ByPair(identity, profile), lo, hi)
            <= Count(history, ByKey(PairKey(identity, profile)), lo, hi)
    decreases |history|
  {
    if history != [] {
      PairWithinKey(history[..|history| - 1], identity, profile, lo, hi);
    }
  }

  /** A list whose limit is positive never holds more than that many times. */
  lemma {:induction false} ListBounded(l: Limits, calls: seq<Call>, n: nat, level: Level)
    requires n <= |calls| && !level.ByPair? && level.Limit(l) > 0
    ensures |level.Stored(TableAfter(l, calls, n))| <= level.Limit(l)
  {
    hide Allow, PairKey, Kept;
    if n > 0 {
      var c, t := calls[n - 1], TableAfter(l, calls, n - 1);
      ListBounded(l, calls, n - 1, level);
      VerdictStep(l, t, c);
      StoredStep(l, t, c, level);
      KeptShrinks(level.Stored(t), c.now - HOUR);
    }
  }

  lemma {:induction false} KeptShrinks(times: seq<int>, after: int)
    ensures |Kept(times, after)| <= |times|
    decreases |times|
  {
    if times != [] {
      KeptShrinks(times[..|times| - 1], after);
    }
  }

  /******* A refused call leaves no trace *******/

  lemma {:induction false} SamePrefix(l: Limits, calls: seq<Call>, other: seq<Call>, n: nat)
    requires n <= |calls| && n <= |other| && calls[..n] == other[..n]
    ensures TableAfter(l, calls, n) == TableAfter(l, other, n)
    ensures Admissions(l, calls, n) == Admissions(l, other, n)
  {
    hide Allow;
    if n > 0 {
      assert calls[..n - 1] == calls[..n][..n - 1] == other[..n][..n - 1] == other[..n - 1];
      assert calls[n - 1] == calls[..n][n - 1] == other[n - 1];
      SamePrefix(l, calls, other, n - 1);
    }
  }

  /** One more call at the end of a run. */
  lemma RunGrows(l: Limits, calls: seq<Call>, c: Call)
    requires Ordered(calls) && forall x :: x in calls ==> x.now <= c.now
    ensures var n, more := |calls|, calls + [c];
            var o := Allow(l, TableAfter(l, calls, n), c.identity, c.profile, c.now);
            && Ordered(more)
            && TableAfter(l, more, n + 1) == o.table
            && Admissions(l, more, n + 1)
               == if o.verdict == Admitted then Admissions(l, calls, n) + [c] else Admissions(l, calls, n)
  {
    hide Allow;
    var n, more := |calls|, calls + [c];
    assert more[..n] == calls == calls[..n];
    SamePrefix(l, calls, more, n);
  }

  lemma {:induction false} RefusedHistory(l: Limits, a: seq<Call>, c: Call, b: seq<Call>, m: nat)
    requires Ordered(a + [c] + b) && m <= |b|
    requires VerdictAt(l, a + [c] + b, |a|) != Admitted
    ensures Admissions(l, a + [c] + b, |a| + 1 + m) == Admissions(l, a + b, |a| + m)
  {
    hide Allow, PairKey;
    var with, without := a + [c] + b, a + b;
    if m == 0 {
      assert with[..|a|] == a == without[..|a|];
      SamePrefix(l, with, without, |a|);
    } else {
      RefusedHistory(l, a, c, b, m - 1);
      RefusedVerdict(l, a, c, b, m - 1);
      assert with[|a| + m] == b[m - 1] == without[|a| + m - 1];
    }
  }

  lemma RefusedVerdict(l: Limits, a: seq<Call>, c: Call, b: seq<Call>, m: nat)
    requires Ordered(a + [c] + b) && m < |b|
    requires Admissions(l, a + [c] + b, |a| + 1 + m) == Admissions(l, a + b, |a| + m)
    ensures VerdictAt(l, a + [c] + b, |a| + 1 + m) == VerdictAt(l, a + b, |a| + m)
  {
    hide Allow, PairKey, Count, Admissions, TableAfter;
    var with, without := a + [c] + b, a + b;
    forall i, j | 0 <= i < j < |without| ensures without[i].now <= without[j].now {
      var i', j' := if i < |a| then i else i + 1, if j < |a| then j else j + 1;
      assert without[i] == with[i'] && without[j] == with[j'];
    }
    assert with[|a| + 1 + m] == b[m] == without[|a| + m];
    DecisionByHistory(l, with, |a| + 1 + m);
    DecisionByHistory(l, without, |a| + m);
  }

  /** Leaving a refused call out of a run changes no later decision, although it pruned both lists. */
  lemma RefusalChangesNothing(l: Limits, a: seq<Call>, c: Call, b: seq<Call>, m: nat)
    requires Ordered(a + [c] + b) && m < |b|
    requires VerdictAt(l, a + [c] + b, |a|) != Admitted
    ensures VerdictAt(l, a + [c] + b, |a| + 1 + m) == VerdictAt(l, a + b, |a| + m)
  {
    RefusedHistory(l, a, c, b, m);
    RefusedVerdict(l, a, c, b, m);
  }

  /******* Keys and pairs *******/

  /** `b` is `a`, a NUL, and something more: the one way two identities can share a profile key. */
  ghost predicate Extends(b: string, a: string) {
    |a| < |b| && b[..|a|] == a && b[|a|] == '\0'
  }

  lemma PairKeyCollides(a: string, p: string, b: string, q: string)
    ensures PairKey(a, p) == PairKey(b, q) && a != b ==> Extends(b, a) || Extends(a, b)
    ensures PairKey(a, p) == PairKey(a, q) ==> p == q
  {
    if PairKey(a, p) == PairKey(b, q) {
      var k := PairKey(a, p);
      assert k[..|a|] == a && k[|a|] == '\0' && k[|a| + 1..] == p;
      assert PairKey(b, q)[..|b|] == b && PairKey(b, q)[|b|] == '\0';
      if |a| < |b| {
        assert b[..|a|] == k[..|b|][..|a|] == a && b[|a|] == k[..|b|][|a|];
      } else if |b| < |a| {
        assert a[..|b|] == k[..|a|][..|b|] == b && a[|b|] == k[..|a|][|b|];
      }
    }
    assert PairKey(a, p)[|a| + 1..] == p && PairKey(a, q)[|a| + 1..] == q;
  }

  /** No identity of the set is another one followed by a NUL; sets without NULs are such. */
  ghost predicate Apart(identities: set<string>) {
    forall a, b :: a in identities && b in identities ==> !Extends(b, a)
  }

  lemma NulFreeApart(identities: set<string>)
    requires forall a :: a in identities ==> '\0' !in a
    ensures Apart(identities)
  {
  }

  ghost predicate From(calls: seq<Call>, identities: set<string>) {
    forall c :: c in calls ==> c.identity in identities
  }

  lemma {:induction false} AdmittedFrom(l: Limits, calls: seq<Call>, n: nat, identities: set<string>)
    requires n <= |calls| && From(calls, identities)
    ensures From(Admissions(l, calls, n), identities)
  {
    hide Allow;
    if n > 0 { AdmittedFrom(l, calls, n - 1, identities); }
  }

  lemma {:induction false} KeyCountsPair(
      history: seq<Call>, identities: set<string>, identity: string, profile: string, lo: int, hi: int)
    requires From(history, identities) && Apart(identities) && identity in identities
    ensures Count(history, ByKey(PairKey(identity, profile)), lo, hi)
            == Count(history, ByPair(identity, profile), lo, hi)
    decreases |history|
  {
    if history != [] {
      var last := history[|history| - 1];
      KeyCountsPair(history[..|history| - 1], identities, identity, profile, lo, hi);
      PairKeyCollides(last.identity, last.profile, identity, profile);
    }
  }

  /** With identities kept apart, the decision counts the identity and the very pair asked for. */
  lemma DecisionByPairs(l: Limits, calls: seq<Call>, n: nat, identities: set<string>)
    requires n < |calls| && Ordered(calls) && From(calls, identities) && Apart(identities)
    ensures var c, adm := calls[n], Admissions(l, calls, n);
            VerdictAt(l, calls, n) == Decide(l,
              Count(adm, ByIdentity(c.identity), c.now - HOUR, c.now),
              Count(adm, ByPair(c.identity, c.profile), c.now - HOUR, c.now))
  {
    hide Allow, PairKey, Count, Admissions, TableAfter;
    var c := calls[n];
    DecisionByHistory(l, calls, n);
    AdmittedFrom(l, calls, n, identities);
    KeyCountsPair(Admissions(l, calls, n), identities, c.identity, c.profile, c.now - HOUR, c.now);
  }

  /******* Conservation *******/

  ghost function SumOverProfiles(history: seq<Call>, identity: string, profiles: set<string>, lo: int, hi: int): nat {
    if profiles == {} then 0
    else
      var p :| p in profiles;
      Count(history, ByPair(identity, p), lo, hi) + SumOverProfiles(history, identity, profiles - {p}, lo, hi)
  }

  lemma {:induction false} SumEmpty(identity: string, profiles: set<string>, lo: int, hi: int)
    ensures SumOverProfiles([], identity, profiles, lo, hi) == 0
    decreases profiles
  {
    if profiles != {} {
      var p :| p in profiles && SumOverProfiles([], identity, profiles, lo, hi)
        == Count([], ByPair(identity, p), lo, hi) + SumOverProfiles([], identity, profiles - {p}, lo, hi);
      SumEmpty(identity, profiles - {p}, lo, hi);
      assert Count([], ByPair(identity, p), lo, hi) == 0;
    }
  }

  lemma {:induction false} SumSnoc(
      history: seq<Call>, c: Call, identity: string, profiles: set<string>, lo: int, hi: int)
    ensures SumOverProfiles(history + [c], identity, profiles, lo, hi)
            == SumOverProfiles(history, identity, profiles, lo, hi)
               + if c.identity == identity && c.profile in profiles && lo < c.now <= hi then 1 else 0
    decreases profiles
  {
    if profiles != {} {
      var p :| p in profiles
        && SumOverProfiles(history, identity, profiles, lo, hi)
           == Count(history, ByPair(identity, p), lo, hi) + SumOverProfiles(history, identity, profiles - {p}, lo, hi)
        && SumOverProfiles(history + [c], identity, profiles, lo, hi)
           == Count(history + [c], ByPair(identity, p), lo, hi)
              + SumOverProfiles(history + [c], identity, profiles - {p}, lo, hi);
      CountSnoc(history, c, ByPair(identity, p), lo, hi);
      SumSnoc(history, c, identity, profiles - {p}, lo, hi);
    }
  }

  /** An identity's admissions in any window are the sum over profiles of its pair admissions. */
  lemma {:induction false} PairsAddUp(history: seq<Call>, identity: string, profiles: set<string>, lo: int, hi: int)
    requires forall c :: c in history && c.identity == identity ==> c.profile in profiles
    ensures Count(history, ByIdentity(identity), lo, hi) == SumOverProfiles(history, identity, profiles, lo, hi)
    decreases |history|
  {
    if history == [] {
      SumEmpty(identity, profiles, lo, hi);
    } else {
      var front, last := history[..|history| - 1], history[|history| - 1];
      PairsAddUp(front, identity, profiles, lo, hi);
      SumSnoc(front, last, identity, profiles, lo, hi);
      assert history == front + [last];
    }
  }

  ghost function SumOfLists(t: Table, identity: string, profiles: set<string>, after: int): nat {
    if profiles == {} then 0
    else
      var p :| p in profiles;
      |Kept(At(t.profile, PairKey(identity, p)), after)| + SumOfLists(t, identity, profiles - {p}, after)
  }

  /**
   Conservation in the limiter's own lists: past any cutoff still in reach, an identity's list
   is as long as its profile lists together.
   */
  lemma ListsAddUp(
      l: Limits, calls: seq<Call>, n: nat, identities: set<string>, identity: string, profiles: set<string>,
      after: int)
    requires n <= |calls| && Ordered(calls) && From(calls, identities) && Apart(identities) && identity in identities
    requires forall c :: c in calls && c.identity == identity ==> c.profile in profiles
    requires n > 0 ==> after >= calls[n - 1].now - HOUR
    ensures |Kept(At(TableAfter(l, calls, n).identity, identity), after)|
            == SumOfLists(TableAfter(l, calls, n), identity, profiles, after)
  {
    var adm, hi := Admissions(l, calls, n), if n > 0 then calls[n - 1].now else 0;
    AdmissionsInThePast(l, calls, n, hi);
    AdmittedFrom(l, calls, n, identities);
    AdmittedWereCalled(l, calls, n);
    ListsRefineHistory(l, calls, n, ByIdentity(identity), after);
    KeptCounts(adm, ByIdentity(identity), after, hi);
    PairsAddUp(adm, identity, profiles, after, hi);
    SumOfListsIsSum(l, calls, n, identities, identity, profiles, after, hi);
  }

  lemma {:induction false} AdmittedWereCalled(l: Limits, calls: seq<Call>, n: nat)
    requires n <= |calls|
    ensures forall c :: c in Admissions(l, calls, n) ==> c in calls
  {
    hide Allow;
    if n > 0 { AdmittedWereCalled(l, calls, n - 1); }
  }

  lemma {:induction false} SumOfListsIsSum(
      l: Limits, calls: seq<Call>, n: nat, identities: set<string>, identity: string, profiles: set<string>,
      after: int, hi: int)
    requires n <= |calls| && Ordered(calls) && From(calls, identities) && Apart(identities) && identity in identities
    requires n > 0 ==> after >= calls[n - 1].now - HOUR
    requires forall c :: c in Admissions(l, calls, n) ==> c.now <= hi
    ensures SumOfLists(TableAfter(l, calls, n), identity, profiles, after)
            == SumOverProfiles(Admissions(l, calls, n), identity, profiles, after, hi)
    decreases profiles
  {
    var t, adm := TableAfter(l, calls, n), Admissions(l, calls, n);
    if profiles != {} {
      // The two sums may take the profiles out in different orders.
      var p :| p in profiles && SumOfLists(t, identity, profiles, after)
        == |Kept(At(t.profile, PairKey(identity, p)), after)| + SumOfLists(t, identity, profiles - {p}, after);
      SumOfListsIsSum(l, calls, n, identities, identity, profiles - {p}, after, hi);
      var key := ByKey(PairKey(identity, p));
      ListsRefineHistory(l, calls, n, key, after);
      KeptCounts(adm, key, after, hi);
      AdmittedFrom(l, calls, n, identities);
      KeyCountsPair(adm, identities, identity, p, after, hi);
      SumWithout(adm, identity, profiles, p, after, hi);
    }
  }

  lemma {:induction false} SumWithout(
      history: seq<Call>, identity: string, profiles: set<string>, p: string, lo: int, hi: int)
    requires p in profiles
    ensures SumOverProfiles(history, identity, profiles, lo, hi)
            == Count(history, ByPair(identity, p), lo, hi) + SumOverProfiles(history, identity, profiles - {p}, lo, hi)
    decreases profiles
  {
    var q :| q in profiles && SumOverProfiles(history, identity, profiles, lo, hi)
      == Count(history, ByPair(identity, q), lo, hi) + SumOverProfiles(history, identity, profiles - {q}, lo, hi);
    if q != p {
      SumWithout(history, identity, profiles - {q}, p, lo, hi);
      SumWithout(history, identity, profiles - {p}, q, lo, hi);
      assert profiles - {q} - {p} == profiles - {p} - {q};
    }
  }

  /******* When the profile limit can bite at all *******/

  ghost predicate NeverProfileLimited(identities: set<string>) {
    forall l: Limits, calls: seq<Call>, n: int ::
      && l.perIdentityProfile >= l.perIdentity > 0
      && Ordered(calls) && From(calls, identities) && 0 <= n < |calls|
      ==> VerdictAt(l, calls, n) != ProfileLimited
  }

  lemma {:induction false} PairWithinIdentity(history: seq<Call>, identity: string, profile: string, lo: int, hi: int)
    ensures Count(history, ByPair(identity, profile), lo, hi) <= Count(history, ByIdentity(identity), lo, hi)
    decreases |history|
  {
    if history != [] {
      PairWithinIdentity(history[..|history| - 1], identity, profile, lo, hi);
    }
  }

  lemma CollisionIsLimited(a: string, b: string)
    requires Extends(b, a)
    ensures var rest := b[|a| + 1..];
            var calls := [Call(a, rest + "\0", 0), Call(b, "", 0)];
            VerdictAt(Limits(1, 1), calls, 1) == ProfileLimited
  {
    var rest := b[|a| + 1..];
    var calls := [Call(a, rest + "\0", 0), Call(b, "", 0)];
    var l := Limits(1, 1);
    assert b == a + "\0" + rest;
    assert PairKey(a, rest + "\0") == PairKey(b, "");
    assert TableAfter(l, calls, 0) == EMPTY;
    assert VerdictAt(l, calls, 0) == Admitted;
    var t := TableAfter(l, calls, 1);
    assert [] + [0] == [0] && [0][..0] == [];
    assert At(t.profile, PairKey(b, "")) == [0];
    assert Kept([0], 0 - HOUR) == [0];
  }

  /**
   A profile limit no smaller than the identity limit never refuses anything by itself, exactly
   when no identity is another one followed by a NUL and something more.
   */
  lemma ProfileLimitIdleExactly(identities: set<string>)
    ensures NeverProfileLimited(identities) <==> Apart(identities)
  {
    if Apart(identities) {
      forall l: Limits, calls: seq<Call>, n: int |
        && l.perIdentityProfile >= l.perIdentity > 0
        && Ordered(calls) && From(calls, identities) && 0 <= n < |calls|
        ensures VerdictAt(l, calls, n) != ProfileLimited
      {
        DecisionByPairs(l, calls, n, identities);
        PairWithinIdentity(Admissions(l, calls, n), calls[n].identity, calls[n].profile,
                           calls[n].now - HOUR, calls[n].now);
      }
    } else {
      var a, b :| a in identities && b in identities && Extends(b, a);
      CollisionIsLimited(a, b);
      var calls := [Call(a, b[|a| + 1..] + "\0", 0), Call(b, "", 0)];
      assert Ordered(calls) && From(calls, identities);
      var l := Limits(1, 1);
      assert l.perIdentityProfile >= l.perIdentity > 0 && VerdictAt(l, calls, 1) == ProfileLimited;
    }
  }

  /** In particular for identities without NULs. */
  lemma ProfileLimitIdleWithoutNuls(identities: set<string>)
    requires forall a :: a in identities ==> '\0' !in a
    ensures NeverProfileLimited(identities)
  {
    hide NeverProfileLimited;
    NulFreeApart(identities);
    ProfileLimitIdleExactly(identities);
  }
}
