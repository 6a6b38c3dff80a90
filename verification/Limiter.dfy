/**
 The limiter as the program has it: two maps of slices. A slice is a length and a backing
 array whose size is its capacity; pruning compacts in place and appending reuses the array
 while there is room, so what keeps one key's list from another's is that no two keys ever
 share an array.
 */
module Limiter {
  import opened Durations
  import opened RateLimit

  datatype Slice = Slice(buf: array<int>, len: nat)

  /** `append(s, x)`: in place while the capacity lasts, else into a new, larger array. */
  method Append(s: Slice, x: int) returns (r: Slice)
    requires s.len <= s.buf.Length
    modifies s.buf
    ensures r.len == s.len + 1 <= r.buf.Length
    ensures r.buf[..r.len] == old(s.buf[..s.len]) + [x]
    ensures if s.len < s.buf.Length then r.buf == s.buf else fresh(r.buf)
    ensures forall k :: 0 <= k < s.buf.Length && k != s.len ==> s.buf[k] == old(s.buf[k])
  {
    if s.len < s.buf.Length {
      s.buf[s.len] := x;
      r := Slice(s.buf, s.len + 1);
    } else {
      var capacity: nat := *;
      if capacity <= s.len { capacity := s.len + 1; }
      var buf := new int[capacity];
      for i := 0 to s.len
        invariant buf[..i] == s.buf[..i]
        invariant s.buf[..] == old(s.buf[..])
      {
        buf[i] := s.buf[i];
      }
      buf[s.len] := x;
      assert s.buf[..s.len] == old(s.buf[..])[..s.len];
      assert forall k :: 0 <= k < s.buf.Length ==> s.buf[k] == old(s.buf[..])[k];
      r := Slice(buf, s.len + 1);
    }
  }

  /**
   `prune`: writes into the array it reads from, one place behind or level with the reading, and
   leaves in front exactly the times after `after`, in their order.
   */
  method Prune(input: Slice, after: int) returns (out: Slice)
    requires input.len <= input.buf.Length
    modifies input.buf
    ensures out.buf == input.buf && out.len <= input.len
    ensures out.buf[..out.len] == Kept(old(input.buf[..input.len]), after)
    ensures input.buf[input.len..] == old(input.buf[input.len..])
  {
    ghost var was := input.buf[..input.len];
    out := Slice(input.buf, 0);
    for i := 0 to input.len
      invariant out.buf == input.buf && out.len <= i
      invariant input.buf[..out.len] == Kept(was[..i], after)
      invariant forall k :: i <= k < input.buf.Length ==> input.buf[k] == old(input.buf[k])
    {
      assert was[..i + 1][..i] == was[..i];
      var t := input.buf[i];
      if t > after {
        out := Append(out, t);
      }
    }
    assert was[..input.len] == was;
  }

  /** The lists a map of slices stands for, all of them backed by arrays of the given set. */
  ghost function Contents(m: map<string, Slice>, arrays: set<array<int>>): map<string, seq<int>>
    requires Fits(m, arrays)
    reads arrays
  {
    map k | k in m :: m[k].buf[..m[k].len]
  }

  ghost predicate Fits(m: map<string, Slice>, arrays: set<array<int>>) {
    forall k :: k in m ==> m[k].len <= m[k].buf.Length && m[k].buf in arrays
  }

  /** No two keys share a backing array. */
  ghost predicate Separate(m: map<string, Slice>, arrays: set<array<int>>) {
    && Fits(m, arrays)
    && forall j, k :: j in m && k in m && j != k ==> m[j].buf != m[k].buf
  }

  /** Prune one key's slice; a missing key reads as the nil slice, which has no capacity. */
  method PruneAt(m: map<string, Slice>, ghost arrays: set<array<int>>, k: string, after: int)
    returns (r: map<string, Slice>, ghost more: set<array<int>>)
    requires Separate(m, arrays)
    modifies arrays
    ensures arrays <= more && fresh(more - arrays) && Separate(r, more) && k in r
    ensures Contents(r, more) == old(Contents(m, arrays))[k := Kept(At(old(Contents(m, arrays)), k), after)]
  {
    var s;
    if k in m {
      s := m[k];
    } else {
      var nothing := new int[0];
      s := Slice(nothing, 0);
    }
    more := arrays + {s.buf};
    s := Prune(s, after);
    r := m[k := s];
  }

  /** Append to one key's slice. */
  method AppendAt(m: map<string, Slice>, ghost arrays: set<array<int>>, k: string, x: int)
    returns (r: map<string, Slice>, ghost more: set<array<int>>)
    requires Separate(m, arrays) && k in m
    modifies arrays
    ensures arrays <= more && fresh(more - arrays) && Separate(r, more) && k in r
    ensures Contents(r, more) == old(Contents(m, arrays))[k := At(old(Contents(m, arrays)), k) + [x]]
  {
    var s := Append(m[k], x);
    more := arrays + {s.buf};
    r := m[k := s];
  }

  class Limiter {
    const limits: Limits
    var identity: map<string, Slice>
    var profile: map<string, Slice>
    ghost var identityArrays: set<array<int>>
    ghost var profileArrays: set<array<int>>

    /** No two keys share a backing array, neither within a map nor across the two. */
    ghost predicate Valid()
      reads this
    {
      && Separate(identity, identityArrays)
      && Separate(profile, profileArrays)
      && identityArrays !! profileArrays
    }

    ghost function Lists(): Table
      requires Valid()
      reads this, identityArrays, profileArrays
    {
      Table(Contents(identity, identityArrays), Contents(profile, profileArrays))
    }

    constructor (perIdentity: int, perIdentityProfile: int)
      ensures Valid() && fresh(identityArrays + profileArrays) && Lists() == EMPTY
      ensures limits == Limits(perIdentity, perIdentityProfile)
    {
      limits := Limits(perIdentity, perIdentityProfile);
      identity := map[];
      profile := map[];
      identityArrays := {};
      profileArrays := {};
    }

    /** Forget an identity's admissions from before the window. */
    method PruneIdentity(key: string, windowStart: int)
      requires Valid()
      modifies `identity, `identityArrays, identityArrays
      ensures Valid() && key in identity && profileArrays == old(profileArrays)
      ensures fresh(identityArrays - old(identityArrays))
      ensures Lists() == old(Lists()).(identity :=
                old(Lists()).identity[key := Kept(At(old(Lists()).identity, key), windowStart)])
    {
      hide Kept, At, Fits, Contents;
      identity, identityArrays := PruneAt(identity, identityArrays, key, windowStart);
      assert Contents(profile, profileArrays) == old(Contents(profile, profileArrays));
    }

    /** Note an admission for its identity. */
    method AppendIdentity(key: string, now: int)
      requires Valid() && key in identity
      modifies `identity, `identityArrays, identityArrays
      ensures Valid() && key in identity && profileArrays == old(profileArrays)
      ensures fresh(identityArrays - old(identityArrays))
      ensures Lists() == old(Lists()).(identity := old(Lists()).identity[key := At(old(Lists()).identity, key) + [now]])
    {
      hide At, Fits, Contents;
      identity, identityArrays := AppendAt(identity, identityArrays, key, now);
      assert Contents(profile, profileArrays) == old(Contents(profile, profileArrays));
    }

    /** Forget a pair's admissions from before the window. */
    method PruneProfile(key: string, windowStart: int)
      requires Valid()
      modifies `profile, `profileArrays, profileArrays
      ensures Valid() && key in profile && identityArrays == old(identityArrays)
      ensures fresh(profileArrays - old(profileArrays))
      ensures Lists() == old(Lists()).(profile :=
                old(Lists()).profile[key := Kept(At(old(Lists()).profile, key), windowStart)])
    {
      hide Kept, At, Fits, Contents;
      profile, profileArrays := PruneAt(profile, profileArrays, key, windowStart);
      assert Contents(identity, identityArrays) == old(Contents(identity, identityArrays));
    }

    /** Note an admission for its pair. */
    method AppendProfile(key: string, now: int)
      requires Valid() && key in profile
      modifies `profile, `profileArrays, profileArrays
      ensures Valid() && key in profile && identityArrays == old(identityArrays)
      ensures fresh(profileArrays - old(profileArrays))
      ensures Lists() == old(Lists()).(profile := old(Lists()).profile[key := At(old(Lists()).profile, key) + [now]])
    {
      hide At, Fits, Contents;
      profile, profileArrays := AppendAt(profile, profileArrays, key, now);
      assert Contents(identity, identityArrays) == old(Contents(identity, identityArrays));
    }

    /** The call takes the mutex for its whole length, so it is one step of any run. */
    method Allow(id: string, profileName: string, now: int) returns (verdict: Verdict)
      requires Valid()
      modifies this, identityArrays, profileArrays
      ensures Valid()
      ensures fresh(identityArrays - old(identityArrays)) && fresh(profileArrays - old(profileArrays))
      ensures RateLimit.Allow(limits, old(Lists()), id, profileName, now) == Outcome(verdict, Lists())
    {
      hide Kept, PairKey, RateLimit.Allow, Decide, At, Fits, Separate, Contents;
      var windowStart := now - HOUR;
      var key := PairKey(id, profileName);
      ghost var was := Lists();
      PruneIdentity(id, windowStart);
      PruneProfile(key, windowStart);
      AllowInHalves(limits, was, id, profileName, now, Lists());
      LengthsShow(identity, identityArrays, id);
      LengthsShow(profile, profileArrays, key);
      DecideInSteps(limits, identity[id].len, profile[key].len);
      if limits.perIdentity > 0 && identity[id].len >= limits.perIdentity {
        return IdentityLimited;
      }
      if limits.perIdentityProfile > 0 && profile[key].len >= limits.perIdentityProfile {
        return ProfileLimited;
      }
      AppendIdentity(id, now);
      AppendProfile(key, now);
      return Admitted;
    }
  }

  /** The decision is taken on the pruned lists, and only an admission adds to them. */
  lemma AllowInHalves(l: Limits, t: Table, id: string, profileName: string, now: int, pruned: Table)
    requires pruned == Table(
      t.identity[id := Kept(At(t.identity, id), now - HOUR)],
      t.profile[PairKey(id, profileName) := Kept(At(t.profile, PairKey(id, profileName)), now - HOUR)])
    ensures var key := PairKey(id, profileName);
            var verdict := Decide(l, |pruned.identity[id]|, |pruned.profile[key]|);
            RateLimit.Allow(l, t, id, profileName, now) == Outcome(verdict,
              if verdict == Admitted then
                Table(pruned.identity[id := At(pruned.identity, id) + [now]],
                      pruned.profile[key := At(pruned.profile, key) + [now]])
              else pruned)
  {
    hide Kept, PairKey, Decide;
    var key := PairKey(id, profileName);
    var added := [now];
    assert t.identity[id := pruned.identity[id]][id := pruned.identity[id] + added]
        == t.identity[id := pruned.identity[id] + added];
    assert t.profile[key := pruned.profile[key]][key := pruned.profile[key] + added]
        == t.profile[key := pruned.profile[key] + added];
  }

  lemma DecideInSteps(l: Limits, identityCount: nat, profileCount: nat)
    ensures Decide(l, identityCount, profileCount) ==
            if l.perIdentity > 0 && identityCount >= l.perIdentity then IdentityLimited
            else if l.perIdentityProfile > 0 && profileCount >= l.perIdentityProfile then ProfileLimited
            else Admitted
  {
  }

  lemma LengthsShow(m: map<string, Slice>, arrays: set<array<int>>, k: string)
    requires Separate(m, arrays) && k in m
    ensures k in Contents(m, arrays) && |Contents(m, arrays)[k]| == m[k].len
  {
  }
}
