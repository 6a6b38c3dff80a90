/** Why a policy does not compile: what each error says of the configuration. */
module PolicyErrors {
  import opened Wrappers
  import opened Text
  import opened DnsName
  import opened PolicyTypes
  import opened PolicyCompile
  import opened PolicyValid

  lemma {:induction false} FirstNameFound(names: seq<string>, wildcard: bool)
    ensures FirstName(names, wildcard).Some? ==>
              FirstName(names, wildcard).value in names && IsValidWildcard(FirstName(names, wildcard).value) == wildcard
  {
    if names != [] { FirstNameFound(names[1..], wildcard); }
  }

  /** A name of a canonical list comes from a raw name, and is of the kind that `IsValidWildcard` says. */
  lemma FromRaw(names: seq<string>, name: string)
    requires CanonicalList(names).Success? && name in CanonicalList(names).value
    ensures exists r :: r in names && Canonical(r) == Success(name)
    ensures if IsValidWildcard(name) then IsWildcardName(name) else IsHostName(name)
  {
    hide Canonical, IsHostName, IsWildcardName, IsValidWildcard, Collect, Less, Sort;
    CanonicalListIsNormalForm(names);
    assert name in Elements(CanonicalList(names).value);
    var r :| r in names && Canonical(r).Success? && Canonical(r).value == name;
    CanonicalStars(r);
  }

  lemma ProfileRefusedBecause(h: Hasher, key: string, raw: RawProfile)
    requires CompileProfile(h, key, raw).Failure?
    ensures match CompileProfile(h, key, raw).error
            case NameRequired => Trim(key) == ""
            case TypeRequired => Trim(raw.profileType) == ""
            case BadNames(e) => CanonicalList(raw.dnsNames) == Failure(e)
            case NamesRequired => raw.dnsNames == []
            case ChallengeRequired => Trim(raw.acme.challenge) == ""
            case NotWildcard(n) =>
              && Trim(raw.profileType) == "wildcard" && IsHostName(n)
              && exists r :: r in raw.dnsNames && Canonical(r) == Success(n)
            case UnexpectedWildcard(n) =>
              && Trim(raw.profileType) == "multi_san" && IsWildcardName(n)
              && exists r :: r in raw.dnsNames && Canonical(r) == Success(n)
            case NeedsDns01 => Trim(raw.acme.challenge) != "dns-01"
            case UnsupportedType(t) => t == Trim(raw.profileType) && t != "wildcard" && t != "multi_san"
            case NegativeRenewBefore => raw.renewBefore < 0
  {
    hide CanonicalList, Canonical, Trim, IsHostName, IsWildcardName, IsValidWildcard, FirstName;
    if CanonicalList(raw.dnsNames).Success? {
      var list := CanonicalList(raw.dnsNames).value;
      KindOfList(raw.dnsNames, true);
      FirstNameFound(list, true);
      FirstNameFound(list, false);
      forall n | n in list
        ensures exists r :: r in raw.dnsNames && Canonical(r) == Success(n)
        ensures if IsValidWildcard(n) then IsWildcardName(n) else IsHostName(n)
      {
        FromRaw(raw.dnsNames, n);
      }
    }
  }

  lemma {:induction false} ReferenceRefused(host: string, refs: seq<string>, known: set<string>) returns (k: nat)
    requires AllowedProfiles(host, refs, known).Failure?
    ensures k < |refs| && (forall j :: 0 <= j < k ==> Trim(refs[j]) != "" && Trim(refs[j]) in known)
    ensures match AllowedProfiles(host, refs, known).error
            case EmptyReference(n) => n == host && Trim(refs[k]) == ""
            case UnknownReference(n, p) => n == host && p == Trim(refs[k]) && p != "" && p !in known
            case _ => false
    decreases |refs|
  {
    hide Trim;
    var front := refs[..|refs| - 1];
    k := |front|;
    if AllowedProfiles(host, front, known).Failure? {
      k := ReferenceRefused(host, front, known);
    } else {
      AllowedProfilesMeaning(host, front, known);
      forall j | 0 <= j < k ensures Trim(refs[j]) != "" && Trim(refs[j]) in known { assert front[j] in front; }
    }
  }

  lemma HostRefusedBecause(key: string, raw: RawHost, known: set<string>)
    requires CompileHost(key, raw, known).Failure?
    ensures match CompileHost(key, raw, known).error
            case HostNameRequired => Trim(key) == ""
            case IdentityRequired(n) => n == Trim(key) && Trim(raw.identity) == ""
            case ProfilesRequired(n) => n == Trim(key) && raw.profiles == []
            case EmptyReference(n) => n == Trim(key) && exists r :: r in raw.profiles && Trim(r) == ""
            case UnknownReference(n, p) =>
              n == Trim(key) && p != "" && p !in known && exists r :: r in raw.profiles && Trim(r) == p
            case _ => false
  {
    hide Trim;
    if AllowedProfiles(Trim(key), raw.profiles, known).Failure? {
      var k := ReferenceRefused(Trim(key), raw.profiles, known);
      assert raw.profiles[k] in raw.profiles;
    }
  }

  /** The profile that a compilation stops at: the first in order that does not compile. */
  lemma {:induction false} ProfileStopped(h: Hasher, raw: map<string, RawProfile>, keys: seq<string>, n: nat)
    returns (k: nat)
    requires n <= |keys| && (forall x :: x in keys ==> x in raw) && CompileProfiles(h, raw, keys, n).Failure?
    ensures k < n && CompileProfile(h, keys[k], raw[keys[k]]).Failure?
    ensures CompileProfiles(h, raw, keys, n)
            == Failure(BadProfile(keys[k], CompileProfile(h, keys[k], raw[keys[k]]).error))
    ensures forall j :: 0 <= j < k ==> CompileProfile(h, keys[j], raw[keys[j]]).Success?
  {
    hide CompileProfile;
    if CompileProfiles(h, raw, keys, n - 1).Failure? {
      k := ProfileStopped(h, raw, keys, n - 1);
    } else {
      k := n - 1;
      AllBefore(h, raw, keys, n - 1);
    }
  }

  lemma {:induction false} AllBefore(h: Hasher, raw: map<string, RawProfile>, keys: seq<string>, n: nat)
    requires n <= |keys| && (forall x :: x in keys ==> x in raw) && CompileProfiles(h, raw, keys, n).Success?
    ensures forall j :: 0 <= j < n ==> CompileProfile(h, keys[j], raw[keys[j]]).Success?
  {
    hide CompileProfile;
    if n > 0 { AllBefore(h, raw, keys, n - 1); }
  }

  /** The host that a compilation stops at: the first in order that does not compile or repeats an identity. */
  lemma {:induction false} HostStopped(raw: map<string, RawHost>, keys: seq<string>, known: set<string>, n: nat)
    returns (k: nat)
    requires n <= |keys| && (forall x :: x in keys ==> x in raw) && CompileHosts(raw, keys, known, n).Failure?
    ensures k < n && CompileHosts(raw, keys, known, k).Success?
    ensures var host := CompileHost(keys[k], raw[keys[k]], known);
            if host.Failure? then CompileHosts(raw, keys, known, n) == Failure(host.error)
            else
              && host.value.identity in CompileHosts(raw, keys, known, k).value.byIdentity
              && CompileHosts(raw, keys, known, n) == Failure(DuplicateIdentity(host.value.identity))
  {
    hide CompileHost;
    if CompileHosts(raw, keys, known, n - 1).Failure? {
      k := HostStopped(raw, keys, known, n - 1);
    } else {
      k := n - 1;
    }
  }

  /** The identities in the table are those of the hosts done. */
  lemma {:induction false} IdentitiesDone(raw: map<string, RawHost>, keys: seq<string>, known: set<string>, n: nat)
    requires n <= |keys| && (forall x :: x in keys ==> x in raw) && CompileHosts(raw, keys, known, n).Success?
    ensures forall id :: id in CompileHosts(raw, keys, known, n).value.byIdentity ==>
              exists m :: 0 <= m < n && id == Trim(raw[keys[m]].identity)
    ensures forall j :: 0 <= j < n ==> CompileHost(keys[j], raw[keys[j]], known).Success?
  {
    hide CompileHost, Trim;
    if n > 0 {
      IdentitiesDone(raw, keys, known, n - 1);
      HostCompilesExactly(keys[n - 1], raw[keys[n - 1]], known);
      assert Trim(raw[keys[n - 1]].identity) == Trim(raw[keys[n - 1]].identity);
    }
  }

  /** Which key a compilation stops at, and why, in the order of keys; profiles come before hosts. */
  lemma PolicyRefusedBecause(h: Hasher, cfg: Config)
    requires CompilePolicy(h, cfg).Failure?
    ensures match CompilePolicy(h, cfg).error
            case UnsupportedVersion(v) => v == cfg.version && v != 0 && v != 1
            case NoProfiles => cfg.profiles == map[]
            case NoHosts => cfg.hosts == map[]
            case BadProfile(k, e) =>
              && k in cfg.profiles && CompileProfile(h, k, cfg.profiles[k]) == Failure(e)
              && forall j :: j in cfg.profiles && Less(j, k) ==> ValidProfile(j, cfg.profiles[j])
            case DuplicateIdentity(id) =>
              && (forall k :: k in cfg.profiles ==> ValidProfile(k, cfg.profiles[k]))
              && exists j, k :: j in cfg.hosts && k in cfg.hosts && j != k
                   && Trim(cfg.hosts[j].identity) == id == Trim(cfg.hosts[k].identity)
            case e =>
              && (forall k :: k in cfg.profiles ==> ValidProfile(k, cfg.profiles[k]))
              && exists k :: k in cfg.hosts && CompileHost(k, cfg.hosts[k], cfg.profiles.Keys) == Failure(e)
                   && forall j :: j in cfg.hosts && Less(j, k) ==> ValidHost(j, cfg.hosts[j], cfg.profiles.Keys)
  {
    hide CompileProfile, CompileHost, CompileProfiles, CompileHosts, ValidProfile, ValidHost, Trim, Less, PolicyInput;
    hide Listing;
    if (cfg.version == 0 || cfg.version == 1) && cfg.profiles != map[] && cfg.hosts != map[] {
      KeysListed(cfg.profiles);
      KeysListed(cfg.hosts);
      var profileKeys, hostKeys := Listing(cfg.profiles.Keys), Listing(cfg.hosts.Keys);
      if CompileProfiles(h, cfg.profiles, profileKeys, |profileKeys|).Failure? {
        ProfilesRefused(h, cfg);
      } else {
        AllBefore(h, cfg.profiles, profileKeys, |profileKeys|);
        CompileProfilesTable(h, cfg.profiles, profileKeys, |profileKeys|);
        assert profileKeys[..|profileKeys|] == profileKeys;
        assert CompileProfiles(h, cfg.profiles, profileKeys, |profileKeys|).value.Keys == cfg.profiles.Keys;
        forall k | k in cfg.profiles ensures ValidProfile(k, cfg.profiles[k]) {
          assert k in profileKeys;
          ProfileCompilesExactly(h, k, cfg.profiles[k]);
        }
        HostsRefused(cfg);
      }
    }
  }

  lemma ProfilesRefused(h: Hasher, cfg: Config)
    requires var keys := Listing(cfg.profiles.Keys);
             (forall k :: k in keys <==> k in cfg.profiles) && CompileProfiles(h, cfg.profiles, keys, |keys|).Failure?
    ensures var keys := Listing(cfg.profiles.Keys);
            var e := CompileProfiles(h, cfg.profiles, keys, |keys|).error;
            && e.BadProfile? && e.key in cfg.profiles
            && CompileProfile(h, e.key, cfg.profiles[e.key]) == Failure(e.error)
            && forall j :: j in cfg.profiles && Less(j, e.key) ==> ValidProfile(j, cfg.profiles[j])
  {
    hide CompileProfile, CompileProfiles, ValidProfile, Less, Listing;
    var keys := Listing(cfg.profiles.Keys);
    var k := ProfileStopped(h, cfg.profiles, keys, |keys|);
    assert keys[k] in keys;
    forall j | j in cfg.profiles && Less(j, keys[k]) ensures ValidProfile(j, cfg.profiles[j]) {
      assert j in keys;
      var i := PlaceBefore(keys, j, k);
      ProfileCompilesExactly(h, j, cfg.profiles[j]);
    }
  }

  /** What is less than an element of a strictly sorted list stands before it. */
  lemma PlaceBefore(keys: seq<string>, x: string, k: nat) returns (i: nat)
    requires StrictlySorted(keys) && k < |keys| && x in keys && Less(x, keys[k])
    ensures i < k && keys[i] == x
  {
    i :| 0 <= i < |keys| && keys[i] == x;
    LessTotal(keys[i], keys[k]);
    NotAfter(keys, i, k);
  }

  lemma NotAfter(keys: seq<string>, i: nat, k: nat)
    requires StrictlySorted(keys) && i < |keys| && k < |keys|
    ensures k < i ==> Less(keys[k], keys[i])
  {
    hide Less;
  }

  lemma HostsRefused(cfg: Config)
    requires var keys := Listing(cfg.hosts.Keys);
             && (forall k :: k in keys <==> k in cfg.hosts)
             && CompileHosts(cfg.hosts, keys, cfg.profiles.Keys, |keys|).Failure?
    ensures var keys := Listing(cfg.hosts.Keys);
            match CompileHosts(cfg.hosts, keys, cfg.profiles.Keys, |keys|).error
            case DuplicateIdentity(id) =>
              exists j, k :: j in cfg.hosts && k in cfg.hosts && j != k
                && Trim(cfg.hosts[j].identity) == id == Trim(cfg.hosts[k].identity)
            case UnsupportedVersion(_) => false
            case NoProfiles => false
            case NoHosts => false
            case BadProfile(_, _) => false
            case e =>
              exists k :: k in cfg.hosts && CompileHost(k, cfg.hosts[k], cfg.profiles.Keys) == Failure(e)
                && forall j :: j in cfg.hosts && Less(j, k) ==> ValidHost(j, cfg.hosts[j], cfg.profiles.Keys)
  {
    hide CompileHost, CompileHosts, ValidHost, Trim, Less, Listing;
    var keys, known := Listing(cfg.hosts.Keys), cfg.profiles.Keys;
    var k := HostStopped(cfg.hosts, keys, known, |keys|);
    assert keys[k] in keys;
    IdentitiesDone(cfg.hosts, keys, known, k);
    HostCompilesExactly(keys[k], cfg.hosts[keys[k]], known);
    if CompileHost(keys[k], cfg.hosts[keys[k]], known).Failure? {
      HostRefusedBecause(keys[k], cfg.hosts[keys[k]], known);
      forall j | j in cfg.hosts && Less(j, keys[k]) ensures ValidHost(j, cfg.hosts[j], known) {
        assert j in keys;
        var i := PlaceBefore(keys, j, k);
        HostCompilesExactly(j, cfg.hosts[j], known);
      }
    } else {
      var id := CompileHost(keys[k], cfg.hosts[keys[k]], known).value.identity;
      var m :| 0 <= m < k && id == Trim(cfg.hosts[keys[m]].identity);
      DistinctPlaces(keys, m, k);
      assert keys[m] in keys;
    }
  }

  lemma DistinctPlaces(keys: seq<string>, m: nat, k: nat)
    requires StrictlySorted(keys) && m < k < |keys|
    ensures keys[m] != keys[k]
  {
    hide Less;
    if keys[m] == keys[k] { StrictlySortedIsDistinct(keys, m, k); }
  }
}
