/** Which policies compile, said of the configuration alone. */
module PolicyValid {
  import opened Wrappers
  import opened Text
  import opened DnsName
  import opened PolicyTypes
  import opened PolicyCompile

  ghost predicate ValidProfile(key: string, raw: RawProfile) {
    && Trim(key) != "" && raw.dnsNames != [] && Trim(raw.acme.challenge) == "dns-01" && raw.renewBefore >= 0
    && (|| (Trim(raw.profileType) == "wildcard" && forall n :: n in raw.dnsNames ==> IsWildcardName(Fold(n)))
        || (Trim(raw.profileType) == "multi_san" && forall n :: n in raw.dnsNames ==> IsHostName(Fold(n))))
  }

  ghost predicate ValidHost(key: string, raw: RawHost, known: set<string>) {
    && Trim(key) != "" && Trim(raw.identity) != "" && raw.profiles != []
    && forall r :: r in raw.profiles ==> Trim(r) != "" && Trim(r) in known
  }

  ghost predicate ValidConfig(cfg: Config) {
    && (cfg.version == 0 || cfg.version == 1) && cfg.profiles != map[] && cfg.hosts != map[]
    && (forall k :: k in cfg.profiles ==> ValidProfile(k, cfg.profiles[k]))
    && (forall k :: k in cfg.hosts ==> ValidHost(k, cfg.hosts[k], cfg.profiles.Keys))
    && (forall j, k :: j in cfg.hosts && k in cfg.hosts ==>
          Trim(cfg.hosts[j].identity) == Trim(cfg.hosts[k].identity) ==> j == k)
  }

  /** A valid name's folded form is a wildcard just when `IsValidWildcard` says so, and a host name otherwise. */
  lemma NameKinds(name: string)
    ensures IsWildcardName(Fold(name)) ==> Canonical(name) == Success(Fold(name)) && IsValidWildcard(Fold(name))
    ensures IsHostName(Fold(name)) ==> Canonical(name) == Success(Fold(name)) && !IsValidWildcard(Fold(name))
    ensures Canonical(name).Success? ==>
              Canonical(name).value == Fold(name)
              && if IsValidWildcard(Fold(name)) then IsWildcardName(Fold(name)) else IsHostName(Fold(name))
  {
    hide Fold, IsHostName, IsValidWildcard;
    CanonicalAccepts(name);
    if Canonical(name).Success? { CanonicalStars(name); }
    if IsHostName(Fold(name)) { HostNameShape(Fold(name)); }
    if IsWildcardName(Fold(name)) { assert '*' in Fold(name) by { assert Fold(name)[0] == '*'; } }
  }

  /** All the names of a list are of one kind just when all of its normal form are. */
  lemma KindOfList(names: seq<string>, wildcard: bool)
    requires CanonicalList(names).Success?
    ensures FirstName(CanonicalList(names).value, !wildcard).None?
            <==> forall n :: n in names ==> if wildcard then IsWildcardName(Fold(n)) else IsHostName(Fold(n))
    ensures CanonicalList(names).value == [] <==> names == []
  {
    hide CanonicalList, Canonical, Fold, IsHostName, IsWildcardName, IsValidWildcard;
    CanonicalListIsNormalForm(names);
    var list := CanonicalList(names).value;
    FirstNameNone(list, !wildcard);
    forall n | n in names ensures Fold(n) in list && (IsValidWildcard(Fold(n)) <==> IsWildcardName(Fold(n)))
      && (!IsValidWildcard(Fold(n)) <==> IsHostName(Fold(n)))
    {
      NameKinds(n);
      assert Canonical(n).value in Elements(list);
    }
    forall c | c in list ensures exists n :: n in names && Fold(n) == c {
      assert c in Elements(list);
      var n :| n in names && Canonical(n).Success? && Canonical(n).value == c;
      NameKinds(n);
    }
    if names != [] { assert names[0] in names; }
    if list != [] { assert list[0] in list; }
  }

  lemma ProfileCompilesExactly(h: Hasher, key: string, raw: RawProfile)
    ensures CompileProfile(h, key, raw).Success? <==> ValidProfile(key, raw)
  {
    hide CanonicalList, Trim, Fold, IsHostName, IsWildcardName, FirstName;
    CanonicalListIsNormalForm(raw.dnsNames);
    forall n | n in raw.dnsNames && (IsWildcardName(Fold(n)) || IsHostName(Fold(n))) ensures Canonical(n).Success? {
      NameKinds(n);
    }
    if CanonicalList(raw.dnsNames).Success? {
      KindOfList(raw.dnsNames, true);
      KindOfList(raw.dnsNames, false);
    }
  }

  lemma HostCompilesExactly(key: string, raw: RawHost, known: set<string>)
    ensures CompileHost(key, raw, known).Success? <==> ValidHost(key, raw, known)
    ensures CompileHost(key, raw, known).Success? ==> CompileHost(key, raw, known).value.identity == Trim(raw.identity)
  {
    hide Trim;
    AllowedProfilesMeaning(Trim(key), raw.profiles, known);
  }

  lemma {:induction false} ProfilesCompile(h: Hasher, raw: map<string, RawProfile>, keys: seq<string>, n: nat)
    requires n <= |keys| && forall k :: k in keys ==> k in raw && ValidProfile(k, raw[k])
    ensures CompileProfiles(h, raw, keys, n).Success?
  {
    hide CompileProfile, ValidProfile;
    if n > 0 {
      ProfilesCompile(h, raw, keys, n - 1);
      assert keys[n - 1] in keys;
      ProfileCompilesExactly(h, keys[n - 1], raw[keys[n - 1]]);
    }
  }

  /** Hosts all compile when each is valid and no identity comes twice. */
  lemma {:induction false} HostsCompile(raw: map<string, RawHost>, keys: seq<string>, known: set<string>, n: nat)
    requires n <= |keys| && forall k :: k in keys ==> k in raw && ValidHost(k, raw[k], known)
    requires StrictlySorted(keys)
    requires forall j, k :: j in raw && k in raw && Trim(raw[j].identity) == Trim(raw[k].identity) ==> j == k
    ensures CompileHosts(raw, keys, known, n).Success?
    ensures forall id :: id in CompileHosts(raw, keys, known, n).value.byIdentity ==>
              exists m :: 0 <= m < n && id == Trim(raw[keys[m]].identity)
  {
    hide CompileHost, ValidHost, Trim, Less, StrictlySorted;
    if n > 0 {
      HostsCompile(raw, keys, known, n - 1);
      var key := keys[n - 1];
      assert key in keys;
      HostCompilesExactly(key, raw[key], known);
      var done := CompileHosts(raw, keys, known, n - 1).value;
      if Trim(raw[key].identity) in done.byIdentity {
        IdentityTwice(raw, keys, n - 1, Trim(raw[key].identity));
      }
      assert Trim(raw[keys[n - 1]].identity) == Trim(raw[key].identity);
    }
  }

  lemma IdentityTwice(raw: map<string, RawHost>, keys: seq<string>, n: nat, id: string)
    requires n < |keys| && (forall k :: k in keys ==> k in raw) && StrictlySorted(keys)
    requires forall j, k :: j in raw && k in raw && Trim(raw[j].identity) == Trim(raw[k].identity) ==> j == k
    requires Trim(raw[keys[n]].identity) == id
    ensures !exists m :: 0 <= m < n && id == Trim(raw[keys[m]].identity)
  {
    hide Trim, Less;
    forall m | 0 <= m < n ensures id != Trim(raw[keys[m]].identity) {
      assert keys[m] in keys && keys[n] in keys;
      if keys[m] == keys[n] { StrictlySortedIsDistinct(keys, m, n); }
    }
  }

  /** A policy compiles exactly when its configuration is valid. */
  lemma CompilesExactly(h: Hasher, cfg: Config)
    ensures CompilePolicy(h, cfg).Success? <==> ValidConfig(cfg)
    ensures CompilePolicy(h, cfg).Success? ==> CompilePolicy(h, cfg).value.version == 1
  {
    hide CompileProfile, CompileHost, ValidProfile, ValidHost, Trim, Less, Indexed, PolicyInput, Listing;
    if CompilePolicy(h, cfg).Success? {
      CompiledIsValid(h, cfg);
      CompiledVersion(h, cfg);
    }
    if ValidConfig(cfg) {
      KeysListed(cfg.profiles);
      KeysListed(cfg.hosts);
      var profileKeys, hostKeys := Listing(cfg.profiles.Keys), Listing(cfg.hosts.Keys);
      ProfilesCompile(h, cfg.profiles, profileKeys, |profileKeys|);
      CompileProfilesTable(h, cfg.profiles, profileKeys, |profileKeys|);
      assert profileKeys[..|profileKeys|] == profileKeys;
      assert CompileProfiles(h, cfg.profiles, profileKeys, |profileKeys|).value.Keys == cfg.profiles.Keys;
      HostsCompile(cfg.hosts, hostKeys, cfg.profiles.Keys, |hostKeys|);
    }
  }

  /** Hosts that compiled have different identities. */
  lemma {:induction false} HostsDistinct(raw: map<string, RawHost>, keys: seq<string>, known: set<string>, n: nat)
    requires n <= |keys| && (forall k :: k in keys ==> k in raw) && CompileHosts(raw, keys, known, n).Success?
    ensures forall i :: 0 <= i < n ==>
              Trim(raw[keys[i]].identity) in CompileHosts(raw, keys, known, n).value.byIdentity
    ensures forall i, j :: 0 <= i < j < n ==> Trim(raw[keys[i]].identity) != Trim(raw[keys[j]].identity)
  {
    hide CompileHost, Trim;
    if n > 0 {
      HostsDistinct(raw, keys, known, n - 1);
      HostCompilesExactly(keys[n - 1], raw[keys[n - 1]], known);
    }
  }

  /** The host table is filled from the compiled profiles of the whole configuration. */
  lemma HostsOfCompiled(h: Hasher, cfg: Config)
    requires CompilePolicy(h, cfg).Success?
    ensures var keys := Listing(cfg.hosts.Keys);
            (forall k :: k in keys <==> k in cfg.hosts)
            && CompileHosts(cfg.hosts, keys, cfg.profiles.Keys, |keys|).Success?
  {
    hide CompileProfile, CompileHost, CompileHosts, Less, PolicyInput, Listing;
    KeysListed(cfg.profiles);
    KeysListed(cfg.hosts);
    var profileKeys := Listing(cfg.profiles.Keys);
    CompileProfilesTable(h, cfg.profiles, profileKeys, |profileKeys|);
    assert profileKeys[..|profileKeys|] == profileKeys;
    assert CompileProfiles(h, cfg.profiles, profileKeys, |profileKeys|).value.Keys == cfg.profiles.Keys;
  }

  lemma CompiledIsValid(h: Hasher, cfg: Config)
    requires CompilePolicy(h, cfg).Success?
    ensures ValidConfig(cfg)
  {
    hide CompileProfile, CompileHost, CompileProfiles, CompileHosts, ValidProfile, ValidHost, Trim, Less, PolicyInput;
    hide Listing, Indexed;
    CompileGivesTables(h, cfg);
    hide CompilePolicy, TablesOf;
    CompiledPlain(h, cfg);
    forall k | k in cfg.profiles ensures ValidProfile(k, cfg.profiles[k]) {
      CompiledEntries(h, cfg, CompilePolicy(h, cfg).value);
      ProfileCompilesExactly(h, k, cfg.profiles[k]);
    }
    forall k | k in cfg.hosts ensures ValidHost(k, cfg.hosts[k], cfg.profiles.Keys) {
      CompiledEntries(h, cfg, CompilePolicy(h, cfg).value);
      HostCompilesExactly(k, cfg.hosts[k], cfg.profiles.Keys);
    }
    IdentitiesDiffer(h, cfg);
  }

  /** A version that is left out is the current one. */
  lemma CompiledVersion(h: Hasher, cfg: Config)
    requires CompilePolicy(h, cfg).Success?
    ensures CompilePolicy(h, cfg).value.version == 1
  {
    hide CompileProfiles, CompileHosts, PolicyInput, Listing;
  }

  /** The first checks of a compilation. */
  lemma CompiledPlain(h: Hasher, cfg: Config)
    requires CompilePolicy(h, cfg).Success?
    ensures (cfg.version == 0 || cfg.version == 1) && cfg.profiles != map[] && cfg.hosts != map[]
  {
    hide CompileProfiles, CompileHosts, PolicyInput, Listing;
  }

  lemma CompiledEntries(h: Hasher, cfg: Config, p: CompiledPolicy)
    requires TablesOf(h, cfg, p)
    ensures forall k :: k in cfg.profiles ==> CompileProfile(h, k, cfg.profiles[k]).Success?
    ensures forall k :: k in cfg.hosts ==> CompileHost(k, cfg.hosts[k], cfg.profiles.Keys).Success?
  {
    hide CompileProfile, CompileHost, Indexed;
    forall k | k in cfg.profiles ensures CompileProfile(h, k, cfg.profiles[k]).Success? {
      assert k in p.profiles;
    }
    forall k | k in cfg.hosts ensures CompileHost(k, cfg.hosts[k], cfg.profiles.Keys).Success? {
      assert k in p.hostsByName;
    }
  }

  lemma IdentitiesDiffer(h: Hasher, cfg: Config)
    requires CompilePolicy(h, cfg).Success?
    ensures forall j, k :: j in cfg.hosts && k in cfg.hosts ==>
              Trim(cfg.hosts[j].identity) == Trim(cfg.hosts[k].identity) ==> j == k
  {
    hide CompilePolicy, CompileHosts, Trim, Listing;
    HostsOfCompiled(h, cfg);
    var keys := Listing(cfg.hosts.Keys);
    HostsDistinct(cfg.hosts, keys, cfg.profiles.Keys, |keys|);
    forall j, k | j in cfg.hosts && k in cfg.hosts && Trim(cfg.hosts[j].identity) == Trim(cfg.hosts[k].identity)
      ensures j == k
    {
      assert j in keys && k in keys;
      var a :| 0 <= a < |keys| && keys[a] == j;
      var b :| 0 <= b < |keys| && keys[b] == k;
    }
  }
}
