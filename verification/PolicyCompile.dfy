/** `Compile`: from the policy as written to the tables `Authorize` reads. */
module PolicyCompile {
  import opened Wrappers
  import opened Text
  import opened DnsName
  import opened PolicyTypes

  datatype ProfileError =
    | NameRequired
    | TypeRequired
    | BadNames(error: NameError)
    | NamesRequired
    | ChallengeRequired
    | NotWildcard(name: string)
    | UnexpectedWildcard(name: string)
    | NeedsDns01
    | UnsupportedType(profileType: string)
    | NegativeRenewBefore

  datatype PolicyError =
    | UnsupportedVersion(version: int)
    | NoProfiles
    | NoHosts
    | BadProfile(key: string, error: ProfileError)
    | HostNameRequired
    | IdentityRequired(host: string)
    | ProfilesRequired(host: string)
    | EmptyReference(host: string)
    | UnknownReference(host: string, profile: string)
    | DuplicateIdentity(identity: string)

  /******* Profiles *******/

  function FirstName(names: seq<string>, wildcard: bool): Option<string> {
    if names == [] then None
    else if IsValidWildcard(names[0]) == wildcard then Some(names[0])
    else FirstName(names[1..], wildcard)
  }

  function ValidateProfileType(profileType: string, dnsNames: seq<string>, acme: Acme): Option<ProfileError> {
    if acme.challenge == "" then Some(ChallengeRequired)
    else if profileType == "wildcard" then
      var plain := FirstName(dnsNames, false);
      if plain.Some? then Some(NotWildcard(plain.value))
      else if acme.challenge != "dns-01" then Some(NeedsDns01)
      else None
    else if profileType == "multi_san" then
      var wildcard := FirstName(dnsNames, true);
      if wildcard.Some? then Some(UnexpectedWildcard(wildcard.value))
      else if acme.challenge != "dns-01" then Some(NeedsDns01)
      else None
    else Some(UnsupportedType(profileType))
  }

  function CompileProfile(h: Hasher, key: string, raw: RawProfile): Result<CompiledProfile, ProfileError> {
    var name := Trim(key);
    if name == "" then Failure(NameRequired) else
    var profileType := Trim(raw.profileType);
    if profileType == "" then Failure(TypeRequired) else
    var names := CanonicalList(raw.dnsNames);
    if names.Failure? then Failure(BadNames(names.error)) else
    if names.value == [] then Failure(NamesRequired) else
    var acme := Acme(Trim(raw.acme.challenge), Trim(raw.acme.credentials));
    var typeError := ValidateProfileType(profileType, names.value, acme);
    if typeError.Some? then Failure(typeError.value) else
    var renewBefore := if raw.renewBefore == 0 then DEFAULT_RENEW_BEFORE else raw.renewBefore;
    if renewBefore < 0 then Failure(NegativeRenewBefore) else
    var input := ProfileHashInput(profileType, names.value, acme, renewBefore);
    Success(CompiledProfile(name, profileType, names.value, acme, renewBefore, h.ofProfile(input)))
  }

  /** The profiles of the first `n` keys, or the first error among them. */
  function CompileProfiles(h: Hasher, raw: map<string, RawProfile>, keys: seq<string>, n: nat)
    : Result<map<string, CompiledProfile>, PolicyError>
    requires n <= |keys| && forall k :: k in keys ==> k in raw
  {
    if n == 0 then Success(map[])
    else
      var key := keys[n - 1];
      var done := CompileProfiles(h, raw, keys, n - 1);
      var profile := CompileProfile(h, key, raw[key]);
      if done.Failure? then done
      else if profile.Failure? then Failure(BadProfile(key, profile.error))
      else Success(done.value[key := profile.value])
  }

  /******* Hosts *******/

  function AllowedProfiles(host: string, refs: seq<string>, known: set<string>): Result<set<string>, PolicyError>
    decreases |refs|
  {
    if refs == [] then Success({})
    else
      var done := AllowedProfiles(host, refs[..|refs| - 1], known);
      var name := Trim(refs[|refs| - 1]);
      if done.Failure? then done
      else if name == "" then Failure(EmptyReference(host))
      else if name !in known then Failure(UnknownReference(host, name))
      else Success(done.value + {name})
  }

  function CompileHost(key: string, raw: RawHost, known: set<string>): Result<CompiledHost, PolicyError> {
    var name := Trim(key);
    if name == "" then Failure(HostNameRequired) else
    var identity := Trim(raw.identity);
    if identity == "" then Failure(IdentityRequired(name)) else
    if raw.profiles == [] then Failure(ProfilesRequired(name)) else
    var allowed := AllowedProfiles(name, raw.profiles, known);
    if allowed.Failure? then Failure(allowed.error)
    else Success(CompiledHost(name, identity, allowed.value))
  }

  datatype Hosts = Hosts(byName: map<string, CompiledHost>, byIdentity: map<string, CompiledHost>)

  /** The hosts of the first `n` keys, or the first error among them. */
  function CompileHosts(
      raw: map<string, RawHost>, keys: seq<string>, known: set<string>, n: nat): Result<Hosts, PolicyError>
    requires n <= |keys| && forall k :: k in keys ==> k in raw
  {
    if n == 0 then Success(Hosts(map[], map[]))
    else
      var key := keys[n - 1];
      var done := CompileHosts(raw, keys, known, n - 1);
      var host := CompileHost(key, raw[key], known);
      if done.Failure? then done
      else if host.Failure? then Failure(host.error)
      else if host.value.identity in done.value.byIdentity then Failure(DuplicateIdentity(host.value.identity))
      else Success(Hosts(done.value.byName[key := host.value],
                         done.value.byIdentity[host.value.identity := host.value]))
  }

  /******* Hashes *******/

  ghost function HostRecord(host: CompiledHost): HostHashRecord {
    HostHashRecord(host.name, host.identity, Listing(host.profiles))
  }

  function ProfileRecords(profiles: map<string, CompiledProfile>, keys: seq<string>, n: nat): seq<ProfileHashRecord>
    requires n <= |keys| && forall k :: k in keys ==> k in profiles
  {
    if n == 0 then []
    else
      var profile := profiles[keys[n - 1]];
      ProfileRecords(profiles, keys, n - 1) + [ProfileHashRecord(profile.name, profile.hash)]
  }

  ghost function HostRecords(hosts: map<string, CompiledHost>, keys: seq<string>, n: nat): seq<HostHashRecord>
    requires n <= |keys| && forall k :: k in keys ==> k in hosts
  {
    if n == 0 then [] else HostRecords(hosts, keys, n - 1) + [HostRecord(hosts[keys[n - 1]])]
  }

  lemma KeysListed<V>(m: map<string, V>)
    ensures forall k :: k in Listing(m.Keys) <==> k in m
  {
    hide Less, Sort;
    assert forall k :: k in Listing(m.Keys) <==> k in Elements(Listing(m.Keys));
  }

  ghost function PolicyInput(
      version: int, profiles: map<string, CompiledProfile>, hosts: map<string, CompiledHost>): PolicyHashInput {
    KeysListed(profiles);
    KeysListed(hosts);
    var profileKeys, hostKeys := Listing(profiles.Keys), Listing(hosts.Keys);
    PolicyHashInput(version,
                    ProfileRecords(profiles, profileKeys, |profileKeys|),
                    HostRecords(hosts, hostKeys, |hostKeys|))
  }

  /** The sets and maps are visited in any order; the digest does not depend on it. */
  method ComputePolicyHash(
      h: Hasher, version: int, profiles: map<string, CompiledProfile>, hosts: map<string, CompiledHost>)
    returns (hash: string)
    ensures hash == h.ofPolicy(PolicyInput(version, profiles, hosts))
  {
    hide Less, Listing;
    KeysListed(profiles);
    KeysListed(hosts);
    var profileKeys := SortedKeys(profiles);
    var profileRecords: seq<ProfileHashRecord> := [];
    for i := 0 to |profileKeys|
      invariant profileRecords == ProfileRecords(profiles, profileKeys, i)
    {
      var profile := profiles[profileKeys[i]];
      profileRecords := profileRecords + [ProfileHashRecord(profile.name, profile.hash)];
    }
    var hostKeys := SortedKeys(hosts);
    var hostRecords: seq<HostHashRecord> := [];
    for i := 0 to |hostKeys|
      invariant hostRecords == HostRecords(hosts, hostKeys, i)
    {
      var host := hosts[hostKeys[i]];
      var allowed := map p | p in host.profiles :: true;
      assert allowed.Keys == host.profiles;
      var names := SortedKeys(allowed);
      hostRecords := hostRecords + [HostHashRecord(host.name, host.identity, names)];
    }
    hash := h.ofPolicy(PolicyHashInput(version, profileRecords, hostRecords));
  }

  /******* The whole policy *******/

  ghost function CompilePolicy(h: Hasher, cfg: Config): Result<CompiledPolicy, PolicyError> {
    var version := if cfg.version == 0 then CURRENT_VERSION else cfg.version;
    if version != CURRENT_VERSION then Failure(UnsupportedVersion(version)) else
    if cfg.profiles == map[] then Failure(NoProfiles) else
    if cfg.hosts == map[] then Failure(NoHosts) else
    KeysListed(cfg.profiles);
    KeysListed(cfg.hosts);
    var profileKeys, hostKeys := Listing(cfg.profiles.Keys), Listing(cfg.hosts.Keys);
    var profiles := CompileProfiles(h, cfg.profiles, profileKeys, |profileKeys|);
    if profiles.Failure? then Failure(profiles.error) else
    var hosts := CompileHosts(cfg.hosts, hostKeys, profiles.value.Keys, |hostKeys|);
    if hosts.Failure? then Failure(hosts.error) else
    Success(CompiledPolicy(version, profiles.value, hosts.value.byName, hosts.value.byIdentity,
                           h.ofPolicy(PolicyInput(version, profiles.value, hosts.value.byName))))
  }

  lemma {:induction false} CompileProfilesFailureSticks(
      h: Hasher, raw: map<string, RawProfile>, keys: seq<string>, m: nat, n: nat)
    requires m <= n <= |keys| && forall k :: k in keys ==> k in raw
    requires CompileProfiles(h, raw, keys, m).Failure?
    ensures CompileProfiles(h, raw, keys, n) == CompileProfiles(h, raw, keys, m)
  {
    hide CompileProfile;
    if m < n {
      CompileProfilesFailureSticks(h, raw, keys, m, n - 1);
    }
  }

  lemma {:induction false} CompileHostsFailureSticks(
      raw: map<string, RawHost>, keys: seq<string>, known: set<string>, m: nat, n: nat)
    requires m <= n <= |keys| && forall k :: k in keys ==> k in raw
    requires CompileHosts(raw, keys, known, m).Failure?
    ensures CompileHosts(raw, keys, known, n) == CompileHosts(raw, keys, known, m)
  {
    hide CompileHost;
    if m < n {
      CompileHostsFailureSticks(raw, keys, known, m, n - 1);
    }
  }

  lemma {:induction false} AllowedProfilesFailureSticks(host: string, refs: seq<string>, known: set<string>, n: nat)
    requires n <= |refs| && AllowedProfiles(host, refs[..n], known).Failure?
    ensures AllowedProfiles(host, refs, known) == AllowedProfiles(host, refs[..n], known)
    decreases |refs|
  {
    if n == |refs| {
      assert refs[..n] == refs;
    } else {
      var front := refs[..|refs| - 1];
      assert front[..n] == refs[..n];
      AllowedProfilesFailureSticks(host, front, known, n);
    }
  }

  method CompileOneHost(key: string, raw: RawHost, profiles: map<string, CompiledProfile>)
    returns (r: Result<CompiledHost, PolicyError>)
    ensures r == CompileHost(key, raw, profiles.Keys)
  {
    var name := Trim(key);
    if name == "" { return Failure(HostNameRequired); }
    var identity := Trim(raw.identity);
    if identity == "" { return Failure(IdentityRequired(name)); }
    if |raw.profiles| == 0 { return Failure(ProfilesRequired(name)); }
    var allowed: set<string> := {};
    for i := 0 to |raw.profiles|
      invariant AllowedProfiles(name, raw.profiles[..i], profiles.Keys) == Success(allowed)
    {
      assert raw.profiles[..i + 1][..i] == raw.profiles[..i];
      var profileName := Trim(raw.profiles[i]);
      if profileName == "" || profileName !in profiles {
        AllowedProfilesFailureSticks(name, raw.profiles, profiles.Keys, i + 1);
        return Failure(if profileName == "" then EmptyReference(name) else UnknownReference(name, profileName));
      }
      allowed := allowed + {profileName};
    }
    assert raw.profiles[..|raw.profiles|] == raw.profiles;
    return Success(CompiledHost(name, identity, allowed));
  }

  /** The loop of `Compile` over the profiles. */
  method CompileAllProfiles(h: Hasher, raw: map<string, RawProfile>, keys: seq<string>)
    returns (r: Result<map<string, CompiledProfile>, PolicyError>)
    requires forall k :: k in keys ==> k in raw
    ensures r == CompileProfiles(h, raw, keys, |keys|)
  {
    hide CompileProfile;
    var profiles: map<string, CompiledProfile> := map[];
    for i := 0 to |keys|
      invariant CompileProfiles(h, raw, keys, i) == Success(profiles)
    {
      var profile := CompileProfile(h, keys[i], raw[keys[i]]);
      if profile.Failure? {
        CompileProfilesFailureSticks(h, raw, keys, i + 1, |keys|);
        return Failure(BadProfile(keys[i], profile.error));
      }
      profiles := profiles[keys[i] := profile.value];
    }
    return Success(profiles);
  }

  /** The loop of `Compile` over the hosts. */
  method CompileAllHosts(raw: map<string, RawHost>, keys: seq<string>, profiles: map<string, CompiledProfile>)
    returns (r: Result<Hosts, PolicyError>)
    requires forall k :: k in keys ==> k in raw
    ensures r == CompileHosts(raw, keys, profiles.Keys, |keys|)
  {
    hide CompileHost;
    var byName: map<string, CompiledHost> := map[];
    var byIdentity: map<string, CompiledHost> := map[];
    for i := 0 to |keys|
      invariant CompileHosts(raw, keys, profiles.Keys, i) == Success(Hosts(byName, byIdentity))
    {
      var host := CompileOneHost(keys[i], raw[keys[i]], profiles);
      if host.Failure? {
        CompileHostsFailureSticks(raw, keys, profiles.Keys, i + 1, |keys|);
        return Failure(host.error);
      }
      if host.value.identity in byIdentity {
        CompileHostsFailureSticks(raw, keys, profiles.Keys, i + 1, |keys|);
        return Failure(DuplicateIdentity(host.value.identity));
      }
      byName := byName[keys[i] := host.value];
      byIdentity := byIdentity[host.value.identity := host.value];
    }
    return Success(Hosts(byName, byIdentity));
  }

  method Compile(h: Hasher, cfg: Config) returns (r: Result<CompiledPolicy, PolicyError>)
    ensures r == CompilePolicy(h, cfg)
  {
    hide CompileProfiles, CompileHosts, PolicyInput, Less;
    var version := cfg.version;
    if version == 0 { version := CURRENT_VERSION; }
    if version != CURRENT_VERSION { return Failure(UnsupportedVersion(version)); }
    if |cfg.profiles| == 0 { return Failure(NoProfiles); }
    if |cfg.hosts| == 0 { return Failure(NoHosts); }
    KeysListed(cfg.profiles);
    KeysListed(cfg.hosts);
    var profileKeys := SortedKeys(cfg.profiles);
    var profiles := CompileAllProfiles(h, cfg.profiles, profileKeys);
    if profiles.Failure? { return Failure(profiles.error); }
    var hostKeys := SortedKeys(cfg.hosts);
    var hosts := CompileAllHosts(cfg.hosts, hostKeys, profiles.value);
    if hosts.Failure? { return Failure(hosts.error); }
    var hash := ComputePolicyHash(h, version, profiles.value, hosts.value.byName);
    return Success(CompiledPolicy(version, profiles.value, hosts.value.byName, hosts.value.byIdentity, hash));
  }

  /******* What the tables hold *******/

  /** The tables read straight off the configuration. */
  ghost predicate TablesOf(h: Hasher, cfg: Config, p: CompiledPolicy) {
    && p.profiles.Keys == cfg.profiles.Keys
    && (forall k :: k in p.profiles ==> CompileProfile(h, k, cfg.profiles[k]) == Success(p.profiles[k]))
    && p.hostsByName.Keys == cfg.hosts.Keys
    && (forall k :: k in p.hostsByName ==> CompileHost(k, cfg.hosts[k], p.profiles.Keys) == Success(p.hostsByName[k]))
    && Indexed(p.hostsByName, p.hostsByIdentity)
  }

  /** Each host stands in the identity table under its own identity, and nothing else does. */
  ghost predicate Indexed(byName: map<string, CompiledHost>, byIdentity: map<string, CompiledHost>) {
    && (forall k :: k in byName ==> byName[k].identity in byIdentity && byIdentity[byName[k].identity] == byName[k])
    && (forall id :: id in byIdentity ==>
          exists k :: k in byName && byName[k] == byIdentity[id] && byName[k].identity == id)
  }

  lemma {:induction false} CompileProfilesTable(h: Hasher, raw: map<string, RawProfile>, keys: seq<string>, n: nat)
    requires n <= |keys| && forall k :: k in keys ==> k in raw
    requires CompileProfiles(h, raw, keys, n).Success?
    ensures var t := CompileProfiles(h, raw, keys, n).value;
            && (forall k :: k in t <==> k in keys[..n])
            && forall k :: k in t ==> k in raw && CompileProfile(h, k, raw[k]) == Success(t[k])
  {
    hide CompileProfile;
    if n > 0 {
      CompileProfilesTable(h, raw, keys, n - 1);
      assert keys[..n] == keys[..n - 1] + [keys[n - 1]];
    }
  }

  lemma {:induction false} CompileHostsTable(raw: map<string, RawHost>, keys: seq<string>, known: set<string>, n: nat)
    requires n <= |keys| && forall k :: k in keys ==> k in raw
    requires StrictlySorted(keys)
    requires CompileHosts(raw, keys, known, n).Success?
    ensures var t := CompileHosts(raw, keys, known, n).value;
            && (forall k :: k in t.byName <==> k in keys[..n])
            && (forall k :: k in t.byName ==> k in raw && CompileHost(k, raw[k], known) == Success(t.byName[k]))
            && Indexed(t.byName, t.byIdentity)
  {
    hide CompileHost, Less, Indexed;
    if n == 0 {
      IndexedEmpty();
    } else {
      var key := keys[n - 1];
      CompileHostsTable(raw, keys, known, n - 1);
      assert keys[..n] == keys[..n - 1] + [key];
      if key in keys[..n - 1] {
        var i :| 0 <= i < n - 1 && keys[i] == key;
        StrictlySortedIsDistinct(keys, i, n - 1);
      }
      var done := CompileHosts(raw, keys, known, n - 1).value;
      IndexedStep(done.byName, done.byIdentity, key, CompileHost(key, raw[key], known).value);
    }
  }

  lemma IndexedEmpty()
    ensures Indexed(map[], map[])
  {
  }

  lemma IndexedStep(
      byName: map<string, CompiledHost>, byIdentity: map<string, CompiledHost>, key: string, host: CompiledHost)
    requires Indexed(byName, byIdentity) && key !in byName && host.identity !in byIdentity
    ensures Indexed(byName[key := host], byIdentity[host.identity := host])
  {
    var names, identities := byName[key := host], byIdentity[host.identity := host];
    forall id | id in identities
      ensures exists k :: k in names && names[k] == identities[id] && names[k].identity == id
    {
      if id == host.identity {
        assert names[key] == identities[id];
      } else {
        var k :| k in byName && byName[k] == byIdentity[id] && byName[k].identity == id;
        assert names[k] == identities[id];
      }
    }
  }

  lemma CompileGivesTables(h: Hasher, cfg: Config)
    requires CompilePolicy(h, cfg).Success?
    ensures TablesOf(h, cfg, CompilePolicy(h, cfg).value)
  {
    hide CompileProfile, CompileHost, CompileProfiles, CompileHosts, Indexed, Less, Sort, PolicyInput;
    KeysListed(cfg.profiles);
    KeysListed(cfg.hosts);
    var profileKeys, hostKeys := Listing(cfg.profiles.Keys), Listing(cfg.hosts.Keys);
    CompileProfilesTable(h, cfg.profiles, profileKeys, |profileKeys|);
    var profiles := CompileProfiles(h, cfg.profiles, profileKeys, |profileKeys|).value;
    CompileHostsTable(cfg.hosts, hostKeys, profiles.Keys, |hostKeys|);
    var hosts := CompileHosts(cfg.hosts, hostKeys, profiles.Keys, |hostKeys|).value;
    assert profileKeys[..|profileKeys|] == profileKeys && hostKeys[..|hostKeys|] == hostKeys;
    assert profiles.Keys == cfg.profiles.Keys && hosts.byName.Keys == cfg.hosts.Keys;
  }

  lemma {:induction false} AllowedProfilesMeaning(host: string, refs: seq<string>, known: set<string>)
    ensures AllowedProfiles(host, refs, known).Success?
            <==> forall r :: r in refs ==> Trim(r) != "" && Trim(r) in known
    ensures AllowedProfiles(host, refs, known).Success? ==>
              AllowedProfiles(host, refs, known).value == set r | r in refs :: Trim(r)
    decreases |refs|
  {
    if refs != [] {
      var front, last := refs[..|refs| - 1], refs[|refs| - 1];
      AllowedProfilesMeaning(host, front, known);
      assert forall r :: r in refs <==> r in front || r == last by { assert refs == front + [last]; }
      if AllowedProfiles(host, refs, known).Success? {
        assert (set r | r in refs :: Trim(r)) == (set r | r in front :: Trim(r)) + {Trim(last)};
      }
    }
  }

  /******* What a compiled profile may name *******/

  lemma {:induction false} FirstNameNone(names: seq<string>, wildcard: bool)
    ensures FirstName(names, wildcard).None? <==> forall n :: n in names ==> IsValidWildcard(n) != wildcard
  {
    if names != [] {
      FirstNameNone(names[1..], wildcard);
      assert forall n :: n in names <==> n == names[0] || n in names[1..];
    }
  }

  /** The fields of a compiled profile, each from the configuration. */
  lemma CompiledProfileFields(h: Hasher, key: string, raw: RawProfile)
    requires CompileProfile(h, key, raw).Success?
    ensures var p := CompileProfile(h, key, raw).value;
            && p.name == Trim(key) && p.name != ""
            && CanonicalList(raw.dnsNames) == Success(p.dnsNames) && p.dnsNames != []
            && p.profileType == Trim(raw.profileType) && p.profileType != ""
            && p.acme == Acme(Trim(raw.acme.challenge), Trim(raw.acme.credentials))
            && p.renewBefore == (if raw.renewBefore == 0 then 30 * 24 * 3600 * 1_000_000_000 else raw.renewBefore) > 0
            && ValidateProfileType(p.profileType, p.dnsNames, p.acme).None?
            && p.hash == h.ofProfile(p.HashInput())
  {
    hide CanonicalList, ValidateProfileType, TrimLeft, TrimRight;
  }

  /**
   A compiled profile is of one of two types. A `multi_san` profile names hosts and contains no
   star at all; every name of a `wildcard` profile has exactly one star, in front.
   */
  lemma CompiledProfileNames(h: Hasher, key: string, raw: RawProfile)
    requires CompileProfile(h, key, raw).Success?
    ensures var p := CompileProfile(h, key, raw).value;
            && p.dnsNames != [] && StrictlySorted(p.dnsNames)
            && p.renewBefore > 0 && p.acme.challenge == "dns-01"
            && (p.profileType == "wildcard" || p.profileType == "multi_san")
            && (forall n :: n in p.dnsNames ==>
                  if p.profileType == "wildcard" then IsWildcardName(n) && '*' !in n[1..]
                  else IsHostName(n) && '*' !in n)
  {
    hide CompileProfile, CanonicalList, Canonical, Less, IsValidWildcard, IsHostName;
    var p := CompileProfile(h, key, raw).value;
    CompiledProfileFields(h, key, raw);
    CanonicalListIsNormalForm(raw.dnsNames);
    FirstNameNone(p.dnsNames, p.profileType == "multi_san");
    forall n | n in p.dnsNames
      ensures if p.profileType == "wildcard" then IsWildcardName(n) && '*' !in n[1..]
              else IsHostName(n) && '*' !in n
    {
      assert n in Elements(p.dnsNames);
      var rawName :| rawName in raw.dnsNames && Canonical(rawName).Success? && Canonical(rawName).value == n;
      CanonicalStars(rawName);
    }
  }
}
