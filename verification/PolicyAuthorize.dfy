/** `Authorize`, and what it decides in terms of the configuration. */
module PolicyAuthorize {
  import opened Wrappers
  import opened Text
  import opened DnsName
  import opened PolicyTypes
  import opened PolicyCompile

  /** The public key is whatever identifies one; two keys are the same when they are equal. */
  datatype Csr = Csr(publicKey: string, dnsNames: seq<string>)

  datatype AuthError = InvalidCsr | UnknownIdentity | ProfileNotAllowed | UnknownProfile | NamesMismatch

  datatype Authorization =
    | Allowed(profile: CompiledProfile)
    | Denied(looked: Option<CompiledProfile>, error: AuthError)

  function Authorize(p: CompiledPolicy, identity: string, profileName: string, csr: Option<Csr>): Authorization {
    if csr.None? then Denied(None, InvalidCsr)
    else if identity !in p.hostsByIdentity then Denied(None, UnknownIdentity)
    else if profileName !in p.hostsByIdentity[identity].profiles then Denied(None, ProfileNotAllowed)
    else if profileName !in p.profiles then Denied(None, UnknownProfile)
    else
      var profile := p.profiles[profileName];
      var names := CanonicalList(csr.value.dnsNames);
      if names.Failure? then Denied(Some(profile), InvalidCsr)
      else if names.value != profile.dnsNames then Denied(Some(profile), NamesMismatch)
      else Allowed(profile)
  }

  /** The configuration read without any table: this host may have this profile. */
  ghost predicate Grants(cfg: Config, identity: string, profileName: string) {
    exists k, r ::
      && k in cfg.hosts && Trim(cfg.hosts[k].identity) == identity
      && r in cfg.hosts[k].profiles && Trim(r) == profileName
  }

  ghost predicate NamesAgree(cfg: Config, profileName: string, csr: Csr) {
    && profileName in cfg.profiles
    && AllValid(csr.dnsNames)
    && Denoted(csr.dnsNames) == Denoted(cfg.profiles[profileName].dnsNames)
  }

  /** What a compiled host has from its raw one. */
  lemma HostMeaning(key: string, raw: RawHost, known: set<string>)
    requires CompileHost(key, raw, known).Success?
    ensures var host := CompileHost(key, raw, known).value;
            && host.name == Trim(key) && host.identity == Trim(raw.identity)
            && host.profiles == (set r | r in raw.profiles :: Trim(r))
            && forall r :: r in raw.profiles ==> Trim(r) in known
  {
    hide Trim, AllowedProfiles;
    AllowedProfilesMeaning(Trim(key), raw.profiles, known);
  }

  /** The raw host behind an identity in the table. */
  lemma HostBehind(h: Hasher, cfg: Config, p: CompiledPolicy, identity: string) returns (k: string)
    requires TablesOf(h, cfg, p) && identity in p.hostsByIdentity
    ensures k in cfg.hosts && p.hostsByIdentity[identity].identity == identity
    ensures CompileHost(k, cfg.hosts[k], p.profiles.Keys) == Success(p.hostsByIdentity[identity])
  {
    hide CompileProfile, CompileHost;
    k :| k in p.hostsByName && p.hostsByName[k] == p.hostsByIdentity[identity] && p.hostsByName[k].identity == identity;
  }

  /** A raw host stands in the table under its identity. */
  lemma HostInTable(h: Hasher, cfg: Config, p: CompiledPolicy, k: string)
    requires TablesOf(h, cfg, p) && k in cfg.hosts
    ensures var host := CompileHost(k, cfg.hosts[k], p.profiles.Keys);
            host.Success? && host.value.identity in p.hostsByIdentity
            && p.hostsByIdentity[host.value.identity] == host.value
  {
    hide CompileProfile, CompileHost;
    assert k in p.hostsByName;
  }

  lemma KnownByTables(h: Hasher, cfg: Config, p: CompiledPolicy, identity: string)
    requires TablesOf(h, cfg, p)
    ensures identity in p.hostsByIdentity <==> exists k :: k in cfg.hosts && Trim(cfg.hosts[k].identity) == identity
  {
    hide TablesOf, CompileHost, Trim;
    if identity in p.hostsByIdentity {
      var k := HostBehind(h, cfg, p, identity);
      HostMeaning(k, cfg.hosts[k], p.profiles.Keys);
    }
    if k :| k in cfg.hosts && Trim(cfg.hosts[k].identity) == identity {
      HostInTable(h, cfg, p, k);
      HostMeaning(k, cfg.hosts[k], p.profiles.Keys);
    }
  }

  lemma GrantedByTables(h: Hasher, cfg: Config, p: CompiledPolicy, identity: string, profileName: string)
    requires TablesOf(h, cfg, p)
    ensures identity in p.hostsByIdentity && profileName in p.hostsByIdentity[identity].profiles
            <==> Grants(cfg, identity, profileName)
    ensures identity in p.hostsByIdentity && profileName in p.hostsByIdentity[identity].profiles
            ==> profileName in p.profiles && Trim(profileName) == profileName
  {
    hide TablesOf, CompileHost, Trim;
    if identity in p.hostsByIdentity && profileName in p.hostsByIdentity[identity].profiles {
      var k := HostBehind(h, cfg, p, identity);
      HostMeaning(k, cfg.hosts[k], p.profiles.Keys);
      var r :| r in cfg.hosts[k].profiles && Trim(r) == profileName;
      TrimIdempotent(r);
      assert Grants(cfg, identity, profileName);
    }
    if Grants(cfg, identity, profileName) {
      var k, r :| k in cfg.hosts && Trim(cfg.hosts[k].identity) == identity
                  && r in cfg.hosts[k].profiles && Trim(r) == profileName;
      HostInTable(h, cfg, p, k);
      HostMeaning(k, cfg.hosts[k], p.profiles.Keys);
    }
  }

  /**
   Compilation preserves meaning: the compiled tables allow exactly the requests that the
   configuration grants, and the profile handed back is the one asked for, by name and by set
   of names.
   */
  lemma AuthorizeMeansConfig(h: Hasher, cfg: Config, identity: string, profileName: string, csr: Csr)
    requires CompilePolicy(h, cfg).Success?
    ensures var a := Authorize(CompilePolicy(h, cfg).value, identity, profileName, Some(csr));
            && (a.Allowed? <==> Grants(cfg, identity, profileName) && NamesAgree(cfg, profileName, csr))
            && (a.Allowed? ==>
                  && a.profile.name == profileName
                  && a.profile.hash == h.ofProfile(a.profile.HashInput())
                  && Elements(a.profile.dnsNames) == Denoted(cfg.profiles[profileName].dnsNames))
  {
    hide CompilePolicy, CompileProfile, CompileHost, CanonicalList, Canonical, Less, Indexed, Grants, Trim;
    var p := CompilePolicy(h, cfg).value;
    CompileGivesTables(h, cfg);
    GrantedByTables(h, cfg, p, identity, profileName);
    if Grants(cfg, identity, profileName) {
      var raw := cfg.profiles[profileName];
      CompiledProfileFields(h, profileName, raw);
      CanonicalListIsNormalForm(raw.dnsNames);
      CanonicalListIsNormalForm(csr.dnsNames);
      if AllValid(csr.dnsNames) {
        SameListSameSet(csr.dnsNames, raw.dnsNames);
      }
    }
  }

  /** A request without a certificate request is refused for that. */
  lemma NoCsrRefused(p: CompiledPolicy, identity: string, profileName: string)
    ensures Authorize(p, identity, profileName, None) == Denied(None, InvalidCsr)
  {
  }

  /**
   Why a request is refused, in terms of the configuration. The unknown-profile error is never
   among the reasons: a host can only refer to a profile that was compiled.
   */
  lemma RefusalMeansConfig(h: Hasher, cfg: Config, identity: string, profileName: string, csr: Csr)
    requires CompilePolicy(h, cfg).Success?
    ensures var a := Authorize(CompilePolicy(h, cfg).value, identity, profileName, Some(csr));
            a.Denied? ==>
              && a.error != UnknownProfile
              && (a.error == UnknownIdentity
                  <==> forall k :: k in cfg.hosts ==> Trim(cfg.hosts[k].identity) != identity)
              && (a.error in {InvalidCsr, NamesMismatch} <==> Grants(cfg, identity, profileName))
              && (a.error == InvalidCsr <==> Grants(cfg, identity, profileName) && !AllValid(csr.dnsNames))
              && (a.looked.Some? <==> Grants(cfg, identity, profileName))
  {
    hide CompilePolicy, CompileProfile, CompileHost, CanonicalList, Canonical, Less, Indexed, Grants, Trim;
    var p := CompilePolicy(h, cfg).value;
    CompileGivesTables(h, cfg);
    GrantedByTables(h, cfg, p, identity, profileName);
    CanonicalListIsNormalForm(csr.dnsNames);
    KnownByTables(h, cfg, p, identity);
  }
}
