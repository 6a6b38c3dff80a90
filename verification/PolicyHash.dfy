/**
 What the policy hash pins down. Equal hashes mean equal decisions, except where two profile
 keys of one policy differ only by surrounding white space: `Compile` files a profile under its
 raw key, but hashes it under its trimmed name.
 */
module PolicyHash {
  import opened Wrappers
  import opened Text
  import opened DnsName
  import opened PolicyTypes
  import opened PolicyCompile
  import opened PolicyAuthorize

  ghost predicate Agree(p1: CompiledPolicy, p2: CompiledPolicy) {
    forall identity, profileName, csr ::
      Authorize(p1, identity, profileName, csr) == Authorize(p2, identity, profileName, csr)
  }

  /** The two key sets, in order, trim to the same names; otherwise no hashes can be equal. */
  ghost predicate TrimAlike(keys1: set<string>, keys2: set<string>) {
    var l1, l2 := Listing(keys1), Listing(keys2);
    |l1| == |l2| && forall i :: 0 <= i < |l1| ==> Trim(l1[i]) == Trim(l2[i])
  }

  /** A key without surrounding space that both sets contain stands at the same place in both. */
  ghost predicate SamePlaces(keys1: set<string>, keys2: set<string>) {
    var l1, l2 := Listing(keys1), Listing(keys2);
    forall i, j :: 0 <= i < |l1| && 0 <= j < |l2| && l1[i] == l2[j] && Trim(l1[i]) == l1[i] ==> i == j
  }

  /** A key set as a policy that compiles must have it. */
  ghost predicate Usable(keys: set<string>) {
    keys != {} && forall k :: k in keys ==> Trim(k) != ""
  }

  /******* From equal hashes to equal tables *******/

  lemma {:induction false} ProfileRecordAt(profiles: map<string, CompiledProfile>, keys: seq<string>, n: nat)
    requires n <= |keys| && forall k :: k in keys ==> k in profiles
    ensures |ProfileRecords(profiles, keys, n)| == n
    ensures forall i :: 0 <= i < n ==>
              ProfileRecords(profiles, keys, n)[i] == ProfileHashRecord(profiles[keys[i]].name, profiles[keys[i]].hash)
  {
    if n > 0 { ProfileRecordAt(profiles, keys, n - 1); }
  }

  lemma {:induction false} HostRecordAt(hosts: map<string, CompiledHost>, keys: seq<string>, n: nat)
    requires n <= |keys| && forall k :: k in keys ==> k in hosts
    ensures |HostRecords(hosts, keys, n)| == n
    ensures forall i :: 0 <= i < n ==> HostRecords(hosts, keys, n)[i] == HostRecord(hosts[keys[i]])
  {
    hide Listing;
    if n > 0 { HostRecordAt(hosts, keys, n - 1); }
  }

  lemma HostRecordInjective(a: CompiledHost, b: CompiledHost)
    requires HostRecord(a) == HostRecord(b)
    ensures a == b
  {
    hide Less, Sort;
    assert a.profiles == Elements(Listing(a.profiles)) == Elements(Listing(b.profiles)) == b.profiles;
  }

  lemma HostKey(byName: map<string, CompiledHost>, byIdentity: map<string, CompiledHost>, identity: string)
    returns (k: string)
    requires Indexed(byName, byIdentity) && identity in byIdentity
    ensures k in byName && byName[k] == byIdentity[identity] && byName[k].identity == identity
  {
    k :| k in byName && byName[k] == byIdentity[identity] && byName[k].identity == identity;
  }

  lemma HostIndexed(byName: map<string, CompiledHost>, byIdentity: map<string, CompiledHost>, k: string)
    requires Indexed(byName, byIdentity) && k in byName
    ensures byName[k].identity in byIdentity && byIdentity[byName[k].identity] == byName[k]
  {
  }

  lemma HostTableFollows(p1: CompiledPolicy, p2: CompiledPolicy, identity: string)
    requires Indexed(p1.hostsByName, p1.hostsByIdentity) && Indexed(p2.hostsByName, p2.hostsByIdentity)
    requires PolicyInput(p1.version, p1.profiles, p1.hostsByName)
             == PolicyInput(p2.version, p2.profiles, p2.hostsByName)
    requires identity in p1.hostsByIdentity
    ensures identity in p2.hostsByIdentity && p2.hostsByIdentity[identity] == p1.hostsByIdentity[identity]
  {
    hide Less, Listing, ProfileRecords, HostRecords, HostRecord, Indexed;
    KeysListed(p1.hostsByName);
    KeysListed(p2.hostsByName);
    var l1, l2 := Listing(p1.hostsByName.Keys), Listing(p2.hostsByName.Keys);
    HostRecordAt(p1.hostsByName, l1, |l1|);
    HostRecordAt(p2.hostsByName, l2, |l2|);
    var k := HostKey(p1.hostsByName, p1.hostsByIdentity, identity);
    assert k in l1;
    var i :| 0 <= i < |l1| && l1[i] == k;
    assert l2[i] in l2;
    assert HostRecords(p1.hostsByName, l1, |l1|)[i] == HostRecords(p2.hostsByName, l2, |l2|)[i];
    HostRecordInjective(p1.hostsByName[l1[i]], p2.hostsByName[l2[i]]);
    HostIndexed(p2.hostsByName, p2.hostsByIdentity, l2[i]);
  }

  /** Equal hash inputs: the key sets trim alike, and the profile records agree place by place. */
  lemma ProfileTableFollows(p1: CompiledPolicy, p2: CompiledPolicy)
    requires (forall k :: k in p1.profiles ==> p1.profiles[k].name == Trim(k))
    requires (forall k :: k in p2.profiles ==> p2.profiles[k].name == Trim(k))
    requires PolicyInput(p1.version, p1.profiles, p1.hostsByName)
             == PolicyInput(p2.version, p2.profiles, p2.hostsByName)
    ensures TrimAlike(p1.profiles.Keys, p2.profiles.Keys)
    ensures var l1, l2 := Listing(p1.profiles.Keys), Listing(p2.profiles.Keys);
            && (forall i :: 0 <= i < |l1| ==> l1[i] in p1.profiles)
            && (forall i :: 0 <= i < |l2| ==> l2[i] in p2.profiles)
            && forall i :: 0 <= i < |l1| ==> p1.profiles[l1[i]].hash == p2.profiles[l2[i]].hash
  {
    hide Less, Listing, ProfileRecords, HostRecords, Trim;
    KeysListed(p1.profiles);
    KeysListed(p2.profiles);
    var l1, l2 := Listing(p1.profiles.Keys), Listing(p2.profiles.Keys);
    ProfileRecordAt(p1.profiles, l1, |l1|);
    ProfileRecordAt(p2.profiles, l2, |l2|);
    var r1, r2 := ProfileRecords(p1.profiles, l1, |l1|), ProfileRecords(p2.profiles, l2, |l2|);
    assert r1 == r2 && |l1| == |l2|;
    forall i | 0 <= i < |l1|
      ensures Trim(l1[i]) == Trim(l2[i]) && l1[i] in p1.profiles && l2[i] in p2.profiles
      ensures p1.profiles[l1[i]].hash == p2.profiles[l2[i]].hash
    {
      var k1, k2 := l1[i], l2[i];
      assert k1 in l1 && k2 in l2;
      assert r1[i] == ProfileHashRecord(p1.profiles[k1].name, p1.profiles[k1].hash);
      assert r2[i] == ProfileHashRecord(p2.profiles[k2].name, p2.profiles[k2].hash);
    }
  }

  /** What `AgreeOn` and the counterexamples need of a compiled policy. */
  ghost predicate Compiled(h: Hasher, cfg: Config) {
    CompilePolicy(h, cfg).Success?
  }

  lemma CompiledFacts(h: Hasher, cfg: Config)
    requires Compiled(h, cfg)
    ensures var p := CompilePolicy(h, cfg).value;
            && TablesOf(h, cfg, p)
            && p.hash == h.ofPolicy(PolicyInput(p.version, p.profiles, p.hostsByName))
            && (forall k :: k in p.profiles ==>
                  p.profiles[k].name == Trim(k) && p.profiles[k].name != ""
                  && p.profiles[k].hash == h.ofProfile(p.profiles[k].HashInput()))
  {
    hide CompileProfile, CompileHost, CompileProfiles, CompileHosts, PolicyInput, Less, Listing, Trim, Indexed;
    CompileGivesTables(h, cfg);
    var p := CompilePolicy(h, cfg).value;
    forall k | k in p.profiles
      ensures p.profiles[k].name == Trim(k) && p.profiles[k].name != ""
              && p.profiles[k].hash == h.ofProfile(p.profiles[k].HashInput())
    {
      CompiledProfileFields(h, k, cfg.profiles[k]);
    }
  }

  lemma AgreeOn(h: Hasher, c1: Config, c2: Config, identity: string, profileName: string, csr: Option<Csr>)
    requires h.CollisionFree() && Compiled(h, c1) && Compiled(h, c2)
    requires CompilePolicy(h, c1).value.hash == CompilePolicy(h, c2).value.hash
    requires SamePlaces(c1.profiles.Keys, c2.profiles.Keys)
    ensures Authorize(CompilePolicy(h, c1).value, identity, profileName, csr)
            == Authorize(CompilePolicy(h, c2).value, identity, profileName, csr)
  {
    hide CompilePolicy, CompileProfile, CompileHost, PolicyInput, Less, Listing, Trim, Indexed, CanonicalList, Grants;
    var p1, p2 := CompilePolicy(h, c1).value, CompilePolicy(h, c2).value;
    CompiledFacts(h, c1);
    CompiledFacts(h, c2);
    assert PolicyInput(p1.version, p1.profiles, p1.hostsByName) == PolicyInput(p2.version, p2.profiles, p2.hostsByName);
    if identity in p1.hostsByIdentity { HostTableFollows(p1, p2, identity); }
    if identity in p2.hostsByIdentity { HostTableFollows(p2, p1, identity); }
    if identity in p1.hostsByIdentity && profileName in p1.hostsByIdentity[identity].profiles {
      GrantedByTables(h, c1, p1, identity, profileName);
      GrantedByTables(h, c2, p2, identity, profileName);
      SameProfile(h, p1, p2, profileName);
    }
  }

  lemma SameProfile(h: Hasher, p1: CompiledPolicy, p2: CompiledPolicy, name: string)
    requires h.CollisionFree()
    requires forall k :: k in p1.profiles ==>
               p1.profiles[k].name == Trim(k) && p1.profiles[k].hash == h.ofProfile(p1.profiles[k].HashInput())
    requires forall k :: k in p2.profiles ==>
               p2.profiles[k].name == Trim(k) && p2.profiles[k].hash == h.ofProfile(p2.profiles[k].HashInput())
    requires PolicyInput(p1.version, p1.profiles, p1.hostsByName)
             == PolicyInput(p2.version, p2.profiles, p2.hostsByName)
    requires SamePlaces(p1.profiles.Keys, p2.profiles.Keys)
    requires name in p1.profiles && name in p2.profiles && Trim(name) == name
    ensures p1.profiles[name] == p2.profiles[name]
  {
    hide PolicyInput, Less, Trim;
    ProfileTableFollows(p1, p2);
    KeysListed(p1.profiles);
    KeysListed(p2.profiles);
    var l1, l2 := Listing(p1.profiles.Keys), Listing(p2.profiles.Keys);
    assert name in l1 && name in l2;
    assert forall i :: 0 <= i < |l1| ==> p1.profiles[l1[i]].hash == p2.profiles[l2[i]].hash;
    var i :| 0 <= i < |l1| && l1[i] == name;
    var j :| 0 <= j < |l2| && l2[j] == name;
    assert i == j;
    assert p1.profiles[l1[i]].hash == p2.profiles[l2[i]].hash;
    assert h.ofProfile(p1.profiles[name].HashInput()) == h.ofProfile(p2.profiles[name].HashInput());
    assert p1.profiles[name].HashInput() == p2.profiles[name].HashInput();
  }

  /******* Where it fails: two policies with one hash *******/

  const EXAMPLE_NAME := "a.b"

  function ExampleProfile(renewBefore: int): RawProfile {
    RawProfile("multi_san", [EXAMPLE_NAME], Acme("dns-01", ""), renewBefore)
  }

  lemma ExampleNames()
    ensures CanonicalList([EXAMPLE_NAME]) == Success([EXAMPLE_NAME])
    ensures !IsValidWildcard(EXAMPLE_NAME)
  {
    assert PlainLabel("a") && PlainLabel("b");
    var labels := ["a", "b"];
    assert Join(labels) == "a" + "." + Join(labels[1..]);
    assert Join(labels) == EXAMPLE_NAME;
    assert HostLabels(labels);
    assert IsHostName(EXAMPLE_NAME);
    DnsNameFoldsToItself(EXAMPLE_NAME);
    CanonicalAccepts(EXAMPLE_NAME);
    var names := [EXAMPLE_NAME];
    assert names[..0] == [];
    assert names[..|names| - 1] == [];
    assert Collect([]) == Success([]);
    assert Canonical(names[0]) == Success(EXAMPLE_NAME);
    assert [] + [EXAMPLE_NAME] == names;
    assert Collect(names) == Success(names);
    assert Sort(names) == names;
  }

  lemma ExampleCompiles(h: Hasher, key: string, renewBefore: int)
    requires Trim(key) != "" && renewBefore > 0
    ensures var acme := Acme("dns-01", "");
            var input := ProfileHashInput("multi_san", [EXAMPLE_NAME], acme, renewBefore);
            CompileProfile(h, key, ExampleProfile(renewBefore))
            == Success(CompiledProfile(Trim(key), "multi_san", [EXAMPLE_NAME], acme, renewBefore, h.ofProfile(input)))
  {
    hide CanonicalList, IsValidWildcard;
    ExampleNames();
    TrimIsTrimmed("multi_san");
    TrimIsTrimmed("dns-01");
    TrimIsTrimmed("");
    FirstNameNone([EXAMPLE_NAME], true);
  }

  /** Two configurations over the given keys, told apart only by the renewal time at place `i`. */
  ghost function ExampleConfig(keys: set<string>, i: nat, name: string): Config {
    var l := Listing(keys);
    Config(CURRENT_VERSION,
           map k | k in keys :: ExampleProfile(if i < |l| && l[i] == k then 1 else 2),
           map["h" := RawHost("h", [name])])
  }

  lemma {:induction false} ExampleProfilesCompile(
      h: Hasher, keys: set<string>, i: nat, name: string, list: seq<string>, n: nat)
    requires Usable(keys) && n <= |list| && forall k :: k in list ==> k in keys
    ensures CompileProfiles(h, ExampleConfig(keys, i, name).profiles, list, n).Success?
  {
    hide CompileProfile, Trim, Listing;
    if n > 0 {
      ExampleProfilesCompile(h, keys, i, name, list, n - 1);
      var raw := ExampleConfig(keys, i, name).profiles[list[n - 1]];
      assert list[n - 1] in list;
      ExampleCompiles(h, list[n - 1], raw.renewBefore);
    }
  }

  lemma ListingOfOne(x: string)
    ensures Listing({x}) == [x]
  {
    hide Less;
    assert Elements([x]) == {x};
    SortedListingUnique(Listing({x}), [x]);
  }

  lemma ExampleHostCompiles(name: string, known: set<string>)
    requires name in known && name != "" && Trim(name) == name
    ensures CompileHost("h", RawHost("h", [name]), known) == Success(CompiledHost("h", "h", {name}))
  {
    hide TrimLeft, TrimRight;
    TrimIsTrimmed("h");
    var refs := [name];
    assert refs[..|refs| - 1] == [];
    assert AllowedProfiles("h", [], known) == Success({});
    assert {} + {name} == {name};
    assert AllowedProfiles("h", refs, known) == Success({name});
  }

  lemma ExampleHostsCompile(name: string, known: set<string>)
    requires name in known && name != "" && Trim(name) == name
    ensures Listing(map["h" := RawHost("h", [name])].Keys) == ["h"]
    ensures var host := map["h" := CompiledHost("h", "h", {name})];
            CompileHosts(map["h" := RawHost("h", [name])], ["h"], known, 1) == Success(Hosts(host, host))
  {
    hide CompileHost, Trim, Listing;
    var raw := map["h" := RawHost("h", [name])];
    ListingOfOne("h");
    assert raw.Keys == {"h"};
    ExampleHostCompiles(name, known);
    assert CompileHosts(raw, ["h"], known, 0) == Success(Hosts(map[], map[]));
  }

  lemma ExamplePolicy(h: Hasher, keys: set<string>, i: nat, name: string)
    requires Usable(keys) && name in keys && Trim(name) == name
    ensures Compiled(h, ExampleConfig(keys, i, name))
    ensures var p := CompilePolicy(h, ExampleConfig(keys, i, name)).value;
            p.hostsByName == map["h" := CompiledHost("h", "h", {name})] && p.version == CURRENT_VERSION
            && p.hostsByIdentity == map["h" := CompiledHost("h", "h", {name})]
  {
    hide Less, Listing, CompileProfiles, CompileHosts, PolicyInput, Trim, CompileProfile;
    var cfg := ExampleConfig(keys, i, name);
    assert cfg.profiles.Keys == keys;
    KeysListed(cfg.profiles);
    KeysListed(cfg.hosts);
    var list := Listing(keys);
    ExampleProfilesCompile(h, keys, i, name, list, |list|);
    CompileProfilesTable(h, cfg.profiles, list, |list|);
    assert list[..|list|] == list;
    var profiles := CompileProfiles(h, cfg.profiles, list, |list|).value;
    assert name in cfg.profiles && name in profiles && "h" in cfg.hosts;
    ExampleHostsCompile(name, profiles.Keys);
    assert cfg.hosts == map["h" := RawHost("h", [name])];
  }

  lemma ExampleProfileAt(h: Hasher, keys: set<string>, i: nat, name: string, k: string)
    requires Usable(keys) && name in keys && Trim(name) == name && k in keys
    requires Compiled(h, ExampleConfig(keys, i, name))
    ensures var p := CompilePolicy(h, ExampleConfig(keys, i, name)).value;
            var l := Listing(keys);
            var r := if i < |l| && l[i] == k then 1 else 2;
            && p.profiles.Keys == keys
            && p.profiles[k] == CompiledProfile(Trim(k), "multi_san", [EXAMPLE_NAME], Acme("dns-01", ""), r,
                 h.ofProfile(ProfileHashInput("multi_san", [EXAMPLE_NAME], Acme("dns-01", ""), r)))
  {
    hide CompilePolicy, CompileProfile, CompileHost, Trim, Listing, Indexed;
    var cfg := ExampleConfig(keys, i, name);
    CompileGivesTables(h, cfg);
    ExampleCompiles(h, k, cfg.profiles[k].renewBefore);
  }

  /** The profile records of an example, place by place. */
  lemma ExampleRecords(h: Hasher, keys: set<string>, i: nat, name: string)
    requires Usable(keys) && name in keys && Trim(name) == name && Compiled(h, ExampleConfig(keys, i, name))
    ensures var p, l := CompilePolicy(h, ExampleConfig(keys, i, name)).value, Listing(keys);
            && p.profiles.Keys == keys
            && (forall k :: k in l ==> k in p.profiles)
            && |ProfileRecords(p.profiles, l, |l|)| == |l|
            && forall m :: 0 <= m < |l| ==>
                 ProfileRecords(p.profiles, l, |l|)[m] == ProfileHashRecord(Trim(l[m]),
                   h.ofProfile(ProfileHashInput("multi_san", [EXAMPLE_NAME], Acme("dns-01", ""),
                                                if m == i then 1 else 2)))
  {
    hide CompilePolicy, ProfileRecords, Trim, Listing, Usable, ExampleConfig;
    var p, l := CompilePolicy(h, ExampleConfig(keys, i, name)).value, Listing(keys);
    ExampleProfileAt(h, keys, i, name, name);
    KeysListed(p.profiles);
    ProfileRecordAt(p.profiles, l, |l|);
    forall m | 0 <= m < |l|
      ensures ProfileRecords(p.profiles, l, |l|)[m] == ProfileHashRecord(Trim(l[m]),
                h.ofProfile(ProfileHashInput("multi_san", [EXAMPLE_NAME], Acme("dns-01", ""), if m == i then 1 else 2)))
    {
      assert l[m] in l;
      ExampleProfileAt(h, keys, i, name, l[m]);
      ListingPlaces(keys, i, m);
    }
  }

  lemma ExamplesShareHash(h: Hasher, keys1: set<string>, keys2: set<string>, i: nat, name: string)
    requires Usable(keys1) && Usable(keys2) && name in keys1 && name in keys2 && Trim(name) == name
    requires TrimAlike(keys1, keys2)
    requires Compiled(h, ExampleConfig(keys1, i, name)) && Compiled(h, ExampleConfig(keys2, i, name))
    ensures CompilePolicy(h, ExampleConfig(keys1, i, name)).value.hash
            == CompilePolicy(h, ExampleConfig(keys2, i, name)).value.hash
  {
    hide CompilePolicy, ProfileRecords, HostRecords, Trim, Listing, Usable, TablesOf, ExampleConfig;
    var p1 := CompilePolicy(h, ExampleConfig(keys1, i, name)).value;
    var p2 := CompilePolicy(h, ExampleConfig(keys2, i, name)).value;
    CompiledFacts(h, ExampleConfig(keys1, i, name));
    CompiledFacts(h, ExampleConfig(keys2, i, name));
    ExamplePolicy(h, keys1, i, name);
    ExamplePolicy(h, keys2, i, name);
    ExampleRecords(h, keys1, i, name);
    ExampleRecords(h, keys2, i, name);
    var l1, l2 := Listing(keys1), Listing(keys2);
    assert ProfileRecords(p1.profiles, l1, |l1|) == ProfileRecords(p2.profiles, l2, |l2|);
  }

  lemma ListingPlaces(keys: set<string>, i: nat, m: nat)
    requires m < |Listing(keys)|
    ensures i < |Listing(keys)| && Listing(keys)[i] == Listing(keys)[m] <==> i == m
  {
    hide Less, Sort;
    if i < |Listing(keys)| && Listing(keys)[i] == Listing(keys)[m] {
      StrictlySortedIsDistinct(Listing(keys), i, m);
    }
  }

  /**
   A shared key, without surrounding space, at two different places: two policies with one hash
   that decide differently.
   */
  lemma DifferentPlacesDisagree(h: Hasher, keys1: set<string>, keys2: set<string>, i: nat, j: nat)
    requires Usable(keys1) && Usable(keys2) && TrimAlike(keys1, keys2)
    requires i < |Listing(keys1)| && j < |Listing(keys2)| && i != j
    requires Listing(keys1)[i] == Listing(keys2)[j] == Trim(Listing(keys1)[i])
    ensures var name := Listing(keys1)[i];
            var c1, c2 := ExampleConfig(keys1, i, name), ExampleConfig(keys2, i, name);
            && c1.profiles.Keys == keys1 && c2.profiles.Keys == keys2
            && Compiled(h, c1) && Compiled(h, c2)
            && CompilePolicy(h, c1).value.hash == CompilePolicy(h, c2).value.hash
            && !Agree(CompilePolicy(h, c1).value, CompilePolicy(h, c2).value)
  {
    hide CompilePolicy, CompileProfile, Trim, Listing, Less, TrimAlike, CanonicalList, Usable;
    var name := Listing(keys1)[i];
    InListing(keys1, name);
    InListing(keys2, name);
    ExamplePolicy(h, keys1, i, name);
    ExamplePolicy(h, keys2, i, name);
    ExamplesShareHash(h, keys1, keys2, i, name);
    ExampleProfileAt(h, keys1, i, name, name);
    ExampleProfileAt(h, keys2, i, name, name);
    ListingPlaces(keys2, i, j);
    ExampleNames();
    var p1 := CompilePolicy(h, ExampleConfig(keys1, i, name)).value;
    var p2 := CompilePolicy(h, ExampleConfig(keys2, i, name)).value;
    var csr := Some(Csr("", [EXAMPLE_NAME]));
    assert Authorize(p1, "h", name, csr) == Allowed(p1.profiles[name]);
    assert Authorize(p2, "h", name, csr) == Allowed(p2.profiles[name]);
    assert p1.profiles[name].renewBefore == 1 && p2.profiles[name].renewBefore == 2;
  }

  lemma InListing(keys: set<string>, k: string)
    ensures k in Listing(keys) <==> k in keys
  {
    hide Less, Sort;
    assert k in Listing(keys) <==> k in Elements(Listing(keys));
  }

  /******* The exact condition *******/

  ghost predicate HashDecides(h: Hasher, keys1: set<string>, keys2: set<string>) {
    forall c1: Config, c2: Config ::
      && c1.profiles.Keys == keys1 && c2.profiles.Keys == keys2
      && Compiled(h, c1) && Compiled(h, c2)
      && CompilePolicy(h, c1).value.hash == CompilePolicy(h, c2).value.hash
      ==> Agree(CompilePolicy(h, c1).value, CompilePolicy(h, c2).value)
  }

  /**
   For two given sets of profile keys, equal policy hashes mean equal decisions on every
   request, names, ACME settings and renewal times included, exactly when the two sets do not
   trim alike or every key without surrounding space that they share has the same place in both.
   */
  lemma HashDecidesExactly(h: Hasher, keys1: set<string>, keys2: set<string>)
    requires h.CollisionFree() && Usable(keys1) && Usable(keys2)
    ensures HashDecides(h, keys1, keys2) <==> (TrimAlike(keys1, keys2) ==> SamePlaces(keys1, keys2))
  {
    hide CompilePolicy, Trim, Listing, Usable, Authorize;
    if TrimAlike(keys1, keys2) ==> SamePlaces(keys1, keys2) {
      forall c1: Config, c2: Config |
        && c1.profiles.Keys == keys1 && c2.profiles.Keys == keys2
        && Compiled(h, c1) && Compiled(h, c2)
        && CompilePolicy(h, c1).value.hash == CompilePolicy(h, c2).value.hash
        ensures Agree(CompilePolicy(h, c1).value, CompilePolicy(h, c2).value)
      {
        EqualHashesTrimAlike(h, c1, c2);
        forall identity, profileName, csr
          ensures Authorize(CompilePolicy(h, c1).value, identity, profileName, csr)
                  == Authorize(CompilePolicy(h, c2).value, identity, profileName, csr)
        {
          AgreeOn(h, c1, c2, identity, profileName, csr);
        }
      }
    } else {
      var l1, l2 := Listing(keys1), Listing(keys2);
      var i, j :| 0 <= i < |l1| && 0 <= j < |l2| && l1[i] == l2[j] && Trim(l1[i]) == l1[i] && i != j;
      DifferentPlacesDisagree(h, keys1, keys2, i, j);
      var c1, c2 := ExampleConfig(keys1, i, l1[i]), ExampleConfig(keys2, i, l1[i]);
      assert c1.profiles.Keys == keys1 && c2.profiles.Keys == keys2;
    }
  }

  lemma EqualHashesTrimAlike(h: Hasher, c1: Config, c2: Config)
    requires h.CollisionFree() && Compiled(h, c1) && Compiled(h, c2)
    requires CompilePolicy(h, c1).value.hash == CompilePolicy(h, c2).value.hash
    ensures TrimAlike(c1.profiles.Keys, c2.profiles.Keys)
  {
    hide CompilePolicy, CompileProfile, CompileHost, PolicyInput, Trim, Listing, Indexed;
    CompiledFacts(h, c1);
    CompiledFacts(h, c2);
    ProfileTableFollows(CompilePolicy(h, c1).value, CompilePolicy(h, c2).value);
  }

  /**
   In particular, a policy in which no padded key shadows its own trimmed form decides like
   every other policy with the same hash.
   */
  lemma UnshadowedKeysSuffice(h: Hasher, c1: Config, c2: Config)
    requires h.CollisionFree() && Compiled(h, c1) && Compiled(h, c2)
    requires CompilePolicy(h, c1).value.hash == CompilePolicy(h, c2).value.hash
    requires forall k :: k in c1.profiles && Trim(k) in c1.profiles ==> Trim(k) == k
    ensures Agree(CompilePolicy(h, c1).value, CompilePolicy(h, c2).value)
  {
    hide CompilePolicy, Trim, Listing, Authorize;
    EqualHashesTrimAlike(h, c1, c2);
    var keys1, keys2 := c1.profiles.Keys, c2.profiles.Keys;
    var l1, l2 := Listing(keys1), Listing(keys2);
    forall i, j | 0 <= i < |l1| && 0 <= j < |l2| && l1[i] == l2[j] && Trim(l1[i]) == l1[i]
      ensures i == j
    {
      InListing(keys1, l1[i]);
      InListing(keys1, l1[j]);
      assert l1[i] in l1 && l1[j] in l1;
      assert Trim(l1[j]) == Trim(l2[j]) == l1[i];
      ListingPlaces(keys1, i, j);
    }
    forall identity, profileName, csr
      ensures Authorize(CompilePolicy(h, c1).value, identity, profileName, csr)
              == Authorize(CompilePolicy(h, c2).value, identity, profileName, csr)
    {
      AgreeOn(h, c1, c2, identity, profileName, csr);
    }
  }

  lemma PaddedTrims()
    ensures Trim("p") == "p" && Trim(" p") == "p" && Trim("p ") == "p"
  {
    TrimIsTrimmed("p");
    assert " p"[1..] == "p" && "p "[..1] == "p" && "p"[1..] == "";
    assert TrimLeft(" p") == TrimLeft("p") == "p";
    assert TrimLeft("p ") == "p " && TrimRight("p ") == TrimRight("p") == "p";
  }

  lemma PaddedListings()
    ensures Listing({" p", "p"}) == [" p", "p"] && Listing({"p", "p "}) == ["p", "p "]
  {
    hide Listing, Sort;
    var l1, l2 := [" p", "p"], ["p", "p "];
    assert "p"[1..] == "" && "p "[1..] == " ";
    assert Less(" p", "p") && Less("", " ") && Less("p", "p ");
    SortedPair(" p", "p");
    SortedPair("p", "p ");
  }

  lemma SortedPair(a: string, b: string)
    requires Less(a, b)
    ensures Listing({a, b}) == [a, b]
  {
    hide Less, Sort;
    assert Elements([a, b]) == {a, b};
    SortedListingUnique([a, b], Listing({a, b}));
  }

  /** The failing case in the flesh: keys " p" and "p" against keys "p" and "p ". */
  lemma PaddedKeysMislead(h: Hasher)
    requires h.CollisionFree()
    ensures !HashDecides(h, {" p", "p"}, {"p", "p "})
  {
    hide HashDecides, Trim, Listing;
    PaddedListings();
    PaddedTrims();
    HashDecidesExactly(h, {" p", "p"}, {"p", "p "});
  }
}
