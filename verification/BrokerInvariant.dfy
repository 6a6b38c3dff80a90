/** What holds in every state the broker can reach, and why each step keeps it. */
module BrokerInvariant {
  import opened Wrappers
  import opened Pki
  import opened CacheKey
  import opened DnsName
  import opened PolicyTypes
  import opened PolicyCompile
  import opened PolicyAuthorize
  import opened Broker
  import PolicyHash
  import RateLimit
  import Store

  /******* Statements *******/

  /** A certificate for the key behind this fingerprint and the names behind this profile hash. */
  ghost predicate Right(w: World, bundle: Bundle, hash: string, fp: string) {
    var c := w.decoder.cert(bundle.certPem);
    && c.Some?
    && c.value.publicKey in w.publicKeys && w.fingerprint(c.value.publicKey) == fp
    && exists input :: input in w.inputs && w.hasher.ofProfile(input) == hash
                       && CanonicalList(c.value.dnsNames) == Wrappers.Success(input.dnsNames)
  }

  ghost predicate RightFor(w: World, bundle: Bundle, key: CertificateCacheKey) {
    Right(w, bundle, key.profileHash, key.publicKeySha256)
  }

  /** A key as this broker makes them. */
  ghost predicate GoodKey(w: World, key: CertificateCacheKey) {
    && |key.profileHash| == DIGEST && |key.publicKeySha256| == DIGEST
    && key.issuerName == w.issuerName && key.issuerDirectory == w.issuerDirectory
    && key.issuerAccountKeyId == w.issuerAccountKeyId
  }

  ghost predicate GoodProfile(w: World, profile: CompiledProfile) {
    profile.HashInput() in w.inputs && profile.hash == w.hasher.ofProfile(profile.HashInput())
  }

  ghost predicate GoodLoaded(w: World, l: Loaded) {
    && CompilePolicy(w.hasher, l.cfg) == Wrappers.Success(l.compiled)
    && forall k :: k in l.compiled.profiles ==> GoodProfile(w, l.compiled.profiles[k])
  }

  /** How far a request has certainly come. */
  function Reached(stage: Stage): nat {
    match stage
    case Arrived => 0
    case Identified => 1
    case Parsed => 2
    case Permitted => 3
    case Fingerprinted => 4
    case Recorded => 5
    case Admitted => 6
    case Waiting(_) => 7
    case Answered(_) => 8
    case Logged(_) => 9
    case Closed(_, body) => if body.Some? then 9 else 0
  }

  predicate BeforeLimit(stage: Stage) {
    stage.Arrived? || stage.Identified? || stage.Parsed? || stage.Permitted? || stage.Fingerprinted? || stage.Recorded?
  }

  function IssuedOf(stage: Stage): Issued
    requires Reached(stage) >= 8
  {
    match stage
    case Answered(i) => i
    case Logged(i) => i
    case Closed(_, body) => body.value
  }

  ghost predicate InOrder(log: seq<Event>, first: Event, second: Event) {
    exists i, j :: 0 <= i < j < |log| && log[i] == first && log[j] == second
  }

  ghost predicate PolicyPart(w: World, r: Request) {
    && r.policy.Some? && r.profile.Some? && r.csr.Some?
    && GoodLoaded(w, r.policy.value)
    && PolicyAuthorize.Authorize(r.policy.value.compiled, r.identity, r.profileName, r.csr) == Allowed(r.profile.value)
  }

  ghost predicate LogPart(w: World, log: seq<Event>, rid: string, r: Request) {
    var n := Reached(r.stage);
    && (n >= 5 ==> EventOf(rid, r, CertificateAuthorized) in log)
    && (n >= 9 ==> InOrder(log, EventOf(rid, r, CertificateAuthorized), EventOf(rid, r, IssuedKind(IssuedOf(r.stage)))))
  }

  ghost predicate RequestOk(w: World, s: State, rid: string, r: Request) {
    var n := Reached(r.stage);
    && (n >= 2 ==> r.csr.Some? && r.csr.value.publicKey in w.publicKeys)
    && (n >= 3 ==> PolicyPart(w, r))
    && (n >= 4 ==> r.publicKeyFP == w.fingerprint(r.csr.value.publicKey))
    && (w.failClosed ==> LogPart(w, s.log, rid, r))
    && (n >= 6 ==> Admission(rid, RateLimit.Call(r.identity, r.profileName, r.admittedAt)) in s.admissions)
    && (r.stage.Waiting? ==>
          r.stage.flight < |s.flights| && s.flights[r.stage.flight].key.String() == KeyOf(w, r).String())
    && (n >= 8 ==> RightFor(w, IssuedOf(r.stage).bundle, KeyOf(w, r)))
  }

  /** What a flight was given when it started. */
  ghost predicate FlightMade(w: World, s: State, fl: Flight) {
    && GoodKey(w, fl.key)
    && GoodProfile(w, fl.profile) && fl.key.profileHash == fl.profile.hash
    && fl.csr.publicKey in w.publicKeys && fl.key.publicKeySha256 == w.fingerprint(fl.csr.publicKey)
    && CanonicalList(fl.csr.dnsNames) == Wrappers.Success(fl.profile.dnsNames)
    && Admission(fl.leader, RateLimit.Call(fl.key.identity, fl.key.profileName, fl.admittedAt)) in s.admissions
    && (w.failClosed ==>
          Event(fl.leader, CertificateAuthorized, fl.key.identity, fl.key.profileName,
                fl.key.profileHash, fl.key.publicKeySha256) in s.log)
  }

  ghost predicate FlightOk(w: World, s: State, f: nat)
    requires f < |s.flights|
  {
    var fl := s.flights[f];
    && FlightMade(w, s, fl)
    && (!fl.stage.Ended? ==> fl.key.String() in s.group && s.group[fl.key.String()] == f)
    && (fl.stage.Putting? ==> RightFor(w, fl.stage.bundle, fl.key))
    && (fl.stage.Returning? && fl.stage.outcome.Some? ==> RightFor(w, fl.stage.outcome.value.bundle, fl.key))
    && (fl.stage.Ended? && fl.stage.result.Some? ==> RightFor(w, fl.stage.result.value.bundle, fl.key))
  }

  ghost predicate RequestsOk(w: World, s: State) {
    forall rid :: rid in s.requests ==> RequestOk(w, s, rid, s.requests[rid])
  }

  ghost predicate FlightsOk(w: World, s: State) {
    forall f :: 0 <= f < |s.flights| ==> FlightOk(w, s, f)
  }

  ghost predicate GroupOk(s: State) {
    forall key :: key in s.group ==>
      s.group[key] < |s.flights| && s.flights[s.group[key]].key.String() == key && !s.flights[s.group[key]].stage.Ended?
  }

  ghost predicate StoreOk(w: World, s: State) {
    forall slot :: slot in s.store ==>
      && w.slot(s.store[slot].key) == slot && GoodKey(w, s.store[slot].key)
      && RightFor(w, s.store[slot].bundle, s.store[slot].key)
  }

  ghost predicate PolicyOk(w: World, s: State) {
    s.policy.Some? ==> GoodLoaded(w, s.policy.value)
  }

  /** Requests, flights, the group, the store and the policy are in order. */
  ghost predicate Sane(w: World, s: State) {
    RequestsOk(w, s) && FlightsOk(w, s) && GroupOk(s) && StoreOk(w, s) && PolicyOk(w, s)
  }

  /******* Facts about single values *******/

  lemma SameDigests(w: World, k: CertificateCacheKey, m: CertificateCacheKey)
    requires GoodKey(w, k) && GoodKey(w, m) && k.String() == m.String()
    ensures k.profileHash == m.profileHash && k.publicKeySha256 == m.publicKeySha256
  {
    SameStringSameDigests(k, m);
  }

  lemma PolicyPartGives(w: World, r: Request)
    requires PolicyPart(w, r)
    ensures r.policy.Some? && r.profile.Some? && r.csr.Some? && GoodLoaded(w, r.policy.value)
  {
    hide GoodLoaded, PolicyAuthorize.Authorize;
  }

  lemma PolicyPartKept(w: World, r: Request, q: Request)
    requires q.identity == r.identity && q.profileName == r.profileName && q.csr == r.csr
    requires q.policy == r.policy && q.profile == r.profile
    ensures PolicyPart(w, q) == PolicyPart(w, r)
  {
    hide GoodLoaded, PolicyAuthorize.Authorize;
  }

  lemma AllowedProfileGood(w: World, r: Request)
    requires PolicyPart(w, r)
    ensures GoodProfile(w, r.profile.value)
    ensures CanonicalList(r.csr.value.dnsNames) == Wrappers.Success(r.profile.value.dnsNames)
  {
    hide CompilePolicy, CanonicalList;
  }

  lemma RequestKeyGood(w: World, r: Request)
    requires w.Sound() && PolicyPart(w, r)
    requires r.csr.value.publicKey in w.publicKeys && r.publicKeyFP == w.fingerprint(r.csr.value.publicKey)
    ensures GoodKey(w, KeyOf(w, r))
  {
    hide CompilePolicy, CanonicalList, PolicyPart;
    PolicyPartGives(w, r);
    AllowedProfileGood(w, r);
  }

  lemma EchoIsRight(w: World, fl: Flight, bundle: Bundle)
    requires GoodProfile(w, fl.profile) && fl.key.profileHash == fl.profile.hash
    requires fl.csr.publicKey in w.publicKeys && fl.key.publicKeySha256 == w.fingerprint(fl.csr.publicKey)
    requires CanonicalList(fl.csr.dnsNames) == Wrappers.Success(fl.profile.dnsNames)
    requires Echoes(w, fl.csr, bundle)
    ensures RightFor(w, bundle, fl.key)
  {
    hide CanonicalList;
    var input := fl.profile.HashInput();
    assert input in w.inputs && w.hasher.ofProfile(input) == fl.key.profileHash;
  }

  lemma CompiledIsGood(w: World, cfg: Config)
    requires CompilePolicy(w.hasher, cfg).Success?
    requires forall k :: k in CompilePolicy(w.hasher, cfg).value.profiles ==>
               CompilePolicy(w.hasher, cfg).value.profiles[k].HashInput() in w.inputs
    ensures GoodLoaded(w, Loaded(cfg, CompilePolicy(w.hasher, cfg).value))
  {
    hide CompilePolicy;
    PolicyHash.CompiledFacts(w.hasher, cfg);
  }

  /******* Growth *******/

  /** Logs and admissions are only added to, and a flight's terms never change. */
  ghost predicate Grows(s: State, t: State) {
    && s.log <= t.log && s.admissions <= t.admissions && |s.flights| <= |t.flights|
    && forall f :: 0 <= f < |s.flights| ==> t.flights[f].(stage := s.flights[f].stage) == s.flights[f]
  }

  lemma InOrderGrows(log: seq<Event>, more: seq<Event>, first: Event, second: Event)
    requires log <= more && InOrder(log, first, second)
    ensures InOrder(more, first, second)
  {
    var i, j :| 0 <= i < j < |log| && log[i] == first && log[j] == second;
    assert more[i] == first && more[j] == second;
  }

  lemma RequestGrows(w: World, s: State, t: State, rid: string, r: Request)
    requires Grows(s, t) && RequestOk(w, s, rid, r)
    ensures RequestOk(w, t, rid, r)
  {
    hide PolicyPart, Right, CompilePolicy, InOrder;
    if w.failClosed && Reached(r.stage) >= 9 {
      InOrderGrows(s.log, t.log, EventOf(rid, r, CertificateAuthorized),
                   EventOf(rid, r, IssuedKind(IssuedOf(r.stage))));
    }
  }

  lemma MadeGrows(w: World, s: State, t: State, fl: Flight)
    requires Grows(s, t) && FlightMade(w, s, fl)
    ensures FlightMade(w, t, fl)
  {
  }

  /** A step that moves one request and touches no flight. */
  lemma RequestMoves(w: World, s: State, t: State, rid: string)
    requires Sane(w, s) && Grows(s, t) && t.flights == s.flights && t.group == s.group
    requires rid in t.requests && t.requests == s.requests[rid := t.requests[rid]]
    requires RequestOk(w, t, rid, t.requests[rid])
    requires t.store == s.store && t.policy == s.policy
    ensures Sane(w, t)
  {
    hide RequestOk, FlightMade, Right, GoodLoaded, Grows;
    forall x | x in t.requests ensures RequestOk(w, t, x, t.requests[x]) {
      if x != rid { RequestGrows(w, s, t, x, s.requests[x]); }
    }
    forall f | 0 <= f < |t.flights| ensures FlightOk(w, t, f) {
      assert FlightOk(w, s, f);
      MadeGrows(w, s, t, s.flights[f]);
    }
  }

  /** A step that moves one flight and touches no request; the flight stays in the group. */
  lemma FlightMoves(w: World, s: State, t: State, f: nat)
    requires Sane(w, s) && Grows(s, t) && t.requests == s.requests && t.group == s.group
    requires f < |s.flights| && |t.flights| == |s.flights| && t.flights == s.flights[f := t.flights[f]]
    requires FlightOk(w, t, f) && !t.flights[f].stage.Ended?
    requires StoreOk(w, t) && t.policy == s.policy
    ensures Sane(w, t)
  {
    hide RequestOk, FlightMade, Right, GoodLoaded;
    forall x | x in t.requests ensures RequestOk(w, t, x, t.requests[x]) {
      RequestGrows(w, s, t, x, s.requests[x]);
    }
    forall g | 0 <= g < |t.flights| ensures FlightOk(w, t, g) {
      assert FlightOk(w, s, g);
      MadeGrows(w, s, t, s.flights[g]);
    }
  }

  /******* The steps, one by one *******/

  /** A request that closes without a certificate has nothing more to keep. */
  lemma DenyKeeps(
      w: World, s: State, t: State, rid: string, r: Request, recording: Recording, kind: EventKind, status: int)
    requires Sane(w, s)
    requires t.requests == s.requests && t.flights == s.flights && t.group == s.group && t.store == s.store
    requires t.policy == s.policy && t.log == s.log && t.admissions == s.admissions
    ensures Sane(w, Deny(t, rid, r, recording, kind, status))
  {
    hide RequestsOk, FlightsOk, GroupOk, StoreOk, PolicyOk;
    RequestMoves(w, s, Deny(t, rid, r, recording, kind, status), rid);
  }

  lemma AuthenticateKeeps(w: World, s: State, rid: string, identity: Option<string>, recording: Recording)
    requires Sane(w, s) && rid in s.requests
    ensures Sane(w, AuthenticateNext(s, rid, identity, recording))
  {
    hide RequestsOk, FlightsOk, GroupOk, StoreOk, PolicyOk;
    if identity.None? {
      DenyKeeps(w, s, s, rid, s.requests[rid], recording, CertificateDenied, 401);
    } else {
      RequestMoves(w, s, AuthenticateNext(s, rid, identity, recording), rid);
    }
  }

  lemma ParseKeeps(w: World, s: State, rid: string, body: Body, recording: Recording)
    requires Sane(w, s) && rid in s.requests
    requires body.Wellformed? ==> body.csr.publicKey in w.publicKeys
    ensures Sane(w, ParseNext(s, rid, body, recording))
  {
    hide RequestsOk, FlightsOk, GroupOk, StoreOk, PolicyOk, CanonicalList, CertificateCacheKey.String, GoodLoaded;
    hide InOrder, Right, PolicyPart;
    RequestMoves(w, s, ParseNext(s, rid, body, recording), rid);
  }

  /** What a permitted request needs, and that a refused one needs nothing. */
  lemma PermittedOk(w: World, t: State, rid: string, q: Request)
    requires q.stage.Permitted? || (q.stage.Closed? && q.stage.body.None?)
    requires q.stage.Permitted? ==> PolicyPart(w, q) && q.csr.Some? && q.csr.value.publicKey in w.publicKeys
    ensures RequestOk(w, t, rid, q)
  {
    hide PolicyPart, Right, CertificateCacheKey.String;
  }

  lemma ParsedHasCsr(w: World, s: State, rid: string)
    requires At(s, rid, Parsed) && RequestOk(w, s, rid, s.requests[rid])
    ensures s.requests[rid].csr.Some? && s.requests[rid].csr.value.publicKey in w.publicKeys
  {
    hide PolicyPart, LogPart, Right, CertificateCacheKey.String;
  }

  lemma PermittedRequest(w: World, s: State, rid: string, recording: Recording)
    requires PolicyOk(w, s) && At(s, rid, Parsed) && RequestOk(w, s, rid, s.requests[rid])
    ensures var t := PermitNext(s, rid, recording);
            Grows(s, t) && RequestOk(w, t, rid, t.requests[rid])
  {
    hide *;
    IsAt(s, rid, Parsed);
    PermittedGrows(s, rid, recording);
    ParsedHasCsr(w, s, rid);
    PermitStages(s, rid, recording);
    var t := PermitNext(s, rid, recording);
    if t.requests[rid].stage.Permitted? {
      PermittedPolicy(w, s, rid, recording);
    }
    PermittedOk(w, t, rid, t.requests[rid]);
  }

  lemma IsAt(s: State, rid: string, stage: Stage)
    requires At(s, rid, stage)
    ensures rid in s.requests && s.requests[rid].stage == stage
  {
  }

  lemma PermittedGrows(s: State, rid: string, recording: Recording)
    requires rid in s.requests
    ensures Grows(s, PermitNext(s, rid, recording))
  {
    hide PolicyAuthorize.Authorize, EventOf, CertificateCacheKey.String;
  }

  lemma PermittedPolicy(w: World, s: State, rid: string, recording: Recording)
    requires PolicyOk(w, s) && At(s, rid, Parsed) && s.requests[rid].csr.Some?
    requires PermitNext(s, rid, recording).requests[rid].stage.Permitted?
    ensures PolicyPart(w, PermitNext(s, rid, recording).requests[rid])
  {
    hide GoodLoaded, PolicyAuthorize.Authorize, EventOf, Record;
  }

  /** A request is permitted, with the certificate request it came with, or refused. */
  lemma PermitStages(s: State, rid: string, recording: Recording)
    requires rid in s.requests
    ensures rid in PermitNext(s, rid, recording).requests
    ensures var q := PermitNext(s, rid, recording).requests[rid];
            && (q.stage.Permitted? || (q.stage.Closed? && q.stage.body.None?))
            && q.csr == s.requests[rid].csr
  {
    hide PolicyAuthorize.Authorize, EventOf, Record;
  }

  lemma PermitKeeps(w: World, s: State, rid: string, recording: Recording)
    requires Sane(w, s) && At(s, rid, Parsed)
    ensures Sane(w, PermitNext(s, rid, recording))
  {
    hide FlightsOk, GroupOk, StoreOk, RequestOk, Grows, PolicyOk, PolicyAuthorize.Authorize;
    PermittedRequest(w, s, rid, recording);
    RequestMoves(w, s, PermitNext(s, rid, recording), rid);
  }

  lemma FingerprintKeeps(w: World, s: State, rid: string, ok: bool, recording: Recording)
    requires Sane(w, s) && At(s, rid, Permitted)
    ensures Sane(w, FingerprintNext(w, s, rid, ok, recording))
  {
    hide FlightsOk, GroupOk, StoreOk, PolicyOk, GoodLoaded, PolicyAuthorize.Authorize;
    assert RequestOk(w, s, rid, s.requests[rid]);
    RequestMoves(w, s, FingerprintNext(w, s, rid, ok, recording), rid);
  }

  lemma RecordAuthorizedKeeps(w: World, s: State, rid: string, recording: Recording)
    requires Sane(w, s) && At(s, rid, Fingerprinted)
    ensures Sane(w, Barrier(w, s, rid, s.requests[rid], recording, CertificateAuthorized, Recorded))
  {
    hide FlightsOk, GroupOk, StoreOk, PolicyOk, PolicyPart, CanonicalList, CertificateCacheKey.String, GoodLoaded;
    hide InOrder, Right;
    var r := s.requests[rid];
    assert RequestOk(w, s, rid, r);
    var t := Barrier(w, s, rid, r, recording, CertificateAuthorized, Recorded);
    assert recording.Done? ==> t.log[|s.log|] == EventOf(rid, t.requests[rid], CertificateAuthorized);
    PolicyPartKept(w, r, t.requests[rid]);
    RequestMoves(w, s, t, rid);
  }

  lemma CheckedRequest(w: World, s: State, rid: string, recording: Recording)
    requires At(s, rid, Recorded) && RequestOk(w, s, rid, s.requests[rid])
    ensures var t := CheckRateNext(w, s, rid, recording);
            Grows(s, t) && RequestOk(w, t, rid, t.requests[rid])
  {
    hide PolicyPart, RateLimit.Allow, InOrder, Right, CertificateCacheKey.String;
    var t := CheckRateNext(w, s, rid, recording);
    PolicyPartKept(w, s.requests[rid], t.requests[rid]);
    assert t.admissions != s.admissions ==> t.admissions[|s.admissions|] in t.admissions;
  }

  lemma CheckRateKeeps(w: World, s: State, rid: string, recording: Recording)
    requires Sane(w, s) && At(s, rid, Recorded)
    ensures Sane(w, CheckRateNext(w, s, rid, recording))
  {
    hide FlightsOk, GroupOk, StoreOk, PolicyOk, RequestOk, Grows, RateLimit.Allow;
    CheckedRequest(w, s, rid, recording);
    RequestMoves(w, s, CheckRateNext(w, s, rid, recording), rid);
  }

  lemma JoinKeeps(w: World, s: State, rid: string)
    requires w.Sound() && Sane(w, s) && At(s, rid, Admitted)
    ensures Sane(w, JoinNext(w, s, rid))
  {
    hide PolicyPart, RequestOk, FlightMade, Right, World.Sound, GoodLoaded, CertificateCacheKey.String;
    var r, t := s.requests[rid], JoinNext(w, s, rid);
    var key := KeyOf(w, r);
    JoinedRequest(w, s, rid);
    if key.String() in s.group {
      RequestMoves(w, s, t, rid);
    } else {
      StartedFlight(w, s, rid);
      forall x | x in t.requests ensures RequestOk(w, t, x, t.requests[x]) {
        if x != rid { RequestGrows(w, s, t, x, s.requests[x]); }
      }
      forall f | 0 <= f < |t.flights| ensures FlightOk(w, t, f) {
        if f < |s.flights| {
          assert FlightOk(w, s, f) && t.flights[f] == s.flights[f];
          MadeGrows(w, s, t, s.flights[f]);
        }
      }
    }
  }

  lemma StartsWaiting(w: World, t: State, rid: string, r: Request, f: nat)
    requires RequestOk(w, t, rid, r) && r.stage.Admitted?
    requires f < |t.flights| && t.flights[f].key.String() == KeyOf(w, r).String()
    ensures RequestOk(w, t, rid, r.(stage := Waiting(f)))
  {
    hide PolicyPart, Right, CertificateCacheKey.String;
    PolicyPartKept(w, r, r.(stage := Waiting(f)));
    assert KeyOf(w, r.(stage := Waiting(f))) == KeyOf(w, r);
  }

  lemma AdmittedHasPolicy(w: World, s: State, rid: string)
    requires At(s, rid, Admitted) && RequestOk(w, s, rid, s.requests[rid])
    ensures PolicyPart(w, s.requests[rid])
  {
    hide PolicyPart, LogPart, Right, CertificateCacheKey.String;
  }

  /** The joining request waits for a flight with its own key string. */
  lemma JoinedRequest(w: World, s: State, rid: string)
    requires w.Sound() && At(s, rid, Admitted) && RequestOk(w, s, rid, s.requests[rid]) && GroupOk(s)
    ensures var r, t := s.requests[rid], JoinNext(w, s, rid);
            r.profile.Some? && r.csr.Some? && Grows(s, t) && RequestOk(w, t, rid, t.requests[rid])
  {
    hide PolicyPart, Right, World.Sound, CertificateCacheKey.String, RequestOk;
    var r, t := s.requests[rid], JoinNext(w, s, rid);
    AdmittedHasPolicy(w, s, rid);
    PolicyPartGives(w, r);
    RequestGrows(w, s, t, rid, r);
    StartsWaiting(w, t, rid, r, t.requests[rid].stage.flight);
  }

  /** A flight that a request starts is made from what the request was allowed. */
  lemma StartedFlight(w: World, s: State, rid: string)
    requires w.Sound() && At(s, rid, Admitted) && RequestOk(w, s, rid, s.requests[rid])
    requires KeyOf(w, s.requests[rid]).String() !in s.group
    requires s.requests[rid].profile.Some? && s.requests[rid].csr.Some?
    ensures FlightMade(w, JoinNext(w, s, rid), JoinNext(w, s, rid).flights[|s.flights|])
  {
    hide PolicyPart, Right, World.Sound, CertificateCacheKey.String, CanonicalList;
    var r := s.requests[rid];
    RequestKeyGood(w, r);
    AllowedProfileGood(w, r);
  }

  lemma LookedUpFlight(w: World, s: State, f: nat, readable: bool)
    requires w.Sound() && StoreOk(w, s) && FlightAt(s, f, FlightStage.Lookup) && FlightOk(w, s, f)
    ensures Grows(s, LookUpNext(w, s, f, readable)) && FlightOk(w, LookUpNext(w, s, f, readable), f)
  {
    hide FlightMade, Right, CertificateCacheKey.String, Store.Serve;
    var fl, t := s.flights[f], LookUpNext(w, s, f, readable);
    var slot := w.slot(fl.key);
    FlightKeyGood(w, s, fl);
    if slot in s.store {
      SameDigests(w, fl.key, s.store[slot].key);
    }
    MadeStage(w, s, fl, t.flights[f]);
    MadeGrows(w, s, t, t.flights[f]);
  }

  lemma LookUpKeeps(w: World, s: State, f: nat, readable: bool)
    requires w.Sound() && Sane(w, s) && FlightAt(s, f, FlightStage.Lookup)
    ensures Sane(w, LookUpNext(w, s, f, readable))
  {
    hide RequestsOk, PolicyOk, FlightOk, GroupOk, Right, Store.Serve, Grows, World.Sound;
    LookedUpFlight(w, s, f, readable);
    FlightMoves(w, s, LookUpNext(w, s, f, readable), f);
  }

  lemma FlightKeyGood(w: World, s: State, fl: Flight)
    requires FlightMade(w, s, fl)
    ensures GoodKey(w, fl.key)
  {
  }

  lemma MadeStage(w: World, s: State, fl: Flight, moved: Flight)
    requires moved.(stage := fl.stage) == fl
    ensures FlightMade(w, s, moved) == FlightMade(w, s, fl)
  {
  }

  lemma IssuerReturnsKeeps(w: World, s: State, f: nat, bundle: Option<Bundle>)
    requires Sane(w, s) && FlightAt(s, f, Calling)
    requires bundle.Some? ==> Echoes(w, s.flights[f].csr, bundle.value)
    ensures Sane(w, IssuerReturnsNext(s, f, bundle))
  {
    hide RequestsOk, PolicyOk, Right, CanonicalList, CertificateCacheKey.String;
    var fl, t := s.flights[f], IssuerReturnsNext(s, f, bundle);
    assert FlightOk(w, s, f);
    if bundle.Some? {
      EchoIsRight(w, fl, bundle.value);
    }
    MadeStage(w, s, fl, t.flights[f]);
    MadeGrows(w, s, t, t.flights[f]);
    FlightMoves(w, s, t, f);
  }

  lemma PutFlight(w: World, s: State, f: nat, applied: bool, ok: bool)
    requires f < |s.flights| && s.flights[f].stage.Putting? && FlightOk(w, s, f) && StoreOk(w, s)
    ensures var t := PutReturnsNext(w, s, f, applied, ok);
            Grows(s, t) && FlightOk(w, t, f) && StoreOk(w, t)
  {
    hide FlightMade, Right, CertificateCacheKey.String;
    var fl, t := s.flights[f], PutReturnsNext(w, s, f, applied, ok);
    FlightKeyGood(w, s, fl);
    MadeStage(w, s, fl, t.flights[f]);
    MadeGrows(w, s, t, t.flights[f]);
  }

  lemma PutReturnsKeeps(w: World, s: State, f: nat, applied: bool, ok: bool)
    requires Sane(w, s) && f < |s.flights| && s.flights[f].stage.Putting? && (ok ==> applied)
    ensures Sane(w, PutReturnsNext(w, s, f, applied, ok))
  {
    hide RequestsOk, PolicyOk, FlightOk, GroupOk, StoreOk, Grows;
    PutFlight(w, s, f, applied, ok);
    FlightMoves(w, s, PutReturnsNext(w, s, f, applied, ok), f);
  }

  lemma EndFlightKeeps(w: World, s: State, f: nat)
    requires Sane(w, s) && f < |s.flights| && s.flights[f].stage.Returning?
    ensures Sane(w, EndFlightNext(s, f))
  {
    hide GoodLoaded, RequestOk, Right, FlightMade, CertificateCacheKey.String;
    var t := EndFlightNext(s, f);
    assert FlightOk(w, s, f);
    forall x | x in t.requests ensures RequestOk(w, t, x, t.requests[x]) {
      RequestGrows(w, s, t, x, s.requests[x]);
    }
    forall g | 0 <= g < |t.flights| ensures FlightOk(w, t, g) {
      assert FlightOk(w, s, g);
      MadeStage(w, s, s.flights[g], t.flights[g]);
      MadeGrows(w, s, t, t.flights[g]);
    }
  }

  lemma CollectKeeps(w: World, s: State, rid: string, recording: Recording)
    requires w.Sound() && Sane(w, s) && rid in s.requests && s.requests[rid].stage.Waiting?
    requires s.requests[rid].stage.flight < |s.flights| && s.flights[s.requests[rid].stage.flight].stage.Ended?
    ensures Sane(w, CollectNext(s, rid, recording))
  {
    hide GroupOk, PolicyOk, StoreOk, Right, FlightMade, PolicyPart, World.Sound, CertificateCacheKey.String;
    hide CanonicalList, GoodLoaded, InOrder;
    var r, t := s.requests[rid], CollectNext(s, rid, recording);
    assert RequestOk(w, s, rid, r);
    assert FlightOk(w, s, r.stage.flight);
    var fl := s.flights[r.stage.flight];
    if fl.stage.result.Some? {
      FlightKeyGood(w, s, fl);
      RequestKeyGood(w, r);
      SameDigests(w, fl.key, KeyOf(w, r));
      PolicyPartKept(w, r, t.requests[rid]);
    }
    RequestMoves(w, s, t, rid);
  }

  lemma RecordIssuedKeeps(w: World, s: State, rid: string, recording: Recording)
    requires Sane(w, s) && rid in s.requests && s.requests[rid].stage.Answered?
    ensures Sane(w, RecordIssuedNext(w, s, rid, recording))
  {
    hide FlightsOk, GroupOk, PolicyOk, StoreOk, Right, PolicyPart, CanonicalList, CertificateCacheKey.String;
    hide GoodLoaded;
    var r, t := s.requests[rid], RecordIssuedNext(w, s, rid, recording);
    assert RequestOk(w, s, rid, r);
    PolicyPartKept(w, r, t.requests[rid]);
    if w.failClosed && recording.Done? {
      var i :| 0 <= i < |s.log| && s.log[i] == EventOf(rid, r, CertificateAuthorized);
      assert t.log[i] == s.log[i] && t.log[|s.log|] == EventOf(rid, r, IssuedKind(r.stage.issued));
      assert InOrder(t.log, EventOf(rid, r, CertificateAuthorized), EventOf(rid, r, IssuedKind(r.stage.issued)));
    }
    RequestMoves(w, s, t, rid);
  }

  lemma RespondKeeps(w: World, s: State, rid: string)
    requires Sane(w, s) && rid in s.requests && s.requests[rid].stage.Logged?
    ensures Sane(w, RespondNext(s, rid))
  {
    hide FlightsOk, GroupOk, PolicyOk, StoreOk, Right, PolicyPart, InOrder;
    var r, t := s.requests[rid], RespondNext(s, rid);
    assert RequestOk(w, s, rid, r);
    PolicyPartKept(w, r, t.requests[rid]);
    RequestMoves(w, s, t, rid);
  }

  /** A restarted broker has a good store and no requests or flights. */
  lemma RestartKeeps(w: World, s: State)
    requires Sane(w, s)
    ensures Sane(w, RestartNext(s))
  {
    hide RequestOk, Right, GoodKey;
  }

  lemma ArrivalKeeps(w: World, s: State, t: State, rid: string)
    requires Sane(w, s) && rid !in s.requests
    requires t == Move(s, rid, FRESH) || t == Close(s, rid, FRESH, 500, None)
    ensures Sane(w, t)
  {
    FreshOk(w, t, rid);
    hide RequestsOk, FlightsOk, GroupOk, StoreOk, PolicyOk, RequestOk;
    RequestMoves(w, s, t, rid);
  }

  /** Only the time or the policy is another. */
  lemma QuietKeeps(w: World, s: State, t: State)
    requires Sane(w, s) && PolicyOk(w, t) && t == s.(clock := t.clock, policy := t.policy)
    ensures Sane(w, t)
  {
    hide RequestOk, FlightMade, Right, GoodKey, CertificateCacheKey.String;
    forall x | x in t.requests ensures RequestOk(w, t, x, t.requests[x]) {
      RequestGrows(w, s, t, x, s.requests[x]);
    }
    forall f | 0 <= f < |t.flights| ensures FlightOk(w, t, f) {
      assert FlightOk(w, s, f);
      MadeGrows(w, s, t, s.flights[f]);
    }
  }

  lemma TickKeeps(w: World, s: State, elapsed: nat)
    requires Sane(w, s)
    ensures Sane(w, s.(clock := s.clock + elapsed))
  {
    hide RequestsOk, FlightsOk, GroupOk, StoreOk, GoodLoaded;
    QuietKeeps(w, s, s.(clock := s.clock + elapsed));
  }

  lemma ReloadKeeps(w: World, s: State, cfg: Config)
    requires Sane(w, s) && Enabled(w, s, Reload(cfg))
    ensures Sane(w, ReloadNext(w, s, cfg))
  {
    hide RequestsOk, FlightsOk, GroupOk, StoreOk, GoodLoaded, CompilePolicy;
    if CompilePolicy(w.hasher, cfg).Success? {
      CompiledIsGood(w, cfg);
    }
    QuietKeeps(w, s, ReloadNext(w, s, cfg));
  }

  lemma FreshOk(w: World, t: State, rid: string)
    ensures RequestOk(w, t, rid, FRESH)
    ensures RequestOk(w, t, rid, FRESH.(stage := Closed(500, None)))
  {
  }

  lemma StepKeeps(w: World, s: State, step: Step)
    requires w.Sound() && Sane(w, s) && Enabled(w, s, step)
    ensures Sane(w, Next(w, s, step))
  {
    hide Sane, CompilePolicy, World.Sound;
    match step
    case Tick(elapsed) => TickKeeps(w, s, elapsed);
    case Restart => RestartKeeps(w, s);
    case Reload(cfg) => ReloadKeeps(w, s, cfg);
    case Arrive(rid) => ArrivalKeeps(w, s, Move(s, rid, FRESH), rid);
    case NamingFails(rid) => ArrivalKeeps(w, s, Close(s, rid, FRESH, 500, None), rid);
    case Authenticate(rid, identity, recording) => AuthenticateKeeps(w, s, rid, identity, recording);
    case Parse(rid, body, recording) => ParseKeeps(w, s, rid, body, recording);
    case Permit(rid, recording) => PermitKeeps(w, s, rid, recording);
    case Fingerprint(rid, ok, recording) => FingerprintKeeps(w, s, rid, ok, recording);
    case RecordAuthorized(rid, recording) => RecordAuthorizedKeeps(w, s, rid, recording);
    case CheckRate(rid, recording) => CheckRateKeeps(w, s, rid, recording);
    case Join(rid) => JoinKeeps(w, s, rid);
    case LookUp(f, readable) => LookUpKeeps(w, s, f, readable);
    case IssuerReturns(f, bundle) => IssuerReturnsKeeps(w, s, f, bundle);
    case PutReturns(f, applied, ok) => PutReturnsKeeps(w, s, f, applied, ok);
    case EndFlight(f) => EndFlightKeeps(w, s, f);
    case Collect(rid, recording) => CollectKeeps(w, s, rid, recording);
    case RecordIssued(rid, recording) => RecordIssuedKeeps(w, s, rid, recording);
    case Respond(rid) => RespondKeeps(w, s, rid);
  }

  lemma {:induction false} AlwaysSane(w: World, states: seq<State>, steps: seq<Step>, n: nat)
    requires w.Sound() && IsRun(w, states, steps) && n < |states|
    ensures Sane(w, states[n])
  {
    hide Enabled, Next, RequestOk, FlightOk, World.Sound;
    if n > 0 {
      AlwaysSane(w, states, steps, n - 1);
      assert Enabled(w, states[n - 1], steps[n - 1]) && states[n] == Next(w, states[n - 1], steps[n - 1]);
      StepKeeps(w, states[n - 1], steps[n - 1]);
    }
  }
}
