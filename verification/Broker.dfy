/**
 The issuance protocol of the broker as a state machine. Any number of requests go through the
 stages of `issueCertificate`, each a step of its own, while flights look up, issue and store,
 the policy is reloaded and time passes. Everything outside the broker's control stands in the
 step's arguments: what a client sends, whether the recorder, the store or the issuer fails,
 and what the issuer answers.
 */
module Broker {
  import opened Wrappers
  import opened Pki
  import opened CacheKey
  import opened DnsName
  import opened PolicyTypes
  import opened PolicyCompile
  import opened PolicyAuthorize
  import RateLimit
  import Store

  /******* What is fixed for the life of a broker *******/

  datatype World = World(
    hasher: Hasher,
    fingerprint: string -> string,
    decoder: Decoder,
    limits: RateLimit.Limits,
    issuerName: string,
    issuerDirectory: string,
    issuerAccountKeyId: string,
    failClosed: bool,
    // Where the certificate store files a key: under its string, or under its seven columns.
    slot: CertificateCacheKey -> string,
    // Everything a run ever puts through the two digests.
    inputs: set<ProfileHashInput>,
    publicKeys: set<string>)
  {
    /** No two things a run hashes collide, digests have one length, and slots tell strings apart. */
    ghost predicate Sound() {
      && (forall a, b :: a in inputs && b in inputs && hasher.ofProfile(a) == hasher.ofProfile(b) ==> a == b)
      && (forall a :: a in inputs ==> |hasher.ofProfile(a)| == DIGEST)
      && (forall k, m :: k in publicKeys && m in publicKeys && fingerprint(k) == fingerprint(m) ==> k == m)
      && (forall k :: k in publicKeys ==> |fingerprint(k)| == DIGEST)
      && (forall k, m :: slot(k) == slot(m) ==> k.String() == m.String())
    }
  }

  /** Hex digits of a SHA-256 sum. */
  const DIGEST := 64

  /******* Requests *******/

  datatype Issued = Issued(bundle: Bundle, fromCache: bool)

  /** A policy, with the configuration it was compiled from. */
  datatype Loaded = Loaded(cfg: Config, compiled: CompiledPolicy)

  datatype Stage =
    | Arrived
    | Identified
    | Parsed
    | Permitted
    | Fingerprinted
    | Recorded
    | Admitted
    | Waiting(flight: nat)
    | Answered(issued: Issued)
    | Logged(issued: Issued)
    | Closed(status: int, body: Option<Issued>)

  datatype Request = Request(
    stage: Stage,
    identity: string,
    profileName: string,
    csr: Option<Csr>,
    policy: Option<Loaded>,
    profile: Option<CompiledProfile>,
    publicKeyFP: string,
    admittedAt: int)

  const FRESH := Request(Arrived, "", "", None, None, None, "", 0)

  function KeyOf(w: World, r: Request): CertificateCacheKey {
    CertificateCacheKey(
      r.identity, r.profileName, if r.profile.Some? then r.profile.value.hash else "", r.publicKeyFP,
      w.issuerName, w.issuerDirectory, w.issuerAccountKeyId)
  }

  /******* Flights: the calls of the singleflight group *******/

  datatype FlightStage =
    | Lookup
    | Calling
    | Putting(bundle: Bundle)
    | Returning(outcome: Option<Issued>)
    | Ended(result: Option<Issued>)

  /** The leader is the request whose goroutine runs the call. */
  datatype Flight = Flight(
    key: CertificateCacheKey, leader: string, profile: CompiledProfile, csr: Csr, admittedAt: int, stage: FlightStage)

  /******* Audit events, responses and histories *******/

  datatype EventKind = RequestReceived | CertificateDenied | CertificateAuthorized
                     | CertificateIssued | CertificateCacheHit | IssueFailed

  datatype Event = Event(
    requestId: string, kind: EventKind, identity: string, profileName: string, profileHash: string, publicKeyFP: string)

  function EventOf(rid: string, r: Request, kind: EventKind): Event {
    Event(rid, kind, r.identity, r.profileName, if r.profile.Some? then r.profile.value.hash else "", r.publicKeyFP)
  }

  function IssuedKind(issued: Issued): EventKind {
    if issued.fromCache then CertificateCacheHit else CertificateIssued
  }

  datatype Response = Response(requestId: string, status: int, body: Option<Issued>)

  datatype Admission = Admission(requestId: string, call: RateLimit.Call)

  /** A call to the issuer, with the flight that made it and when its leader was admitted. */
  datatype IssuerCall = IssuerCall(flight: nat, leader: string, identity: string, profileName: string, admittedAt: int)

  /** A put that reached the store, whether the store reported it as done or as failed. */
  datatype PutRecord = PutRecord(key: CertificateCacheKey, bundle: Bundle, profile: CompiledProfile)

  datatype Stored = Stored(key: CertificateCacheKey, bundle: Bundle)

  datatype State = State(
    clock: int,
    policy: Option<Loaded>,
    table: RateLimit.Table,
    requests: map<string, Request>,
    group: map<string, nat>,
    flights: seq<Flight>,
    store: map<string, Stored>,
    log: seq<Event>,
    // Histories, which no step reads. All but that of the puts begin anew with a restart.
    limiterCalls: seq<RateLimit.Call>,
    admissions: seq<Admission>,
    issuerCalls: seq<IssuerCall>,
    puts: seq<PutRecord>,
    responses: seq<Response>)

  ghost predicate Initial(s: State) {
    && s.policy.None? && s.table == RateLimit.EMPTY && s.requests == map[] && s.group == map[]
    && s.flights == [] && s.store == map[] && s.log == [] && s.limiterCalls == [] && s.admissions == []
    && s.issuerCalls == [] && s.puts == [] && s.responses == []
  }

  /******* Steps *******/

  datatype Body =
    | Unreadable
    | FieldMissing(profileName: string)
    | BadCsr(profileName: string)
    | Wellformed(profileName: string, csr: Csr)

  /** A recorder that reports success has appended the event; one that fails may have, too. */
  datatype Recording = Done | DoneButFailed | NotDone
  {
    predicate Appended() {
      !NotDone?
    }
  }

  datatype Step =
    | Tick(elapsed: nat)
    | Restart
    | Reload(cfg: Config)
    | Arrive(rid: string)
    | NamingFails(rid: string)
    | Authenticate(rid: string, identity: Option<string>, recording: Recording)
    | Parse(rid: string, body: Body, recording: Recording)
    | Permit(rid: string, recording: Recording)
    | Fingerprint(rid: string, ok: bool, recording: Recording)
    | RecordAuthorized(rid: string, recording: Recording)
    | CheckRate(rid: string, recording: Recording)
    | Join(rid: string)
    | LookUp(flight: nat, readable: bool)
    | IssuerReturns(flight: nat, bundle: Option<Bundle>)
    | PutReturns(flight: nat, applied: bool, ok: bool)
    | EndFlight(flight: nat)
    | Collect(rid: string, recording: Recording)
    | RecordIssued(rid: string, recording: Recording)
    | Respond(rid: string)

  /** The issuer certifies the request's own key and its own names, if it certifies at all. */
  ghost predicate Echoes(w: World, csr: Csr, bundle: Bundle) {
    var c := w.decoder.cert(bundle.certPem);
    c.Some? && c.value.publicKey == csr.publicKey && CanonicalList(c.value.dnsNames) == CanonicalList(csr.dnsNames)
  }

  ghost predicate At(s: State, rid: string, stage: Stage) {
    rid in s.requests && s.requests[rid].stage == stage
  }

  /** A request ID is made up anew for every request. */
  ghost predicate Unused(s: State, rid: string) {
    rid !in s.requests && forall e :: e in s.log ==> e.requestId != rid
  }

  ghost predicate FlightAt(s: State, f: nat, stage: FlightStage) {
    f < |s.flights| && s.flights[f].stage == stage
  }

  ghost predicate Enabled(w: World, s: State, step: Step) {
    match step
    case Tick(_) => true
    case Restart => true
    case Reload(cfg) =>
      CompilePolicy(w.hasher, cfg).Success? ==>
        forall k :: k in CompilePolicy(w.hasher, cfg).value.profiles ==>
          CompilePolicy(w.hasher, cfg).value.profiles[k].HashInput() in w.inputs
    case Arrive(rid) => Unused(s, rid)
    case NamingFails(rid) => Unused(s, rid)
    case Authenticate(rid, identity, _) => At(s, rid, Arrived) && identity != Some("")
    case Parse(rid, body, _) =>
      At(s, rid, Identified)
      && (body.Wellformed? ==> body.profileName != "" && body.csr.publicKey in w.publicKeys)
    case Permit(rid, _) => At(s, rid, Parsed)
    case Fingerprint(rid, _, _) => At(s, rid, Permitted)
    case RecordAuthorized(rid, _) => At(s, rid, Fingerprinted)
    case CheckRate(rid, _) => At(s, rid, Recorded)
    case Join(rid) => At(s, rid, Admitted)
    case LookUp(f, _) => FlightAt(s, f, FlightStage.Lookup)
    case IssuerReturns(f, bundle) =>
      FlightAt(s, f, Calling) && (bundle.Some? ==> Echoes(w, s.flights[f].csr, bundle.value))
    case PutReturns(f, applied, ok) => f < |s.flights| && s.flights[f].stage.Putting? && (ok ==> applied)
    case EndFlight(f) => f < |s.flights| && s.flights[f].stage.Returning?
    case Collect(rid, _) =>
      rid in s.requests && s.requests[rid].stage.Waiting?
      && s.requests[rid].stage.flight < |s.flights| && s.flights[s.requests[rid].stage.flight].stage.Ended?
    case RecordIssued(rid, _) => rid in s.requests && s.requests[rid].stage.Answered?
    case Respond(rid) => rid in s.requests && s.requests[rid].stage.Logged?
  }

  /** `record`: the event is appended or not; callers of `_ = s.record` do not care which. */
  function Record(s: State, recording: Recording, e: Event): State {
    if recording.Appended() then s.(log := s.log + [e]) else s
  }

  function Move(s: State, rid: string, r: Request): State {
    s.(requests := s.requests[rid := r])
  }

  /** Writing the response ends the request. */
  function Close(s: State, rid: string, r: Request, status: int, body: Option<Issued>): State {
    Move(s, rid, r.(stage := Closed(status, body))).(responses := s.responses + [Response(rid, status, body)])
  }

  function Deny(s: State, rid: string, r: Request, recording: Recording, kind: EventKind, status: int): State {
    Close(Record(s, recording, EventOf(rid, r, kind)), rid, r, status, None)
  }

  /** `auditBarrier`: a recorder that fails stops the request, but only when failing closed. */
  function Barrier(
      w: World, s: State, rid: string, r: Request, recording: Recording, kind: EventKind, stage: Stage): State {
    var logged := Record(s, recording, EventOf(rid, r, kind));
    if !recording.Done? && w.failClosed then Close(logged, rid, r, 503, None)
    else Move(logged, rid, r.(stage := stage))
  }

  function MoveFlight(s: State, f: nat, stage: FlightStage): State
    requires f < |s.flights|
  {
    s.(flights := s.flights[f := s.flights[f].(stage := stage)])
  }

  ghost function Next(w: World, s: State, step: Step): State
    requires Enabled(w, s, step)
  {
    match step
    case Tick(elapsed) => s.(clock := s.clock + elapsed)
    case Restart => RestartNext(s)
    case Reload(cfg) => ReloadNext(w, s, cfg)
    case Arrive(rid) => Move(s, rid, FRESH)
    case NamingFails(rid) => Close(s, rid, FRESH, 500, None)
    case Authenticate(rid, identity, recording) => AuthenticateNext(s, rid, identity, recording)
    case Parse(rid, body, recording) => ParseNext(s, rid, body, recording)
    case Permit(rid, recording) => PermitNext(s, rid, recording)
    case Fingerprint(rid, ok, recording) => FingerprintNext(w, s, rid, ok, recording)
    case RecordAuthorized(rid, recording) =>
      Barrier(w, s, rid, s.requests[rid], recording, CertificateAuthorized, Recorded)
    case CheckRate(rid, recording) => CheckRateNext(w, s, rid, recording)
    case Join(rid) => JoinNext(w, s, rid)
    case LookUp(f, readable) => LookUpNext(w, s, f, readable)
    case IssuerReturns(f, bundle) => IssuerReturnsNext(s, f, bundle)
    case PutReturns(f, applied, ok) => PutReturnsNext(w, s, f, applied, ok)
    case EndFlight(f) => EndFlightNext(s, f)
    case Collect(rid, recording) => CollectNext(s, rid, recording)
    case RecordIssued(rid, recording) => RecordIssuedNext(w, s, rid, recording)
    case Respond(rid) => RespondNext(s, rid)
  }

  /** A broker that crashed starts again: it has lost all but the store, the log and the time. */
  function RestartNext(s: State): State {
    State(s.clock, None, RateLimit.EMPTY, map[], map[], [], s.store, s.log, [], [], [], s.puts, [])
  }

  /** A reload that fails leaves the last good policy in place. */
  ghost function ReloadNext(w: World, s: State, cfg: Config): State {
    var compiled := CompilePolicy(w.hasher, cfg);
    if compiled.Success? then s.(policy := Some(Loaded(cfg, compiled.value))) else s
  }

  function AuthenticateNext(s: State, rid: string, identity: Option<string>, recording: Recording): State
    requires rid in s.requests
  {
    var r := s.requests[rid];
    if identity.None? then Deny(s, rid, r, recording, CertificateDenied, 401)
    else
      var known := r.(stage := Identified, identity := identity.value);
      Move(Record(s, recording, EventOf(rid, known, RequestReceived)), rid, known)
  }

  function ParseNext(s: State, rid: string, body: Body, recording: Recording): State
    requires rid in s.requests
  {
    var r := s.requests[rid];
    match body
    case Unreadable => Deny(s, rid, r, recording, CertificateDenied, 400)
    case FieldMissing(name) => Deny(s, rid, r.(profileName := name), recording, CertificateDenied, 400)
    case BadCsr(name) => Deny(s, rid, r.(profileName := name), recording, CertificateDenied, 400)
    case Wellformed(name, csr) => Move(s, rid, r.(stage := Parsed, profileName := name, csr := Some(csr)))
  }

  /** The request keeps the policy it was authorized under, whatever is loaded later. */
  function PermitNext(s: State, rid: string, recording: Recording): State
    requires rid in s.requests
  {
    var r := s.requests[rid];
    if s.policy.None? then Deny(s, rid, r, recording, IssueFailed, 503)
    else
      match PolicyAuthorize.Authorize(s.policy.value.compiled, r.identity, r.profileName, r.csr)
      case Allowed(profile) => Move(s, rid, r.(stage := Permitted, policy := s.policy, profile := Some(profile)))
      case Denied(looked, _) =>
        Deny(s, rid, r.(policy := s.policy, profile := looked), recording, CertificateDenied, 403)
  }

  function FingerprintNext(w: World, s: State, rid: string, ok: bool, recording: Recording): State
    requires rid in s.requests
  {
    var r := s.requests[rid];
    if !ok || r.csr.None? then Deny(s, rid, r, recording, CertificateDenied, 400)
    else Move(s, rid, r.(stage := Fingerprinted, publicKeyFP := w.fingerprint(r.csr.value.publicKey)))
  }

  function CheckRateNext(w: World, s: State, rid: string, recording: Recording): State
    requires rid in s.requests
  {
    var r := s.requests[rid];
    var call := RateLimit.Call(r.identity, r.profileName, s.clock);
    var o := RateLimit.Allow(w.limits, s.table, call.identity, call.profile, call.now);
    var counted := s.(table := o.table, limiterCalls := s.limiterCalls + [call]);
    if o.verdict != RateLimit.Verdict.Admitted then Deny(counted, rid, r, recording, CertificateDenied, 429)
    else
      Move(counted, rid, r.(stage := Admitted, admittedAt := s.clock))
        .(admissions := s.admissions + [Admission(rid, call)])
  }

  /** `flightGroup.Do`: wait for the call under this string if there is one, else lead a new one. */
  function JoinNext(w: World, s: State, rid: string): State
    requires rid in s.requests
  {
    var r := s.requests[rid];
    var key := KeyOf(w, r);
    if key.String() in s.group then Move(s, rid, r.(stage := Waiting(s.group[key.String()])))
    else if r.profile.None? || r.csr.None? then s  // no admitted request is like this
    else
      Move(s, rid, r.(stage := Waiting(|s.flights|)))
        .(flights := s.flights + [Flight(key, rid, r.profile.value, r.csr.value, r.admittedAt, FlightStage.Lookup)],
          group := s.group[key.String() := |s.flights|])
  }

  function LookUpNext(w: World, s: State, f: nat, readable: bool): State
    requires f < |s.flights|
  {
    var flight := s.flights[f];
    var slot := w.slot(flight.key);
    if !readable then MoveFlight(s, f, Returning(None))
    else if slot in s.store && Store.Serve(s.store[slot].bundle, flight.profile.renewBefore, s.clock).Hit? then
      MoveFlight(s, f, Returning(Some(Issued(s.store[slot].bundle, true))))
    else
      MoveFlight(s, f, Calling).(issuerCalls := s.issuerCalls +
        [IssuerCall(f, flight.leader, flight.key.identity, flight.key.profileName, flight.admittedAt)])
  }

  function IssuerReturnsNext(s: State, f: nat, bundle: Option<Bundle>): State
    requires f < |s.flights|
  {
    MoveFlight(s, f, if bundle.Some? then Putting(bundle.value) else Returning(None))
  }

  function PutReturnsNext(w: World, s: State, f: nat, applied: bool, ok: bool): State
    requires f < |s.flights| && s.flights[f].stage.Putting?
  {
    var flight := s.flights[f];
    var bundle := flight.stage.bundle;
    var written := if applied then s.(store := s.store[w.slot(flight.key) := Stored(flight.key, bundle)]) else s;
    var outcome := if ok then Some(Issued(bundle, false)) else None;
    MoveFlight(written, f, Returning(outcome))
      .(puts := if applied then s.puts + [PutRecord(flight.key, bundle, flight.profile)] else s.puts)
  }

  /** The result is handed out and the string leaves the group in one locked step. */
  function EndFlightNext(s: State, f: nat): State
    requires f < |s.flights| && s.flights[f].stage.Returning?
  {
    MoveFlight(s, f, Ended(s.flights[f].stage.outcome)).(group := s.group - {s.flights[f].key.String()})
  }

  /** Leader and followers alike receive what the flight returned. */
  function CollectNext(s: State, rid: string, recording: Recording): State
    requires rid in s.requests && s.requests[rid].stage.Waiting?
    requires s.requests[rid].stage.flight < |s.flights| && s.flights[s.requests[rid].stage.flight].stage.Ended?
  {
    var r := s.requests[rid];
    var result := s.flights[r.stage.flight].stage.result;
    if result.None? then Deny(s, rid, r, recording, IssueFailed, 502)
    else Move(s, rid, r.(stage := Answered(result.value)))
  }

  function RecordIssuedNext(w: World, s: State, rid: string, recording: Recording): State
    requires rid in s.requests && s.requests[rid].stage.Answered?
  {
    var r := s.requests[rid];
    Barrier(w, s, rid, r, recording, IssuedKind(r.stage.issued), Logged(r.stage.issued))
  }

  function RespondNext(s: State, rid: string): State
    requires rid in s.requests && s.requests[rid].stage.Logged?
  {
    Close(s, rid, s.requests[rid], 200, Some(s.requests[rid].stage.issued))
  }

  /******* Runs *******/

  ghost predicate IsRun(w: World, states: seq<State>, steps: seq<Step>) {
    && |states| == |steps| + 1
    && Initial(states[0])
    && forall i :: 0 <= i < |steps| ==> Enabled(w, states[i], steps[i]) && states[i + 1] == Next(w, states[i], steps[i])
  }
}
