/**
 Whole runs of the broker: who is charged for issuer calls, how often the issuer is called for
 one key, what a successful response carries, and what the audit log shows by then.
 */
module BrokerRuns {
  import opened Wrappers
  import opened Durations
  import opened Pki
  import opened CacheKey
  import opened DnsName
  import opened PolicyTypes
  import opened PolicyCompile
  import opened PolicyAuthorize
  import opened Broker
  import opened BrokerInvariant
  import RateLimit
  import Store

  /******* What each step is *******/

  /** Steps of flights, and joining one, each with what it needs and what it does. */
  lemma FlightStepIs(w: World, s: State, step: Step)
    requires Enabled(w, s, step)
    ensures step.LookUp? ==>
              FlightAt(s, step.flight, FlightStage.Lookup)
              && Next(w, s, step) == LookUpNext(w, s, step.flight, step.readable)
    ensures step.IssuerReturns? ==>
              FlightAt(s, step.flight, Calling) && Next(w, s, step) == IssuerReturnsNext(s, step.flight, step.bundle)
    ensures step.PutReturns? ==>
              step.flight < |s.flights| && s.flights[step.flight].stage.Putting? && (step.ok ==> step.applied)
              && Next(w, s, step) == PutReturnsNext(w, s, step.flight, step.applied, step.ok)
    ensures step.EndFlight? ==>
              step.flight < |s.flights| && s.flights[step.flight].stage.Returning?
              && Next(w, s, step) == EndFlightNext(s, step.flight)
    ensures step.Join? ==> At(s, step.rid, Admitted) && Next(w, s, step) == JoinNext(w, s, step.rid)
  {
    hide LookUpNext, IssuerReturnsNext, PutReturnsNext, EndFlightNext, JoinNext, Echoes, CompilePolicy;
  }

  /******* What each step leaves alone *******/

  predicate MovesRequest(step: Step) {
    !step.Tick? && !step.Restart? && !step.Reload? && !MovesFlight(step)
  }

  predicate MovesFlight(step: Step) {
    step.LookUp? || step.IssuerReturns? || step.PutReturns? || step.EndFlight?
  }

  /** Past the limiter a request never returns before it; past joining it never leads again. */
  predicate PastJoin(stage: Stage) {
    !BeforeLimit(stage) && !stage.Admitted?
  }

  ghost predicate RequestMoved(s: State, t: State, rid: string) {
    && rid in t.requests && t.requests == s.requests[rid := t.requests[rid]]
    && var stage := t.requests[rid].stage;
       && (rid in s.requests ==>
             && !s.requests[rid].stage.Closed?
             && (!BeforeLimit(s.requests[rid].stage) ==> !BeforeLimit(stage))
             && (PastJoin(s.requests[rid].stage) ==> PastJoin(stage)))
       && (stage.Closed? ==>
             t.responses == s.responses + [Response(rid, stage.status, stage.body)]
             && (stage.body.Some? <==> stage.status == 200))
       && (!stage.Closed? ==> t.responses == s.responses)
  }

  ghost predicate Framed(s: State, t: State, step: Step) {
    && s.clock <= t.clock && (!step.Tick? ==> t.clock == s.clock)
    && (!step.PutReturns? ==> t.puts == s.puts && t.store == s.store)
    && (if step.Restart? then t == RestartNext(s) else FramedInLife(s, t, step))
  }

  /** What the steps of one life of the broker leave alone. */
  ghost predicate FramedInLife(s: State, t: State, step: Step) {
    && (!step.Reload? ==> t.policy == s.policy)
    && (!step.CheckRate? ==> t.table == s.table && t.limiterCalls == s.limiterCalls && t.admissions == s.admissions)
    && (!step.Join? && !MovesFlight(step) ==> t.flights == s.flights)
    && (!step.LookUp? ==> t.issuerCalls == s.issuerCalls)
    && (if MovesRequest(step) then RequestMoved(s, t, step.rid)
        else t.requests == s.requests && t.responses == s.responses)
  }

  lemma FramedWorld(w: World, s: State, step: Step)
    requires Enabled(w, s, step)
    requires step.Tick? || step.Restart? || step.Reload? || step.Arrive? || step.NamingFails?
    ensures Framed(s, Next(w, s, step), step)
  {
    hide CompilePolicy;
  }

  /** All a stage moves is its request, the log and the responses. */
  ghost predicate OnlyRequestMoved(s: State, t: State, rid: string) {
    RequestMoved(s, t, rid) && t == s.(requests := t.requests, log := t.log, responses := t.responses)
  }

  lemma FramedAuthenticate(s: State, rid: string, identity: Option<string>, recording: Recording)
    requires At(s, rid, Arrived)
    ensures OnlyRequestMoved(s, AuthenticateNext(s, rid, identity, recording), rid)
  {
    hide EventOf;
  }

  lemma FramedParse(s: State, rid: string, body: Body, recording: Recording)
    requires At(s, rid, Identified)
    ensures OnlyRequestMoved(s, ParseNext(s, rid, body, recording), rid)
  {
    hide EventOf;
  }

  lemma FramedPermit(s: State, rid: string, recording: Recording)
    requires At(s, rid, Parsed)
    ensures OnlyRequestMoved(s, PermitNext(s, rid, recording), rid)
  {
    hide EventOf, PolicyAuthorize.Authorize;
  }

  lemma FramedFingerprint(w: World, s: State, rid: string, ok: bool, recording: Recording)
    requires At(s, rid, Permitted)
    ensures OnlyRequestMoved(s, FingerprintNext(w, s, rid, ok, recording), rid)
  {
    hide EventOf;
  }

  lemma FramedBarrier(w: World, s: State, rid: string, recording: Recording, kind: EventKind, stage: Stage)
    requires rid in s.requests && !s.requests[rid].stage.Closed? && !stage.Closed?
    requires !BeforeLimit(s.requests[rid].stage) ==> PastJoin(s.requests[rid].stage) && PastJoin(stage)
    ensures OnlyRequestMoved(s, Barrier(w, s, rid, s.requests[rid], recording, kind, stage), rid)
  {
    hide EventOf;
  }

  lemma FramedCheckRate(w: World, s: State, rid: string, recording: Recording)
    requires At(s, rid, Recorded)
    ensures var t := CheckRateNext(w, s, rid, recording);
            RequestMoved(s, t, rid)
            && t == s.(requests := t.requests, log := t.log, responses := t.responses,
                       table := t.table, limiterCalls := t.limiterCalls, admissions := t.admissions)
  {
    hide EventOf, RateLimit.Allow;
  }

  lemma FramedJoin(w: World, s: State, rid: string)
    requires At(s, rid, Admitted)
    ensures var t := JoinNext(w, s, rid);
            RequestMoved(s, t, rid) && t == s.(requests := t.requests, flights := t.flights, group := t.group)
  {
    hide CertificateCacheKey.String;
  }

  lemma FramedCollect(s: State, rid: string, recording: Recording)
    requires rid in s.requests && s.requests[rid].stage.Waiting?
    requires s.requests[rid].stage.flight < |s.flights| && s.flights[s.requests[rid].stage.flight].stage.Ended?
    ensures OnlyRequestMoved(s, CollectNext(s, rid, recording), rid)
  {
    hide EventOf;
  }

  lemma FramedRespond(s: State, rid: string)
    requires rid in s.requests && s.requests[rid].stage.Logged?
    ensures OnlyRequestMoved(s, RespondNext(s, rid), rid)
  {
  }

  lemma FramedRequest(w: World, s: State, step: Step)
    requires Enabled(w, s, step) && MovesRequest(step) && !step.Arrive? && !step.NamingFails?
    ensures Framed(s, Next(w, s, step), step)
  {
    hide AuthenticateNext, ParseNext, PermitNext, FingerprintNext, Barrier, CheckRateNext, JoinNext, CollectNext;
    hide RespondNext, RequestMoved, CompilePolicy;
    match step
    case Authenticate(rid, identity, recording) => FramedAuthenticate(s, rid, identity, recording);
    case Parse(rid, body, recording) => FramedParse(s, rid, body, recording);
    case Permit(rid, recording) => FramedPermit(s, rid, recording);
    case Fingerprint(rid, ok, recording) => FramedFingerprint(w, s, rid, ok, recording);
    case RecordAuthorized(rid, recording) => FramedBarrier(w, s, rid, recording, CertificateAuthorized, Recorded);
    case CheckRate(rid, recording) => FramedCheckRate(w, s, rid, recording);
    case Join(rid) => FramedJoin(w, s, rid);
    case Collect(rid, recording) => FramedCollect(s, rid, recording);
    case RecordIssued(rid, recording) =>
      var issued := s.requests[rid].stage.issued;
      FramedBarrier(w, s, rid, recording, IssuedKind(issued), Logged(issued));
    case Respond(rid) => FramedRespond(s, rid);
  }

  /** All that a step of a flight moves. */
  ghost predicate OnlyFlightMoved(s: State, t: State) {
    t == s.(flights := t.flights, group := t.group, store := t.store, issuerCalls := t.issuerCalls, puts := t.puts)
  }

  lemma FramedLookUp(w: World, s: State, f: nat, readable: bool)
    requires f < |s.flights|
    ensures OnlyFlightMoved(s, LookUpNext(w, s, f, readable))
    ensures LookUpNext(w, s, f, readable).puts == s.puts && LookUpNext(w, s, f, readable).store == s.store
  {
    hide Store.Serve;
  }

  lemma FramedPutReturns(w: World, s: State, f: nat, applied: bool, ok: bool)
    requires f < |s.flights| && s.flights[f].stage.Putting?
    ensures OnlyFlightMoved(s, PutReturnsNext(w, s, f, applied, ok))
    ensures PutReturnsNext(w, s, f, applied, ok).issuerCalls == s.issuerCalls
  {
  }

  lemma FramedFlight(w: World, s: State, step: Step)
    requires Enabled(w, s, step) && MovesFlight(step)
    ensures Framed(s, Next(w, s, step), step)
  {
    hide AuthenticateNext, ParseNext, PermitNext, FingerprintNext, Barrier, CheckRateNext, JoinNext, CollectNext;
    hide RespondNext, CompilePolicy, CanonicalList, CertificateCacheKey.String, LookUpNext, PutReturnsNext, Echoes;
    match step
    case LookUp(f, readable) => FramedLookUp(w, s, f, readable);
    case PutReturns(f, applied, ok) => FramedPutReturns(w, s, f, applied, ok);
    case IssuerReturns(_, _) =>
    case EndFlight(_) =>
  }

  lemma StepFramed(w: World, s: State, step: Step)
    requires Enabled(w, s, step)
    ensures Framed(s, Next(w, s, step), step)
  {
    hide Enabled, Next, Framed;
    if MovesFlight(step) {
      FramedFlight(w, s, step);
    } else if step.Tick? || step.Restart? || step.Reload? || step.Arrive? || step.NamingFails? {
      FramedWorld(w, s, step);
    } else {
      FramedRequest(w, s, step);
    }
  }

  lemma StepAt(w: World, states: seq<State>, steps: seq<Step>, n: nat)
    requires IsRun(w, states, steps) && n < |steps|
    ensures |states| == |steps| + 1
    ensures Enabled(w, states[n], steps[n]) && states[n + 1] == Next(w, states[n], steps[n])
    ensures Framed(states[n], states[n + 1], steps[n])
  {
    hide Next, Enabled, Framed, Initial;
    StepFramed(w, states[n], steps[n]);
  }

  /******* The limiter inside the broker *******/

  function CallsOf(admissions: seq<Admission>): seq<RateLimit.Call> {
    seq(|admissions|, i requires 0 <= i < |admissions| => admissions[i].call)
  }

  /** The broker's limiter state is that of a run of the limiter, under a clock that never goes back. */
  ghost predicate LimiterOk(w: World, s: State) {
    && RateLimit.Ordered(s.limiterCalls)
    && (forall c :: c in s.limiterCalls ==> c.now <= s.clock)
    && s.table == RateLimit.TableAfter(w.limits, s.limiterCalls, |s.limiterCalls|)
    && CallsOf(s.admissions) == RateLimit.Admissions(w.limits, s.limiterCalls, |s.limiterCalls|)
  }

  lemma LimiterStep(w: World, s: State, rid: string, recording: Recording)
    requires LimiterOk(w, s) && rid in s.requests
    ensures LimiterOk(w, CheckRateNext(w, s, rid, recording))
  {
    hide RateLimit.Allow, RateLimit.TableAfter, RateLimit.Admissions, RateLimit.Ordered, EventOf;
    var t := CheckRateNext(w, s, rid, recording);
    var r := s.requests[rid];
    var call := RateLimit.Call(r.identity, r.profileName, s.clock);
    RateLimit.RunGrows(w.limits, s.limiterCalls, call);
    assert t.limiterCalls == s.limiterCalls + [call];
    if t.admissions != s.admissions {
      assert CallsOf(t.admissions) == CallsOf(s.admissions) + [call];
    }
  }

  lemma LimiterUntouched(w: World, s: State, t: State, step: Step)
    requires LimiterOk(w, s) && Framed(s, t, step) && !step.CheckRate?
    ensures LimiterOk(w, t)
  {
    if step.Restart? {
      LimiterUnused(w, t);
    } else {
      hide RateLimit.TableAfter, RateLimit.Admissions, RateLimit.Ordered, RequestMoved;
    }
  }

  lemma LimiterUnused(w: World, s: State)
    requires s.table == RateLimit.EMPTY && s.limiterCalls == [] && s.admissions == []
    ensures LimiterOk(w, s)
  {
  }

  lemma {:induction false} AlwaysLimiterOk(w: World, states: seq<State>, steps: seq<Step>, n: nat)
    requires IsRun(w, states, steps) && n < |states|
    ensures LimiterOk(w, states[n])
  {
    hide Enabled, Next, Framed;
    if n == 0 {
      LimiterUnused(w, states[0]);
    } else {
      hide LimiterOk, Initial;
      AlwaysLimiterOk(w, states, steps, n - 1);
      StepAt(w, states, steps, n - 1);
      if steps[n - 1].CheckRate? {
        CheckedState(w, states[n - 1], steps[n - 1]);
        LimiterStep(w, states[n - 1], steps[n - 1].rid, steps[n - 1].recording);
      } else {
        LimiterUntouched(w, states[n - 1], states[n], steps[n - 1]);
      }
    }
  }

  lemma CheckedState(w: World, s: State, step: Step)
    requires step.CheckRate? && Enabled(w, s, step)
    ensures At(s, step.rid, Recorded) && Next(w, s, step) == CheckRateNext(w, s, step.rid, step.recording)
  {
    hide CheckRateNext;
  }

  /******* Leaders, admissions and issuer calls *******/

  ghost predicate ChargesOk(s: State) {
    // Each request is admitted at most once, and leads at most one flight.
    && (forall i, j :: 0 <= i < j < |s.admissions| ==> s.admissions[i].requestId != s.admissions[j].requestId)
    && (forall i :: 0 <= i < |s.admissions| ==>
          s.admissions[i].requestId in s.requests && !BeforeLimit(s.requests[s.admissions[i].requestId].stage))
    && (forall f, g :: 0 <= f < g < |s.flights| ==> s.flights[f].leader != s.flights[g].leader)
    && (forall f :: 0 <= f < |s.flights| ==>
          s.flights[f].leader in s.requests && PastJoin(s.requests[s.flights[f].leader].stage))
    // Each flight calls the issuer at most once, on its leader's account.
    && (forall i, j :: 0 <= i < j < |s.issuerCalls| ==> s.issuerCalls[i].flight != s.issuerCalls[j].flight)
    && (forall i :: 0 <= i < |s.issuerCalls| ==> CallOk(s, s.issuerCalls[i]))
  }

  ghost predicate CallOk(s: State, c: IssuerCall) {
    c.flight < |s.flights| &&
    var fl := s.flights[c.flight];
    && !fl.stage.Lookup?
    && c.leader == fl.leader && c.identity == fl.key.identity && c.profileName == fl.key.profileName
    && c.admittedAt == fl.admittedAt
  }

  lemma ChargesFramed(w: World, s: State, t: State, step: Step)
    requires ChargesOk(s) && Framed(s, t, step)
    requires !step.CheckRate? && !step.Join? && !MovesFlight(step)
    ensures ChargesOk(t)
  {
    if step.Restart? {
      hide RequestMoved;
    } else {
      assert t.admissions == s.admissions && t.flights == s.flights && t.issuerCalls == s.issuerCalls;
      forall rid | rid in s.requests
        ensures rid in t.requests
        ensures !BeforeLimit(s.requests[rid].stage) ==> !BeforeLimit(t.requests[rid].stage)
        ensures PastJoin(s.requests[rid].stage) ==> PastJoin(t.requests[rid].stage)
      {
      }
      hide Framed, FramedInLife, RequestMoved, BeforeLimit, PastJoin;
    }
  }

  /** A request leaves the limiter, admitted or not. */
  lemma ChargesAdmit(s: State, t: State, rid: string)
    requires ChargesOk(s) && At(s, rid, Recorded) && t.flights == s.flights && t.issuerCalls == s.issuerCalls
    requires rid in t.requests && t.requests == s.requests[rid := t.requests[rid]]
    requires !BeforeLimit(t.requests[rid].stage)
    requires t.admissions == s.admissions
             || (|t.admissions| == |s.admissions| + 1 && t.admissions[..|s.admissions|] == s.admissions
                 && t.admissions[|s.admissions|].requestId == rid)
    ensures ChargesOk(t)
  {
    forall i | 0 <= i < |s.admissions| ensures t.admissions[i] == s.admissions[i] && s.admissions[i].requestId != rid {
      assert t.admissions[..|s.admissions|][i] == t.admissions[i];
    }
    assert forall c: IssuerCall :: CallOk(s, c) ==> CallOk(t, c);
  }

  lemma ChargesCheckRate(w: World, s: State, rid: string, recording: Recording)
    requires ChargesOk(s) && At(s, rid, Recorded)
    ensures ChargesOk(CheckRateNext(w, s, rid, recording))
  {
    hide RateLimit.Allow, EventOf;
    var t := CheckRateNext(w, s, rid, recording);
    assert !BeforeLimit(t.requests[rid].stage);
    assert t.requests == s.requests[rid := t.requests[rid]];
    assert t.flights == s.flights && t.issuerCalls == s.issuerCalls;
    assert t.admissions == s.admissions
        || (|t.admissions| == |s.admissions| + 1 && t.admissions[..|s.admissions|] == s.admissions
            && t.admissions[|s.admissions|].requestId == rid);
    hide CheckRateNext;
    ChargesAdmit(s, t, rid);
  }

  lemma ChargesJoin(w: World, s: State, rid: string)
    requires ChargesOk(s) && At(s, rid, Admitted)
    ensures ChargesOk(JoinNext(w, s, rid))
  {
    hide CertificateCacheKey.String;
  }

  lemma ChargesLookUp(w: World, s: State, f: nat, readable: bool)
    requires ChargesOk(s) && FlightAt(s, f, FlightStage.Lookup)
    ensures ChargesOk(LookUpNext(w, s, f, readable))
  {
    hide Store.Serve;
    var t := LookUpNext(w, s, f, readable);
    forall i | 0 <= i < |s.issuerCalls| ensures s.issuerCalls[i].flight != f && CallOk(t, s.issuerCalls[i]) {
      assert CallOk(s, s.issuerCalls[i]);
    }
  }

  lemma ChargesFlight(s: State, t: State, f: nat)
    requires ChargesOk(s) && f < |s.flights| && !s.flights[f].stage.Lookup?
    requires |t.flights| == |s.flights| && t.flights == s.flights[f := t.flights[f]]
    requires t.flights[f].(stage := s.flights[f].stage) == s.flights[f] && !t.flights[f].stage.Lookup?
    requires t.requests == s.requests && t.admissions == s.admissions && t.issuerCalls == s.issuerCalls
    ensures ChargesOk(t)
  {
    forall i | 0 <= i < |t.issuerCalls| ensures CallOk(t, t.issuerCalls[i]) {
      assert CallOk(s, s.issuerCalls[i]);
    }
  }

  lemma ChargesIssuerReturns(s: State, f: nat, bundle: Option<Bundle>)
    requires ChargesOk(s) && FlightAt(s, f, Calling)
    ensures ChargesOk(IssuerReturnsNext(s, f, bundle))
  {
    hide ChargesOk;
    ChargesFlight(s, IssuerReturnsNext(s, f, bundle), f);
  }

  lemma ChargesPutReturns(w: World, s: State, f: nat, applied: bool, ok: bool)
    requires ChargesOk(s) && f < |s.flights| && s.flights[f].stage.Putting?
    ensures ChargesOk(PutReturnsNext(w, s, f, applied, ok))
  {
    hide ChargesOk;
    ChargesFlight(s, PutReturnsNext(w, s, f, applied, ok), f);
  }

  lemma ChargesEndFlight(s: State, f: nat)
    requires ChargesOk(s) && f < |s.flights| && s.flights[f].stage.Returning?
    ensures ChargesOk(EndFlightNext(s, f))
  {
    hide ChargesOk, CertificateCacheKey.String;
    ChargesFlight(s, EndFlightNext(s, f), f);
  }

  lemma ChargesKept(w: World, s: State, step: Step)
    requires ChargesOk(s) && Enabled(w, s, step)
    ensures ChargesOk(Next(w, s, step))
  {
    hide *;
    FlightStepIs(w, s, step);
    match step
    case CheckRate(rid, recording) =>
      CheckedState(w, s, step);
      ChargesCheckRate(w, s, rid, recording);
    case Join(rid) => ChargesJoin(w, s, rid);
    case LookUp(f, readable) => ChargesLookUp(w, s, f, readable);
    case IssuerReturns(f, bundle) => ChargesIssuerReturns(s, f, bundle);
    case PutReturns(f, applied, ok) => ChargesPutReturns(w, s, f, applied, ok);
    case EndFlight(f) => ChargesEndFlight(s, f);
    case _ =>
      StepFramed(w, s, step);
      StaysCharged(w, s, step);
  }

  lemma StaysCharged(w: World, s: State, step: Step)
    requires ChargesOk(s) && Enabled(w, s, step) && Framed(s, Next(w, s, step), step)
    requires !step.CheckRate? && !step.Join?
    requires !step.LookUp? && !step.IssuerReturns? && !step.PutReturns? && !step.EndFlight?
    ensures ChargesOk(Next(w, s, step))
  {
    hide ChargesOk, Framed, Next, Enabled;
    ChargesFramed(w, s, Next(w, s, step), step);
  }

  lemma {:induction false} AlwaysCharged(w: World, states: seq<State>, steps: seq<Step>, n: nat)
    requires IsRun(w, states, steps) && n < |states|
    ensures ChargesOk(states[n])
  {
    hide Enabled, Next;
    if n > 0 {
      hide ChargesOk;
      AlwaysCharged(w, states, steps, n - 1);
      StepAt(w, states, steps, n - 1);
      ChargesKept(w, states[n - 1], steps[n - 1]);
    }
  }

  /** An issuer call seen as the admission it is charged to. */
  function ChargeOf(c: IssuerCall): Admission {
    Admission(c.leader, RateLimit.Call(c.identity, c.profileName, c.admittedAt))
  }

  function Charges(calls: seq<IssuerCall>): seq<Admission> {
    seq(|calls|, i requires 0 <= i < |calls| => ChargeOf(calls[i]))
  }

  ghost predicate Distinct(a: seq<Admission>) {
    forall i, j :: 0 <= i < j < |a| ==> a[i] != a[j]
  }

  lemma {:induction false} CountWithout(a: seq<RateLimit.Call>, k: nat, level: RateLimit.Level, lo: int, hi: int)
    requires k < |a|
    ensures RateLimit.Count(a, level, lo, hi)
            == RateLimit.Count(a[..k] + a[k + 1..], level, lo, hi) + RateLimit.Count([a[k]], level, lo, hi)
    decreases |a|
  {
    hide RateLimit.Count;
    var front, last := a[..|a| - 1], a[|a| - 1];
    assert a == front + [last];
    RateLimit.CountSnoc(front, last, level, lo, hi);
    if k == |a| - 1 {
      assert a[..k] + a[k + 1..] == front;
      assert [] + [last] == [last];
      CountNothing(level, lo, hi);
      RateLimit.CountSnoc([], last, level, lo, hi);
    } else {
      CountWithout(front, k, level, lo, hi);
      assert front[..k] == a[..k] && front[k] == a[k];
      assert a[..k] + a[k + 1..] == (front[..k] + front[k + 1..]) + [last];
      RateLimit.CountSnoc(front[..k] + front[k + 1..], last, level, lo, hi);
    }
  }

  /** Distinct charges, each of them an admission: no more charges than admissions in any window. */
  lemma {:induction false} ChargesWithinAdmissions(
      p: seq<Admission>, q: seq<Admission>, level: RateLimit.Level, lo: int, hi: int)
    requires Distinct(p) && forall x :: x in p ==> x in q
    ensures RateLimit.Count(CallsOf(p), level, lo, hi) <= RateLimit.Count(CallsOf(q), level, lo, hi)
    decreases |p|
  {
    hide RateLimit.Count;
    if p == [] {
      assert CallsOf(p) == [];
      CountNothing(level, lo, hi);
    } else {
      var front, last := p[..|p| - 1], p[|p| - 1];
      assert last in p;
      var k :| 0 <= k < |q| && q[k] == last;
      var rest := q[..k] + q[k + 1..];
      OthersRemain(p, q, k);
      ChargesWithinAdmissions(front, rest, level, lo, hi);
      hide Distinct;
      CountWithout(CallsOf(q), k, level, lo, hi);
      assert CallsOf(q)[..k] + CallsOf(q)[k + 1..] == CallsOf(rest);
      CountWithout(CallsOf(p), |p| - 1, level, lo, hi);
      assert CallsOf(p)[..|p| - 1] + CallsOf(p)[|p|..] == CallsOf(front);
    }
  }

  lemma CountNothing(level: RateLimit.Level, lo: int, hi: int)
    ensures RateLimit.Count([], level, lo, hi) == 0
  {
  }

  /** Taking the last charge and its admission away leaves an admission for each other charge. */
  lemma OthersRemain(p: seq<Admission>, q: seq<Admission>, k: nat)
    requires Distinct(p) && p != [] && forall x :: x in p ==> x in q
    requires k < |q| && q[k] == p[|p| - 1]
    ensures var front, rest := p[..|p| - 1], q[..k] + q[k + 1..];
            Distinct(front) && forall x :: x in front ==> x in rest
  {
    var front, rest := p[..|p| - 1], q[..k] + q[k + 1..];
    forall x | x in front ensures x in rest {
      assert x in p;
      var m :| 0 <= m < |q| && q[m] == x;
      assert m != k;
      assert rest[if m < k then m else m - 1] == x;
    }
  }

  lemma ChargesAreAdmissions(w: World, s: State)
    requires Sane(w, s) && ChargesOk(s)
    ensures Distinct(Charges(s.issuerCalls))
    ensures forall x :: x in Charges(s.issuerCalls) ==> x in s.admissions
  {
    hide RequestsOk, GroupOk, StoreOk, PolicyOk, Right, GoodKey, GoodProfile, CanonicalList, CertificateCacheKey.String;
    var charges := Charges(s.issuerCalls);
    forall i, j | 0 <= i < j < |charges| ensures charges[i] != charges[j] {
      assert CallOk(s, s.issuerCalls[i]) && CallOk(s, s.issuerCalls[j]);
      var f, g := s.issuerCalls[i].flight, s.issuerCalls[j].flight;
      assert s.flights[f].leader != s.flights[g].leader;
    }
    forall x | x in charges ensures x in s.admissions {
      var i :| 0 <= i < |charges| && charges[i] == x;
      assert CallOk(s, s.issuerCalls[i]);
      assert FlightOk(w, s, s.issuerCalls[i].flight);
    }
  }

  /**
   Every issuer call is charged to an admitted request of its own, the leader of its flight: in
   any window, for any identity, profile key or pair, there are never more issuer calls than
   admissions, however many followers and cache hits there are.
   */
  lemma IssuerCallsCharged(
      w: World, states: seq<State>, steps: seq<Step>, n: nat, level: RateLimit.Level, lo: int, hi: int)
    requires w.Sound() && IsRun(w, states, steps) && n < |states|
    ensures Distinct(Charges(states[n].issuerCalls))
    ensures forall x :: x in Charges(states[n].issuerCalls) ==> x in states[n].admissions
    ensures RateLimit.Count(CallsOf(Charges(states[n].issuerCalls)), level, lo, hi)
            <= RateLimit.Count(CallsOf(states[n].admissions), level, lo, hi)
  {
    hide IsRun, Sane, ChargesOk, World.Sound;
    AlwaysSane(w, states, steps, n);
    AlwaysCharged(w, states, steps, n);
    ChargesAreAdmissions(w, states[n]);
    ChargesWithinAdmissions(Charges(states[n].issuerCalls), states[n].admissions, level, lo, hi);
  }

  /**
   So no hour of admissions ever costs more issuer calls than the limits allow, counted from the
   last restart: a new limiter has forgotten the hour before.
   */
  lemma IssuerCallsLimited(w: World, states: seq<State>, steps: seq<Step>, n: nat, level: RateLimit.Level, instant: int)
    requires w.Sound() && IsRun(w, states, steps) && n < |states| && level.Limit(w.limits) > 0
    ensures RateLimit.Count(CallsOf(Charges(states[n].issuerCalls)), level, instant - HOUR, instant)
            <= level.Limit(w.limits)
  {
    hide IsRun, World.Sound;
    AlwaysLimiterOk(w, states, steps, n);
    IssuerCallsCharged(w, states, steps, n, level, instant - HOUR, instant);
    var calls := states[n].limiterCalls;
    RateLimit.WindowBound(w.limits, calls, |calls|, level, instant);
  }

  /******* Once per renewal window *******/

  /** Never two issuer calls in progress under one key string, so never two for one key. */
  lemma OneCallInProgress(w: World, states: seq<State>, steps: seq<Step>, n: nat, f: nat, g: nat)
    requires w.Sound() && IsRun(w, states, steps) && n < |states|
    requires FlightAt(states[n], f, Calling) && FlightAt(states[n], g, Calling)
    requires states[n].flights[f].key.String() == states[n].flights[g].key.String()
    ensures f == g
  {
    hide IsRun, World.Sound, RequestsOk, StoreOk, PolicyOk, FlightMade, Right;
    AlwaysSane(w, states, steps, n);
    assert FlightOk(w, states[n], f) && FlightOk(w, states[n], g);
  }

  /** A stored certificate has come into its renewal time. */
  ghost predicate Due(s: State, p: PutRecord) {
    p.bundle.notAfter - s.clock <= p.profile.renewBefore
  }

  ghost predicate Held(w: World, s: State, p: PutRecord) {
    w.slot(p.key) in s.store && s.store[w.slot(p.key)].bundle == p.bundle
  }

  ghost predicate BusyWith(w: World, fl: Flight, p: PutRecord) {
    (fl.stage.Calling? || fl.stage.Putting?) && w.slot(fl.key) == w.slot(p.key)
  }

  ghost predicate PutOk(w: World, s: State, p: PutRecord) {
    && GoodKey(w, p.key) && GoodProfile(w, p.profile) && p.key.profileHash == p.profile.hash
    && (Held(w, s, p) || Due(s, p))
    && (forall f :: 0 <= f < |s.flights| && BusyWith(w, s.flights[f], p) ==> Due(s, p))
  }

  ghost predicate PutsOk(w: World, s: State) {
    forall i :: 0 <= i < |s.puts| ==> PutOk(w, s, s.puts[i])
  }

  /** One slot, one profile hash, one renewal time. */
  lemma SameRenewal(w: World, fl: Flight, p: PutRecord)
    requires w.Sound() && w.slot(fl.key) == w.slot(p.key)
    requires GoodKey(w, fl.key) && GoodProfile(w, fl.profile) && fl.key.profileHash == fl.profile.hash
    requires GoodKey(w, p.key) && GoodProfile(w, p.profile) && p.key.profileHash == p.profile.hash
    ensures fl.profile.renewBefore == p.profile.renewBefore
  {
    hide CertificateCacheKey.String;
    SameDigests(w, fl.key, p.key);
    assert fl.profile.HashInput() == p.profile.HashInput();
  }

  /** A flight that misses finds every earlier certificate of its slot due for renewal. */
  lemma MissMeansDue(w: World, s: State, f: nat, p: PutRecord)
    requires w.Sound() && FlightAt(s, f, FlightStage.Lookup) && FlightMade(w, s, s.flights[f]) && PutOk(w, s, p)
    requires LookUpNext(w, s, f, true).flights[f].stage.Calling? && w.slot(s.flights[f].key) == w.slot(p.key)
    ensures Due(s, p) && p.profile.renewBefore == s.flights[f].profile.renewBefore
  {
    hide CertificateCacheKey.String, World.Sound, CanonicalList;
    SameRenewal(w, s.flights[f], p);
  }

  lemma PutsLookUp(w: World, s: State, f: nat, readable: bool)
    requires w.Sound() && Sane(w, s) && PutsOk(w, s) && FlightAt(s, f, FlightStage.Lookup)
    ensures PutsOk(w, LookUpNext(w, s, f, readable))
  {
    hide RequestsOk, StoreOk, GroupOk, PolicyOk, FlightMade, GoodKey, GoodProfile, Right, World.Sound, Store.Serve;
    hide CertificateCacheKey.String;
    var t := LookUpNext(w, s, f, readable);
    assert FlightOk(w, s, f);
    forall i | 0 <= i < |t.puts| ensures PutOk(w, t, t.puts[i]) {
      var p := s.puts[i];
      assert PutOk(w, s, p);
      if BusyWith(w, t.flights[f], p) {
        MissMeansDue(w, s, f, p);
      }
      forall g | 0 <= g < |t.flights| && BusyWith(w, t.flights[g], p) ensures Due(t, p) {
        if g != f { assert BusyWith(w, s.flights[g], p); }
      }
    }
  }

  lemma PutsPut(w: World, s: State, f: nat, applied: bool, ok: bool)
    requires w.Sound() && Sane(w, s) && PutsOk(w, s)
    requires f < |s.flights| && s.flights[f].stage.Putting? && (ok ==> applied)
    ensures PutsOk(w, PutReturnsNext(w, s, f, applied, ok))
  {
    var fl, t := s.flights[f], PutReturnsNext(w, s, f, applied, ok);
    forall i | 0 <= i < |t.puts| ensures PutOk(w, t, t.puts[i]) {
      hide PutOk;
      if i < |s.puts| {
        assert PutOk(w, s, s.puts[i]);
        EarlierPut(w, s, f, applied, ok, s.puts[i]);
      } else {
        NewPut(w, s, f, ok);
      }
    }
  }

  lemma EarlierPut(w: World, s: State, f: nat, applied: bool, ok: bool, p: PutRecord)
    requires PutOk(w, s, p) && f < |s.flights| && s.flights[f].stage.Putting?
    ensures PutOk(w, PutReturnsNext(w, s, f, applied, ok), p)
  {
    hide GoodKey, GoodProfile;
    var fl, t := s.flights[f], PutReturnsNext(w, s, f, applied, ok);
    assert w.slot(fl.key) == w.slot(p.key) ==> BusyWith(w, fl, p);
    forall g | 0 <= g < |t.flights| && BusyWith(w, t.flights[g], p) ensures Due(t, p) {
      assert g != f && BusyWith(w, s.flights[g], p);
    }
  }

  /** What is put is held, and no other flight is busy with its slot. */
  lemma NewPut(w: World, s: State, f: nat, ok: bool)
    requires w.Sound() && Sane(w, s) && f < |s.flights| && s.flights[f].stage.Putting?
    ensures var fl := s.flights[f];
            PutOk(w, PutReturnsNext(w, s, f, true, ok), PutRecord(fl.key, fl.stage.bundle, fl.profile))
  {
    hide RequestsOk, StoreOk, GroupOk, PolicyOk, Right, GoodKey, GoodProfile, CertificateCacheKey.String;
    var fl, t := s.flights[f], PutReturnsNext(w, s, f, true, ok);
    assert FlightOk(w, s, f);
    forall g | 0 <= g < |t.flights|
      ensures !BusyWith(w, t.flights[g], PutRecord(fl.key, fl.stage.bundle, fl.profile))
    {
      assert FlightOk(w, s, g);
      assert w.slot(s.flights[g].key) == w.slot(fl.key) ==> s.flights[g].key.String() == fl.key.String();
    }
  }

  /** The other steps: time passes, flights appear, return and end. */
  lemma PutsElse(w: World, s: State, t: State)
    requires PutsOk(w, s) && t.puts == s.puts && t.store == s.store && s.clock <= t.clock
    requires forall g, p :: 0 <= g < |t.flights| && p in s.puts && BusyWith(w, t.flights[g], p) ==>
               g < |s.flights| && BusyWith(w, s.flights[g], p)
    ensures PutsOk(w, t)
  {
    hide GoodKey, GoodProfile;
    forall i | 0 <= i < |t.puts| ensures PutOk(w, t, t.puts[i]) {
      var p := s.puts[i];
      assert PutOk(w, s, p) && p in s.puts;
      forall g | 0 <= g < |t.flights| && BusyWith(w, t.flights[g], p) ensures Due(t, p) {
        assert BusyWith(w, s.flights[g], p);
      }
    }
  }

  lemma PutsJoin(w: World, s: State, rid: string)
    requires PutsOk(w, s) && At(s, rid, Admitted)
    ensures PutsOk(w, JoinNext(w, s, rid))
  {
    hide PutsOk, CertificateCacheKey.String;
    PutsElse(w, s, JoinNext(w, s, rid));
  }

  lemma PutsIssuerReturns(w: World, s: State, f: nat, bundle: Option<Bundle>)
    requires PutsOk(w, s) && FlightAt(s, f, Calling)
    ensures PutsOk(w, IssuerReturnsNext(s, f, bundle))
  {
    hide PutsOk;
    PutsElse(w, s, IssuerReturnsNext(s, f, bundle));
  }

  lemma PutsEndFlight(w: World, s: State, f: nat)
    requires PutsOk(w, s) && f < |s.flights| && s.flights[f].stage.Returning?
    ensures PutsOk(w, EndFlightNext(s, f))
  {
    hide PutsOk, CertificateCacheKey.String;
    PutsElse(w, s, EndFlightNext(s, f));
  }

  lemma PutsElseFramed(w: World, s: State, t: State, step: Step)
    requires PutsOk(w, s) && Framed(s, t, step) && !step.PutReturns? && !step.Join? && !MovesFlight(step)
    ensures PutsOk(w, t)
  {
    hide PutsOk;
    PutsElse(w, s, t);
  }

  lemma PutsKept(w: World, s: State, step: Step)
    requires w.Sound() && Sane(w, s) && PutsOk(w, s) && Enabled(w, s, step)
    ensures PutsOk(w, Next(w, s, step))
  {
    hide *;
    FlightStepIs(w, s, step);
    match step
    case LookUp(f, readable) => PutsLookUp(w, s, f, readable);
    case PutReturns(f, applied, ok) => PutsPut(w, s, f, applied, ok);
    case Join(rid) => PutsJoin(w, s, rid);
    case IssuerReturns(f, bundle) => PutsIssuerReturns(w, s, f, bundle);
    case EndFlight(f) => PutsEndFlight(w, s, f);
    case _ =>
      StepFramed(w, s, step);
      StaysPut(w, s, step);
  }

  lemma StaysPut(w: World, s: State, step: Step)
    requires PutsOk(w, s) && Enabled(w, s, step) && Framed(s, Next(w, s, step), step) && !step.Join?
    requires !step.LookUp? && !step.IssuerReturns? && !step.PutReturns? && !step.EndFlight?
    ensures PutsOk(w, Next(w, s, step))
  {
    hide PutsOk, Framed, Next, Enabled;
    PutsElseFramed(w, s, Next(w, s, step), step);
  }

  lemma {:induction false} AlwaysPutsOk(w: World, states: seq<State>, steps: seq<Step>, n: nat)
    requires w.Sound() && IsRun(w, states, steps) && n < |states|
    ensures PutsOk(w, states[n])
  {
    hide Enabled, Next, PutOk, Sane, World.Sound;
    if n > 0 {
      AlwaysPutsOk(w, states, steps, n - 1);
      AlwaysSane(w, states, steps, n - 1);
      StepAt(w, states, steps, n - 1);
      PutsKept(w, states[n - 1], steps[n - 1]);
    }
  }

  lemma {:induction false} PutsOnlyGrow(w: World, states: seq<State>, steps: seq<Step>, m: nat, n: nat)
    requires IsRun(w, states, steps) && m <= n < |states|
    ensures states[m].puts <= states[n].puts
  {
    hide Enabled, Next;
    if m < n {
      PutsOnlyGrow(w, states, steps, m, n - 1);
      StepAt(w, states, steps, n - 1);
      PutsStepGrows(w, states[n - 1], steps[n - 1]);
    }
  }

  lemma PutsStepGrows(w: World, s: State, step: Step)
    requires Enabled(w, s, step)
    ensures s.puts <= Next(w, s, step).puts
  {
    hide CompilePolicy, CanonicalList, PolicyAuthorize.Authorize, Framed;
    if step.PutReturns? {
    } else {
      PutsUntouched(w, s, step);
    }
  }

  lemma PutsUntouched(w: World, s: State, step: Step)
    requires Enabled(w, s, step) && !step.PutReturns?
    ensures Next(w, s, step).puts == s.puts
  {
    hide Next, Enabled;
    StepFramed(w, s, step);
  }

  /**
   Once a certificate for a key has reached the store, reported as done or not, no further issuer
   call starts for that key, or for any key filed in the same slot, until what is left of its
   life is within the renewal time; the renewal time is the same for both, although the policy
   may have been reloaded and the broker restarted any number of times in between.
   */
  lemma NoIssuanceBeforeRenewal(w: World, states: seq<State>, steps: seq<Step>, m: nat, n: nat)
    requires w.Sound() && IsRun(w, states, steps) && m < n < |steps|
    requires steps[m].PutReturns? && steps[m].applied && steps[m].flight < |states[m].flights|
    requires states[m].flights[steps[m].flight].stage.Putting?
    requires steps[n].LookUp? && FlightAt(states[n], steps[n].flight, FlightStage.Lookup)
    requires states[n + 1].issuerCalls != states[n].issuerCalls
    requires w.slot(states[n].flights[steps[n].flight].key) == w.slot(states[m].flights[steps[m].flight].key)
    ensures var stored, asking := states[m].flights[steps[m].flight], states[n].flights[steps[n].flight];
            && asking.profile.renewBefore == stored.profile.renewBefore
            && stored.stage.bundle.notAfter - states[n].clock <= asking.profile.renewBefore
  {
    hide World.Sound, RequestsOk, StoreOk, GroupOk, PolicyOk, FlightMade, Right, Store.Serve;
    hide CertificateCacheKey.String, PutOk, IsRun, Framed;
    StepAt(w, states, steps, m);
    var fl := states[m].flights[steps[m].flight];
    var p := PutRecord(fl.key, fl.stage.bundle, fl.profile);
    assert states[m + 1].puts[|states[m].puts|] == p;
    PutsOnlyGrow(w, states, steps, m + 1, n);
    assert states[n].puts[|states[m].puts|] == p;
    AlwaysSane(w, states, steps, n);
    AlwaysPutsOk(w, states, steps, n);
    assert PutOk(w, states[n], p);
    StepAt(w, states, steps, n);
    assert FlightOk(w, states[n], steps[n].flight);
    MissMeansDue(w, states[n], steps[n].flight, p);
    PutDue(states[n], p);
  }

  lemma PutDue(s: State, p: PutRecord)
    requires Due(s, p)
    ensures p.bundle.notAfter - s.clock <= p.profile.renewBefore
  {
  }

  /******* Responses *******/

  /** A request has a response exactly when it is closed, and then only one. */
  ghost predicate ResponsesOk(s: State) {
    && (forall i, j :: 0 <= i < j < |s.responses| ==> s.responses[i].requestId != s.responses[j].requestId)
    && (forall i :: 0 <= i < |s.responses| ==>
          && s.responses[i].requestId in s.requests
          && s.requests[s.responses[i].requestId].stage == Closed(s.responses[i].status, s.responses[i].body))
    && (forall rid :: rid in s.requests && s.requests[rid].stage.Closed? ==>
          Response(rid, s.requests[rid].stage.status, s.requests[rid].stage.body) in s.responses)
    && (forall i :: 0 <= i < |s.responses| ==> (s.responses[i].body.Some? <==> s.responses[i].status == 200))
  }

  lemma ResponsesMove(s: State, t: State, rid: string, r: Request)
    requires ResponsesOk(s) && (rid in s.requests ==> !s.requests[rid].stage.Closed?) && !r.stage.Closed?
    requires t.requests == s.requests[rid := r] && t.responses == s.responses
    ensures ResponsesOk(t)
  {
  }

  lemma ResponsesClose(s: State, t: State, rid: string, r: Request, status: int, body: Option<Issued>)
    requires ResponsesOk(s) && (rid in s.requests ==> !s.requests[rid].stage.Closed?)
    requires body.Some? <==> status == 200
    requires t.requests == s.requests[rid := r] && r.stage == Closed(status, body)
    requires t.responses == s.responses + [Response(rid, status, body)]
    ensures ResponsesOk(t)
  {
    assert t.responses[|s.responses|] == Response(rid, status, body);
    forall x | x in t.requests && t.requests[x].stage.Closed?
      ensures Response(x, t.requests[x].stage.status, t.requests[x].stage.body) in t.responses
    {
      if x != rid {
        assert Response(x, s.requests[x].stage.status, s.requests[x].stage.body) in s.responses;
      }
    }
  }

  lemma ResponsesKept(s: State, t: State, step: Step)
    requires ResponsesOk(s) && Framed(s, t, step)
    ensures ResponsesOk(t)
  {
    if MovesRequest(step) {
      var rid := step.rid;
      var stage := t.requests[rid].stage;
      if stage.Closed? {
        ResponsesClose(s, t, rid, t.requests[rid], stage.status, stage.body);
      } else {
        ResponsesMove(s, t, rid, t.requests[rid]);
      }
    }
  }

  lemma {:induction false} AlwaysAnswered(w: World, states: seq<State>, steps: seq<Step>, n: nat)
    requires IsRun(w, states, steps) && n < |states|
    ensures ResponsesOk(states[n])
  {
    hide Enabled, Next;
    if n > 0 {
      hide ResponsesOk, Framed;
      AlwaysAnswered(w, states, steps, n - 1);
      StepAt(w, states, steps, n - 1);
      ResponsesKept(states[n - 1], states[n], steps[n - 1]);
    }
  }

  /** Every request that has ended has been answered exactly once, with the status it ended with. */
  lemma AnsweredOnce(w: World, states: seq<State>, steps: seq<Step>, n: nat, rid: string)
    requires IsRun(w, states, steps) && n < |states| && rid in states[n].requests
    ensures var s := states[n];
            if s.requests[rid].stage.Closed? then
              exists i :: 0 <= i < |s.responses|
                && s.responses[i] == Response(rid, s.requests[rid].stage.status, s.requests[rid].stage.body)
                && forall j :: 0 <= j < |s.responses| && s.responses[j].requestId == rid ==> j == i
            else forall j :: 0 <= j < |s.responses| ==> s.responses[j].requestId != rid
  {
    hide IsRun;
    AlwaysAnswered(w, states, steps, n);
    var s := states[n];
    if s.requests[rid].stage.Closed? {
      var i :| 0 <= i < |s.responses|
        && s.responses[i] == Response(rid, s.requests[rid].stage.status, s.requests[rid].stage.body);
    }
  }

  /******* What a successful response carries *******/

  /** The certificate in a response, against the request it answers and the policy it was allowed under. */
  ghost predicate Deserved(w: World, r: Request, bundle: Bundle) {
    && r.csr.Some? && r.policy.Some? && r.profile.Some?
    && w.decoder.cert(bundle.certPem).Some?
    && var c, csr, cfg := w.decoder.cert(bundle.certPem).value, r.csr.value, r.policy.value.cfg;
       && c.publicKey == csr.publicKey
       && CanonicalList(c.dnsNames) == Wrappers.Success(r.profile.value.dnsNames)
       && Grants(cfg, r.identity, r.profileName) && NamesAgree(cfg, r.profileName, csr)
       && Denoted(c.dnsNames) == Denoted(cfg.profiles[r.profileName].dnsNames)
  }

  lemma RightIsDeserved(w: World, r: Request, bundle: Bundle)
    requires w.Sound() && PolicyPart(w, r) && r.csr.value.publicKey in w.publicKeys
    requires r.publicKeyFP == w.fingerprint(r.csr.value.publicKey) && RightFor(w, bundle, KeyOf(w, r))
    ensures Deserved(w, r, bundle)
  {
    hide CompilePolicy, CanonicalList, Grants, PolicyAuthorize.Authorize;
    var c := w.decoder.cert(bundle.certPem).value;
    var profile := r.profile.value;
    AllowedProfileGood(w, r);
    var input :| input in w.inputs && w.hasher.ofProfile(input) == profile.hash
                 && CanonicalList(c.dnsNames) == Wrappers.Success(input.dnsNames);
    assert input == profile.HashInput();
    AuthorizeMeansConfig(w.hasher, r.policy.value.cfg, r.identity, r.profileName, r.csr.value);
    CanonicalListIsNormalForm(c.dnsNames);
  }

  /**
   Every 200 response, fresh, from the cache or shared with other requests, carries a
   certificate for that request's own key and exactly the names of the profile it was
   authorized for, in the configuration that was loaded when it was authorized, whatever has
   been loaded since.
   */
  lemma ResponseDeserved(w: World, states: seq<State>, steps: seq<Step>, n: nat, i: nat)
    requires w.Sound() && IsRun(w, states, steps) && n < |states|
    requires i < |states[n].responses| && states[n].responses[i].status == 200
    ensures var s, response := states[n], states[n].responses[i];
            response.body.Some? && response.requestId in s.requests
            && Deserved(w, s.requests[response.requestId], response.body.value.bundle)
  {
    hide IsRun, World.Sound, PolicyPart, Right, LogPart, FlightsOk, GroupOk, StoreOk, PolicyOk, Deserved;
    hide CertificateCacheKey.String;
    AlwaysSane(w, states, steps, n);
    AlwaysAnswered(w, states, steps, n);
    var s, response := states[n], states[n].responses[i];
    var r := s.requests[response.requestId];
    assert RequestOk(w, s, response.requestId, r);
    PolicyPartGives(w, r);
    RightIsDeserved(w, r, response.body.value.bundle);
  }

  /******* What the audit log shows *******/

  /**
   Failing closed, a successful response is only ever written after the log holds the request's
   authorization and then its issuance or cache hit, as the response says.
   */
  lemma ResponseAudited(w: World, states: seq<State>, steps: seq<Step>, n: nat)
    requires w.Sound() && w.failClosed && IsRun(w, states, steps) && n < |steps| && steps[n].Respond?
    ensures var s, t, rid := states[n], states[n + 1], steps[n].rid;
            && rid in s.requests && s.requests[rid].stage.Logged?
            && var r := s.requests[rid];
               && t.responses == s.responses + [Response(rid, 200, Some(r.stage.issued))]
               && InOrder(s.log, EventOf(rid, r, CertificateAuthorized), EventOf(rid, r, IssuedKind(r.stage.issued)))
  {
    hide World.Sound, PolicyPart, Right, FlightsOk, GroupOk, StoreOk, PolicyOk, InOrder;
    hide CertificateCacheKey.String, EventOf, IsRun, Framed;
    StepAt(w, states, steps, n);
    AlwaysSane(w, states, steps, n);
    assert RequestOk(w, states[n], steps[n].rid, states[n].requests[steps[n].rid]);
  }

  /** Failing closed, the issuer is only ever called after the leader's authorization, for this key, is in the log. */
  lemma IssuerCallAudited(w: World, states: seq<State>, steps: seq<Step>, n: nat)
    requires w.Sound() && w.failClosed && IsRun(w, states, steps) && n < |steps|
    requires |states[n + 1].issuerCalls| > |states[n].issuerCalls|
    ensures steps[n].LookUp? && steps[n].flight < |states[n].flights|
            && var fl := states[n].flights[steps[n].flight];
               && states[n + 1].issuerCalls == states[n].issuerCalls +
                    [IssuerCall(steps[n].flight, fl.leader, fl.key.identity, fl.key.profileName, fl.admittedAt)]
               && Event(fl.leader, CertificateAuthorized, fl.key.identity, fl.key.profileName,
                        fl.key.profileHash, fl.key.publicKeySha256) in states[n].log
  {
    hide World.Sound, RequestsOk, GroupOk, StoreOk, PolicyOk, Right, Store.Serve, CertificateCacheKey.String;
    hide IsRun, GoodKey, GoodProfile, CanonicalList, Next;
    StepAt(w, states, steps, n);
    AlwaysSane(w, states, steps, n);
    LookUpMade(w, states[n], steps[n]);
    assert FlightOk(w, states[n], steps[n].flight);
  }

  lemma LookUpMade(w: World, s: State, step: Step)
    requires step.LookUp? && Enabled(w, s, step)
    ensures step.flight < |s.flights| && Next(w, s, step) == LookUpNext(w, s, step.flight, step.readable)
  {
    hide LookUpNext;
  }
}
