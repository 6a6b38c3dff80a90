/**
 What a client sees of each stage of a request: which answer, which event and which next stage,
 said of any run in terms of the configuration, the history and the flights.
 */
module BrokerSteps {
  import opened Wrappers
  import opened Durations
  import opened Pki
  import opened CacheKey
  import opened DnsName
  import opened Text
  import opened PolicyTypes
  import opened PolicyCompile
  import opened PolicyValid
  import opened PolicyAuthorize
  import opened Broker
  import opened BrokerInvariant
  import opened BrokerRuns
  import RateLimit
  import Store

  /** The log gains this event of the request unless the recorder has not got it. */
  ghost predicate WasLogged(s: State, t: State, rid: string, r: Request, kind: EventKind, recording: Recording) {
    t.log == if recording == NotDone then s.log
             else s.log + [Event(rid, kind, r.identity, r.profileName,
                                 if r.profile == None then "" else r.profile.value.hash, r.publicKeyFP)]
  }

  /** The request ends with this status and no certificate, and with this event. */
  ghost predicate Refused(
      s: State, t: State, rid: string, r: Request, kind: EventKind, status: int, recording: Recording) {
    && WasLogged(s, t, rid, r, kind, recording)
    && t == s.(log := t.log, requests := s.requests[rid := r.(stage := Closed(status, None))],
               responses := s.responses + [Response(rid, status, None)])
  }

  /** The request goes on as it is now, unanswered. */
  ghost predicate GoesOn(s: State, t: State, rid: string, r: Request) {
    t == s.(log := t.log, requests := s.requests[rid := r])
  }

  /******* Arriving *******/

  lemma Arrivals(w: World, states: seq<State>, steps: seq<Step>, n: nat)
    requires IsRun(w, states, steps) && n < |steps| && (steps[n].Arrive? || steps[n].NamingFails?)
    ensures var s, t, rid := states[n], states[n + 1], steps[n].rid;
            if steps[n].Arrive? then
              GoesOn(s, t, rid, Request(Arrived, "", "", None, None, None, "", 0)) && t.log == s.log
            else
              && t.log == s.log && t.responses == s.responses + [Response(rid, 500, None)]
              && rid in t.requests && t.requests[rid].stage == Closed(500, None)
  {
    hide IsRun, Framed, CompilePolicy;
    StepAt(w, states, steps, n);
  }

  /** A request without an identity is answered 401; any other is received under its identity. */
  lemma Authentications(w: World, states: seq<State>, steps: seq<Step>, n: nat)
    requires IsRun(w, states, steps) && n < |steps| && steps[n].Authenticate?
    ensures var s, t, rid := states[n], states[n + 1], steps[n].rid;
            rid in s.requests
            && var r := s.requests[rid];
               if steps[n].identity == None then Refused(s, t, rid, r, CertificateDenied, 401, steps[n].recording)
               else
                 var known := r.(identity := steps[n].identity.value, stage := Identified);
                 GoesOn(s, t, rid, known) && WasLogged(s, t, rid, known, RequestReceived, steps[n].recording)
  {
    hide IsRun, Framed, CompilePolicy;
    StepAt(w, states, steps, n);
  }

  /** What cannot be read, lacks a field or has a bad certificate request is answered 400. */
  lemma Parsings(w: World, states: seq<State>, steps: seq<Step>, n: nat)
    requires IsRun(w, states, steps) && n < |steps| && steps[n].Parse?
    ensures var s, t, rid, body := states[n], states[n + 1], steps[n].rid, steps[n].body;
            rid in s.requests
            && var r := s.requests[rid];
               match body
               case Unreadable => Refused(s, t, rid, r, CertificateDenied, 400, steps[n].recording)
               case FieldMissing(name) =>
                 Refused(s, t, rid, r.(profileName := name), CertificateDenied, 400, steps[n].recording)
               case BadCsr(name) =>
                 Refused(s, t, rid, r.(profileName := name), CertificateDenied, 400, steps[n].recording)
               case Wellformed(name, csr) =>
                 GoesOn(s, t, rid, r.(profileName := name, csr := Some(csr), stage := Parsed)) && t.log == s.log
  {
    hide IsRun, Framed, CompilePolicy;
    StepAt(w, states, steps, n);
  }

  /** A key that has no fingerprint is answered 400. */
  lemma Fingerprints(w: World, states: seq<State>, steps: seq<Step>, n: nat)
    requires w.Sound() && IsRun(w, states, steps) && n < |steps| && steps[n].Fingerprint?
    ensures var s, t, rid := states[n], states[n + 1], steps[n].rid;
            rid in s.requests && s.requests[rid].csr.Some?
            && var r := s.requests[rid];
               if steps[n].ok then
                 GoesOn(s, t, rid, r.(publicKeyFP := w.fingerprint(r.csr.value.publicKey), stage := Fingerprinted))
                 && t.log == s.log
               else Refused(s, t, rid, r, CertificateDenied, 400, steps[n].recording)
  {
    hide IsRun, Framed, CompilePolicy, World.Sound, PolicyPart, LogPart, Right, CertificateCacheKey.String;
    hide FlightsOk, GroupOk, StoreOk, PolicyOk;
    StepAt(w, states, steps, n);
    AlwaysSane(w, states, steps, n);
    assert RequestOk(w, states[n], steps[n].rid, states[n].requests[steps[n].rid]);
  }

  /******* The audit barrier *******/

  /**
   Failing open, a request is taken on whatever the recorder does; failing closed it is taken on
   just when the recorder succeeds, and is answered 503 otherwise.
   */
  lemma AuthorizationsRecorded(w: World, states: seq<State>, steps: seq<Step>, n: nat)
    requires IsRun(w, states, steps) && n < |steps| && steps[n].RecordAuthorized?
    ensures var s, t, rid := states[n], states[n + 1], steps[n].rid;
            rid in s.requests
            && var r := s.requests[rid];
               if w.failClosed && steps[n].recording != Done then
                 Refused(s, t, rid, r, CertificateAuthorized, 503, steps[n].recording)
               else
                 GoesOn(s, t, rid, r.(stage := Stage.Recorded))
                 && WasLogged(s, t, rid, r, CertificateAuthorized, steps[n].recording)
  {
    hide IsRun, Framed, CompilePolicy;
    StepAt(w, states, steps, n);
  }

  lemma OutcomesRecorded(w: World, states: seq<State>, steps: seq<Step>, n: nat)
    requires IsRun(w, states, steps) && n < |steps| && steps[n].RecordIssued?
    ensures var s, t, rid := states[n], states[n + 1], steps[n].rid;
            rid in s.requests && s.requests[rid].stage.Answered?
            && var r, issued := s.requests[rid], s.requests[rid].stage.issued;
               var kind := if issued.fromCache then CertificateCacheHit else CertificateIssued;
               if w.failClosed && steps[n].recording != Done then
                 Refused(s, t, rid, r, kind, 503, steps[n].recording)
               else
                 GoesOn(s, t, rid, r.(stage := Logged(issued))) && WasLogged(s, t, rid, r, kind, steps[n].recording)
  {
    hide IsRun, Framed, CompilePolicy;
    StepAt(w, states, steps, n);
  }

  /******* The limiter *******/

  /**
   A request is admitted exactly when, since the broker's last start, fewer than the limit of its
   identity and fewer than the limit of its profile key were admitted in the hour that ends now;
   otherwise it is answered 429. No limit counts that is not positive.
   */
  lemma RateChecks(w: World, states: seq<State>, steps: seq<Step>, n: nat)
    requires IsRun(w, states, steps) && n < |steps| && steps[n].CheckRate?
    ensures var s, t, rid := states[n], states[n + 1], steps[n].rid;
            rid in s.requests
            && var r := s.requests[rid];
               var mine := RateLimit.Count(CallsOf(s.admissions), RateLimit.ByIdentity(r.identity),
                                           s.clock - 3600 * 1_000_000_000, s.clock);
               var ours := RateLimit.Count(CallsOf(s.admissions),
                 RateLimit.ByKey(RateLimit.PairKey(r.identity, r.profileName)),
                 s.clock - 3600 * 1_000_000_000, s.clock);
               var counted := s.(table := t.table, limiterCalls := t.limiterCalls);
               if (w.limits.perIdentity > 0 && mine >= w.limits.perIdentity)
                  || (w.limits.perIdentityProfile > 0 && ours >= w.limits.perIdentityProfile)
               then Refused(counted, t, rid, r, CertificateDenied, 429, steps[n].recording)
               else
                 && t.log == s.log
                 && GoesOn(counted.(admissions := s.admissions +
                             [Admission(rid, RateLimit.Call(r.identity, r.profileName, s.clock))]),
                           t, rid, r.(stage := Stage.Admitted, admittedAt := s.clock))
  {
    hide IsRun, Framed, RateLimit.Count, CompilePolicy, RateLimit.Allow, EventOf, LimiterOk;
    StepAt(w, states, steps, n);
    CheckedState(w, states[n], steps[n]);
    AlwaysLimiterOk(w, states, steps, n);
    VerdictByCounts(w, states[n], steps[n].rid);
    CheckedOutcome(w, states[n], steps[n].rid, steps[n].recording);
  }

  lemma VerdictByCounts(w: World, s: State, rid: string)
    requires LimiterOk(w, s) && rid in s.requests
    ensures var r := s.requests[rid];
            var mine := RateLimit.Count(CallsOf(s.admissions), RateLimit.ByIdentity(r.identity),
                                        s.clock - HOUR, s.clock);
            var ours := RateLimit.Count(CallsOf(s.admissions),
              RateLimit.ByKey(RateLimit.PairKey(r.identity, r.profileName)), s.clock - HOUR, s.clock);
            RateLimit.Allow(w.limits, s.table, r.identity, r.profileName, s.clock).verdict == RateLimit.Verdict.Admitted
            <==> !(w.limits.perIdentity > 0 && mine >= w.limits.perIdentity)
                 && !(w.limits.perIdentityProfile > 0 && ours >= w.limits.perIdentityProfile)
  {
    hide *;
    var r := s.requests[rid];
    var call := RateLimit.Call(r.identity, r.profileName, s.clock);
    var calls, n := s.limiterCalls + [call], |s.limiterCalls|;
    LimiterOkGives(w, s);
    RateLimit.RunGrows(w.limits, s.limiterCalls, call);
    assert s.limiterCalls[..n] == calls[..n];
    RateLimit.SamePrefix(w.limits, s.limiterCalls, calls, n);
    VerdictAtLast(w.limits, calls, n);
    RateLimit.AdmittedExactly(w.limits, calls, n);
  }

  lemma LimiterOkGives(w: World, s: State)
    requires LimiterOk(w, s)
    ensures RateLimit.Ordered(s.limiterCalls) && forall c :: c in s.limiterCalls ==> c.now <= s.clock
    ensures s.table == RateLimit.TableAfter(w.limits, s.limiterCalls, |s.limiterCalls|)
    ensures CallsOf(s.admissions) == RateLimit.Admissions(w.limits, s.limiterCalls, |s.limiterCalls|)
  {
  }

  lemma VerdictAtLast(l: RateLimit.Limits, calls: seq<RateLimit.Call>, n: nat)
    requires n < |calls|
    ensures var c := calls[n];
            RateLimit.VerdictAt(l, calls, n)
            == RateLimit.Allow(l, RateLimit.TableAfter(l, calls, n), c.identity, c.profile, c.now).verdict
  {
    hide RateLimit.Allow;
  }

  lemma CheckedOutcome(w: World, s: State, rid: string, recording: Recording)
    requires At(s, rid, Stage.Recorded)
    ensures var r, t := s.requests[rid], CheckRateNext(w, s, rid, recording);
            var counted := s.(table := t.table, limiterCalls := t.limiterCalls);
            if RateLimit.Allow(w.limits, s.table, r.identity, r.profileName, s.clock).verdict
               != RateLimit.Verdict.Admitted
            then Refused(counted, t, rid, r, CertificateDenied, 429, recording)
            else
              && t.log == s.log
              && GoesOn(counted.(admissions := s.admissions +
                          [Admission(rid, RateLimit.Call(r.identity, r.profileName, s.clock))]),
                        t, rid, r.(stage := Stage.Admitted, admittedAt := s.clock))
  {
    hide RateLimit.Allow;
  }

  /******* Collecting and responding *******/

  /** A flight that failed is answered 502; from any other the request has its result. */
  lemma Collections(w: World, states: seq<State>, steps: seq<Step>, n: nat)
    requires IsRun(w, states, steps) && n < |steps| && steps[n].Collect?
    ensures var s, t, rid := states[n], states[n + 1], steps[n].rid;
            && rid in s.requests && s.requests[rid].stage.Waiting?
            && s.requests[rid].stage.flight < |s.flights| && s.flights[s.requests[rid].stage.flight].stage.Ended?
            && var r, result := s.requests[rid], s.flights[s.requests[rid].stage.flight].stage.result;
               if result == None then Refused(s, t, rid, r, IssueFailed, 502, steps[n].recording)
               else GoesOn(s, t, rid, r.(stage := Answered(result.value))) && t.log == s.log
  {
    hide IsRun, Framed, CompilePolicy;
    StepAt(w, states, steps, n);
  }

  lemma Responses(w: World, states: seq<State>, steps: seq<Step>, n: nat)
    requires IsRun(w, states, steps) && n < |steps| && steps[n].Respond?
    ensures var s, t, rid := states[n], states[n + 1], steps[n].rid;
            && rid in s.requests && s.requests[rid].stage.Logged?
            && var issued := s.requests[rid].stage.issued;
               t == s.(requests := s.requests[rid := s.requests[rid].(stage := Closed(200, Some(issued)))],
                       responses := s.responses + [Response(rid, 200, Some(issued))])
  {
    hide IsRun, Framed, CompilePolicy;
    StepAt(w, states, steps, n);
  }

  /******* Flights *******/

  /** A flight in progress under this string. */
  ghost predicate InProgress(s: State, key: string, f: nat) {
    f < |s.flights| && !s.flights[f].stage.Ended? && s.flights[f].key.String() == key
  }

  /** A request waits for the flight in progress under its key string, or leads a new one for itself. */
  lemma Joinings(w: World, states: seq<State>, steps: seq<Step>, n: nat)
    requires w.Sound() && IsRun(w, states, steps) && n < |steps| && steps[n].Join?
    ensures var s, t, rid := states[n], states[n + 1], steps[n].rid;
            rid in s.requests && rid in t.requests && t.requests[rid].stage.Waiting?
            && s.requests[rid].profile.Some? && s.requests[rid].csr.Some?
            && var r, f := s.requests[rid], t.requests[rid].stage.flight;
               var key := CertificateCacheKey(r.identity, r.profileName, r.profile.value.hash, r.publicKeyFP,
                                              w.issuerName, w.issuerDirectory, w.issuerAccountKeyId);
               && GoesOn(s.(flights := t.flights, group := t.group), t, rid, r.(stage := Waiting(f))) && t.log == s.log
               && if exists g: nat :: InProgress(s, key.String(), g) then
                    t.flights == s.flights && InProgress(s, key.String(), f)
                  else
                    t.flights == s.flights +
                      [Flight(key, rid, r.profile.value, r.csr.value, r.admittedAt, FlightStage.Lookup)]
                    && f == |s.flights|
  {
    hide IsRun, Framed, CompilePolicy, World.Sound, CertificateCacheKey.String, Sane, PolicyPart;
    StepAt(w, states, steps, n);
    AlwaysSane(w, states, steps, n);
    FlightStepIs(w, states[n], steps[n]);
    hide Next, Enabled;
    AdmittedMayJoin(w, states[n], steps[n].rid);
    GroupIsInProgress(w, states[n], KeyOf(w, states[n].requests[steps[n].rid]).String());
  }

  lemma AdmittedMayJoin(w: World, s: State, rid: string)
    requires Sane(w, s) && At(s, rid, Stage.Admitted)
    ensures s.requests[rid].profile.Some? && s.requests[rid].csr.Some?
  {
    hide FlightsOk, GroupOk, StoreOk, PolicyOk, GoodLoaded, CertificateCacheKey.String, Right;
    assert RequestOk(w, s, rid, s.requests[rid]);
  }

  /** The group holds exactly the flights in progress, under their strings. */
  lemma GroupIsInProgress(w: World, s: State, key: string)
    requires Sane(w, s)
    ensures key in s.group <==> exists f: nat :: InProgress(s, key, f)
    ensures key in s.group ==> InProgress(s, key, s.group[key])
  {
    hide RequestsOk, StoreOk, PolicyOk, FlightMade, Right, CertificateCacheKey.String;
    if key in s.group { assert InProgress(s, key, s.group[key]); }
    forall f: nat | InProgress(s, key, f) ensures key in s.group {
      assert FlightOk(w, s, f);
    }
  }

  /** All a step of a flight may change. */
  ghost predicate FlightGoesOn(s: State, t: State, f: nat, stage: FlightStage)
    requires f < |s.flights|
  {
    && t.flights == s.flights[f := s.flights[f].(stage := stage)]
    && t == s.(flights := t.flights, group := t.group, store := t.store, issuerCalls := t.issuerCalls, puts := t.puts)
  }

  /**
   A flight that can read the store takes a bundle that expires later than the profile's renewal
   time from now, and calls the issuer otherwise; one that cannot fails.
   */
  lemma LookUps(w: World, states: seq<State>, steps: seq<Step>, n: nat)
    requires IsRun(w, states, steps) && n < |steps| && steps[n].LookUp?
    ensures var s, t, f := states[n], states[n + 1], steps[n].flight;
            f < |s.flights|
            && var fl, slot := s.flights[f], w.slot(s.flights[f].key);
               && t.store == s.store && t.group == s.group && t.puts == s.puts
               && if !steps[n].readable then FlightGoesOn(s, t, f, Returning(None)) && t.issuerCalls == s.issuerCalls
                  else if slot in s.store && s.store[slot].bundle.notAfter - s.clock > fl.profile.renewBefore then
                    FlightGoesOn(s, t, f, Returning(Some(Issued(s.store[slot].bundle, true))))
                    && t.issuerCalls == s.issuerCalls
                  else
                    FlightGoesOn(s, t, f, Calling)
                    && t.issuerCalls == s.issuerCalls +
                         [IssuerCall(f, fl.leader, fl.key.identity, fl.key.profileName, fl.admittedAt)]
  {
    hide IsRun, Framed, CompilePolicy;
    StepAt(w, states, steps, n);
    FlightStepIs(w, states[n], steps[n]);
    hide Next, Enabled;
  }

  /** What an issuer makes is put; where it or the put fails, the flight fails, whatever the store now holds. */
  lemma IssuesAndPuts(w: World, states: seq<State>, steps: seq<Step>, n: nat)
    requires IsRun(w, states, steps) && n < |steps| && (steps[n].IssuerReturns? || steps[n].PutReturns?)
    ensures var s, t, f := states[n], states[n + 1], steps[n].flight;
            f < |s.flights| && t.group == s.group && t.issuerCalls == s.issuerCalls
            && if steps[n].IssuerReturns? then
                 && t.store == s.store && t.puts == s.puts
                 && FlightGoesOn(s, t, f, if steps[n].bundle.Some? then Putting(steps[n].bundle.value)
                                          else Returning(None))
               else
                 s.flights[f].stage.Putting?
                 && var fl, bundle := s.flights[f], s.flights[f].stage.bundle;
                    && FlightGoesOn(s, t, f, Returning(if steps[n].ok then Some(Issued(bundle, false)) else None))
                    && t.store == if steps[n].applied then s.store[w.slot(fl.key) := Stored(fl.key, bundle)]
                                  else s.store
  {
    hide IsRun, Framed, CompilePolicy;
    StepAt(w, states, steps, n);
    FlightStepIs(w, states[n], steps[n]);
    hide Next, Enabled;
  }

  /** A flight that ends hands out what it returned, and its string is free for the next one. */
  lemma FlightEnds(w: World, states: seq<State>, steps: seq<Step>, n: nat)
    requires w.Sound() && IsRun(w, states, steps) && n < |steps| && steps[n].EndFlight?
    ensures var s, t, f := states[n], states[n + 1], steps[n].flight;
            f < |s.flights| && s.flights[f].stage.Returning?
            && FlightGoesOn(s, t, f, Ended(s.flights[f].stage.outcome))
            && t.store == s.store && t.issuerCalls == s.issuerCalls && t.puts == s.puts
            && forall g: nat :: !InProgress(t, s.flights[f].key.String(), g)
  {
    hide IsRun, Framed, CompilePolicy, World.Sound, CertificateCacheKey.String, Sane;
    StepAt(w, states, steps, n);
    FlightStepIs(w, states[n], steps[n]);
    AlwaysSane(w, states, steps, n + 1);
    hide Next, Enabled;
    GroupIsInProgress(w, states[n + 1], states[n].flights[steps[n].flight].key.String());
  }

  /******* The policy in force *******/

  /** The configuration of the last valid reload among the first n steps, since the last restart. */
  ghost function LastValid(steps: seq<Step>, n: nat): Option<Config>
    requires n <= |steps|
  {
    if n == 0 then None
    else
      match steps[n - 1]
      case Restart => None
      case Reload(cfg) => if ValidConfig(cfg) then Some(cfg) else LastValid(steps, n - 1)
      case _ => LastValid(steps, n - 1)
  }

  /** A reload puts a valid configuration in force and leaves everything as it is otherwise. */
  lemma Reloads(w: World, states: seq<State>, steps: seq<Step>, n: nat)
    requires IsRun(w, states, steps) && n < |steps| && steps[n].Reload?
    ensures var s, t, cfg := states[n], states[n + 1], steps[n].cfg;
            if ValidConfig(cfg) then t == s.(policy := t.policy) && t.policy.Some? && t.policy.value.cfg == cfg
            else t == s
  {
    hide IsRun, Framed, CompilePolicy, ValidConfig;
    StepAt(w, states, steps, n);
    CompilesExactly(w.hasher, steps[n].cfg);
  }

  lemma PolicyUntouched(w: World, s: State, step: Step)
    requires Enabled(w, s, step) && !step.Reload? && !step.Restart?
    ensures Next(w, s, step).policy == s.policy
  {
    hide Next, Enabled, RequestMoved;
    StepFramed(w, s, step);
  }

  /** In every state of every run the policy in force is that of the last valid reload since the last start. */
  lemma {:induction false} PolicyInForce(w: World, states: seq<State>, steps: seq<Step>, n: nat)
    requires IsRun(w, states, steps) && n <= |steps| && n < |states|
    ensures states[n].policy.Some? <==> LastValid(steps, n).Some?
    ensures states[n].policy.Some? ==> states[n].policy.value.cfg == LastValid(steps, n).value
  {
    if n > 0 {
      hide Enabled, Next, Framed, ValidConfig, CompilePolicy, Initial;
      PolicyInForce(w, states, steps, n - 1);
      StepAt(w, states, steps, n - 1);
      if steps[n - 1].Reload? {
        hide IsRun;
        Reloads(w, states, steps, n - 1);
      } else if !steps[n - 1].Restart? {
        PolicyUntouched(w, states[n - 1], steps[n - 1]);
      } else {
        RestartHasNone(w, states[n - 1]);
      }
    }
  }

  lemma RestartHasNone(w: World, s: State)
    ensures Enabled(w, s, Restart) && Next(w, s, Restart) == RestartNext(s) && RestartNext(s).policy == None
  {
    hide CompilePolicy;
  }

  /**
   Authorization over runs: a request goes on exactly when the last valid configuration since the
   broker's start grants it, however many invalid ones have been tried since, and keeps that
   policy; it is answered 503 when there has been none, and 403 otherwise.
   */
  lemma Authorizations(w: World, states: seq<State>, steps: seq<Step>, n: nat)
    requires w.Sound() && IsRun(w, states, steps) && n < |steps| && steps[n].Permit?
    ensures var s, t, rid := states[n], states[n + 1], steps[n].rid;
            rid in s.requests && s.requests[rid].csr.Some?
            && var r := s.requests[rid];
               match LastValid(steps, n)
               case None => Refused(s, t, rid, r, IssueFailed, 503, steps[n].recording)
               case Some(cfg) =>
                 && s.policy.Some? && s.policy.value.cfg == cfg
                 && rid in t.requests
                 && var profile := t.requests[rid].profile;
                    if Grants(cfg, r.identity, r.profileName) && NamesAgree(cfg, r.profileName, r.csr.value) then
                      && GoesOn(s, t, rid, r.(policy := s.policy, profile := profile, stage := Permitted))
                      && t.log == s.log && profile.Some? && profile.value.name == r.profileName
                      && Elements(profile.value.dnsNames) == Denoted(cfg.profiles[r.profileName].dnsNames)
                    else
                      && Refused(s, t, rid, r.(policy := s.policy, profile := profile), CertificateDenied, 403,
                                 steps[n].recording)
                      && (profile.Some? <==> Grants(cfg, r.identity, r.profileName))
  {
    hide IsRun, Framed, CompilePolicy, World.Sound, Sane;
    StepAt(w, states, steps, n);
    AlwaysSane(w, states, steps, n);
    PolicyInForce(w, states, steps, n);
    var s, rid := states[n], steps[n].rid;
    PermitIs(w, s, steps[n]);
    hide Next, Enabled, LastValid, Grants, NamesAgree, PolicyAuthorize.Authorize;
    ParsedCsr(w, s, rid);
    if s.policy.Some? {
      var r, l := s.requests[rid], s.policy.value;
      PolicyIsCompiled(w, s);
      AuthorizeMeansConfig(w.hasher, l.cfg, r.identity, r.profileName, r.csr.value);
      RefusalMeansConfig(w.hasher, l.cfg, r.identity, r.profileName, r.csr.value);
    }
  }

  lemma PermitIs(w: World, s: State, step: Step)
    requires Enabled(w, s, step) && step.Permit?
    ensures At(s, step.rid, Parsed) && Next(w, s, step) == PermitNext(s, step.rid, step.recording)
  {
    hide PermitNext;
  }

  lemma ParsedCsr(w: World, s: State, rid: string)
    requires Sane(w, s) && At(s, rid, Parsed)
    ensures s.requests[rid].csr.Some?
  {
    hide FlightsOk, GroupOk, StoreOk, PolicyOk, PolicyPart, LogPart, Right, CertificateCacheKey.String;
    assert RequestOk(w, s, rid, s.requests[rid]);
  }

  lemma PolicyIsCompiled(w: World, s: State)
    requires Sane(w, s) && s.policy.Some?
    ensures CompilePolicy(w.hasher, s.policy.value.cfg) == Wrappers.Success(s.policy.value.compiled)
  {
    hide RequestsOk, FlightsOk, GroupOk, StoreOk, CompilePolicy, GoodProfile;
  }

  /******* Time, restarts and the log *******/

  /** A restart keeps the time, the store and the log, and nothing else that the broker reads. */
  lemma Restarts(w: World, states: seq<State>, steps: seq<Step>, n: nat)
    requires IsRun(w, states, steps) && n < |steps| && (steps[n].Restart? || steps[n].Tick?)
    ensures var s, t := states[n], states[n + 1];
            if steps[n].Tick? then t == s.(clock := s.clock + steps[n].elapsed)
            else
              && t.clock == s.clock && t.store == s.store && t.log == s.log
              && t.policy == None && t.table == RateLimit.EMPTY
              && t.requests == map[] && t.group == map[] && t.flights == []
  {
    hide IsRun, Framed, CompilePolicy;
    StepAt(w, states, steps, n);
  }
}
