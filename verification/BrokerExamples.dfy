/** Runs of the broker that do happen, each of them possible under any limits. */
module BrokerExamples {
  import opened Wrappers
  import opened Durations
  import opened Pki
  import opened CacheKey
  import opened DnsName
  import opened PolicyTypes
  import opened PolicyCompile
  import opened PolicyAuthorize
  import opened Broker
  import opened BrokerInvariant
  import opened BrokerRuns
  import opened BrokerProgress
  import opened BrokerLives
  import RateLimit
  import Store

  /** A policy that can be loaded and grants this request. */
  ghost predicate Granted(w: World, cfg: Config, identity: string, profileName: string, csr: Csr) {
    && identity != "" && profileName != "" && csr.publicKey in w.publicKeys
    && CompilePolicy(w.hasher, cfg).Success?
    && (forall k :: k in CompilePolicy(w.hasher, cfg).value.profiles ==>
          CompilePolicy(w.hasher, cfg).value.profiles[k].HashInput() in w.inputs)
    && PolicyAuthorize.Authorize(CompilePolicy(w.hasher, cfg).value, identity, profileName, Some(csr)).Allowed?
  }

  /** The request as it leaves the limiter. */
  ghost function AdmittedRequest(
      w: World, now: int, loaded: Loaded, identity: string, profileName: string, csr: Csr): Request
    requires PolicyAuthorize.Authorize(loaded.compiled, identity, profileName, Some(csr)).Allowed?
  {
    var profile := PolicyAuthorize.Authorize(loaded.compiled, identity, profileName, Some(csr)).profile;
    Request(Admitted, identity, profileName, Some(csr), Some(loaded), Some(profile), w.fingerprint(csr.publicKey), now)
  }

  function Last(states: seq<State>): State
    requires states != []
  {
    states[|states| - 1]
  }

  /** A longer run, without a restart in what is new. */
  ghost predicate Longer(states: seq<State>, steps: seq<Step>, more: seq<State>, taken: seq<Step>) {
    && states != [] && states <= more && steps <= taken
    && forall k :: |steps| <= k < |taken| ==> !taken[k].Restart?
  }

  lemma TakeAny(w: World, states: seq<State>, steps: seq<Step>, step: Step)
    returns (more: seq<State>, taken: seq<Step>)
    requires states != [] && IsRun(w, states, steps) && Enabled(w, Last(states), step)
    ensures IsRun(w, more, taken)
    ensures more == states + [Next(w, Last(states), step)] && taken == steps + [step]
  {
    hide IsRun, Enabled, Next;
    RunLength(w, states, steps);
    RunTakes(w, states, steps, step);
    more, taken := states + [Next(w, Last(states), step)], steps + [step];
  }

  lemma Take(w: World, states: seq<State>, steps: seq<Step>, step: Step)
    returns (more: seq<State>, taken: seq<Step>)
    requires states != [] && IsRun(w, states, steps) && Enabled(w, Last(states), step) && !step.Restart?
    ensures more != [] && IsRun(w, more, taken) && Last(more) == Next(w, Last(states), step)
    ensures Longer(states, steps, more, taken)
  {
    hide IsRun, Enabled, Next;
    more, taken := TakeAny(w, states, steps, step);
  }

  lemma StillLonger(
      s0: seq<State>, t0: seq<Step>, s1: seq<State>, t1: seq<Step>, s2: seq<State>, t2: seq<Step>)
    requires Longer(s0, t0, s1, t1) && Longer(s1, t1, s2, t2)
    ensures Longer(s0, t0, s2, t2)
  {
  }

  /******* One request let in *******/

  /** A request from its arrival to its admission, with everything else left as it was. */
  ghost predicate Entered(s: State, t: State, rid: string, r: Request) {
    && t.requests == s.requests[rid := r]
    && t.policy == s.policy && t.flights == s.flights && t.group == s.group && t.store == s.store
    && t.issuerCalls == s.issuerCalls && t.clock == s.clock
    && forall e :: e in t.log ==> e in s.log || e.requestId == rid
  }

  predicate SameLimiter(s: State, t: State) {
    t.table == s.table && t.admissions == s.admissions
  }

  /** No time is later than this. */
  ghost predicate By(times: seq<int>, time: int) {
    forall i :: 0 <= i < |times| ==> times[i] <= time
  }

  /** No admission in the table is later than this. */
  ghost predicate TimesBy(t: RateLimit.Table, time: int) {
    && (forall k :: k in t.identity ==> By(t.identity[k], time))
    && (forall k :: k in t.profile ==> By(t.profile[k], time))
  }

  /** The limiter has room for anything: all it remembers is an hour old. */
  ghost predicate Roomy(s: State) {
    TimesBy(s.table, s.clock - HOUR)
  }

  lemma {:induction false} KeptBy(times: seq<int>, after: int, time: int)
    requires By(times, time)
    ensures By(RateLimit.Kept(times, after), time)
    ensures time <= after ==> RateLimit.Kept(times, after) == []
    decreases |times|
  {
    if times != [] { KeptBy(times[..|times| - 1], after, time); }
  }

  lemma RoomForAnything(w: World, s: State, identity: string, profile: string)
    requires Roomy(s)
    ensures RateLimit.Allow(w.limits, s.table, identity, profile, s.clock).verdict == RateLimit.Verdict.Admitted
  {
    hide RateLimit.Kept, RateLimit.PairKey;
    KeptBy(RateLimit.At(s.table.identity, identity), s.clock - HOUR, s.clock - HOUR);
    KeptBy(RateLimit.At(s.table.profile, RateLimit.PairKey(identity, profile)), s.clock - HOUR, s.clock - HOUR);
  }

  lemma AllowedBy(l: RateLimit.Limits, t: RateLimit.Table, identity: string, profile: string, now: int)
    requires TimesBy(t, now)
    ensures TimesBy(RateLimit.Allow(l, t, identity, profile, now).table, now)
  {
    hide RateLimit.Kept, RateLimit.PairKey, RateLimit.Decide;
    KeptBy(RateLimit.At(t.identity, identity), now - HOUR, now);
    KeptBy(RateLimit.At(t.profile, RateLimit.PairKey(identity, profile)), now - HOUR, now);
  }

  lemma RoomyIsBy(s: State)
    requires Roomy(s)
    ensures TimesBy(s.table, s.clock)
  {
  }

  lemma ArrivesAndIsParsed(
      w: World, states: seq<State>, steps: seq<Step>, rid: string, identity: string, profileName: string, csr: Csr)
    returns (more: seq<State>, taken: seq<Step>)
    requires states != [] && IsRun(w, states, steps) && Unused(Last(states), rid)
    requires identity != "" && profileName != "" && csr.publicKey in w.publicKeys
    ensures more != [] && IsRun(w, more, taken) && Longer(states, steps, more, taken)
    ensures Entered(Last(states), Last(more), rid, Request(Parsed, identity, profileName, Some(csr), None, None, "", 0))
    ensures SameLimiter(Last(states), Last(more))
  {
    hide IsRun, CompilePolicy;
    more, taken := Take(w, states, steps, Arrive(rid));
    more, taken := Take(w, more, taken, Authenticate(rid, Some(identity), Done));
    more, taken := Take(w, more, taken, Parse(rid, Wellformed(profileName, csr), Done));
  }

  lemma IsPermitted(w: World, states: seq<State>, steps: seq<Step>, rid: string, loaded: Loaded)
    returns (more: seq<State>, taken: seq<Step>)
    requires states != [] && IsRun(w, states, steps) && At(Last(states), rid, Parsed)
    requires Last(states).policy == Some(loaded)
    requires var r := Last(states).requests[rid];
             r.csr.Some? && PolicyAuthorize.Authorize(loaded.compiled, r.identity, r.profileName, r.csr).Allowed?
    ensures more != [] && IsRun(w, more, taken) && Longer(states, steps, more, taken)
    ensures var r := Last(states).requests[rid];
            Entered(Last(states), Last(more), rid,
                    AdmittedRequest(w, r.admittedAt, loaded, r.identity, r.profileName, r.csr.value)
                      .(stage := Permitted, publicKeyFP := r.publicKeyFP))
    ensures SameLimiter(Last(states), Last(more))
  {
    hide IsRun, CompilePolicy, PolicyAuthorize.Authorize;
    more, taken := Take(w, states, steps, Permit(rid, Done));
  }

  lemma IsRecorded(w: World, states: seq<State>, steps: seq<Step>, rid: string)
    returns (more: seq<State>, taken: seq<Step>)
    requires states != [] && IsRun(w, states, steps) && At(Last(states), rid, Permitted)
    requires Last(states).requests[rid].csr.Some?
    ensures more != [] && IsRun(w, more, taken) && Longer(states, steps, more, taken)
    ensures var r := Last(states).requests[rid];
            Entered(Last(states), Last(more), rid,
                    r.(stage := Recorded, publicKeyFP := w.fingerprint(r.csr.value.publicKey)))
    ensures SameLimiter(Last(states), Last(more))
  {
    hide IsRun, CompilePolicy;
    more, taken := Take(w, states, steps, Fingerprint(rid, true, Done));
    more, taken := Take(w, more, taken, RecordAuthorized(rid, Done));
  }

  lemma IsAdmitted(w: World, states: seq<State>, steps: seq<Step>, rid: string)
    returns (more: seq<State>, taken: seq<Step>)
    requires states != [] && IsRun(w, states, steps) && At(Last(states), rid, Recorded) && Roomy(Last(states))
    ensures more != [] && IsRun(w, more, taken) && Longer(states, steps, more, taken)
    ensures var s, t := Last(states), Last(more);
            var r := s.requests[rid];
            && Entered(s, t, rid, r.(stage := Admitted, admittedAt := s.clock)) && TimesBy(t.table, t.clock)
            && t.admissions == s.admissions + [Admission(rid, RateLimit.Call(r.identity, r.profileName, s.clock))]
  {
    var s := Last(states);
    RoomyIsBy(s);
    hide IsRun, CompilePolicy, RateLimit.Allow, Roomy, TimesBy;
    var r := s.requests[rid];
    RoomForAnything(w, s, r.identity, r.profileName);
    AllowedBy(w.limits, s.table, r.identity, r.profileName, s.clock);
    more, taken := Take(w, states, steps, CheckRate(rid, Done));
  }

  lemma EntersTwice(s: State, t: State, u: State, rid: string, r: Request, q: Request)
    requires Entered(s, t, rid, r) && Entered(t, u, rid, q)
    ensures Entered(s, u, rid, q)
  {
    assert u.requests == s.requests[rid := q];
  }

  lemma IsLetIn(w: World, states: seq<State>, steps: seq<Step>, rid: string, loaded: Loaded,
                identity: string, profileName: string, csr: Csr)
    returns (more: seq<State>, taken: seq<Step>)
    requires states != [] && IsRun(w, states, steps) && Unused(Last(states), rid) && Roomy(Last(states))
    requires identity != "" && profileName != "" && csr.publicKey in w.publicKeys
    requires Last(states).policy == Some(loaded)
    requires PolicyAuthorize.Authorize(loaded.compiled, identity, profileName, Some(csr)).Allowed?
    ensures more != [] && IsRun(w, more, taken) && Longer(states, steps, more, taken)
    ensures Entered(Last(states), Last(more), rid,
                    AdmittedRequest(w, Last(states).clock, loaded, identity, profileName, csr))
    ensures TimesBy(Last(more).table, Last(more).clock)
    ensures Last(more).admissions
            == Last(states).admissions + [Admission(rid, RateLimit.Call(identity, profileName, Last(states).clock))]
  {
    hide IsRun, PolicyAuthorize.Authorize, TimesBy, Longer;
    var s := Last(states);
    var s1, t1 := ArrivesAndIsParsed(w, states, steps, rid, identity, profileName, csr);
    var parsed := Last(s1);
    var s2, t2 := IsPermitted(w, s1, t1, rid, loaded);
    StillLonger(states, steps, s1, t1, s2, t2);
    var permitted := Last(s2);
    EntersTwice(s, parsed, permitted, rid, parsed.requests[rid], permitted.requests[rid]);
    var s3, t3 := IsRecorded(w, s2, t2, rid);
    StillLonger(states, steps, s2, t2, s3, t3);
    var recorded := Last(s3);
    EntersTwice(s, permitted, recorded, rid, permitted.requests[rid], recorded.requests[rid]);
    more, taken := IsAdmitted(w, s3, t3, rid);
    StillLonger(states, steps, s3, t3, more, taken);
    EntersTwice(s, recorded, Last(more), rid, recorded.requests[rid], Last(more).requests[rid]);
  }

  const BLANK := State(0, None, RateLimit.EMPTY, map[], map[], [], map[], [], [], [], [], [], [])

  lemma PolicyLoaded(w: World, cfg: Config)
    returns (states: seq<State>, steps: seq<Step>)
    requires CompilePolicy(w.hasher, cfg).Success?
    requires forall k :: k in CompilePolicy(w.hasher, cfg).value.profiles ==>
               CompilePolicy(w.hasher, cfg).value.profiles[k].HashInput() in w.inputs
    ensures states == [BLANK, BLANK.(policy := Some(Loaded(cfg, CompilePolicy(w.hasher, cfg).value)))]
    ensures steps == [Reload(cfg)] && IsRun(w, states, steps)
  {
    hide CompilePolicy;
    states, steps := TakeAny(w, [BLANK], [], Reload(cfg));
  }

  /******* One call to the issuer and two events *******/

  /** The first request of its key leads a flight. */
  lemma LeadsFlight(w: World, states: seq<State>, steps: seq<Step>, rid: string)
    returns (more: seq<State>, taken: seq<Step>)
    requires states != [] && IsRun(w, states, steps) && At(Last(states), rid, Admitted)
    requires Last(states).requests[rid].csr.Some? && Last(states).requests[rid].profile.Some?
    requires Last(states).flights == [] && Last(states).group == map[]
    ensures more != [] && IsRun(w, more, taken)
    ensures var s, t := Last(states), Last(more);
            && |t.flights| == 1 && t.flights[0].stage == FlightStage.Lookup
            && t.flights[0].csr == s.requests[rid].csr.value
            && t.group == map[KeyOf(w, s.requests[rid]).String() := 0]
            && t.requests == s.requests[rid := s.requests[rid].(stage := Waiting(0))]
            && t.policy == s.policy && t.store == s.store && t.issuerCalls == s.issuerCalls && t.log == s.log
            && t.clock == s.clock && SameLimiter(s, t)
  {
    hide IsRun, CompilePolicy, CertificateCacheKey.String;
    more, taken := Take(w, states, steps, Join(rid));
  }

  /** Another request of that key follows it. */
  lemma FollowsFlight(w: World, states: seq<State>, steps: seq<Step>, rid: string)
    returns (more: seq<State>, taken: seq<Step>)
    requires states != [] && IsRun(w, states, steps) && At(Last(states), rid, Admitted)
    requires Last(states).group == map[KeyOf(w, Last(states).requests[rid]).String() := 0]
    ensures more != [] && IsRun(w, more, taken)
    ensures var s, t := Last(states), Last(more);
            && t.requests == s.requests[rid := s.requests[rid].(stage := Waiting(0))]
            && t.flights == s.flights && t.store == s.store && t.issuerCalls == s.issuerCalls && t.log == s.log
  {
    hide IsRun, CompilePolicy, CertificateCacheKey.String;
    more, taken := Take(w, states, steps, Join(rid));
  }

  lemma CallsIssuer(w: World, states: seq<State>, steps: seq<Step>, bundle: Bundle)
    returns (more: seq<State>, taken: seq<Step>)
    requires states != [] && IsRun(w, states, steps)
    requires |Last(states).flights| == 1 && Last(states).flights[0].stage == FlightStage.Lookup
    requires Echoes(w, Last(states).flights[0].csr, bundle) && Last(states).store == map[]
    ensures more != [] && IsRun(w, more, taken)
    ensures var s, t := Last(states), Last(more);
            && |t.issuerCalls| == |s.issuerCalls| + 1 && t.log == s.log && t.requests == s.requests
            && |t.flights| == 1 && t.flights[0].stage == Putting(bundle)
  {
    hide IsRun, CompilePolicy, CertificateCacheKey.String, Echoes;
    more, taken := Take(w, states, steps, LookUp(0, true));
    more, taken := Take(w, more, taken, IssuerReturns(0, Some(bundle)));
  }

  /** A flight with nothing stored calls the issuer once and ends with what it made. */
  lemma FliesOnce(w: World, states: seq<State>, steps: seq<Step>, bundle: Bundle)
    returns (more: seq<State>, taken: seq<Step>)
    requires states != [] && IsRun(w, states, steps)
    requires |Last(states).flights| == 1 && Last(states).flights[0].stage == FlightStage.Lookup
    requires Echoes(w, Last(states).flights[0].csr, bundle) && Last(states).store == map[]
    ensures more != [] && IsRun(w, more, taken)
    ensures var s, t := Last(states), Last(more);
            && |t.issuerCalls| == |s.issuerCalls| + 1 && t.log == s.log && t.requests == s.requests
            && t.flights != [] && t.flights[0].stage == Ended(Some(Issued(bundle, false)))
  {
    hide IsRun, CompilePolicy, CertificateCacheKey.String, Echoes, LookUpNext;
    more, taken := CallsIssuer(w, states, steps, bundle);
    more, taken := Take(w, more, taken, PutReturns(0, true, true));
    more, taken := Take(w, more, taken, EndFlight(0));
  }

  lemma RecordsFresh(w: World, states: seq<State>, steps: seq<Step>, rid: string, bundle: Bundle)
    returns (more: seq<State>, taken: seq<Step>)
    requires states != [] && IsRun(w, states, steps) && At(Last(states), rid, Waiting(0))
    requires Last(states).flights != [] && Last(states).flights[0].stage == Ended(Some(Issued(bundle, false)))
    ensures more != [] && IsRun(w, more, taken)
    ensures Last(more).issuerCalls == Last(states).issuerCalls && Last(more).flights == Last(states).flights
    ensures rid in Last(more).requests && Last(more).requests == Last(states).requests[rid := Last(more).requests[rid]]
    ensures exists e: Event :: Last(more).log == Last(states).log + [e]
              && e.requestId == rid && e.kind == CertificateIssued
  {
    hide IsRun, CompilePolicy;
    more, taken := Take(w, states, steps, Collect(rid, Done));
    more, taken := Take(w, more, taken, RecordIssued(rid, Done));
  }

  lemma HourPasses(w: World, states: seq<State>, steps: seq<Step>)
    returns (more: seq<State>, taken: seq<Step>)
    requires states != [] && IsRun(w, states, steps) && TimesBy(Last(states).table, Last(states).clock)
    ensures more != [] && IsRun(w, more, taken)
    ensures Last(more) == Last(states).(clock := Last(states).clock + HOUR) && Roomy(Last(more))
  {
    hide IsRun, CompilePolicy, TimesBy;
    more, taken := Take(w, states, steps, Tick(HOUR));
  }

  /**
   Issued events are not calls: wherever two requests can be granted one certificate, there is a
   run with one call to the issuer and two events of an issued certificate. The second request
   comes an hour after the first, so that no limit stops it, and finds its flight still there.
   */
  lemma FollowersLogToo(w: World, cfg: Config, identity: string, profileName: string, csr: Csr, bundle: Bundle)
    returns (states: seq<State>, steps: seq<Step>)
    requires Granted(w, cfg, identity, profileName, csr) && Echoes(w, csr, bundle)
    ensures states != [] && IsRun(w, states, steps)
    ensures var t := Last(states);
            |t.issuerCalls| == 1
            && exists i, j :: 0 <= i < j < |t.log|
                 && t.log[i].kind == t.log[j].kind == CertificateIssued && t.log[i].requestId != t.log[j].requestId
  {
    hide IsRun, CompilePolicy, PolicyAuthorize.Authorize, Echoes, CertificateCacheKey.String, Longer;
    var a, b := "a", "b";
    var loaded := Loaded(cfg, CompilePolicy(w.hasher, cfg).value);
    states, steps := PolicyLoaded(w, cfg);
    states, steps := IsLetIn(w, states, steps, a, loaded, identity, profileName, csr);
    hide TimesBy, Roomy;
    var admitted := Last(states).requests[a];
    states, steps := LeadsFlight(w, states, steps, a);
    states, steps := HourPasses(w, states, steps);
    states, steps := IsLetIn(w, states, steps, b, loaded, identity, profileName, csr);
    assert KeyOf(w, Last(states).requests[b]) == KeyOf(w, admitted);
    states, steps := FollowsFlight(w, states, steps, b);
    states, steps := FliesOnce(w, states, steps, bundle);
    states, steps := RecordsFresh(w, states, steps, a, bundle);
    var log := Last(states).log;
    states, steps := RecordsFresh(w, states, steps, b, bundle);
    assert Last(states).log[|log| - 1] == log[|log| - 1];
    assert Last(states).log[|log|].requestId == b;
  }

  /******* What restarts forget *******/

  lemma RestartsAndLoads(w: World, states: seq<State>, steps: seq<Step>, cfg: Config)
    returns (more: seq<State>, taken: seq<Step>)
    requires states != [] && IsRun(w, states, steps)
    requires CompilePolicy(w.hasher, cfg).Success?
    requires forall k :: k in CompilePolicy(w.hasher, cfg).value.profiles ==>
               CompilePolicy(w.hasher, cfg).value.profiles[k].HashInput() in w.inputs
    ensures more != [] && IsRun(w, more, taken)
    ensures Last(more) == RestartNext(Last(states)).(policy := Some(Loaded(cfg, CompilePolicy(w.hasher, cfg).value)))
    ensures |steps| < |states| && |taken| < |more| && |taken| == |steps| + 2
    ensures RestartsIn(taken, |taken|) == RestartsIn(steps, |steps|) + 1
    ensures Past(more, taken, |taken|) == Past(states, steps, |steps|) + Last(states).admissions
  {
    hide IsRun, CompilePolicy;
    RunLength(w, states, steps);
    var s1, t1 := TakeAny(w, states, steps, Restart);
    more, taken := TakeAny(w, s1, t1, Reload(cfg));
    PastPrefix(states, steps, more, taken, |steps|);
  }

  /** Request IDs that tell the lives of a broker apart. */
  function NthId(n: nat): string {
    seq(n, _ => 'a')
  }

  /**
   The hourly limits end with a life of the broker: under any limits, for any n, there is a run
   with n - 1 restarts that admits n like requests at one time.
   */
  lemma {:induction false} RestartsForget(
      w: World, cfg: Config, identity: string, profileName: string, csr: Csr, n: nat)
    returns (states: seq<State>, steps: seq<Step>)
    requires n > 0 && Granted(w, cfg, identity, profileName, csr)
    ensures states != [] && IsRun(w, states, steps) && |steps| < |states|
    ensures RestartsIn(steps, |steps|) == n - 1
    ensures AllAdmissions(states, steps)
            == seq(n, i requires 0 <= i < n => Admission(NthId(i + 1), RateLimit.Call(identity, profileName, 0)))
    ensures Last(states).clock == 0 && forall e :: e in Last(states).log ==> |e.requestId| <= n
  {
    hide IsRun, CompilePolicy, PolicyAuthorize.Authorize, Longer, RestartsIn, Past;
    var loaded := Loaded(cfg, CompilePolicy(w.hasher, cfg).value);
    var s0: seq<State>, t0: seq<Step>;
    var past: seq<Admission> := [];
    if n == 1 {
      s0, t0 := PolicyLoaded(w, cfg);
      NoPast(s0, t0);
    } else {
      s0, t0 := RestartsForget(w, cfg, identity, profileName, csr, n - 1);
      past := AllAdmissions(s0, t0);
      s0, t0 := RestartsAndLoads(w, s0, t0, cfg);
    }
    assert Roomy(Last(s0));
    states, steps := IsLetIn(w, s0, t0, NthId(n), loaded, identity, profileName, csr);
    RunLength(w, states, steps);
    RunLength(w, s0, t0);
    PastLonger(s0, t0, states, steps);
    assert AllAdmissions(states, steps) == past + [Admission(NthId(n), RateLimit.Call(identity, profileName, 0))];
  }

  lemma NoPast(states: seq<State>, steps: seq<Step>)
    requires |steps| == 1 && |states| == 2 && steps[0].Reload?
    ensures Past(states, steps, 1) == [] && RestartsIn(steps, 1) == 0
  {
  }

  lemma {:induction false} PastLonger(
      states: seq<State>, steps: seq<Step>, more: seq<State>, taken: seq<Step>)
    requires |steps| < |states| && |taken| < |more| && Longer(states, steps, more, taken)
    ensures Past(more, taken, |taken|) == Past(states, steps, |steps|)
    ensures RestartsIn(taken, |taken|) == RestartsIn(steps, |steps|)
  {
    PastPrefix(states, steps, more, taken, |steps|);
    PastQuiet(more, taken, |steps|, |taken|);
  }
}
