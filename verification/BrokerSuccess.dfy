/** An admitted request whose flight has not failed can still be answered with a certificate. */
module BrokerSuccess {
  import opened Wrappers
  import opened Pki
  import opened CacheKey
  import opened DnsName
  import opened PolicyCompile
  import opened PolicyAuthorize
  import opened Broker
  import opened BrokerInvariant
  import opened BrokerRuns
  import opened BrokerProgress
  import RateLimit
  import Store

  /** A flight that has not failed. */
  predicate Alive(stage: FlightStage) {
    stage != Returning(None) && stage != Ended(None)
  }

  /** An admitted request for which nothing has gone wrong: neither its flight nor the one it would join. */
  predicate Hopeful(w: World, s: State, rid: string)
    requires rid in s.requests
  {
    var r := s.requests[rid];
    match r.stage
    case Admitted =>
      var key := KeyOf(w, r).String();
      key in s.group ==> s.group[key] < |s.flights| && Alive(s.flights[s.group[key]].stage)
    case Waiting(f) => f < |s.flights| && Alive(s.flights[f].stage)
    case Answered(_) => true
    case Logged(_) => true
    case Closed(status, _) => status == 200
    case _ => false
  }

  /** A recorder that lets requests go on: it succeeds, or the broker fails open. */
  ghost predicate Permissive(w: World, recorder: State -> Recording) {
    forall s: State :: recorder(s) == Done || !w.failClosed
  }

  /** The step that brings such a request forward when its issuer and its store do not fail on it. */
  function GoodStep(s: State, rid: string, make: Csr -> Bundle, recorder: State -> Recording): Step
    requires rid in s.requests
  {
    match s.requests[rid].stage
    case Admitted => Join(rid)
    case Waiting(f) =>
      if f >= |s.flights| then Tick(0)
      else
        (match s.flights[f].stage
         case Lookup => LookUp(f, true)
         case Calling => IssuerReturns(f, Some(make(s.flights[f].csr)))
         case Putting(_) => PutReturns(f, true, true)
         case Returning(_) => EndFlight(f)
         case Ended(_) => Collect(rid, recorder(s)))
    case Answered(_) => RecordIssued(rid, recorder(s))
    case Logged(_) => Respond(rid)
    case _ => Tick(0)
  }

  /** An issuer that could certify any request it may be given. */
  ghost predicate Willing(w: World, make: Csr -> Bundle) {
    forall csr: Csr :: csr.publicKey in w.publicKeys && CanonicalList(csr.dnsNames).Success? ==>
      Echoes(w, csr, make(csr))
  }

  ghost predicate Succeeding(w: World, s: State, step: Step, rid: string) {
    && rid in s.requests && Enabled(w, s, step) && !step.Restart? && Concerns(s, step, rid)
    && rid in Next(w, s, step).requests && Hopeful(w, Next(w, s, step), rid)
  }

  lemma JoinSucceeds(w: World, s: State, rid: string, make: Csr -> Bundle, recorder: State -> Recording)
    requires Sane(w, s) && At(s, rid, Admitted) && Hopeful(w, s, rid)
    ensures Succeeding(w, s, GoodStep(s, rid, make, recorder), rid)
  {
    hide CompilePolicy, CertificateCacheKey.String, Right, GoodLoaded, StoreOk, PolicyOk, FlightsOk;
    hide PolicyAuthorize.Authorize;
    assert RequestOk(w, s, rid, s.requests[rid]);
  }

  /** A flight that is calling asks for what the issuer can certify. */
  lemma AsksForCertifiable(w: World, s: State, f: nat, make: Csr -> Bundle)
    requires Sane(w, s) && FlightAt(s, f, Calling) && Willing(w, make)
    ensures Echoes(w, s.flights[f].csr, make(s.flights[f].csr))
  {
    hide RequestsOk, GroupOk, StoreOk, PolicyOk, Echoes, CanonicalList, Right, CertificateCacheKey.String;
    assert FlightOk(w, s, f);
  }

  lemma FlightSucceeds(w: World, s: State, rid: string, f: nat, make: Csr -> Bundle, recorder: State -> Recording)
    requires rid in s.requests && s.requests[rid].stage == Waiting(f) && Hopeful(w, s, rid)
    requires !s.flights[f].stage.Ended?
    requires FlightAt(s, f, Calling) ==> Echoes(w, s.flights[f].csr, make(s.flights[f].csr))
    ensures Succeeding(w, s, GoodStep(s, rid, make, recorder), rid)
  {
    hide CompilePolicy, CertificateCacheKey.String, Store.Serve, Echoes;
  }

  lemma CollectSucceeds(w: World, s: State, rid: string, f: nat, make: Csr -> Bundle, recorder: State -> Recording)
    requires rid in s.requests && s.requests[rid].stage == Waiting(f) && Hopeful(w, s, rid) && s.flights[f].stage.Ended?
    ensures Succeeding(w, s, GoodStep(s, rid, make, recorder), rid)
  {
    hide CompilePolicy, CertificateCacheKey.String, EventOf;
  }

  lemma ExitSucceeds(w: World, s: State, rid: string, make: Csr -> Bundle, recorder: State -> Recording)
    requires rid in s.requests && (s.requests[rid].stage.Answered? || s.requests[rid].stage.Logged?)
    requires Permissive(w, recorder)
    ensures Succeeding(w, s, GoodStep(s, rid, make, recorder), rid)
  {
    hide CompilePolicy, CertificateCacheKey.String, EventOf;
  }

  lemma StaysHopeful(w: World, s: State, rid: string, make: Csr -> Bundle, recorder: State -> Recording)
    requires Sane(w, s) && Willing(w, make) && Permissive(w, recorder) && rid in s.requests
    requires Hopeful(w, s, rid) && !s.requests[rid].stage.Closed?
    ensures Succeeding(w, s, GoodStep(s, rid, make, recorder), rid)
    ensures Rank(Next(w, s, GoodStep(s, rid, make, recorder)), rid) < Rank(s, rid)
  {
    var stage := s.requests[rid].stage;
    if stage.Waiting? {
      assert stage.flight < |s.flights|;
      hide Sane, Willing, Permissive, Hopeful, Succeeding, GoodStep;
      if s.flights[stage.flight].stage.Ended? {
        CollectSucceeds(w, s, rid, stage.flight, make, recorder);
      } else {
        if s.flights[stage.flight].stage.Calling? { AsksForCertifiable(w, s, stage.flight, make); }
        FlightSucceeds(w, s, rid, stage.flight, make, recorder);
      }
    } else if stage.Admitted? {
      hide Sane, Willing, Permissive, Hopeful, Succeeding, GoodStep;
      JoinSucceeds(w, s, rid, make, recorder);
    } else {
      assert stage.Answered? || stage.Logged?;
      hide Sane, Willing, Permissive, Hopeful, Succeeding, GoodStep;
      ExitSucceeds(w, s, rid, make, recorder);
    }
    GoodStepAdvances(w, s, GoodStep(s, rid, make, recorder), rid);
  }

  lemma GoodStepAdvances(w: World, s: State, step: Step, rid: string)
    requires Sane(w, s) && Succeeding(w, s, step, rid)
    ensures rid in s.requests && Enabled(w, s, step) && rid in Next(w, s, step).requests
    ensures Rank(Next(w, s, step), rid) < Rank(s, rid)
  {
    hide Next, Enabled, Sane, Hopeful, Rank, Concerns;
    StepsOnlyAdvance(w, s, step, rid);
  }

  /**
   From any state a run can reach, with an issuer that can certify what it is asked for, an
   admitted request whose flight has not failed can be brought to a 200 response with a
   certificate, in no more steps than its rank; failing open, whatever the recorder does.
   */
  lemma {:induction false} CanBeCertified(
      w: World, states: seq<State>, steps: seq<Step>, rid: string, make: Csr -> Bundle, recorder: State -> Recording)
    returns (more: seq<State>, taken: seq<Step>)
    requires w.Sound() && Willing(w, make) && Permissive(w, recorder) && IsRun(w, states, steps) && |states| > 0
    requires rid in states[|states| - 1].requests && Hopeful(w, states[|states| - 1], rid)
    ensures IsRun(w, more, taken) && states <= more && steps <= taken && |more| > 0
    ensures |more| - |states| <= Rank(states[|states| - 1], rid)
    ensures rid in more[|more| - 1].requests
    ensures var stage := more[|more| - 1].requests[rid].stage;
            stage.Closed? && stage.status == 200 && stage.body.Some?
            && Response(rid, 200, stage.body) in more[|more| - 1].responses
    decreases Rank(states[|states| - 1], rid)
  {
    hide IsRun, World.Sound, Willing, Permissive, GoodStep, Sane;
    var s := states[|states| - 1];
    RunLength(w, states, steps);
    if s.requests[rid].stage.Closed? {
      more, taken := states, steps;
      AlwaysAnswered(w, states, steps, |states| - 1);
    } else {
      AlwaysSane(w, states, steps, |states| - 1);
      StaysHopeful(w, s, rid, make, recorder);
      var step := GoodStep(s, rid, make, recorder);
      hide Enabled, Next, Hopeful, Rank;
      RunTakes(w, states, steps, step);
      more, taken := CanBeCertified(w, states + [Next(w, s, step)], steps + [step], rid, make, recorder);
    }
  }
}
