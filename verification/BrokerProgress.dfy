/** No request is ever stuck: whatever has happened so far, it can still be brought to its response. */
module BrokerProgress {
  import opened Wrappers
  import opened CacheKey
  import opened PolicyTypes
  import opened PolicyCompile
  import opened PolicyAuthorize
  import opened Broker
  import opened BrokerInvariant
  import opened BrokerRuns
  import RateLimit
  import Store

  /** How many steps at most a flight still needs. */
  function FlightRank(stage: FlightStage): nat {
    match stage
    case Lookup => 4
    case Calling => 3
    case Putting(_) => 2
    case Returning(_) => 1
    case Ended(_) => 0
  }

  /** How many steps at most a request and the flight it waits for still need. */
  function Rank(s: State, rid: string): nat
    requires rid in s.requests
  {
    match s.requests[rid].stage
    case Arrived => 14
    case Identified => 13
    case Parsed => 12
    case Permitted => 11
    case Fingerprinted => 10
    case Recorded => 9
    case Admitted => 8
    case Waiting(f) => 3 + if f < |s.flights| then FlightRank(s.flights[f].stage) else 0
    case Answered(_) => 2
    case Logged(_) => 1
    case Closed(_, _) => 0
  }

  ghost predicate Advances(w: World, s: State, step: Step, rid: string) {
    && rid in s.requests && Enabled(w, s, step)
    && rid in Next(w, s, step).requests && Rank(Next(w, s, step), rid) < Rank(s, rid)
  }

  /** The step that brings an open request forward; the recorder, the issuer and the store may fail on it. */
  function NextStep(s: State, rid: string): Step
    requires rid in s.requests
  {
    match s.requests[rid].stage
    case Arrived => Authenticate(rid, None, NotDone)
    case Identified => Parse(rid, Unreadable, NotDone)
    case Parsed => Permit(rid, Done)
    case Permitted => Fingerprint(rid, true, Done)
    case Fingerprinted => RecordAuthorized(rid, Done)
    case Recorded => CheckRate(rid, Done)
    case Admitted => Join(rid)
    case Waiting(f) =>
      if f >= |s.flights| then Tick(0)
      else
        (match s.flights[f].stage
         case Lookup => LookUp(f, true)
         case Calling => IssuerReturns(f, None)
         case Putting(_) => PutReturns(f, true, true)
         case Returning(_) => EndFlight(f)
         case Ended(_) => Collect(rid, Done))
    case Answered(_) => RecordIssued(rid, Done)
    case Logged(_) => Respond(rid)
    case Closed(_, _) => Tick(0)
  }

  lemma EntryEnabled(w: World, s: State, rid: string)
    requires rid in s.requests && BeforeLimit(s.requests[rid].stage)
    ensures var step := NextStep(s, rid);
            Enabled(w, s, step) && MovesRequest(step) && step.rid == rid
  {
    hide CompilePolicy;
  }

  lemma EntryAdvances(w: World, s: State, rid: string)
    requires rid in s.requests && BeforeLimit(s.requests[rid].stage)
    ensures Advances(w, s, NextStep(s, rid), rid)
  {
    hide Next, Enabled, NextStep, CheckRateNext;
    EntryEnabled(w, s, rid);
    if s.requests[rid].stage.Recorded? {
      RecordedChecks(w, s, NextStep(s, rid));
      OwnCheck(w, s, rid, NextStep(s, rid).recording);
    } else {
      OwnEntry(w, s, NextStep(s, rid));
    }
  }

  lemma JoinAdvances(w: World, s: State, rid: string)
    requires Sane(w, s) && At(s, rid, Admitted)
    ensures Advances(w, s, NextStep(s, rid), rid)
  {
    hide CompilePolicy, CertificateCacheKey.String, Right, GoodLoaded, StoreOk, PolicyOk, FlightsOk;
    hide PolicyAuthorize.Authorize;
    assert RequestOk(w, s, rid, s.requests[rid]);
  }

  lemma WaitAdvances(w: World, s: State, rid: string)
    requires Sane(w, s) && rid in s.requests && s.requests[rid].stage.Waiting?
    ensures Advances(w, s, NextStep(s, rid), rid)
  {
    assert RequestOk(w, s, rid, s.requests[rid]);
    var f := s.requests[rid].stage.flight;
    assert f < |s.flights|;
    hide Sane, RequestOk;
    if s.flights[f].stage.Ended? {
      CollectAdvances(w, s, rid);
    } else {
      FlightAdvances(w, s, rid, f);
    }
  }

  lemma CollectAdvances(w: World, s: State, rid: string)
    requires rid in s.requests && s.requests[rid].stage.Waiting?
    requires s.requests[rid].stage.flight < |s.flights| && s.flights[s.requests[rid].stage.flight].stage.Ended?
    ensures Advances(w, s, NextStep(s, rid), rid)
  {
    hide CompilePolicy, EventOf;
  }

  lemma FlightAdvances(w: World, s: State, rid: string, f: nat)
    requires rid in s.requests && s.requests[rid].stage == Waiting(f) && f < |s.flights| && !s.flights[f].stage.Ended?
    ensures Advances(w, s, NextStep(s, rid), rid)
  {
    hide CompilePolicy, CertificateCacheKey.String, Store.Serve, Echoes;
  }

  lemma ExitAdvances(w: World, s: State, rid: string)
    requires rid in s.requests && (s.requests[rid].stage.Answered? || s.requests[rid].stage.Logged?)
    ensures Advances(w, s, NextStep(s, rid), rid)
  {
    hide CompilePolicy, EventOf;
  }

  /**
   In every reachable state each open request has a step, its own or its flight's, that brings it
   nearer to its end.
   */
  lemma NeverStuck(w: World, states: seq<State>, steps: seq<Step>, n: nat, rid: string)
    requires w.Sound() && IsRun(w, states, steps) && n < |states|
    requires rid in states[n].requests && !states[n].requests[rid].stage.Closed?
    ensures Advances(w, states[n], NextStep(states[n], rid), rid)
  {
    hide IsRun, World.Sound, Sane, Advances, NextStep;
    AlwaysSane(w, states, steps, n);
    var s := states[n];
    if BeforeLimit(s.requests[rid].stage) {
      EntryAdvances(w, s, rid);
    } else if s.requests[rid].stage.Admitted? {
      JoinAdvances(w, s, rid);
    } else if s.requests[rid].stage.Waiting? {
      WaitAdvances(w, s, rid);
    } else {
      ExitAdvances(w, s, rid);
    }
  }

  /******* Nothing ever goes back *******/

  /** A step of the request itself, or of the flight it waits for. */
  predicate Concerns(s: State, step: Step, rid: string)
    requires rid in s.requests
  {
    || (MovesRequest(step) && step.rid == rid)
    || (MovesFlight(step) && s.requests[rid].stage == Waiting(step.flight))
  }

  ghost predicate Forward(s: State, t: State, rid: string) {
    rid in s.requests && rid in t.requests && Rank(t, rid) < Rank(s, rid)
  }

  lemma OwnAuthenticate(s: State, rid: string, identity: Option<string>, recording: Recording)
    requires At(s, rid, Arrived)
    ensures Forward(s, AuthenticateNext(s, rid, identity, recording), rid)
  {
    hide EventOf;
  }

  lemma OwnParse(s: State, rid: string, body: Body, recording: Recording)
    requires At(s, rid, Identified)
    ensures Forward(s, ParseNext(s, rid, body, recording), rid)
  {
    hide EventOf;
  }

  lemma OwnPermit(s: State, rid: string, recording: Recording)
    requires At(s, rid, Parsed)
    ensures Forward(s, PermitNext(s, rid, recording), rid)
  {
    hide EventOf, PolicyAuthorize.Authorize;
  }

  lemma OwnFingerprint(w: World, s: State, rid: string, ok: bool, recording: Recording)
    requires At(s, rid, Permitted)
    ensures Forward(s, FingerprintNext(w, s, rid, ok, recording), rid)
  {
    hide EventOf;
  }

  lemma OwnRecord(w: World, s: State, rid: string, recording: Recording)
    requires At(s, rid, Fingerprinted)
    ensures Forward(s, Barrier(w, s, rid, s.requests[rid], recording, CertificateAuthorized, Recorded), rid)
  {
    hide EventOf;
  }

  lemma OwnEntry(w: World, s: State, step: Step)
    requires Enabled(w, s, step) && MovesRequest(step) && step.rid in s.requests
    requires BeforeLimit(s.requests[step.rid].stage) && !s.requests[step.rid].stage.Recorded?
    ensures Forward(s, Next(w, s, step), step.rid)
  {
    hide AuthenticateNext, ParseNext, PermitNext, FingerprintNext, Barrier, CheckRateNext, JoinNext, CollectNext;
    hide RespondNext, CompilePolicy, Forward;
    match step
    case Authenticate(rid, identity, recording) => OwnAuthenticate(s, rid, identity, recording);
    case Parse(rid, body, recording) => OwnParse(s, rid, body, recording);
    case Permit(rid, recording) => OwnPermit(s, rid, recording);
    case Fingerprint(rid, ok, recording) => OwnFingerprint(w, s, rid, ok, recording);
    case RecordAuthorized(rid, recording) => OwnRecord(w, s, rid, recording);
  }

  lemma OwnCheck(w: World, s: State, rid: string, recording: Recording)
    requires At(s, rid, Recorded)
    ensures rid in CheckRateNext(w, s, rid, recording).requests
    ensures Rank(CheckRateNext(w, s, rid, recording), rid) < Rank(s, rid)
  {
    hide RateLimit.Allow, EventOf;
  }

  lemma OwnExit(w: World, s: State, step: Step)
    requires Enabled(w, s, step) && MovesRequest(step) && step.rid in s.requests
    requires !BeforeLimit(s.requests[step.rid].stage) && !s.requests[step.rid].stage.Admitted?
    ensures step.rid in Next(w, s, step).requests && Rank(Next(w, s, step), step.rid) < Rank(s, step.rid)
  {
    hide CompilePolicy, EventOf;
  }

  lemma OwnJoin(w: World, s: State, rid: string)
    requires Sane(w, s) && At(s, rid, Admitted)
    ensures rid in JoinNext(w, s, rid).requests && Rank(JoinNext(w, s, rid), rid) < Rank(s, rid)
  {
    hide CompilePolicy, CertificateCacheKey.String, Right, GoodLoaded, StoreOk, PolicyOk, FlightsOk;
    hide PolicyAuthorize.Authorize;
    assert RequestOk(w, s, rid, s.requests[rid]);
  }

  /** Flights only go forward, and new ones are added behind the old. */
  ghost predicate FlightsForward(s: State, t: State) {
    && |s.flights| <= |t.flights|
    && forall f :: 0 <= f < |s.flights| ==> FlightRank(t.flights[f].stage) <= FlightRank(s.flights[f].stage)
  }

  lemma OneFlightForward(s: State, t: State, f: nat)
    requires f < |s.flights| == |t.flights| && t.flights == s.flights[f := t.flights[f]]
    requires FlightRank(t.flights[f].stage) < FlightRank(s.flights[f].stage)
    ensures FlightsForward(s, t)
  {
  }

  lemma FlightStep(w: World, s: State, step: Step)
    requires Enabled(w, s, step) && MovesFlight(step)
    ensures var t := Next(w, s, step);
            step.flight < |s.flights| && FlightsForward(s, t)
            && FlightRank(t.flights[step.flight].stage) < FlightRank(s.flights[step.flight].stage)
  {
    hide AuthenticateNext, ParseNext, PermitNext, FingerprintNext, Barrier, CheckRateNext, JoinNext, CollectNext;
    hide RespondNext;
    hide CompilePolicy, CertificateCacheKey.String, Store.Serve, Echoes, FlightsForward;
    OneFlightForward(s, Next(w, s, step), step.flight);
  }

  lemma FlightsJoin(w: World, s: State, rid: string)
    requires At(s, rid, Admitted)
    ensures FlightsForward(s, JoinNext(w, s, rid))
  {
    hide CertificateCacheKey.String;
  }

  lemma FlightsAdvance(w: World, s: State, step: Step)
    requires Enabled(w, s, step) && !step.Restart?
    ensures FlightsForward(s, Next(w, s, step))
    ensures MovesFlight(step) ==>
              step.flight < |s.flights|
              && FlightRank(Next(w, s, step).flights[step.flight].stage) < FlightRank(s.flights[step.flight].stage)
  {
    hide Next, CompilePolicy, RequestMoved;
    if MovesFlight(step) {
      FlightStep(w, s, step);
    } else if step.Join? {
      JoinStep(w, s, step);
      FlightsJoin(w, s, step.rid);
    } else {
      hide Enabled;
      StepFramed(w, s, step);
    }
  }

  lemma JoinStep(w: World, s: State, step: Step)
    requires Enabled(w, s, step) && step.Join?
    ensures At(s, step.rid, Admitted) && Next(w, s, step) == JoinNext(w, s, step.rid)
  {
    hide JoinNext;
  }

  /** A request that takes no step itself moves only with its flight. */
  lemma OthersStep(s: State, t: State, step: Step, rid: string)
    requires FramedInLife(s, t, step) && FlightsForward(s, t) && rid in s.requests
    requires !(MovesRequest(step) && step.rid == rid)
    requires s.requests[rid].stage.Waiting? ==> s.requests[rid].stage.flight < |s.flights|
    requires MovesFlight(step) ==>
               step.flight < |s.flights| && step.flight < |t.flights|
               && FlightRank(t.flights[step.flight].stage) < FlightRank(s.flights[step.flight].stage)
    ensures rid in t.requests && t.requests[rid] == s.requests[rid] && Rank(t, rid) <= Rank(s, rid)
    ensures Concerns(s, step, rid) ==> Rank(t, rid) < Rank(s, rid)
  {
  }

  /**
   Whatever clients, recorders, the issuer and the stores do, no step takes a request back, and
   each step of its own or of its flight takes it forward. Only a restart forgets it.
   */
  lemma StepsOnlyAdvance(w: World, s: State, step: Step, rid: string)
    requires Sane(w, s) && Enabled(w, s, step) && !step.Restart? && rid in s.requests
    ensures rid in Next(w, s, step).requests
    ensures Rank(Next(w, s, step), rid) <= Rank(s, rid)
    ensures Concerns(s, step, rid) ==> Rank(Next(w, s, step), rid) < Rank(s, rid)
  {
    assert RequestOk(w, s, rid, s.requests[rid]);
    if s.requests[rid].stage.Waiting? { assert s.requests[rid].stage.flight < |s.flights|; }
    hide RequestOk, Sane, Next, Enabled;
    if MovesRequest(step) && step.rid == rid {
      if s.requests[rid].stage.Recorded? {
        RecordedChecks(w, s, step);
        OwnCheck(w, s, rid, step.recording);
      } else if BeforeLimit(s.requests[rid].stage) {
        OwnEntry(w, s, step);
      } else if s.requests[rid].stage.Admitted? {
        AdmittedJoins(w, s, step);
        OwnJoin(w, s, rid);
      } else {
        OwnExit(w, s, step);
      }
    } else {
      StepFramed(w, s, step);
      FlightsAdvance(w, s, step);
      hide FramedInLife, Rank;
      OthersStep(s, Next(w, s, step), step, rid);
    }
  }

  lemma RecordedChecks(w: World, s: State, step: Step)
    requires Enabled(w, s, step) && MovesRequest(step) && At(s, step.rid, Recorded)
    ensures step.CheckRate? && Next(w, s, step) == CheckRateNext(w, s, step.rid, step.recording)
  {
    hide CheckRateNext;
  }

  lemma AdmittedJoins(w: World, s: State, step: Step)
    requires Enabled(w, s, step) && MovesRequest(step) && At(s, step.rid, Admitted)
    ensures step.Join? && Next(w, s, step) == JoinNext(w, s, step.rid)
  {
    hide JoinNext;
  }

  /** How many of the steps from m to n are the request's own or its flight's. */
  function StepsFor(states: seq<State>, steps: seq<Step>, rid: string, m: nat, n: nat): nat
    requires m <= n <= |steps| <= |states|
  {
    if m == n then 0
    else
      StepsFor(states, steps, rid, m, n - 1)
      + if rid in states[n - 1].requests && Concerns(states[n - 1], steps[n - 1], rid) then 1 else 0
  }

  /** In any life of the broker a request is over after at most fourteen steps of its own and its flight's. */
  lemma {:induction false} AtMostFourteenSteps(
      w: World, states: seq<State>, steps: seq<Step>, rid: string, m: nat, n: nat)
    requires w.Sound() && IsRun(w, states, steps) && m <= n <= |steps| < |states| && rid in states[m].requests
    requires forall k :: m <= k < n ==> !steps[k].Restart?
    ensures rid in states[n].requests
    ensures StepsFor(states, steps, rid, m, n) + Rank(states[n], rid) <= Rank(states[m], rid) <= 14
    ensures Rank(states[n], rid) == 0 <==> states[n].requests[rid].stage.Closed?
  {
    hide Enabled, Next, IsRun, World.Sound, Framed, Sane, Concerns;
    if m < n {
      AtMostFourteenSteps(w, states, steps, rid, m, n - 1);
      StepAt(w, states, steps, n - 1);
      AlwaysSane(w, states, steps, n - 1);
      StepsOnlyAdvance(w, states[n - 1], steps[n - 1], rid);
    }
  }

  /******* Continuing a run *******/

  lemma RunTakes(w: World, states: seq<State>, steps: seq<Step>, step: Step)
    requires IsRun(w, states, steps) && Enabled(w, states[|steps|], step)
    ensures IsRun(w, states + [Next(w, states[|steps|], step)], steps + [step])
  {
    hide Enabled, Next, Initial;
    var more, taken := states + [Next(w, states[|steps|], step)], steps + [step];
    forall i | 0 <= i < |taken| ensures Enabled(w, more[i], taken[i]) && more[i + 1] == Next(w, more[i], taken[i]) {
      if i < |steps| {
        assert Enabled(w, states[i], steps[i]) && states[i + 1] == Next(w, states[i], steps[i]);
      }
    }
  }

  lemma RunLength(w: World, states: seq<State>, steps: seq<Step>)
    requires IsRun(w, states, steps)
    ensures |states| == |steps| + 1
  {
    hide Enabled, Next, Initial;
  }

  /**
   Any run can be continued until a given request has been answered, in no more steps than its
   rank, and then it has its one response.
   */
  lemma {:induction false} CanAlwaysBeAnswered(w: World, states: seq<State>, steps: seq<Step>, rid: string)
    returns (more: seq<State>, taken: seq<Step>)
    requires w.Sound() && IsRun(w, states, steps) && |states| > 0 && rid in states[|states| - 1].requests
    ensures IsRun(w, more, taken) && states <= more && steps <= taken
    ensures |more| - |states| <= Rank(states[|states| - 1], rid)
    ensures rid in more[|more| - 1].requests && more[|more| - 1].requests[rid].stage.Closed?
    ensures exists r :: r in more[|more| - 1].responses && r.requestId == rid
    decreases Rank(states[|states| - 1], rid)
  {
    hide IsRun, World.Sound, NextStep, Enabled, Next, FlightRank;
    var s := states[|states| - 1];
    RunLength(w, states, steps);
    if s.requests[rid].stage.Closed? {
      more, taken := states, steps;
      AnsweredOnce(w, states, steps, |states| - 1, rid);
    } else {
      NeverStuck(w, states, steps, |states| - 1, rid);
      var step := NextStep(s, rid);
      hide Rank;
      RunTakes(w, states, steps, step);
      more, taken := CanAlwaysBeAnswered(w, states + [Next(w, s, step)], steps + [step], rid);
    }
  }
}
