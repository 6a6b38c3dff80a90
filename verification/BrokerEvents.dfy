/**
 What the events of issued and cached certificates stand for: not calls to the issuer, but
 requests that collected a result, the followers of a flight included.
 */
module BrokerEvents {
  import opened Wrappers
  import opened Pki
  import opened CacheKey
  import opened DnsName
  import opened PolicyTypes
  import opened PolicyCompile
  import opened PolicyAuthorize
  import opened Broker
  import opened BrokerInvariant
  import opened BrokerRuns
  import opened BrokerProgress
  import RateLimit
  import Store

  predicate IsOutcome(e: Event) {
    e.kind.CertificateIssued? || e.kind.CertificateCacheHit?
  }

  /** The log gained at most one event, of this request, that does not tell of an outcome. */
  ghost predicate Noted(s: State, t: State, rid: string) {
    || t.log == s.log
    || (t.log != []
        && var e := t.log[|t.log| - 1];
           t.log == s.log + [e] && e.requestId == rid && !IsOutcome(e))
  }

  /** A request that collected a result has its outcome recorded. */
  ghost predicate RecordsOutcome(s: State, step: Step, e: Event) {
    && step.RecordIssued? && step.recording.Appended()
    && step.rid in s.requests && s.requests[step.rid].stage.Answered?
    && var r := s.requests[step.rid];
       e == EventOf(step.rid, r, IssuedKind(r.stage.issued))
  }

  lemma AuthenticateNotes(s: State, rid: string, identity: Option<string>, recording: Recording)
    requires rid in s.requests
    ensures Noted(s, AuthenticateNext(s, rid, identity, recording), rid)
  {
  }

  lemma ParseNotes(s: State, rid: string, body: Body, recording: Recording)
    requires rid in s.requests
    ensures Noted(s, ParseNext(s, rid, body, recording), rid)
  {
  }

  lemma PermitNotes(s: State, rid: string, recording: Recording)
    requires rid in s.requests
    ensures Noted(s, PermitNext(s, rid, recording), rid)
  {
    hide PolicyAuthorize.Authorize;
  }

  lemma FingerprintNotes(w: World, s: State, rid: string, ok: bool, recording: Recording)
    requires rid in s.requests
    ensures Noted(s, FingerprintNext(w, s, rid, ok, recording), rid)
  {
  }

  lemma AuthorizedNotes(w: World, s: State, rid: string, recording: Recording)
    requires rid in s.requests
    ensures Noted(s, Barrier(w, s, rid, s.requests[rid], recording, CertificateAuthorized, Recorded), rid)
  {
  }

  lemma CheckNotes(w: World, s: State, rid: string, recording: Recording)
    requires rid in s.requests
    ensures Noted(s, CheckRateNext(w, s, rid, recording), rid)
  {
    hide RateLimit.Allow;
  }

  lemma CollectNotes(s: State, rid: string, recording: Recording)
    requires rid in s.requests && s.requests[rid].stage.Waiting?
    requires s.requests[rid].stage.flight < |s.flights| && s.flights[s.requests[rid].stage.flight].stage.Ended?
    ensures Noted(s, CollectNext(s, rid, recording), rid)
  {
  }

  lemma OtherNotes(w: World, s: State, step: Step)
    requires Enabled(w, s, step) && MovesRequest(step) && !step.RecordIssued?
    ensures Noted(s, Next(w, s, step), step.rid)
  {
    hide AuthenticateNext, ParseNext, PermitNext, FingerprintNext, Barrier, CheckRateNext, CollectNext, Noted;
    hide CompilePolicy, CertificateCacheKey.String;
    SilentNotes(s, Next(w, s, step), step.rid);
    match step
    case Authenticate(rid, identity, recording) => AuthenticateNotes(s, rid, identity, recording);
    case Parse(rid, body, recording) => ParseNotes(s, rid, body, recording);
    case Permit(rid, recording) => PermitNotes(s, rid, recording);
    case Fingerprint(rid, ok, recording) => FingerprintNotes(w, s, rid, ok, recording);
    case RecordAuthorized(rid, recording) => AuthorizedNotes(w, s, rid, recording);
    case CheckRate(rid, recording) => CheckNotes(w, s, rid, recording);
    case Collect(rid, recording) => CollectNotes(s, rid, recording);
    case Arrive(_) =>
    case NamingFails(_) =>
    case Join(_) =>
    case Respond(_) =>
  }

  lemma OutcomeLogged(w: World, s: State, step: Step)
    requires Enabled(w, s, step) && step.RecordIssued?
    ensures var r := s.requests[step.rid];
            Next(w, s, step).log == if step.recording.Appended()
                                    then s.log + [EventOf(step.rid, r, IssuedKind(r.stage.issued))]
                                    else s.log
  {
    hide CompilePolicy, EventOf;
  }

  lemma OthersSilent(w: World, s: State, step: Step)
    requires Enabled(w, s, step) && !MovesRequest(step)
    ensures Next(w, s, step).log == s.log
  {
    hide CompilePolicy, CertificateCacheKey.String, Store.Serve, Echoes;
  }

  /** Each step appends the outcome of a request, an event of no outcome, or nothing. */
  lemma LogStep(w: World, s: State, step: Step)
    requires Enabled(w, s, step)
    ensures var t := Next(w, s, step);
            if step.RecordIssued? && step.recording.Appended() then
              exists e: Event :: RecordsOutcome(s, step, e) && t.log == s.log + [e]
            else if MovesRequest(step) then Noted(s, t, step.rid)
            else t.log == s.log
  {
    hide Next, Noted;
    if step.RecordIssued? {
      OutcomeLogged(w, s, step);
      SilentNotes(s, Next(w, s, step), step.rid);
      if step.recording.Appended() {
        var r := s.requests[step.rid];
        assert RecordsOutcome(s, step, EventOf(step.rid, r, IssuedKind(r.stage.issued)));
      }
    } else if MovesRequest(step) {
      OtherNotes(w, s, step);
    } else {
      OthersSilent(w, s, step);
    }
  }

  lemma SilentNotes(s: State, t: State, rid: string)
    ensures t.log == s.log ==> Noted(s, t, rid)
  {
  }

  /******* One outcome event per request *******/

  predicate PastRecording(stage: Stage) {
    stage.Logged? || stage.Closed?
  }

  ghost predicate OutcomesOk(s: State) {
    && (forall i, j :: 0 <= i < j < |s.log| && IsOutcome(s.log[i]) && IsOutcome(s.log[j]) ==>
          s.log[i].requestId != s.log[j].requestId)
    && (forall e :: e in s.log && IsOutcome(e) && e.requestId in s.requests ==>
          PastRecording(s.requests[e.requestId].stage))
  }

  lemma OutcomesQuiet(s: State, t: State, rid: string)
    requires OutcomesOk(s) && Noted(s, t, rid)
    requires rid in s.requests || forall e :: e in s.log ==> e.requestId != rid
    requires rid in t.requests && t.requests == s.requests[rid := t.requests[rid]]
    requires rid in s.requests && PastRecording(s.requests[rid].stage) ==> PastRecording(t.requests[rid].stage)
    ensures OutcomesOk(t)
  {
  }

  lemma OutcomesRecorded(s: State, t: State, step: Step, e: Event)
    requires OutcomesOk(s) && RecordsOutcome(s, step, e) && t.log == s.log + [e]
    requires step.rid in t.requests && t.requests == s.requests[step.rid := t.requests[step.rid]]
    requires PastRecording(t.requests[step.rid].stage)
    ensures OutcomesOk(t)
  {
    forall i | 0 <= i < |s.log| && IsOutcome(s.log[i]) ensures s.log[i].requestId != step.rid {
      assert s.log[i] in s.log;
    }
  }

  lemma RecordedPast(w: World, s: State, step: Step)
    requires Enabled(w, s, step) && step.RecordIssued?
    ensures step.rid in Next(w, s, step).requests && PastRecording(Next(w, s, step).requests[step.rid].stage)
  {
    hide CompilePolicy, EventOf;
  }

  /** Recording an outcome is behind a request for good. */
  lemma StaysPast(w: World, s: State, step: Step)
    requires Enabled(w, s, step) && MovesRequest(step) && step.rid in s.requests
    requires PastRecording(s.requests[step.rid].stage)
    ensures step.rid in Next(w, s, step).requests && PastRecording(Next(w, s, step).requests[step.rid].stage)
  {
    hide CompilePolicy, CertificateCacheKey.String, PolicyAuthorize.Authorize, RateLimit.Allow, EventOf;
  }

  lemma OutcomesKept(w: World, s: State, step: Step)
    requires OutcomesOk(s) && Enabled(w, s, step)
    ensures OutcomesOk(Next(w, s, step))
  {
    hide Next, OutcomesOk, Noted, RecordsOutcome, PastRecording, CompilePolicy;
    var t := Next(w, s, step);
    StepFramed(w, s, step);
    LogStep(w, s, step);
    if step.RecordIssued? && step.recording.Appended() {
      RecordedPast(w, s, step);
      var e: Event :| RecordsOutcome(s, step, e) && t.log == s.log + [e];
      OutcomesRecorded(s, t, step, e);
    } else if MovesRequest(step) {
      if step.rid in s.requests && PastRecording(s.requests[step.rid].stage) { StaysPast(w, s, step); }
      OutcomesQuiet(s, t, step.rid);
    } else {
      OutcomesSame(s, t);
    }
  }

  lemma OutcomesSame(s: State, t: State)
    requires OutcomesOk(s) && t.log == s.log && (t.requests == s.requests || t.requests == map[])
    ensures OutcomesOk(t)
  {
  }

  lemma {:induction false} AlwaysOutcomesOk(w: World, states: seq<State>, steps: seq<Step>, n: nat)
    requires IsRun(w, states, steps) && n < |states|
    ensures OutcomesOk(states[n])
  {
    hide Enabled, Next;
    if n > 0 {
      hide OutcomesOk, Framed;
      AlwaysOutcomesOk(w, states, steps, n - 1);
      StepAt(w, states, steps, n - 1);
      OutcomesKept(w, states[n - 1], steps[n - 1]);
    }
  }

  /** Nothing is ever taken from the log, not by a restart either. */
  lemma {:induction false} LogOnlyGrows(w: World, states: seq<State>, steps: seq<Step>, m: nat, n: nat)
    requires IsRun(w, states, steps) && m <= n < |states|
    ensures states[m].log <= states[n].log
  {
    hide Enabled, Next, Framed;
    if m < n {
      LogOnlyGrows(w, states, steps, m, n - 1);
      StepAt(w, states, steps, n - 1);
      LogStep(w, states[n - 1], steps[n - 1]);
    }
  }

  /**
   Events of issued and cached certificates come one per request that collected a result and
   recorded it, and each tells what that request had collected: no two are of one request, and
   none is of anything else.
   */
  lemma {:induction false} OutcomesComeFromCollectors(w: World, states: seq<State>, steps: seq<Step>, n: nat, i: nat)
    returns (m: nat)
    requires IsRun(w, states, steps) && n < |states| && i < |states[n].log| && IsOutcome(states[n].log[i])
    ensures m < n && m < |steps| && RecordsOutcome(states[m], steps[m], states[n].log[i])
    ensures forall j :: 0 <= j < |states[n].log| && j != i && IsOutcome(states[n].log[j]) ==>
              states[n].log[j].requestId != states[n].log[i].requestId
  {
    hide Enabled, Next, OutcomesOk, RecordsOutcome, Framed;
    AlwaysOutcomesOk(w, states, steps, n);
    m := 0;
    if n > 0 {
      StepAt(w, states, steps, n - 1);
      LogStep(w, states[n - 1], steps[n - 1]);
      if i < |states[n - 1].log| {
        assert states[n - 1].log[i] == states[n].log[i];
        m := OutcomesComeFromCollectors(w, states, steps, n - 1, i);
      } else {
        m := n - 1;
      }
    }
    OneOutcome(states[n], i);
  }

  lemma OneOutcome(s: State, i: nat)
    requires OutcomesOk(s) && i < |s.log| && IsOutcome(s.log[i])
    ensures forall j :: 0 <= j < |s.log| && j != i && IsOutcome(s.log[j]) ==> s.log[j].requestId != s.log[i].requestId
  {
  }

  /******* No issued event without a call *******/

  predicate IsFresh(outcome: Option<Issued>) {
    outcome.Some? && !outcome.value.fromCache
  }

  /** The flight has got as far as the issuer. */
  predicate Called(stage: FlightStage) {
    match stage
    case Lookup => false
    case Calling => true
    case Putting(_) => true
    case Returning(outcome) => IsFresh(outcome)
    case Ended(result) => IsFresh(result)
  }

  /** The flight returns, or has returned, this certificate. */
  predicate Returns(stage: FlightStage, issued: Issued) {
    stage == Returning(Some(issued)) || stage == Ended(Some(issued))
  }

  ghost predicate HasCall(s: State, f: nat) {
    exists i :: 0 <= i < |s.issuerCalls| && s.issuerCalls[i].flight == f
  }

  /** A fresh certificate that a flight returns has been called for and stored by that flight. */
  ghost predicate FlightBacked(s: State, f: nat)
    requires f < |s.flights|
  {
    var fl := s.flights[f];
    && (Called(fl.stage) ==> HasCall(s, f))
    && forall issued: Issued :: Returns(fl.stage, issued) && !issued.fromCache ==>
         PutRecord(fl.key, issued.bundle, fl.profile) in s.puts
  }

  ghost predicate FlightsBacked(s: State) {
    forall f :: 0 <= f < |s.flights| ==> FlightBacked(s, f)
  }

  /** What a request has collected is what some ended flight of its own key string returned. */
  ghost predicate ResultFrom(w: World, s: State, r: Request, issued: Issued, f: nat) {
    f < |s.flights| && s.flights[f].stage == Ended(Some(issued)) && s.flights[f].key.String() == KeyOf(w, r).String()
  }

  ghost predicate ResultsBacked(w: World, s: State) {
    forall rid :: rid in s.requests && s.requests[rid].stage.Answered? ==>
      exists f: nat :: ResultFrom(w, s, s.requests[rid], s.requests[rid].stage.issued, f)
  }

  /** A step that moves one flight keeps the others backed. */
  lemma BackedMoves(s: State, t: State, f: nat)
    requires FlightsBacked(s) && f < |s.flights| == |t.flights| && t.flights == s.flights[f := t.flights[f]]
    requires s.issuerCalls <= t.issuerCalls && s.puts <= t.puts && FlightBacked(t, f)
    ensures FlightsBacked(t)
  {
    forall g | 0 <= g < |t.flights| ensures FlightBacked(t, g) {
      if g != f {
        assert FlightBacked(s, g);
        CallStays(s, t, g);
      }
    }
  }

  lemma CallStays(s: State, t: State, g: nat)
    requires s.issuerCalls <= t.issuerCalls
    ensures HasCall(s, g) ==> HasCall(t, g)
  {
    if HasCall(s, g) {
      var i :| 0 <= i < |s.issuerCalls| && s.issuerCalls[i].flight == g;
      assert t.issuerCalls[i].flight == g;
    }
  }

  lemma LookUpBacked(w: World, s: State, f: nat, readable: bool)
    requires FlightsBacked(s) && FlightAt(s, f, FlightStage.Lookup)
    ensures FlightsBacked(LookUpNext(w, s, f, readable))
  {
    hide Store.Serve;
    var t := LookUpNext(w, s, f, readable);
    if t.flights[f].stage.Calling? { assert t.issuerCalls[|s.issuerCalls|].flight == f; }
    hide LookUpNext, FlightsBacked;
    BackedMoves(s, t, f);
  }

  lemma IssuerReturnsBacked(s: State, f: nat, bundle: Option<Bundle>)
    requires FlightsBacked(s) && FlightAt(s, f, Calling)
    ensures FlightsBacked(IssuerReturnsNext(s, f, bundle))
  {
    var t := IssuerReturnsNext(s, f, bundle);
    assert FlightBacked(s, f);
    CallStays(s, t, f);
    hide FlightsBacked;
    BackedMoves(s, t, f);
  }

  lemma PutReturnsBacked(w: World, s: State, f: nat, applied: bool, ok: bool)
    requires FlightsBacked(s) && f < |s.flights| && s.flights[f].stage.Putting? && (ok ==> applied)
    ensures FlightsBacked(PutReturnsNext(w, s, f, applied, ok))
  {
    var t := PutReturnsNext(w, s, f, applied, ok);
    assert FlightBacked(s, f);
    CallStays(s, t, f);
    if ok { assert t.puts[|s.puts|] == PutRecord(s.flights[f].key, s.flights[f].stage.bundle, s.flights[f].profile); }
    hide FlightsBacked;
    BackedMoves(s, t, f);
  }

  lemma EndFlightBacked(s: State, f: nat)
    requires FlightsBacked(s) && f < |s.flights| && s.flights[f].stage.Returning?
    ensures FlightsBacked(EndFlightNext(s, f))
  {
    hide CertificateCacheKey.String;
    var t := EndFlightNext(s, f);
    assert FlightBacked(s, f);
    CallStays(s, t, f);
    hide FlightsBacked;
    BackedMoves(s, t, f);
  }

  lemma JoinBacked(w: World, s: State, rid: string)
    requires FlightsBacked(s) && At(s, rid, Admitted)
    ensures FlightsBacked(JoinNext(w, s, rid))
  {
    hide CertificateCacheKey.String;
    var t := JoinNext(w, s, rid);
    forall g | 0 <= g < |t.flights| ensures FlightBacked(t, g) {
      if g < |s.flights| {
        assert FlightBacked(s, g);
        CallStays(s, t, g);
      }
    }
  }

  lemma FramedBacked(s: State, t: State, step: Step)
    requires FlightsBacked(s) && Framed(s, t, step) && !step.Join? && !MovesFlight(step)
    ensures FlightsBacked(t)
  {
    hide RequestMoved;
    forall g | 0 <= g < |t.flights| ensures FlightBacked(t, g) {
      assert FlightBacked(s, g);
      CallStays(s, t, g);
    }
  }

  lemma FlightsBackedKept(w: World, s: State, step: Step)
    requires FlightsBacked(s) && Enabled(w, s, step)
    ensures FlightsBacked(Next(w, s, step))
  {
    hide *;
    FlightStepIs(w, s, step);
    match step
    case Join(rid) => JoinBacked(w, s, rid);
    case LookUp(f, readable) => LookUpBacked(w, s, f, readable);
    case IssuerReturns(f, bundle) => IssuerReturnsBacked(s, f, bundle);
    case PutReturns(f, applied, ok) => PutReturnsBacked(w, s, f, applied, ok);
    case EndFlight(f) => EndFlightBacked(s, f);
    case _ =>
      StepFramed(w, s, step);
      StaysBacked(w, s, step);
  }

  lemma StaysBacked(w: World, s: State, step: Step)
    requires FlightsBacked(s) && Enabled(w, s, step) && Framed(s, Next(w, s, step), step) && !step.Join?
    requires !step.LookUp? && !step.IssuerReturns? && !step.PutReturns? && !step.EndFlight?
    ensures FlightsBacked(Next(w, s, step))
  {
    hide FlightsBacked, Framed, Next, Enabled;
    FramedBacked(s, Next(w, s, step), step);
  }

  /** Once a flight has ended it stays as it is for the rest of its broker's life. */
  lemma EndedStays(w: World, s: State, step: Step, f: nat)
    requires Enabled(w, s, step) && !step.Restart? && f < |s.flights| && s.flights[f].stage.Ended?
    ensures f < |Next(w, s, step).flights| && Next(w, s, step).flights[f] == s.flights[f]
  {
    hide CompilePolicy, CertificateCacheKey.String, Store.Serve, Echoes, RequestMoved;
    hide AuthenticateNext, ParseNext, PermitNext, FingerprintNext, Barrier, CheckRateNext, CollectNext, RespondNext;
    if !step.Join? && !MovesFlight(step) {
      hide Next, Enabled;
      StepFramed(w, s, step);
    }
  }

  /** A request becomes answered only by collecting, from the flight it has waited for. */
  lemma AnsweredBy(w: World, s: State, step: Step, rid: string)
    requires Enabled(w, s, step) && MovesRequest(step) && step.rid == rid
    requires rid in Next(w, s, step).requests && Next(w, s, step).requests[rid].stage.Answered?
    ensures var t := Next(w, s, step);
            && step.Collect? && rid in s.requests
            && s.requests[rid].stage.Waiting? && s.requests[rid].stage.flight < |s.flights|
            && s.flights[s.requests[rid].stage.flight].stage == Ended(Some(t.requests[rid].stage.issued))
            && t.flights == s.flights && KeyOf(w, t.requests[rid]) == KeyOf(w, s.requests[rid])
  {
    hide CompilePolicy, CertificateCacheKey.String, PolicyAuthorize.Authorize, RateLimit.Allow, EventOf;
  }

  lemma ResultsBackedKept(w: World, s: State, step: Step)
    requires Sane(w, s) && ResultsBacked(w, s) && Enabled(w, s, step)
    ensures ResultsBacked(w, Next(w, s, step))
  {
    hide Sane, Next, Enabled, CertificateCacheKey.String, RequestOk;
    var t := Next(w, s, step);
    StepFramed(w, s, step);
    forall rid | rid in t.requests && t.requests[rid].stage.Answered?
      ensures exists f: nat :: ResultFrom(w, t, t.requests[rid], t.requests[rid].stage.issued, f)
    {
      if MovesRequest(step) && step.rid == rid {
        AnsweredBy(w, s, step, rid);
        WaitsForItsKey(w, s, rid);
        assert ResultFrom(w, t, t.requests[rid], t.requests[rid].stage.issued, s.requests[rid].stage.flight);
      } else {
        assert t.requests[rid] == s.requests[rid];
        var f: nat :| ResultFrom(w, s, s.requests[rid], s.requests[rid].stage.issued, f);
        EndedStays(w, s, step, f);
        assert ResultFrom(w, t, t.requests[rid], t.requests[rid].stage.issued, f);
      }
    }
  }

  lemma WaitsForItsKey(w: World, s: State, rid: string)
    requires Sane(w, s) && rid in s.requests && s.requests[rid].stage.Waiting?
    ensures var f := s.requests[rid].stage.flight;
            f < |s.flights| && s.flights[f].key.String() == KeyOf(w, s.requests[rid]).String()
  {
    hide FlightsOk, GroupOk, StoreOk, PolicyOk, PolicyPart, LogPart, Right, CertificateCacheKey.String;
    assert RequestOk(w, s, rid, s.requests[rid]);
  }

  lemma {:induction false} AlwaysBacked(w: World, states: seq<State>, steps: seq<Step>, n: nat)
    requires w.Sound() && IsRun(w, states, steps) && n < |states|
    ensures FlightsBacked(states[n]) && ResultsBacked(w, states[n])
  {
    hide Enabled, Next, World.Sound, Sane;
    if n > 0 {
      hide FlightsBacked, ResultsBacked, Framed;
      AlwaysBacked(w, states, steps, n - 1);
      AlwaysSane(w, states, steps, n - 1);
      StepAt(w, states, steps, n - 1);
      FlightsBackedKept(w, states[n - 1], steps[n - 1]);
      ResultsBackedKept(w, states[n - 1], steps[n - 1]);
    }
  }

  /**
   No issued event is without a call: when it is recorded, the flight that its request collected
   from, of the same key string, has called the issuer and stored what it made.
   */
  lemma IssuedEventsHaveCalls(w: World, states: seq<State>, steps: seq<Step>, n: nat, i: nat)
    returns (m: nat, f: nat)
    requires w.Sound() && IsRun(w, states, steps) && n < |states|
    requires i < |states[n].log| && states[n].log[i].kind.CertificateIssued?
    ensures m < n && m < |steps| && RecordsOutcome(states[m], steps[m], states[n].log[i])
    ensures var s, r := states[m], states[m].requests[steps[m].rid];
            && ResultFrom(w, s, r, r.stage.issued, f) && !r.stage.issued.fromCache
            && HasCall(s, f)
            && PutRecord(s.flights[f].key, r.stage.issued.bundle, s.flights[f].profile) in s.puts
  {
    hide IsRun, World.Sound, CertificateCacheKey.String;
    m := OutcomesComeFromCollectors(w, states, steps, n, i);
    AlwaysBacked(w, states, steps, m);
    var s, r := states[m], states[m].requests[steps[m].rid];
    f :| ResultFrom(w, s, r, r.stage.issued, f);
    assert FlightBacked(s, f) && Returns(s.flights[f].stage, r.stage.issued);
  }
}
