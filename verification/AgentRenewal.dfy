/** Which writes agents make, what broker answers they come from, and that renewal moves forward. */
module AgentRenewal {
  import opened Wrappers
  import opened Pki
  import opened DnsName
  import opened AtomicFile
  import opened Agent
  import opened AgentSafety
  import Disk
  import Store

  /******* Every change of a file *******/

  /** The rename that puts a job's data in place. */
  ghost predicate Renames(w: Setup, files: Files, p: Phase, place: Place, x: string) {
    && p.Writing? && p.writer.Shut? && JobSized(w, p.job) && JobPath(w, p.job) == x
    && place.phase == Writing(p.job, Renamed)
    && Named(x) in place.files && place.files[Named(x)] == JobData(p.job)
  }

  lemma NamedMoves(w: Setup, now: int, files: Files, p: Phase, action: Action, x: string)
    requires PhaseOk(w, now, files, p) && Can(w, files, p, action)
    requires !SameAt(files, Perform(w, now, files, p, action).files, Named(x))
    ensures (x == w.lock && (p.Waiting? || p.Leaving?)) || Renames(w, files, p, Perform(w, now, files, p, action), x)
  {
    hide HasExactNames, Acceptable, KeyRead, CertRead, Replied, EntryPhase;
    if p.Writing? && action.Operate? {
      WriterKeeps(w, files, p.job, p.writer, action.effect);
      ToRenamed(JobPath(w, p.job), JobData(p.job), files, p.writer, action.effect);
      hide WriterNext, WriterCan, JobOk, TempOk;
    } else if p.Writing? {
      hide WriterNext, WriterCan, JobOk, TempOk;
    } else {
      hide WriterNext, WriterCan;
    }
  }

  lemma ToRenamed(path: string, data: string, files: Files, writer: Writer, e: Effect)
    requires WriterCan(data, files, writer, e)
    ensures WriterNext(path, data, files, writer, e).writer.Renamed? ==> writer.Shut?
  {
  }

  /**
   In any interleaving, a file that is not the lock changes only by becoming, in one step, the
   whole of what its writer was given: a new key where there was none, a renewed identity, or a
   part of a bundle that was accepted for the key on disk.
   */
  lemma TargetsChangeWhole(w: Setup, states: seq<State>, steps: seq<Step>, n: nat, x: string)
    requires w.Apart() && IsRun(w, states, steps) && n < |steps| && x != w.lock
    requires !SameAt(states[n].files, states[n + 1].files, Named(x))
    ensures steps[n].Act? && steps[n].agent in states[n].agents
            && var p := states[n].agents[steps[n].agent];
               && p.Writing? && JobSized(w, p.job) && JobPath(w, p.job) == x
               && Named(x) in states[n + 1].files && states[n + 1].files[Named(x)] == JobData(p.job)
               && (p.job.KeyJob? ==>
                     Named(x) !in states[n].files && w.decoder.key(p.job.pem) == Some(p.job.publicKey))
               && (p.job.PartJob? ==>
                     && KeyHeld(w, states[n].files, p.job.entry, p.job.publicKey)
                     && Acceptable(w.decoder, w.certificates[p.job.entry], p.job.publicKey, p.job.bundle.certPem))
  {
    hide IsRun, Setup.Apart, Can, CertsGood, Perform, Acceptable;
    StepAt(w, states, steps, n);
    AlwaysSane(w, states, steps, n);
    var s := states[n];
    assert steps[n].Act?;
    var p := s.agents[steps[n].agent];
    NamedMoves(w, s.clock, s.files, p, steps[n].action, x);
  }

  /******* Answers *******/

  ghost predicate Installing(s: State, a: string, i: nat, publicKey: string, bundle: Bundle) {
    && a in s.agents && s.agents[a].Writing? && s.agents[a].job.PartJob?
    && s.agents[a].job.(part := 0) == PartJob(i, publicKey, bundle, 0)
  }

  /** An agent asks the broker for this entry and gets this bundle. */
  ghost predicate AskedFor(s: State, step: Step, a: string, i: nat, bundle: Bundle) {
    && step == Act(a, Ask(Some(bundle))) && a in s.agents && s.agents[a].Asking? && s.agents[a].entry == i
  }

  lemma InstallingFrom(w: Setup, s: State, step: Step, a: string, i: nat, publicKey: string, bundle: Bundle)
    requires Enabled(w, s, step) && Installing(Next(w, s, step), a, i, publicKey, bundle)
    ensures Installing(s, a, i, publicKey, bundle) || AskedFor(s, step, a, i, bundle)
  {
    hide HasExactNames, Acceptable, WriterNext, WriterCan, CanonicalList;
  }

  lemma {:induction false} InstallWasAsked(
      w: Setup, states: seq<State>, steps: seq<Step>, n: nat, a: string, i: nat, publicKey: string, bundle: Bundle)
    returns (m: nat)
    requires IsRun(w, states, steps) && n < |states| && Installing(states[n], a, i, publicKey, bundle)
    ensures m < n && AskedFor(states[m], steps[m], a, i, bundle)
  {
    hide Enabled, Next, AskedFor;
    assert n > 0;
    hide Installing;
    StepAt(w, states, steps, n - 1);
    InstallingFrom(w, states[n - 1], steps[n - 1], a, i, publicKey, bundle);
    if Installing(states[n - 1], a, i, publicKey, bundle) {
      m := InstallWasAsked(w, states, steps, n - 1, a, i, publicKey, bundle);
    } else {
      m := n - 1;
    }
  }

  /** The broker is only asked when there is no certificate or the one there is due for renewal. */
  lemma AsksOnlyWhenWanted(w: Setup, states: seq<State>, steps: seq<Step>, n: nat, a: string, reply: Option<Bundle>)
    requires w.Apart() && IsRun(w, states, steps) && n < |steps|
    requires steps[n] == Act(a, Ask(reply)) && a in states[n].agents && states[n].agents[a].Asking?
    ensures var i, s := states[n].agents[a].entry, states[n];
            i < |w.certificates|
            && (Named(w.certificates[i].cert) in s.files ==>
                  && w.decoder.cert(s.files[Named(w.certificates[i].cert)]).Some?
                  && w.decoder.cert(s.files[Named(w.certificates[i].cert)]).value.notAfter - s.clock
                     <= w.certificates[i].renewBefore)
  {
    hide IsRun, Setup.Apart, HasExactNames;
    StepAt(w, states, steps, n);
    AlwaysSane(w, states, steps, n);
    assert PhaseOk(w, states[n].clock, states[n].files, states[n].agents[a]);
    assert CertGood(w, states[n].files, states[n].agents[a].entry);
  }

  /**
   A file of a bundle that changes becomes the same part of a bundle the broker answered the
   same process with, at an earlier step, when that entry's certificate was missing or due: a
   pass outside the renewal time asks nothing and writes nothing.
   */
  lemma BundleFilesComeFromAnswers(w: Setup, states: seq<State>, steps: seq<Step>, n: nat, j: nat, x: string)
    returns (m: nat, i: nat, k: nat, bundle: Bundle)
    requires w.Apart() && IsRun(w, states, steps) && n < |steps| && j < |w.certificates|
    requires x in w.certificates[j].Paths() && x != w.identityCert
    requires !SameAt(states[n].files, states[n + 1].files, Named(x))
    ensures m < n && i < |w.certificates| && k < 3 && x == w.certificates[i].Paths()[k]
    ensures Named(x) in states[n + 1].files && states[n + 1].files[Named(x)] == Disk.Parts(bundle)[k]
    ensures steps[n].Act? && AskedFor(states[m], steps[m], steps[n].agent, i, bundle)
    ensures Wanted(w, states[m].clock, states[m].files, i)
  {
    hide IsRun, HasExactNames, Acceptable;
    assert x != w.lock;
    TargetsChangeWhole(w, states, steps, n, x);
    StepAt(w, states, steps, n);
    var p := states[n].agents[steps[n].agent];
    assert p.job.PartJob?;
    hide Setup.Apart, Enabled, Next;
    i, k, bundle := p.job.entry, p.job.part, p.job.bundle;
    m := InstallWasAsked(w, states, steps, n, steps[n].agent, i, p.job.publicKey, bundle);
    AsksOnlyWhenWanted(w, states, steps, m, steps[n].agent, Some(bundle));
  }

  /**
   The same of every operation of a process that is writing a bundle, whether it changes a file
   or writes again what is there: a process that found its certificate outside the renewal time
   never comes to write a bundle.
   */
  lemma BundleWritesComeFromAnswers(w: Setup, states: seq<State>, steps: seq<Step>, n: nat, a: string)
    returns (m: nat)
    requires w.Apart() && IsRun(w, states, steps) && n < |states| && a in states[n].agents
    requires states[n].agents[a].Writing? && states[n].agents[a].job.PartJob?
    ensures var job := states[n].agents[a].job;
            && m < n && m < |steps| && job.entry < |w.certificates|
            && AskedFor(states[m], steps[m], a, job.entry, job.bundle)
            && Wanted(w, states[m].clock, states[m].files, job.entry)
            && Acceptable(w.decoder, w.certificates[job.entry], job.publicKey, job.bundle.certPem)
  {
    hide IsRun, HasExactNames, Acceptable, Setup.Apart;
    var job := states[n].agents[a].job;
    AlwaysSane(w, states, steps, n);
    assert PhaseOk(w, states[n].clock, states[n].files, states[n].agents[a]);
    m := InstallWasAsked(w, states, steps, n, a, job.entry, job.publicKey, job.bundle);
    LastStep(w, states, steps);
    AsksOnlyWhenWanted(w, states, steps, m, a, Some(job.bundle));
  }

  lemma LastStep(w: Setup, states: seq<State>, steps: seq<Step>)
    requires IsRun(w, states, steps)
    ensures |steps| + 1 == |states|
  {
    hide Enabled, Next;
  }

  /******* Renewal moves forward *******/

  /**
   An answer as the broker gives it: from the store or fresh, it would be served at that
   instant for the profile's renewal time, and its expiry is that of its certificate.
   */
  ghost predicate BrokerAnswer(decoder: Decoder, bundle: Bundle, profileRenewBefore: int, now: int) {
    && Store.Serve(bundle, profileRenewBefore, now).Hit?
    && (decoder.cert(bundle.certPem).Some? ==> decoder.cert(bundle.certPem).value.notAfter == bundle.notAfter)
  }

  ghost predicate Timely(w: Setup, profiles: string -> int, s: State, step: Step) {
    forall a: string, i: nat, bundle: Bundle :: AskedFor(s, step, a, i, bundle) && i < |w.certificates| ==>
      BrokerAnswer(w.decoder, bundle, profiles(w.certificates[i].profile), s.clock)
  }

  /** The agent renews this entry no earlier than the broker would. */
  predicate RenewsLate(w: Setup, profiles: string -> int, i: nat)
    requires i < |w.certificates|
  {
    w.certificates[i].renewBefore <= profiles(w.certificates[i].profile)
  }

  ghost predicate LaterThan(decoder: Decoder, newer: string, older: string) {
    && decoder.cert(newer).Some? && decoder.cert(older).Some?
    && decoder.cert(newer).value.notAfter > decoder.cert(older).value.notAfter
  }

  /** A process that is about to put a certificate in place of this entry's. */
  predicate Replacing(p: Phase, i: nat) {
    p.Writing? && p.job.PartJob? && p.job.part == 0 && p.job.entry == i && !p.writer.Renamed?
  }

  /** What is about to replace this entry's certificate expires later. */
  ghost predicate Improves(w: Setup, files: Files, p: Phase, i: nat)
    requires i < |w.certificates|
  {
    Replacing(p, i) && CertPath(w, i) in files ==>
      LaterThan(w.decoder, p.job.bundle.certPem, files[CertPath(w, i)])
  }

  ghost predicate AllImprove(w: Setup, s: State, i: nat)
    requires i < |w.certificates|
  {
    forall a :: a in s.agents ==> Improves(w, s.files, s.agents[a], i)
  }

  /** An accepted answer to a timely request expires after the certificate that was due. */
  lemma AnswerImproves(
      w: Setup, profiles: string -> int, now: int, files: Files, i: nat, publicKey: string, bundle: Bundle)
    requires i < |w.certificates| && RenewsLate(w, profiles, i) && CertGood(w, files, i) && Wanted(w, now, files, i)
    requires BrokerAnswer(w.decoder, bundle, profiles(w.certificates[i].profile), now)
    requires Acceptable(w.decoder, w.certificates[i], publicKey, bundle.certPem)
    ensures Improves(w, files, Writing(PartJob(i, publicKey, bundle, 0), Starting), i)
  {
    hide HasExactNames;
  }

  /** How a process comes to be replacing a certificate. */
  lemma ReplacingFrom(w: Setup, now: int, files: Files, p: Phase, action: Action, i: nat)
    requires PhaseOk(w, now, files, p) && Can(w, files, p, action)
    requires Replacing(Perform(w, now, files, p, action).phase, i)
    ensures var place := Perform(w, now, files, p, action);
            var q := place.phase;
            || (Replacing(p, i) && p.job == q.job && forall x :: SameAt(files, place.files, Named(x)))
            || (p.Asking? && p.entry == i < |w.certificates| && action == Ask(Some(q.job.bundle))
                && place.files == files && q.writer == Starting
                && Acceptable(w.decoder, w.certificates[i], q.job.publicKey, q.job.bundle.certPem))
  {
    hide HasExactNames, Acceptable, CanonicalList;
    if p.Writing? && action.Operate? {
      WriterKeeps(w, files, p.job, p.writer, action.effect);
      hide WriterNext, WriterCan, JobOk, TempOk;
    } else {
      hide WriterNext, WriterCan, JobOk, TempOk;
    }
  }

  lemma PerformImproves(w: Setup, profiles: string -> int, s: State, a: string, action: Action, i: nat)
    requires i < |w.certificates| && RenewsLate(w, profiles, i) && Sane(w, s) && AllImprove(w, s, i)
    requires Enabled(w, s, Act(a, action)) && Timely(w, profiles, s, Act(a, action))
    ensures var place := Perform(w, s.clock, s.files, s.agents[a], action);
            Improves(w, place.files, place.phase, i)
  {
    hide Perform, Can, Acceptable, BrokerAnswer, LaterThan, RenewsLate;
    var p, place := s.agents[a], Perform(w, s.clock, s.files, s.agents[a], action);
    var q := place.phase;
    if Replacing(q, i) {
      ReplacingFrom(w, s.clock, s.files, p, action, i);
      if p.Asking? {
        assert AskedFor(s, Act(a, action), a, i, q.job.bundle);
        assert PhaseOk(w, s.clock, s.files, p) && CertGood(w, s.files, i);
        AnswerImproves(w, profiles, s.clock, s.files, i, q.job.publicKey, q.job.bundle);
      } else {
        assert SameAt(s.files, place.files, CertPath(w, i));
      }
    }
  }

  lemma ActImproves(w: Setup, profiles: string -> int, s: State, a: string, action: Action, i: nat)
    requires w.Apart() && i < |w.certificates| && RenewsLate(w, profiles, i) && Sane(w, s) && AllImprove(w, s, i)
    requires Enabled(w, s, Act(a, action)) && Timely(w, profiles, s, Act(a, action))
    ensures AllImprove(w, Next(w, s, Act(a, action)), i)
  {
    hide Perform, Can, CertsGood, PhaseOk, Timely, RenewsLate, Setup.Apart, LaterThan;
    var p, t := s.agents[a], Next(w, s, Act(a, action));
    PerformImproves(w, profiles, s, a, action, i);
    LockFile(w, s.clock, s.files, p, action);
    forall b | b in t.agents ensures Improves(w, t.files, t.agents[b], i) {
      if b != a && Holds(s.agents[b]) {
        assert Improves(w, s.files, s.agents[b], i);
      }
    }
  }

  lemma StepImproves(w: Setup, profiles: string -> int, s: State, step: Step, i: nat)
    requires w.Apart() && i < |w.certificates| && RenewsLate(w, profiles, i) && Sane(w, s) && AllImprove(w, s, i)
    requires Enabled(w, s, step) && Timely(w, profiles, s, step)
    ensures AllImprove(w, Next(w, s, step), i)
  {
    hide Perform, Can, CertsGood, PhaseOk, Timely, RenewsLate, LaterThan;
    if step.Act? {
      hide AllImprove, Sane, Setup.Apart, Enabled;
      ActImproves(w, profiles, s, step.agent, step.action, i);
    } else {
      var t := Next(w, s, step);
      forall b | b in t.agents ensures Improves(w, t.files, t.agents[b], i) {
        if step.Tick? || (step.Start? && b != step.agent) { assert Improves(w, s.files, s.agents[b], i); }
      }
    }
  }

  lemma {:induction false} AlwaysImproves(
      w: Setup, profiles: string -> int, states: seq<State>, steps: seq<Step>, n: nat, i: nat)
    requires w.Apart() && i < |w.certificates| && RenewsLate(w, profiles, i) && IsRun(w, states, steps) && n < |states|
    requires forall k :: 0 <= k < n ==> Timely(w, profiles, states[k], steps[k])
    ensures AllImprove(w, states[n], i)
  {
    hide Enabled, Next, Setup.Apart, Timely, RenewsLate, Improves, Sane;
    if n > 0 {
      AlwaysImproves(w, profiles, states, steps, n - 1, i);
      AlwaysSane(w, states, steps, n - 1);
      StepAt(w, states, steps, n - 1);
      hide AllImprove;
      StepImproves(w, profiles, states[n - 1], steps[n - 1], i);
    }
  }

  /** Only the first part of an entry's own bundle is written where its certificate is. */
  lemma CertPathJob(w: Setup, job: Job, i: nat)
    requires w.Apart() && JobSized(w, job) && i < |w.certificates| && JobPath(w, job) == w.certificates[i].cert
    ensures job.PartJob? && job.entry == i && job.part == 0
  {
    assert w.certificates[i].cert == w.certificates[i].Paths()[0];
    if job.PartJob? { assert JobPath(w, job) in w.certificates[job.entry].Paths(); }
  }

  /** The step that renames a new certificate over this entry's, be its content new or the same again. */
  predicate Installs(s: State, step: Step, i: nat) {
    && step.Act? && step.agent in s.agents && step.action == Operate(Works)
    && Replacing(s.agents[step.agent], i) && s.agents[step.agent].writer.Shut?
  }

  /** Such a step puts in place what its process has written. */
  lemma InstallsPart(w: Setup, s: State, step: Step, i: nat)
    requires Enabled(w, s, step) && AgentsOk(w, s) && Installs(s, step, i) && i < |w.certificates|
    ensures CertPath(w, i) in Next(w, s, step).files
    ensures Next(w, s, step).files[CertPath(w, i)] == s.agents[step.agent].job.bundle.certPem
  {
    hide HasExactNames, Acceptable, KeyRead, CertRead, Replied;
    assert PhaseOk(w, s.clock, s.files, s.agents[step.agent]);
  }

  /** Nothing else touches this entry's certificate. */
  lemma OnlyInstallsTouch(w: Setup, states: seq<State>, steps: seq<Step>, n: nat, i: nat)
    requires w.Apart() && IsRun(w, states, steps) && n < |steps| && i < |w.certificates|
    requires !Installs(states[n], steps[n], i)
    ensures SameAt(states[n].files, states[n + 1].files, CertPath(w, i))
  {
    hide IsRun, Can, CertsGood, Perform, Acceptable, Enabled, Next;
    StepAt(w, states, steps, n);
    if !SameAt(states[n].files, states[n + 1].files, CertPath(w, i)) {
      assert w.certificates[i].cert != w.lock by { assert w.certificates[i].cert == w.certificates[i].Paths()[0]; }
      hide Setup.Apart;
      TargetsChangeWhole(w, states, steps, n, w.certificates[i].cert);
      CertPathJob(w, states[n].agents[steps[n].agent].job, i);
      RenamedOnce(w, states, steps, n, w.certificates[i].cert);
    }
  }

  lemma RenamedOnce(w: Setup, states: seq<State>, steps: seq<Step>, n: nat, x: string)
    requires w.Apart() && IsRun(w, states, steps) && n < |steps| && x != w.lock
    requires !SameAt(states[n].files, states[n + 1].files, Named(x))
    ensures steps[n].Act? && steps[n].agent in states[n].agents && steps[n].action == Operate(Works)
            && states[n].agents[steps[n].agent].Writing? && states[n].agents[steps[n].agent].writer.Shut?
  {
    hide IsRun, Setup.Apart, CertsGood, HasExactNames, Acceptable;
    StepAt(w, states, steps, n);
    AlwaysSane(w, states, steps, n);
    var s := states[n];
    assert steps[n].Act?;
    var p := s.agents[steps[n].agent];
    NamedMoves(w, s.clock, s.files, p, steps[n].action, x);
    RenameWorks(w, s.clock, s.files, p, steps[n].action);
  }

  lemma RenameWorks(w: Setup, now: int, files: Files, p: Phase, action: Action)
    requires Can(w, files, p, action) && p.Writing? && p.writer.Shut?
    requires Perform(w, now, files, p, action).phase == Writing(p.job, Renamed)
    ensures action == Operate(Works)
  {
  }

  /**
   Every replacement of a certificate, even one by the same content, puts in place a certificate
   that expires strictly later than the one that is there, provided the agent renews this entry
   no earlier than the broker would.
   */
  lemma ReplacementsExpireLater(
      w: Setup, profiles: string -> int, states: seq<State>, steps: seq<Step>, n: nat, i: nat)
    requires w.Apart() && i < |w.certificates| && RenewsLate(w, profiles, i) && IsRun(w, states, steps) && n < |steps|
    requires forall k :: 0 <= k < n ==> Timely(w, profiles, states[k], steps[k])
    requires Installs(states[n], steps[n], i)
    ensures CertPath(w, i) in states[n + 1].files
    ensures CertPath(w, i) in states[n].files ==>
              LaterThan(w.decoder, states[n + 1].files[CertPath(w, i)], states[n].files[CertPath(w, i)])
  {
    hide IsRun, Timely, RenewsLate, LaterThan, PhaseOk, Enabled, Next, Setup.Apart, CertsGood;
    StepAt(w, states, steps, n);
    AlwaysSane(w, states, steps, n);
    AlwaysImproves(w, profiles, states, steps, n, i);
    InstallsPart(w, states[n], steps[n], i);
    assert Improves(w, states[n].files, states[n].agents[steps[n].agent], i);
  }

  /** Whether this entry's certificate is replaced by one of the steps from m to n. */
  ghost predicate Replaced(states: seq<State>, steps: seq<Step>, m: nat, n: nat, i: nat)
    requires n <= |steps| <= |states|
  {
    exists k :: m <= k < n && Installs(states[k], steps[k], i)
  }

  /**
   Over any run of any number of passes an installed certificate never goes away: while it is
   not replaced it stays as it is, and once it is replaced, however often, what is there expires
   strictly later.
   */
  lemma {:induction false} RenewalMovesForward(
      w: Setup, profiles: string -> int, states: seq<State>, steps: seq<Step>, m: nat, n: nat, i: nat)
    requires w.Apart() && i < |w.certificates| && RenewsLate(w, profiles, i) && IsRun(w, states, steps)
    requires m <= n <= |steps| < |states|
    requires forall k :: 0 <= k < n ==> Timely(w, profiles, states[k], steps[k])
    requires CertPath(w, i) in states[m].files
    ensures CertPath(w, i) in states[n].files
    ensures var was, becomes := states[m].files[CertPath(w, i)], states[n].files[CertPath(w, i)];
            if Replaced(states, steps, m, n, i) then LaterThan(w.decoder, becomes, was) else becomes == was
  {
    hide IsRun, Timely, RenewsLate, Setup.Apart, Installs;
    if m < n {
      RenewalMovesForward(w, profiles, states, steps, m, n - 1, i);
      if Installs(states[n - 1], steps[n - 1], i) {
        ReplacementsExpireLater(w, profiles, states, steps, n - 1, i);
      } else {
        OnlyInstallsTouch(w, states, steps, n - 1, i);
      }
    }
  }
}
