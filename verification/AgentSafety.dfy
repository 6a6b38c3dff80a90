/** What the agents keep, however their steps interleave and wherever they crash. */
module AgentSafety {
  import opened Wrappers
  import opened Pki
  import opened DnsName
  import opened AtomicFile
  import opened Agent

  /******* Statements about the files *******/

  function KeyPath(w: Setup, i: nat): Path
    requires i < |w.certificates|
  {
    Named(w.certificates[i].key)
  }

  function CertPath(w: Setup, i: nat): Path
    requires i < |w.certificates|
  {
    Named(w.certificates[i].cert)
  }

  ghost predicate KeyHeld(w: Setup, files: Files, i: nat, publicKey: string) {
    i < |w.certificates| && KeyPath(w, i) in files && w.decoder.key(files[KeyPath(w, i)]) == Some(publicKey)
  }

  /** An installed certificate parses, belongs to the key on disk and has exactly the configured names. */
  ghost predicate CertGood(w: Setup, files: Files, i: nat)
    requires i < |w.certificates|
  {
    CertPath(w, i) in files ==>
      && w.decoder.cert(files[CertPath(w, i)]).Some?
      && var c := w.decoder.cert(files[CertPath(w, i)]).value;
         KeyHeld(w, files, i, c.publicKey) && HasExactNames(c, w.certificates[i].dnsNames)
  }

  ghost predicate CertsGood(w: Setup, files: Files) {
    forall i :: 0 <= i < |w.certificates| ==> CertGood(w, files, i)
  }

  /** There is no certificate yet, or the one there is within its renewal time. */
  ghost predicate Wanted(w: Setup, now: int, files: Files, i: nat)
    requires i < |w.certificates|
  {
    CertPath(w, i) in files && w.decoder.cert(files[CertPath(w, i)]).Some? ==>
      w.decoder.cert(files[CertPath(w, i)]).value.notAfter - now <= w.certificates[i].renewBefore
  }

  /******* What a process knows at each point *******/

  /** A writer's temporary file is still there and, once filled, holds all the data. */
  ghost predicate TempOk(data: string, files: Files, writer: Writer) {
    match writer
    case Filled(t) => Temp(t) in files && files[Temp(t)] == data
    case Moded(t) => Temp(t) in files && files[Temp(t)] == data
    case Synced(t) => Temp(t) in files && files[Temp(t)] == data
    case Shut(t) => Temp(t) in files && files[Temp(t)] == data
    case _ => true
  }

  ghost predicate JobOk(w: Setup, files: Files, job: Job, renamed: bool)
    requires JobSized(w, job)
  {
    match job
    case IdentityJob(_) => true
    case KeyJob(i, publicKey, pem) =>
      && w.decoder.key(pem) == Some(publicKey)
      && (if renamed then KeyHeld(w, files, i, publicKey) else KeyPath(w, i) !in files)
    case PartJob(i, publicKey, bundle, _) =>
      KeyHeld(w, files, i, publicKey) && Acceptable(w.decoder, w.certificates[i], publicKey, bundle.certPem)
  }

  ghost predicate PhaseOk(w: Setup, now: int, files: Files, p: Phase) {
    match p
    case Writing(job, writer) =>
      JobSized(w, job) && TempOk(JobData(job), files, writer) && JobOk(w, files, job, writer.Renamed?)
    case MakingKey(i) => i < |w.certificates| && KeyPath(w, i) !in files
    case FindingCert(i, publicKey) => KeyHeld(w, files, i, publicKey)
    case ReadingCert(i, publicKey) => KeyHeld(w, files, i, publicKey)
    case Asking(i, publicKey) => KeyHeld(w, files, i, publicKey) && Wanted(w, now, files, i)
    case _ => true
  }

  ghost predicate OneHolder(w: Setup, s: State) {
    && (forall a :: a in s.agents && Holds(s.agents[a]) ==> Named(w.lock) in s.files)
    && (forall a, b :: a in s.agents && b in s.agents && Holds(s.agents[a]) && Holds(s.agents[b]) ==> a == b)
  }

  ghost predicate AgentsOk(w: Setup, s: State) {
    forall a :: a in s.agents ==> PhaseOk(w, s.clock, s.files, s.agents[a])
  }

  ghost predicate Sane(w: Setup, s: State) {
    OneHolder(w, s) && CertsGood(w, s.files) && AgentsOk(w, s)
  }

  /******* One operation *******/

  /** Nothing a process relies on differs, save perhaps the temporary files. */
  ghost predicate SameEntries(w: Setup, a: Files, b: Files) {
    forall i :: 0 <= i < |w.certificates| ==> SameAt(a, b, KeyPath(w, i)) && SameAt(a, b, CertPath(w, i))
  }

  lemma CertsFramed(w: Setup, a: Files, b: Files)
    requires CertsGood(w, a) && SameEntries(w, a, b)
    ensures CertsGood(w, b)
  {
    hide HasExactNames;
    forall i | 0 <= i < |w.certificates| ensures CertGood(w, b, i) {
      assert CertGood(w, a, i) && SameAt(a, b, KeyPath(w, i)) && SameAt(a, b, CertPath(w, i));
    }
  }

  /** Making or removing the lock file touches no entry. */
  lemma LockApart(w: Setup, files: Files, content: string)
    requires w.Apart()
    ensures SameEntries(w, files, files[Named(w.lock) := content]) && SameEntries(w, files, files - {Named(w.lock)})
  {
    forall i | 0 <= i < |w.certificates|
      ensures KeyPath(w, i) != Named(w.lock) && CertPath(w, i) != Named(w.lock)
    {
      assert w.certificates[i].cert == w.certificates[i].Paths()[0];
    }
  }

  /** Operations that only look. */
  lemma LookKeeps(w: Setup, now: int, files: Files, p: Phase, action: Action)
    requires CertsGood(w, files) && PhaseOk(w, now, files, p) && Can(w, files, p, action)
    requires !p.Waiting? && !p.Writing? && !p.Leaving?
    ensures var place := Perform(w, now, files, p, action);
            place.files == files && PhaseOk(w, now, files, place.phase)
  {
    hide HasExactNames, CertsGood, WriterNext;
  }

  lemma LockKeeps(w: Setup, now: int, files: Files, p: Phase, action: Action)
    requires w.Apart() && CertsGood(w, files) && Can(w, files, p, action) && (p.Waiting? || p.Leaving?)
    ensures var place := Perform(w, now, files, p, action);
            CertsGood(w, place.files) && PhaseOk(w, now, place.files, place.phase)
  {
    hide CertsGood, WriterNext, Setup.Apart, SameEntries;
    LockApart(w, files, "pid");
    var place := Perform(w, now, files, p, action);
    if SameEntries(w, files, place.files) { CertsFramed(w, files, place.files); }
  }

  /** What a rename does to the entries, for each kind of job. */
  lemma RenameKeeps(w: Setup, files: Files, after: Files, job: Job)
    requires w.Apart() && CertsGood(w, files) && JobSized(w, job) && JobOk(w, files, job, false)
    requires Named(JobPath(w, job)) in after && after[Named(JobPath(w, job))] == JobData(job)
    requires forall x :: x != JobPath(w, job) ==> SameAt(files, after, Named(x))
    ensures CertsGood(w, after) && JobOk(w, after, job, true)
  {
    hide HasExactNames;
    forall i | 0 <= i < |w.certificates| ensures CertGood(w, after, i) {
      assert CertGood(w, files, i);
      assert w.certificates[i].cert == w.certificates[i].Paths()[0];
      match job
      case IdentityJob(_) =>
      case KeyJob(j, _, _) => assert w.certificates[j].key !in w.certificates[i].Paths();
      case PartJob(j, _, _, k) =>
        assert JobPath(w, job) in w.certificates[j].Paths();
        assert w.certificates[i].key !in w.certificates[j].Paths();
        assert w.certificates[j].key !in w.certificates[j].Paths();
    }
    if job.PartJob? { assert w.certificates[job.entry].key !in w.certificates[job.entry].Paths(); }
  }

  /** Short of the rename, a write touches only its temporary file. */
  lemma WriterKeeps(w: Setup, files: Files, job: Job, writer: Writer, e: Effect)
    requires JobSized(w, job) && TempOk(JobData(job), files, writer) && WriterCan(JobData(job), files, writer, e)
    ensures var path, m := JobPath(w, job), WriterNext(JobPath(w, job), JobData(job), files, writer, e);
            && TempOk(JobData(job), m.files, m.writer)
            && (m.writer.Renamed? ==> Named(path) in m.files && m.files[Named(path)] == JobData(job))
            && (m.writer.Renamed? ==> forall x :: x != path ==> SameAt(files, m.files, Named(x)))
            && (!m.writer.Renamed? ==> forall x :: SameAt(files, m.files, Named(x)))
            && (writer.Renamed? ==> m.writer.Returned?)
            && (m.writer == Returned(true) ==> writer.Renamed?)
  {
  }

  lemma JobFramed(w: Setup, a: Files, b: Files, job: Job, renamed: bool)
    requires JobSized(w, job) && JobOk(w, a, job, renamed) && forall x :: SameAt(a, b, Named(x))
    ensures JobOk(w, b, job, renamed)
  {
    hide Acceptable;
    if job.KeyJob? || job.PartJob? { assert SameAt(a, b, KeyPath(w, job.entry)); }
  }

  /** After the rename the job's data are in place. */
  lemma RenamedKeeps(w: Setup, now: int, files: Files, after: Files, job: Job)
    requires w.Apart() && CertsGood(w, files) && JobSized(w, job) && JobOk(w, files, job, false)
    requires Named(JobPath(w, job)) in after && after[Named(JobPath(w, job))] == JobData(job)
    requires forall x :: x != JobPath(w, job) ==> SameAt(files, after, Named(x))
    ensures CertsGood(w, after) && PhaseOk(w, now, after, Writing(job, Renamed))
  {
    hide CertsGood, JobOk, Setup.Apart, JobPath, JobData;
    RenameKeeps(w, files, after, job);
  }

  /** At any other point the chosen files are as they were. */
  lemma QuietKeeps(w: Setup, now: int, files: Files, job: Job, m: Moved, renamed: bool)
    requires CertsGood(w, files) && JobSized(w, job) && JobOk(w, files, job, renamed)
    requires TempOk(JobData(job), m.files, m.writer) && forall x :: SameAt(files, m.files, Named(x))
    requires !m.writer.Renamed? && (renamed ==> m.writer.Returned?) && (m.writer == Returned(true) ==> renamed)
    ensures CertsGood(w, m.files) && PhaseOk(w, now, m.files, WriterPhase(w, job, m.writer))
  {
    hide CertsGood, JobOk, JobData, TempOk;
    JobFramed(w, files, m.files, job, renamed);
    CertsFramed(w, files, m.files);
    if m.writer == Returned(true) { JobDone(w, now, m.files, job); }
  }

  lemma WriteKeeps(w: Setup, now: int, files: Files, job: Job, writer: Writer, e: Effect)
    requires w.Apart() && CertsGood(w, files) && PhaseOk(w, now, files, Writing(job, writer))
    requires WriterCan(JobData(job), files, writer, e)
    ensures var place := Perform(w, now, files, Writing(job, writer), Operate(e));
            CertsGood(w, place.files) && PhaseOk(w, now, place.files, place.phase)
  {
    WriterKeeps(w, files, job, writer, e);
    hide CertsGood, WriterNext, WriterCan, JobOk, TempOk, Setup.Apart, JobPath, JobData;
    var m := WriterNext(JobPath(w, job), JobData(job), files, writer, e);
    if m.writer.Renamed? {
      RenamedKeeps(w, now, files, m.files, job);
    } else {
      QuietKeeps(w, now, files, job, m, writer.Renamed?);
    }
  }

  /** What a finished job leaves is what the next phase starts from. */
  lemma JobDone(w: Setup, now: int, files: Files, job: Job)
    requires JobSized(w, job) && JobOk(w, files, job, true)
    ensures PhaseOk(w, now, files, AfterJob(w, job))
  {
    hide Acceptable;
  }

  /** One operation of the process that holds the lock, or of one that is about to. */
  lemma PerformKeeps(w: Setup, now: int, files: Files, p: Phase, action: Action)
    requires w.Apart() && CertsGood(w, files) && PhaseOk(w, now, files, p) && Can(w, files, p, action)
    ensures var place := Perform(w, now, files, p, action);
            CertsGood(w, place.files) && PhaseOk(w, now, place.files, place.phase)
  {
    hide CertsGood, Setup.Apart;
    if p.Waiting? || p.Leaving? {
      LockKeeps(w, now, files, p, action);
    } else if p.Writing? && action.Operate? {
      hide Perform;
      WriteKeeps(w, now, files, p.job, p.writer, action.effect);
    } else if p.Writing? {
      assert Perform(w, now, files, p, action) == Place(files, Dead);
    } else {
      hide Perform;
      LookKeeps(w, now, files, p, action);
    }
  }

  /******* One step *******/

  /** Where the lock file goes: it is made on entering, and stays until its holder leaves. */
  lemma LockFile(w: Setup, now: int, files: Files, p: Phase, action: Action)
    requires w.Apart() && PhaseOk(w, now, files, p) && Can(w, files, p, action)
    ensures var place := Perform(w, now, files, p, action);
            && (!Holds(p) && Holds(place.phase) ==> Named(w.lock) !in files && Named(w.lock) in place.files)
            && (!Holds(p) && Named(w.lock) in files ==> place.files == files)
            && (Holds(p) && Holds(place.phase) && Named(w.lock) in files ==> Named(w.lock) in place.files)
  {
    hide HasExactNames;
  }

  lemma ActKeeps(w: Setup, s: State, a: string, action: Action)
    requires w.Apart() && Sane(w, s) && Enabled(w, s, Act(a, action))
    ensures Sane(w, Next(w, s, Act(a, action)))
  {
    hide CertsGood, Perform, PhaseOk, Can, Setup.Apart;
    var p, place := s.agents[a], Perform(w, s.clock, s.files, s.agents[a], action);
    var t := Next(w, s, Act(a, action));
    PerformKeeps(w, s.clock, s.files, p, action);
    LockFile(w, s.clock, s.files, p, action);
    forall b | b in t.agents ensures PhaseOk(w, t.clock, t.files, t.agents[b]) {
      if b != a && (Holds(p) || !Holds(s.agents[b])) {
        OutsideOk(w, t.clock, t.files, s.agents[b]);
      }
    }
  }

  /** A process without the lock relies on nothing. */
  lemma OutsideOk(w: Setup, now: int, files: Files, p: Phase)
    requires !Holds(p)
    ensures PhaseOk(w, now, files, p)
  {
  }

  lemma LaterOk(w: Setup, now: int, later: int, files: Files, p: Phase)
    requires PhaseOk(w, now, files, p) && now <= later
    ensures PhaseOk(w, later, files, p)
  {
    hide HasExactNames;
  }

  lemma StepKeeps(w: Setup, s: State, step: Step)
    requires w.Apart() && Sane(w, s) && Enabled(w, s, step)
    ensures Sane(w, Next(w, s, step))
  {
    hide CertsGood, PhaseOk, Can, Perform, Setup.Apart, SameEntries;
    var t := Next(w, s, step);
    match step
    case Act(a, action) => ActKeeps(w, s, a, action);
    case Tick(elapsed) =>
      forall a | a in t.agents ensures PhaseOk(w, t.clock, t.files, t.agents[a]) {
        LaterOk(w, s.clock, t.clock, s.files, s.agents[a]);
      }
    case Start(a) => OutsideOk(w, t.clock, t.files, Waiting);
    case RemoveStaleLock =>
      LockApart(w, s.files, "");
      CertsFramed(w, s.files, t.files);
      forall a | a in t.agents ensures PhaseOk(w, t.clock, t.files, t.agents[a]) {
        OutsideOk(w, t.clock, t.files, t.agents[a]);
      }
  }

  lemma StepAt(w: Setup, states: seq<State>, steps: seq<Step>, n: nat)
    requires IsRun(w, states, steps) && n < |steps|
    ensures |states| == |steps| + 1
    ensures Enabled(w, states[n], steps[n]) && states[n + 1] == Next(w, states[n], steps[n])
  {
    hide Enabled, Next;
  }

  lemma {:induction false} AlwaysSane(w: Setup, states: seq<State>, steps: seq<Step>, n: nat)
    requires w.Apart() && IsRun(w, states, steps) && n < |states|
    ensures Sane(w, states[n])
  {
    hide Enabled, Next, Setup.Apart;
    if n > 0 {
      AlwaysSane(w, states, steps, n - 1);
      StepAt(w, states, steps, n - 1);
      hide Sane;
      StepKeeps(w, states[n - 1], steps[n - 1]);
    }
  }

  /******* Safety over whole runs *******/

  /**
   In every state any interleaving reaches, whatever failed, crashed or was answered, a
   certificate file that exists parses, belongs to the key that is on disk and has exactly the
   names of the configuration.
   */
  lemma InstalledCertificatesMatch(w: Setup, states: seq<State>, steps: seq<Step>, n: nat, i: nat)
    requires w.Apart() && IsRun(w, states, steps) && n < |states| && i < |w.certificates|
    requires Named(w.certificates[i].cert) in states[n].files
    ensures var files, entry := states[n].files, w.certificates[i];
            && w.decoder.cert(files[Named(entry.cert)]).Some?
            && var c := w.decoder.cert(files[Named(entry.cert)]).value;
               && Named(entry.key) in files && w.decoder.key(files[Named(entry.key)]) == Some(c.publicKey)
               && AllValid(c.dnsNames) && AllValid(entry.dnsNames) && Denoted(c.dnsNames) == Denoted(entry.dnsNames)
  {
    hide IsRun, Setup.Apart;
    AlwaysSane(w, states, steps, n);
    assert CertGood(w, states[n].files, i);
  }

  /** Never two live processes between acquiring the lock and releasing it. */
  lemma MutualExclusion(w: Setup, states: seq<State>, steps: seq<Step>, n: nat, a: string, b: string)
    requires w.Apart() && IsRun(w, states, steps) && n < |states|
    requires a in states[n].agents && b in states[n].agents && Holds(states[n].agents[a]) && Holds(states[n].agents[b])
    ensures a == b && Named(w.lock) in states[n].files
  {
    hide IsRun, Setup.Apart;
    AlwaysSane(w, states, steps, n);
  }

  /** While a process holds the lock, no file changes but by its own operations. */
  lemma HolderWritesAlone(w: Setup, states: seq<State>, steps: seq<Step>, n: nat, a: string)
    requires w.Apart() && IsRun(w, states, steps) && n < |steps|
    requires a in states[n].agents && Holds(states[n].agents[a])
    requires states[n + 1].files != states[n].files
    ensures steps[n].Act? && steps[n].agent == a
  {
    hide IsRun, Setup.Apart, PhaseOk, Can, CertsGood, Perform;
    StepAt(w, states, steps, n);
    AlwaysSane(w, states, steps, n);
    var s := states[n];
    if steps[n].Act? {
      LockFile(w, s.clock, s.files, s.agents[steps[n].agent], steps[n].action);
    }
  }

  /******* What a crash leaves *******/

  /** The lock file is there and nobody holds it. */
  ghost predicate LeftLocked(w: Setup, s: State) {
    Named(w.lock) in s.files && NobodyHolds(s)
  }

  lemma CrashIs(w: Setup, s: State, a: string)
    requires Enabled(w, s, Act(a, Crash))
    ensures a in s.agents && Next(w, s, Act(a, Crash)) == s.(agents := s.agents[a := Dead])
  {
    hide WriterNext, KeyRead, CertRead, Replied;
  }

  /** Behind a lock file that is left nothing but the operator's removal of it changes any file. */
  lemma LeftLockedStays(w: Setup, s: State, step: Step)
    requires Enabled(w, s, step) && LeftLocked(w, s) && !step.RemoveStaleLock?
    ensures LeftLocked(w, Next(w, s, step)) && Next(w, s, step).files == s.files
  {
    hide WriterNext, WriterCan, KeyRead, CertRead, Replied;
  }

  /**
   A process that crashes between acquiring the lock and releasing it leaves every file as it is
   at that moment, the lock file included. As long as nobody removes the lock file, no process
   gets the lock again and no file changes.
   */
  lemma {:induction false} CrashBlocks(w: Setup, states: seq<State>, steps: seq<Step>, m: nat, n: nat, a: string)
    requires w.Apart() && IsRun(w, states, steps) && m < n < |states|
    requires steps[m] == Act(a, Crash) && a in states[m].agents && Holds(states[m].agents[a])
    requires forall k :: m < k < n ==> !steps[k].RemoveStaleLock?
    ensures states[n].files == states[m].files && Named(w.lock) in states[n].files && NobodyHolds(states[n])
  {
    hide Enabled, Next, Setup.Apart, CertsGood, AgentsOk;
    if n == m + 1 {
      StepAt(w, states, steps, m);
      AlwaysSane(w, states, steps, m);
      CrashIs(w, states[m], a);
    } else {
      CrashBlocks(w, states, steps, m, n - 1, a);
      StepAt(w, states, steps, n - 1);
      LeftLockedStays(w, states[n - 1], steps[n - 1]);
    }
  }
}
