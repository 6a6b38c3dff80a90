/**
 Agent processes on one machine as a state machine, one file operation a step. Any number of
 them run at once, each may crash between any two operations, and the broker may answer
 anything.
 */
module Agent {
  import opened Wrappers
  import opened Pki
  import opened DnsName
  import opened AtomicFile
  import Disk

  datatype CertConfig = CertConfig(
    key: string, cert: string, chain: string, fullChain: string,
    profile: string, dnsNames: seq<string>, renewBefore: int)
  {
    function Paths(): seq<string> {
      [cert, chain, fullChain]
    }
  }

  datatype Setup = Setup(
    decoder: Decoder, lock: string, identityCert: string, certificates: seq<CertConfig>)
  {
    /**
     The paths of the configuration do not clash: the lock, every key and every certificate
     are nowhere else. Entries may share a key.
     */
    ghost predicate Apart() {
      && lock != identityCert
      && (forall i :: 0 <= i < |certificates| ==>
            && lock !in certificates[i].Paths() && lock != certificates[i].key
            && certificates[i].cert != identityCert && certificates[i].key != identityCert
            && certificates[i].cert != certificates[i].chain && certificates[i].cert != certificates[i].fullChain)
      && (forall i, j :: 0 <= i < |certificates| && 0 <= j < |certificates| ==>
            && certificates[i].key !in certificates[j].Paths()
            && (i != j ==> certificates[i].cert !in certificates[j].Paths()))
    }
  }

  /******* The checks on a certificate *******/

  /** `ExpiresWithin`. */
  predicate ExpiresWithin(c: Cert, d: int, now: int) {
    c.notAfter - now <= d
  }

  /** `CertificateHasExactDNSNames`: both lists are valid and denote the same names. */
  predicate HasExactNames(c: Cert, expected: seq<string>)
    ensures HasExactNames(c, expected) <==>
              AllValid(c.dnsNames) && AllValid(expected) && Denoted(c.dnsNames) == Denoted(expected)
  {
    CanonicalListIsNormalForm(c.dnsNames);
    CanonicalListIsNormalForm(expected);
    var actual, wanted := CanonicalList(c.dnsNames), CanonicalList(expected);
    if actual.Failure? || wanted.Failure? then false
    else
      CanonicalListIdempotent(c.dnsNames);
      CanonicalListIdempotent(expected);
      SameListSameSet(c.dnsNames, expected);
      CanonicalList(actual.value) == CanonicalList(wanted.value)
  }

  predicate Acceptable(decoder: Decoder, entry: CertConfig, publicKey: string, certPem: string) {
    var c := decoder.cert(certPem);
    c.Some? && c.value.publicKey == publicKey && HasExactNames(c.value, entry.dnsNames)
  }

  /******* Processes *******/

  /** What an atomic write is for. */
  datatype Job =
    | IdentityJob(pem: string)
    | KeyJob(entry: nat, publicKey: string, pem: string)
    | PartJob(entry: nat, publicKey: string, bundle: Bundle, part: nat)

  datatype Phase =
    | Waiting
    | Entered
    | Writing(job: Job, writer: Writer)
    | FindingKey(entry: nat)
    | ReadingKey(entry: nat)
    | MakingKey(entry: nat)
    | FindingCert(entry: nat, publicKey: string)
    | ReadingCert(entry: nat, publicKey: string)
    | Asking(entry: nat, publicKey: string)
    | Reloading(entry: nat)
    | Leaving(ok: bool)
    | Gone(ok: bool)
    | Dead

  /** Between acquiring the lock and releasing it. */
  predicate Holds(p: Phase) {
    !p.Waiting? && !p.Gone? && !p.Dead?
  }

  datatype Preparation = Refused | Ready | Renewed(pem: string)

  datatype NewKey = NewKey(publicKey: string, pem: string)

  /** One operation of a process, with its outcome. */
  datatype Action =
    | Acquire(works: bool)
    | Prepare(result: Preparation)
    | Operate(effect: Effect)
    | FindKey(works: bool)
    | ReadKey(works: bool)
    | MakeKey(made: Option<NewKey>)
    | FindCert(works: bool)
    | ReadCert(works: bool)
    | Ask(reply: Option<Bundle>)
    | Reload(works: bool)
    | Leave(removed: bool)
    | Crash

  datatype Place = Place(files: Files, phase: Phase)

  function JobPath(w: Setup, job: Job): string
    requires JobSized(w, job)
  {
    match job
    case IdentityJob(_) => w.identityCert
    case KeyJob(i, _, _) => w.certificates[i].key
    case PartJob(i, _, _, k) => w.certificates[i].Paths()[k]
  }

  function JobData(job: Job): string
    requires job.PartJob? ==> job.part < 3
  {
    match job
    case IdentityJob(pem) => pem
    case KeyJob(_, _, pem) => pem
    case PartJob(_, _, bundle, k) => Disk.Parts(bundle)[k]
  }

  predicate JobSized(w: Setup, job: Job) {
    match job
    case IdentityJob(_) => true
    case KeyJob(i, _, _) => i < |w.certificates|
    case PartJob(i, _, _, k) => i < |w.certificates| && k < 3
  }

  /** The next certificate of the loop, or the end of it. */
  function EntryPhase(w: Setup, i: nat): Phase {
    if i < |w.certificates| then FindingKey(i) else Leaving(true)
  }

  function AfterJob(w: Setup, job: Job): Phase {
    match job
    case IdentityJob(_) => EntryPhase(w, 0)
    case KeyJob(i, publicKey, _) => FindingCert(i, publicKey)
    case PartJob(i, publicKey, bundle, k) =>
      if k < 2 then Writing(PartJob(i, publicKey, bundle, k + 1), Starting) else Reloading(i)
  }

  /** The phase that a writer of a job is in. */
  function WriterPhase(w: Setup, job: Job, writer: Writer): Phase {
    if !writer.Returned? then Writing(job, writer) else if writer.ok then AfterJob(w, job) else Leaving(false)
  }

  predicate Can(w: Setup, files: Files, phase: Phase, action: Action) {
    match phase
    case Waiting => action.Acquire? || action.Crash?
    case Entered => action.Prepare? || action.Crash?
    case Writing(job, writer) =>
      JobSized(w, job)
      && (action.Crash? || (action.Operate? && WriterCan(JobData(job), files, writer, action.effect)))
    case FindingKey(i) => i < |w.certificates| && (action.FindKey? || action.Crash?)
    case ReadingKey(i) => i < |w.certificates| && (action.ReadKey? || action.Crash?)
    case MakingKey(i) =>
      i < |w.certificates|
      && (action.Crash? ||
          (action.MakeKey? && (action.made.Some? ==>
             w.decoder.key(action.made.value.pem) == Some(action.made.value.publicKey))))
    case FindingCert(i, _) => i < |w.certificates| && (action.FindCert? || action.Crash?)
    case ReadingCert(i, _) => i < |w.certificates| && (action.ReadCert? || action.Crash?)
    case Asking(i, _) => i < |w.certificates| && (action.Ask? || action.Crash?)
    case Reloading(i) => action.Reload? || action.Crash?
    case Leaving(_) => action.Leave? || action.Crash?
    case Gone(_) => false
    case Dead => false
  }

  function Perform(w: Setup, now: int, files: Files, phase: Phase, action: Action): Place
    requires Can(w, files, phase, action)
  {
    if action.Crash? then Place(files, Dead)
    else
      match phase
      case Waiting =>
        if action.works && Named(w.lock) !in files then Place(files[Named(w.lock) := "pid"], Entered)
        else Place(files, Gone(false))
      case Entered =>
        if action.result.Refused? || Named(w.identityCert) !in files then Place(files, Leaving(false))
        else if action.result.Renewed? then Place(files, Writing(IdentityJob(action.result.pem), Starting))
        else Place(files, EntryPhase(w, 0))
      case Writing(job, writer) =>
        var m := WriterNext(JobPath(w, job), JobData(job), files, writer, action.effect);
        Place(m.files, WriterPhase(w, job, m.writer))
      case FindingKey(i) =>
        Place(files,
              if !action.works then Leaving(false)
              else if Named(w.certificates[i].key) in files then ReadingKey(i)
              else MakingKey(i))
      case ReadingKey(i) => Place(files, KeyRead(w, files, i, action.works))
      case MakingKey(i) =>
        Place(files,
              if action.made.None? then Leaving(false)
              else Writing(KeyJob(i, action.made.value.publicKey, action.made.value.pem), Starting))
      case FindingCert(i, publicKey) =>
        Place(files,
              if !action.works then Leaving(false)
              else if Named(w.certificates[i].cert) in files then ReadingCert(i, publicKey)
              else Asking(i, publicKey))
      case ReadingCert(i, publicKey) => Place(files, CertRead(w, now, files, i, publicKey, action.works))
      case Asking(i, publicKey) => Place(files, Replied(w, i, publicKey, action.reply))
      case Reloading(i) => Place(files, if action.works then EntryPhase(w, i + 1) else Leaving(false))
      case Leaving(ok) => Place(if action.removed then files - {Named(w.lock)} else files, Gone(ok))
  }

  function KeyRead(w: Setup, files: Files, i: nat, works: bool): Phase
    requires i < |w.certificates|
  {
    var path := Named(w.certificates[i].key);
    if !works || path !in files || w.decoder.key(files[path]).None? then Leaving(false)
    else FindingCert(i, w.decoder.key(files[path]).value)
  }

  /** A certificate that is there must belong to the key; outside its renewal time it is left alone. */
  function CertRead(w: Setup, now: int, files: Files, i: nat, publicKey: string, works: bool): Phase
    requires i < |w.certificates|
  {
    var path := Named(w.certificates[i].cert);
    if !works || path !in files || w.decoder.cert(files[path]).None? then Leaving(false)
    else
      var c := w.decoder.cert(files[path]).value;
      if c.publicKey != publicKey then Leaving(false)
      else if !ExpiresWithin(c, w.certificates[i].renewBefore, now) then EntryPhase(w, i + 1)
      else Asking(i, publicKey)
  }

  /** No request can be made without names; an answer is installed only if it is acceptable. */
  function Replied(w: Setup, i: nat, publicKey: string, reply: Option<Bundle>): Phase
    requires i < |w.certificates|
  {
    var names := CanonicalList(w.certificates[i].dnsNames);
    if names.Failure? || names.value == [] || reply.None? then Leaving(false)
    else if !Acceptable(w.decoder, w.certificates[i], publicKey, reply.value.certPem) then Leaving(false)
    else Writing(PartJob(i, publicKey, reply.value, 0), Starting)
  }

  /******* Runs *******/

  datatype State = State(clock: int, files: Files, agents: map<string, Phase>)

  /** An operator may take away a lock file that nobody alive holds. */
  datatype Step =
    | Tick(elapsed: nat)
    | Start(agent: string)
    | Act(agent: string, action: Action)
    | RemoveStaleLock

  ghost predicate NobodyHolds(s: State) {
    forall a :: a in s.agents ==> !Holds(s.agents[a])
  }

  ghost predicate Enabled(w: Setup, s: State, step: Step) {
    match step
    case Tick(_) => true
    case Start(a) => a !in s.agents
    case Act(a, action) => a in s.agents && Can(w, s.files, s.agents[a], action)
    case RemoveStaleLock => NobodyHolds(s)
  }

  ghost function Next(w: Setup, s: State, step: Step): State
    requires Enabled(w, s, step)
  {
    match step
    case Tick(elapsed) => s.(clock := s.clock + elapsed)
    case Start(a) => s.(agents := s.agents[a := Waiting])
    case Act(a, action) =>
      var place := Perform(w, s.clock, s.files, s.agents[a], action);
      s.(files := place.files, agents := s.agents[a := place.phase])
    case RemoveStaleLock => s.(files := s.files - {Named(w.lock)})
  }

  /** At first no agent runs and no certificate is installed; any other file may be there. */
  ghost predicate Initial(w: Setup, s: State) {
    && s.agents == map[]
    && forall i :: 0 <= i < |w.certificates| ==> Named(w.certificates[i].cert) !in s.files
  }

  ghost predicate IsRun(w: Setup, states: seq<State>, steps: seq<Step>) {
    && |states| == |steps| + 1
    && Initial(w, states[0])
    && forall i :: 0 <= i < |steps| ==> Enabled(w, states[i], steps[i]) && states[i + 1] == Next(w, states[i], steps[i])
  }
}
