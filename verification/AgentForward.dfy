/**
 Exactly when renewal moves forward: an agent that renews an entry earlier than the broker would
 can be brought to install a certificate over itself.
 */
module AgentForward {
  import opened Wrappers
  import opened Pki
  import opened DnsName
  import opened AtomicFile
  import opened Disk
  import opened Agent
  import opened AgentSafety
  import opened AgentTurns
  import opened AgentPass
  import opened AgentRenewal
  import Store

  /** What there is to make certificates with: a key, and certificates for it as they are asked for. */
  datatype Maker = Maker(keyPem: string, publicKey: string, certPem: (nat, int) -> string)

  /** Every entry has names to ask for, and the maker's files decode to a key and to certificates for it. */
  ghost predicate Capable(w: Setup, m: Maker) {
    && w.decoder.key(m.keyPem) == Some(m.publicKey)
    && (forall i: nat :: i < |w.certificates| ==>
          AllValid(w.certificates[i].dnsNames) && w.certificates[i].dnsNames != [])
    && forall i: nat, expiry: int :: i < |w.certificates| ==>
         w.decoder.cert(m.certPem(i, expiry)) == Some(Cert(m.publicKey, w.certificates[i].dnsNames, expiry))
  }

  function BundleFor(m: Maker, i: nat, expiry: int): Bundle {
    Bundle(m.certPem(i, expiry), "", "", "", 0, expiry)
  }

  /******* Turns with the broker's answers in them *******/

  /** Each answer that these turns get is one the broker would give for that entry then. */
  ghost predicate Answered(w: Setup, profiles: string -> int, from: Place, turns: seq<Turn>) {
    forall k :: 0 <= k < |turns| ==> TurnAnswered(w, profiles, After(w, from, turns[..k]), turns[k])
  }

  ghost predicate TurnAnswered(w: Setup, profiles: string -> int, p: Option<Place>, turn: Turn) {
    p.Some? && p.value.phase.Asking? && p.value.phase.entry < |w.certificates|
    && turn.action.Ask? && turn.action.reply.Some?
    ==>
      var entry := w.certificates[p.value.phase.entry];
      BrokerAnswer(w.decoder, turn.action.reply.value, profiles(entry.profile), turn.now)
  }

  lemma NothingAnswered(w: Setup, profiles: string -> int, from: Place, turns: seq<Turn>)
    requires NoAsk(turns)
    ensures Answered(w, profiles, from, turns)
  {
    hide After, BrokerAnswer;
    forall k | 0 <= k < |turns| ensures TurnAnswered(w, profiles, After(w, from, turns[..k]), turns[k]) {
      assert turns[k] in turns;
    }
  }

  lemma FirstAnswered(w: Setup, profiles: string -> int, from: Place, turns: seq<Turn>)
    requires turns != [] && NoAsk(turns[1..]) && TurnAnswered(w, profiles, Some(from), turns[0])
    ensures Answered(w, profiles, from, turns)
  {
    hide BrokerAnswer;
    StaysPut(w, from);
    assert turns[..0] == [];
    hide After;
    forall k | 0 <= k < |turns| ensures TurnAnswered(w, profiles, After(w, from, turns[..k]), turns[k]) {
      if k > 0 { assert turns[k] == turns[1..][k - 1] && turns[1..][k - 1] in turns[1..]; }
    }
  }

  lemma BothAnswered(w: Setup, profiles: string -> int, from: Place, turns: seq<Turn>, more: seq<Turn>)
    requires After(w, from, turns).Some? && Answered(w, profiles, from, turns)
    requires Answered(w, profiles, After(w, from, turns).value, more)
    ensures Answered(w, profiles, from, turns + more)
    ensures After(w, from, turns + more) == After(w, After(w, from, turns).value, more)
  {
    hide After, TurnAnswered;
    AfterBoth(w, from, turns, more);
    var all := turns + more;
    forall k | 0 <= k < |all| ensures TurnAnswered(w, profiles, After(w, from, all[..k]), all[k]) {
      if k < |turns| {
        assert all[..k] == turns[..k];
      } else {
        assert all[..k] == turns + more[..k - |turns|];
        AfterBoth(w, from, turns, more[..k - |turns|]);
      }
    }
  }

  /******* A furnished machine *******/

  /** The times that certificates are made for: late enough, but for the one entry. */
  function ExpiryOf(w: Setup, profiles: string -> int, i: nat, j: nat): int
    requires i < |w.certificates| && j < |w.certificates|
  {
    var mine, its := w.certificates[j].renewBefore, profiles(w.certificates[j].profile);
    if j == i then mine else if mine > its then mine + 1 else its + 1
  }

  /** Keys and the first n certificates are in place, the others are not, and the identity is there. */
  ghost predicate Furnished(w: Setup, m: Maker, profiles: string -> int, i: nat, files: Files, n: nat)
    requires i < |w.certificates| && n <= |w.certificates|
  {
    && Named(w.identityCert) in files
    && (forall j :: 0 <= j < |w.certificates| ==> KeyPath(w, j) in files && files[KeyPath(w, j)] == m.keyPem)
    && (forall j :: 0 <= j < n ==>
          CertPath(w, j) in files && files[CertPath(w, j)] == m.certPem(j, ExpiryOf(w, profiles, i, j)))
    && (forall j :: n <= j < |w.certificates| ==> CertPath(w, j) !in files)
  }

  const GOOD := Faults(true, true, true, 0, true, true, true, true, true, true)

  function InputFor(reply: Bundle): EntryInput {
    EntryInput(0, true, true, None, GOOD, true, true, Some(reply), [GOOD, GOOD, GOOD], true)
  }

  lemma MadeIsAcceptable(w: Setup, m: Maker, i: nat, expiry: int)
    requires Capable(w, m) && i < |w.certificates|
    ensures Acceptable(w.decoder, w.certificates[i], m.publicKey, m.certPem(i, expiry))
  {
  }

  /** What is furnished is good. */
  lemma FurnishedGood(w: Setup, m: Maker, profiles: string -> int, i: nat, files: Files, n: nat, j: nat)
    requires Capable(w, m) && i < |w.certificates| && j < |w.certificates| && n <= |w.certificates|
    requires Furnished(w, m, profiles, i, files, n)
    ensures KeyHeld(w, files, j, m.publicKey) && Belongs(w, j, m.publicKey, files)
    ensures Wanted(w, 0, files, j) <==> j >= n || j == i
  {
    if j < n { MadeIsAcceptable(w, m, j, ExpiryOf(w, profiles, i, j)); }
  }

  /** The turns of an entry up to leaving its certificate alone or asking for one. */
  lemma LookAt(w: Setup, m: Maker, profiles: string -> int, i: nat, files: Files, n: nat, j: nat, reply: Bundle)
    returns (turns: seq<Turn>)
    requires Capable(w, m) && i < |w.certificates| && j < |w.certificates| && n <= |w.certificates|
    requires Furnished(w, m, profiles, i, files, n)
    ensures AllAt(turns, 0) && Answered(w, profiles, Place(files, FindingKey(j)), turns)
    ensures After(w, Place(files, FindingKey(j)), turns)
            == Some(Place(files, if j >= n || j == i then Asking(j, m.publicKey) else EntryPhase(w, j + 1)))
  {
    hide After, Answered, Wanted, Belongs;
    FurnishedGood(w, m, profiles, i, files, n, j);
    var from, input := Place(files, FindingKey(j)), InputFor(reply);
    turns := KeyTurns(w, j, input, files, files, []);
    var more := LookTurns(w, j, input, files, m.publicKey);
    AfterBoth(w, from, turns, more);
    NothingAnswered(w, profiles, from, turns);
    NothingAnswered(w, profiles, Place(files, FindingCert(j, m.publicKey)), more);
    BothAnswered(w, profiles, from, turns, more);
    turns := turns + more;
  }

  /** The three parts of a bundle, written without a fault. */
  lemma WriteThree(bundle: Bundle, paths: seq<string>, before: Files) returns (runs: seq<seq<Moved>>)
    requires |paths| == 3
    ensures |runs| == 3
    ensures WriteRuns(bundle, paths, runs, before, Installed(before, bundle, paths, 3), true)
  {
    runs := [];
    for k := 0 to 3
      invariant |runs| == k && WriteRuns(bundle, paths, runs, before, Installed(before, bundle, paths, k), true)
    {
      hide WriteRuns;
      var middle, after := Installed(before, bundle, paths, k), Installed(before, bundle, paths, k + 1);
      var t := FreshTemp(middle.Keys);
      var run := RunToTheEnd(paths[k], Parts(bundle)[k], middle, t, true);
      assert run[|run| - 1] == run[7];
      RunsGrow(bundle, paths, runs, run, before, middle, after, true);
      runs := runs + [run];
    }
  }

  /** Installing the next certificate furnishes one more entry. */
  lemma FurnishesOne(w: Setup, m: Maker, profiles: string -> int, i: nat, files: Files, j: nat)
    requires w.Apart() && i < |w.certificates| && j < |w.certificates| && Furnished(w, m, profiles, i, files, j)
    ensures var bundle := BundleFor(m, j, ExpiryOf(w, profiles, i, j));
            Furnished(w, m, profiles, i, Installed(files, bundle, w.certificates[j].Paths(), 3), j + 1)
  {
    var entry, bundle := w.certificates[j], BundleFor(m, j, ExpiryOf(w, profiles, i, j));
    var paths := entry.Paths();
    var after := Installed(files, bundle, paths, 3);
    ThreeInstalled(files, bundle, paths);
    forall k | 0 <= k < |w.certificates|
      ensures KeyPath(w, k) in after && after[KeyPath(w, k)] == m.keyPem
      ensures k != j ==> SameAt(files, after, CertPath(w, k))
    {
      assert w.certificates[k].key !in paths;
      assert k != j ==> w.certificates[k].cert !in paths;
    }
    assert Furnished(w, m, profiles, i, after, j + 1);
  }

  lemma ThreeInstalled(files: Files, bundle: Bundle, paths: seq<string>)
    requires |paths| == 3
    ensures Installed(files, bundle, paths, 3)
            == files[Named(paths[0]) := bundle.certPem][Named(paths[1]) := bundle.chainPem]
                    [Named(paths[2]) := bundle.fullChainPem]
  {
    assert Installed(files, bundle, paths, 1) == files[Named(paths[0]) := bundle.certPem];
    assert Installed(files, bundle, paths, 2)
        == files[Named(paths[0]) := bundle.certPem][Named(paths[1]) := bundle.chainPem];
  }

  /** An entry without a certificate gets one. */
  lemma InstallOne(w: Setup, m: Maker, profiles: string -> int, i: nat, files: Files, j: nat)
    returns (turns: seq<Turn>, after: Files)
    requires w.Apart() && Capable(w, m) && i < |w.certificates| && j <= i
    requires Furnished(w, m, profiles, i, files, j) && !RenewsLate(w, profiles, i)
    ensures AllAt(turns, 0) && Answered(w, profiles, Place(files, FindingKey(j)), turns)
    ensures After(w, Place(files, FindingKey(j)), turns) == Some(Place(after, EntryPhase(w, j + 1)))
    ensures Furnished(w, m, profiles, i, after, j + 1)
    ensures Named(w.lock) in files ==> Named(w.lock) in after
  {
    var entry, bundle := w.certificates[j], BundleFor(m, j, ExpiryOf(w, profiles, i, j));
    var from := Place(files, FindingKey(j));
    after := Installed(files, bundle, entry.Paths(), 3);
    FurnishesOne(w, m, profiles, i, files, j);
    ThreeInstalled(files, bundle, entry.Paths());
    MadeIsAcceptable(w, m, j, ExpiryOf(w, profiles, i, j));
    NamesToAskFor(entry.dnsNames);
    AnsweredByMaker(w, m, profiles, i, j);
    hide After, Answered, Furnished, Acceptable, BrokerAnswer, ExpiryOf, Installed;
    turns := LookAt(w, m, profiles, i, files, j, j, bundle);
    var runs := WriteThree(bundle, entry.Paths(), files);
    var more := AskTurns(w, j, InputFor(bundle), files, m.publicKey, runs, after, true);
    FirstAnswered(w, profiles, Place(files, Asking(j, m.publicKey)), more);
    JoinTurns(w, profiles, from, turns, more);
    turns := turns + more;
  }

  lemma JoinTurns(w: Setup, profiles: string -> int, from: Place, turns: seq<Turn>, more: seq<Turn>)
    requires AllAt(turns, 0) && AllAt(more, 0) && After(w, from, turns).Some? && Answered(w, profiles, from, turns)
    requires Answered(w, profiles, After(w, from, turns).value, more)
    ensures AllAt(turns + more, 0) && Answered(w, profiles, from, turns + more)
    ensures After(w, from, turns + more) == After(w, After(w, from, turns).value, more)
  {
    hide After, Answered;
    BothAnswered(w, profiles, from, turns, more);
  }

  /** The bundles made are answers the broker would give, the entry's own just because the agent is early. */
  lemma AnsweredByMaker(w: Setup, m: Maker, profiles: string -> int, i: nat, j: nat)
    requires Capable(w, m) && i < |w.certificates| && j < |w.certificates| && !RenewsLate(w, profiles, i)
    ensures BrokerAnswer(w.decoder, BundleFor(m, j, ExpiryOf(w, profiles, i, j)),
                         profiles(w.certificates[j].profile), 0)
  {
  }

  lemma {:induction false} InstallAll(w: Setup, m: Maker, profiles: string -> int, i: nat, files: Files, n: nat)
    returns (turns: seq<Turn>, after: Files)
    requires w.Apart() && Capable(w, m) && i < |w.certificates| && n <= i + 1
    requires Furnished(w, m, profiles, i, files, 0) && !RenewsLate(w, profiles, i) && Named(w.lock) in files
    ensures AllAt(turns, 0) && Answered(w, profiles, Place(files, EntryPhase(w, 0)), turns)
    ensures After(w, Place(files, EntryPhase(w, 0)), turns) == Some(Place(after, EntryPhase(w, n)))
    ensures Furnished(w, m, profiles, i, after, n) && Named(w.lock) in after
  {
    hide After, Answered, Furnished, Capable, RenewsLate, Setup.Apart;
    turns, after := [], files;
    NothingAnswered(w, profiles, Place(files, EntryPhase(w, 0)), []);
    StaysPut(w, Place(files, EntryPhase(w, 0)));
    if n > 0 {
      turns, after := InstallAll(w, m, profiles, i, files, n - 1);
      var more;
      more, after := InstallOne(w, m, profiles, i, after, n - 1);
      JoinTurns(w, profiles, Place(files, EntryPhase(w, 0)), turns, more);
      turns := turns + more;
    }
  }

  /** Entries whose certificates are not due are left alone. */
  lemma {:induction false} SkipAll(w: Setup, m: Maker, profiles: string -> int, i: nat, files: Files, n: nat)
    returns (turns: seq<Turn>)
    requires Capable(w, m) && i < |w.certificates| && n <= i && Furnished(w, m, profiles, i, files, i + 1)
    ensures AllAt(turns, 0) && Answered(w, profiles, Place(files, EntryPhase(w, 0)), turns)
    ensures After(w, Place(files, EntryPhase(w, 0)), turns) == Some(Place(files, EntryPhase(w, n)))
  {
    hide After, Answered, Furnished, Capable;
    turns := [];
    NothingAnswered(w, profiles, Place(files, EntryPhase(w, 0)), []);
    StaysPut(w, Place(files, EntryPhase(w, 0)));
    if n > 0 {
      turns := SkipAll(w, m, profiles, i, files, n - 1);
      var more := LookAt(w, m, profiles, i, files, i + 1, n - 1, BundleFor(m, 0, 0));
      JoinTurns(w, profiles, Place(files, EntryPhase(w, 0)), turns, more);
      turns := turns + more;
    }
  }

  /******* Two passes *******/

  lemma LockFurnished(w: Setup, m: Maker, profiles: string -> int, i: nat, files: Files, n: nat)
    requires w.Apart() && i < |w.certificates| && n <= |w.certificates| && Furnished(w, m, profiles, i, files, n)
    ensures Furnished(w, m, profiles, i, files[Named(w.lock) := "pid"], n)
    ensures Furnished(w, m, profiles, i, files - {Named(w.lock)}, n)
  {
    forall j | 0 <= j < |w.certificates|
      ensures w.certificates[j].key != w.lock && w.certificates[j].cert != w.lock
    {
      assert w.certificates[j].cert == w.certificates[j].Paths()[0];
    }
  }

  lemma Enters(w: Setup, profiles: string -> int, files: Files)
    returns (turns: seq<Turn>)
    requires w.Apart() && Named(w.lock) !in files && Named(w.identityCert) in files
    ensures AllAt(turns, 0) && Answered(w, profiles, Place(files, Waiting), turns)
    ensures After(w, Place(files, Waiting), turns) == Some(Place(files[Named(w.lock) := "pid"], EntryPhase(w, 0)))
  {
    hide After, Answered, WriterNext;
    var from := Place(files, Waiting);
    StaysPut(w, from);
    turns := Turned(w, from, [], 0, Acquire(true), files, Waiting, Place(files[Named(w.lock) := "pid"], Entered));
    turns := Turned(w, from, turns, 0, Prepare(Ready), files[Named(w.lock) := "pid"], Entered,
                    Place(files[Named(w.lock) := "pid"], EntryPhase(w, 0)));
    NothingAnswered(w, profiles, from, turns);
  }

  lemma Exits(w: Setup, profiles: string -> int, files: Files, k: nat)
    returns (turns: seq<Turn>, ok: bool)
    ensures AllAt(turns, 0) && Answered(w, profiles, Place(files, EntryPhase(w, k)), turns)
    ensures After(w, Place(files, EntryPhase(w, k)), turns) == Some(Place(files - {Named(w.lock)}, Gone(ok)))
  {
    hide After, Answered, WriterNext;
    var from := Place(files, EntryPhase(w, k));
    StaysPut(w, from);
    turns := [];
    ok := k >= |w.certificates|;
    if !ok {
      turns := Turned(w, from, [], 0, FindKey(false), files, FindingKey(k), Place(files, Leaving(false)));
    }
    turns := Turned(w, from, turns, 0, Leave(true), files, Leaving(ok), Place(files - {Named(w.lock)}, Gone(ok)));
    NothingAnswered(w, profiles, from, turns);
  }

  /** A pass that installs every certificate up to the entry's, and then ends. */
  lemma FirstPass(w: Setup, m: Maker, profiles: string -> int, i: nat, files: Files)
    returns (turns: seq<Turn>, after: Files, ok: bool)
    requires w.Apart() && Capable(w, m) && i < |w.certificates| && !RenewsLate(w, profiles, i)
    requires Furnished(w, m, profiles, i, files, 0) && Named(w.lock) !in files
    ensures AllAt(turns, 0) && Answered(w, profiles, Place(files, Waiting), turns)
    ensures After(w, Place(files, Waiting), turns) == Some(Place(after, Gone(ok)))
    ensures Furnished(w, m, profiles, i, after, i + 1) && Named(w.lock) !in after
  {
    var from := Place(files, Waiting);
    assert Named(w.identityCert) in files;
    hide After, Answered, Furnished, Capable, RenewsLate, Setup.Apart;
    turns := Enters(w, profiles, files);
    LockFurnished(w, m, profiles, i, files, 0);
    var more, installed := InstallAll(w, m, profiles, i, files[Named(w.lock) := "pid"], i + 1);
    JoinTurns(w, profiles, from, turns, more);
    turns := turns + more;
    more, ok := Exits(w, profiles, installed, i + 1);
    JoinTurns(w, profiles, from, turns, more);
    turns := turns + more;
    LockFurnished(w, m, profiles, i, installed, i + 1);
    after := installed - {Named(w.lock)};
  }

  /** What the entry's certificate is replaced by: itself. */
  function AgainJob(w: Setup, m: Maker, profiles: string -> int, i: nat): Job
    requires i < |w.certificates|
  {
    PartJob(i, m.publicKey, BundleFor(m, i, ExpiryOf(w, profiles, i, i)), 0)
  }

  /** The turns of a write up to the moment before its rename. */
  lemma WritesUpToRename(w: Setup, job: Job, files: Files)
    returns (turns: seq<Turn>, after: Files, t: nat)
    requires JobSized(w, job)
    ensures AllAt(turns, 0) && NoAsk(turns)
    ensures After(w, Place(files, Writing(job, Starting)), turns) == Some(Place(after, Writing(job, Shut(t))))
    ensures forall x :: SameAt(files, after, Named(x))
    ensures Temp(t) in after && after[Temp(t)] == JobData(job)
  {
    hide After, WriterNext;
    t := FreshTemp(files.Keys);
    var run := RunToTheEnd(JobPath(w, job), JobData(job), files, t, true);
    WriterRunAt(JobPath(w, job), JobData(job), run, 5);
    after := run[5].files;
    turns := WriteTurns(w, 0, job, run, 5);
  }

  /** The broker answers with the certificate that is there, and it is accepted. */
  lemma AskedAgain(w: Setup, m: Maker, profiles: string -> int, i: nat)
    requires Capable(w, m) && i < |w.certificates| && !RenewsLate(w, profiles, i)
    ensures var bundle := BundleFor(m, i, ExpiryOf(w, profiles, i, i));
            && Replied(w, i, m.publicKey, Some(bundle)) == Writing(AgainJob(w, m, profiles, i), Starting)
            && BrokerAnswer(w.decoder, bundle, profiles(w.certificates[i].profile), 0)
  {
    MadeIsAcceptable(w, m, i, ExpiryOf(w, profiles, i, i));
    NamesToAskFor(w.certificates[i].dnsNames);
    AnsweredByMaker(w, m, profiles, i, i);
    hide Acceptable, BrokerAnswer, ExpiryOf, CanonicalList;
  }

  lemma AskTurn(w: Setup, m: Maker, profiles: string -> int, i: nat, files: Files, bundle: Bundle, to: Phase)
    returns (turns: seq<Turn>)
    requires i < |w.certificates| && BrokerAnswer(w.decoder, bundle, profiles(w.certificates[i].profile), 0)
    requires Replied(w, i, m.publicKey, Some(bundle)) == to
    ensures AllAt(turns, 0) && Answered(w, profiles, Place(files, Asking(i, m.publicKey)), turns)
    ensures After(w, Place(files, Asking(i, m.publicKey)), turns) == Some(Place(files, to))
  {
    hide After, Answered, BrokerAnswer, Replied, WriterNext, WriterCan;
    var from := Place(files, Asking(i, m.publicKey));
    StaysPut(w, from);
    turns := Turned(w, from, [], 0, Ask(Some(bundle)), files, from.phase, Place(files, to));
    FirstAnswered(w, profiles, from, turns);
  }

  /** The turns from asking for a certificate that is there to writing it once more. */
  lemma WritesAgain(w: Setup, m: Maker, profiles: string -> int, i: nat, files: Files)
    returns (turns: seq<Turn>, after: Files, t: nat)
    requires Capable(w, m) && i < |w.certificates| && !RenewsLate(w, profiles, i)
    ensures AllAt(turns, 0) && Answered(w, profiles, Place(files, Asking(i, m.publicKey)), turns)
    ensures After(w, Place(files, Asking(i, m.publicKey)), turns)
            == Some(Place(after, Writing(AgainJob(w, m, profiles, i), Shut(t))))
    ensures forall x :: SameAt(files, after, Named(x))
    ensures Temp(t) in after && after[Temp(t)] == JobData(AgainJob(w, m, profiles, i))
  {
    hide After, Answered, Capable, BrokerAnswer, ExpiryOf, RenewsLate, Replied, JobData;
    var job := AgainJob(w, m, profiles, i);
    AskedAgain(w, m, profiles, i);
    turns := AskTurn(w, m, profiles, i, files, BundleFor(m, i, ExpiryOf(w, profiles, i, i)), Writing(job, Starting));
    var more;
    more, after, t := WritesUpToRename(w, job, files);
    NothingAnswered(w, profiles, Place(files, Writing(job, Starting)), more);
    JoinTurns(w, profiles, Place(files, Asking(i, m.publicKey)), turns, more);
    turns := turns + more;
  }

  /** A second pass, up to the moment before the certificate is renamed over itself. */
  lemma SecondPass(w: Setup, m: Maker, profiles: string -> int, i: nat, files: Files)
    returns (turns: seq<Turn>, after: Files, t: nat)
    requires w.Apart() && Capable(w, m) && i < |w.certificates| && !RenewsLate(w, profiles, i)
    requires Furnished(w, m, profiles, i, files, i + 1) && Named(w.lock) !in files
    ensures AllAt(turns, 0) && Answered(w, profiles, Place(files, Waiting), turns)
    ensures After(w, Place(files, Waiting), turns)
            == Some(Place(after, Writing(AgainJob(w, m, profiles, i), Shut(t))))
    ensures CertPath(w, i) in after && after[CertPath(w, i)] == JobData(AgainJob(w, m, profiles, i))
    ensures Temp(t) in after && after[Temp(t)] == JobData(AgainJob(w, m, profiles, i))
  {
    var from := Place(files, Waiting);
    var locked := files[Named(w.lock) := "pid"];
    LockFurnished(w, m, profiles, i, files, i + 1);
    assert CertPath(w, i) in locked && locked[CertPath(w, i)] == m.certPem(i, ExpiryOf(w, profiles, i, i));
    assert Named(w.identityCert) in files;
    hide After, Answered, Furnished, Capable, RenewsLate, Setup.Apart, ExpiryOf;
    turns := Enters(w, profiles, files);
    var more := SkipAll(w, m, profiles, i, locked, i);
    JoinTurns(w, profiles, from, turns, more);
    turns := turns + more;
    more := LookAt(w, m, profiles, i, locked, i + 1, i, BundleFor(m, 0, 0));
    JoinTurns(w, profiles, from, turns, more);
    turns := turns + more;
    more, after, t := WritesAgain(w, m, profiles, i, locked);
    JoinTurns(w, profiles, from, turns, more);
    turns := turns + more;
    assert SameAt(locked, after, CertPath(w, i));
  }

  /******* As a run *******/

  lemma TurnIsTimely(w: Setup, profiles: string -> int, from: Place, turns: seq<Turn>, a: string, s: State, step: Step)
    requires Answered(w, profiles, from, turns) && TurnTaken(w, from, turns, a, s, step)
    ensures Timely(w, profiles, s, step)
  {
    hide After, BrokerAnswer;
    if !step.Tick? {
      var j :| 0 <= j < |turns|
        && step == Act(a, turns[j].action) && s.clock == turns[j].now && a in s.agents
        && After(w, from, turns[..j]) == Some(Place(s.files, s.agents[a]));
      assert TurnAnswered(w, profiles, After(w, from, turns[..j]), turns[j]);
    }
  }

  ghost predicate AllTimely(w: Setup, profiles: string -> int, states: seq<State>, steps: seq<Step>) {
    |steps| <= |states| && forall k :: 0 <= k < |steps| ==> Timely(w, profiles, states[k], steps[k])
  }

  /** A new process joins a timely run and takes its turns. */
  lemma Joins(
      w: Setup, profiles: string -> int, states: seq<State>, steps: seq<Step>, a: string, turns: seq<Turn>, to: Place)
    returns (more: seq<State>, taken: seq<Step>)
    requires states != [] && IsRun(w, states, steps) && AllTimely(w, profiles, states, steps)
    requires a !in LastOf(states).agents && LastOf(states).clock == 0 && AllAt(turns, 0)
    requires var from := Place(LastOf(states).files, Waiting);
             Answered(w, profiles, from, turns) && After(w, from, turns) == Some(to)
    ensures more != [] && IsRun(w, more, taken) && AllTimely(w, profiles, more, taken)
    ensures LastOf(more) == Come(LastOf(states), 0, a, to)
  {
    hide IsRun, After, Answered, Timely;
    var s := LastOf(states);
    var from := Place(s.files, Waiting);
    RunHasLength(w, states, steps);
    var begun, begin := RunTakes(w, states, steps, Start(a));
    assert LastOf(begun) == s.(agents := s.agents[a := Waiting]);
    assert turns[..|turns|] == turns;
    assert InOrder(0, turns) by {
      forall k | 0 <= k < |turns| ensures turns[k].now == 0 { assert turns[k] in turns; }
    }
    more, taken := TurnsInRun(w, begun, begin, a, from, turns, |turns|);
    forall k | 0 <= k < |taken| ensures Timely(w, profiles, more[k], taken[k]) {
      if k < |steps| {
        assert more[k] == begun[k] == states[k] && taken[k] == begin[k] == steps[k];
      } else if k == |steps| {
        assert taken[k] == begin[k] == Start(a);
        StartIsTimely(w, profiles, more[k], a);
      } else {
        TurnIsTimely(w, profiles, from, turns, a, more[k], taken[k]);
      }
    }
    if turns != [] { assert turns[|turns| - 1] in turns; }
    assert s.agents[a := Waiting][a := to.phase] == s.agents[a := to.phase];
  }

  lemma StartIsTimely(w: Setup, profiles: string -> int, s: State, a: string)
    ensures Timely(w, profiles, s, Start(a))
  {
  }

  lemma WriteIsTimely(w: Setup, profiles: string -> int, s: State, a: string)
    ensures Timely(w, profiles, s, Act(a, Operate(Works)))
  {
  }

  /** The files a witness starts from: the identity and the keys. */
  ghost function StartFiles(w: Setup, m: Maker): Files {
    var paths := {Named(w.identityCert)} + set j | 0 <= j < |w.certificates| :: KeyPath(w, j);
    map p | p in paths :: m.keyPem
  }

  lemma StartsFurnished(w: Setup, m: Maker, profiles: string -> int, i: nat)
    requires w.Apart() && i < |w.certificates|
    ensures Furnished(w, m, profiles, i, StartFiles(w, m), 0) && Named(w.lock) !in StartFiles(w, m)
    ensures Initial(w, State(0, StartFiles(w, m), map[]))
  {
    forall j | 0 <= j < |w.certificates| ensures CertPath(w, j) !in StartFiles(w, m) {
      assert w.certificates[j].cert == w.certificates[j].Paths()[0];
      forall k | 0 <= k < |w.certificates| ensures w.certificates[k].key != w.certificates[j].cert {
        assert w.certificates[k].key !in w.certificates[j].Paths();
      }
    }
  }

  /** What a replacement of this entry's certificate leaves expires later than what was there. */
  ghost predicate StepsForward(w: Setup, s: State, t: State, i: nat)
    requires i < |w.certificates|
  {
    CertPath(w, i) in s.files ==>
      CertPath(w, i) in t.files && LaterThan(w.decoder, t.files[CertPath(w, i)], s.files[CertPath(w, i)])
  }

  /** Every replacement of the entry's certificate in every timely run is a step forward. */
  ghost predicate AlwaysForward(w: Setup, profiles: string -> int, i: nat)
    requires i < |w.certificates|
  {
    forall states: seq<State>, steps: seq<Step>, n: nat ::
      IsRun(w, states, steps) && n < |steps| < |states| && AllTimely(w, profiles, states, steps)
      && Installs(states[n], steps[n], i)
      ==> StepsForward(w, states[n], states[n + 1], i)
  }

  /** A timely run that ends in a certificate being renamed over itself. */
  lemma OverItself(w: Setup, m: Maker, profiles: string -> int, i: nat)
    returns (states: seq<State>, steps: seq<Step>)
    requires w.Apart() && Capable(w, m) && i < |w.certificates| && !RenewsLate(w, profiles, i)
    ensures IsRun(w, states, steps) && AllTimely(w, profiles, states, steps) && |states| == |steps| + 1 >= 2
    ensures var n := |steps| - 1;
            && Installs(states[n], steps[n], i)
            && CertPath(w, i) in states[n].files && CertPath(w, i) in states[n + 1].files
            && states[n + 1].files[CertPath(w, i)] == states[n].files[CertPath(w, i)]
  {
    hide IsRun, After, Answered, Furnished, Capable, RenewsLate, Setup.Apart, Timely;
    var s0 := State(0, StartFiles(w, m), map[]);
    StartsFurnished(w, m, profiles, i);
    states, steps := RunBegins(w, s0);
    var turns, installed, ok := FirstPass(w, m, profiles, i, s0.files);
    states, steps := Joins(w, profiles, states, steps, "a", turns, Place(installed, Gone(ok)));
    var again, after, t := SecondPass(w, m, profiles, i, installed);
    states, steps := Joins(w, profiles, states, steps, "b", again,
                           Place(after, Writing(AgainJob(w, m, profiles, i), Shut(t))));
    RunHasLength(w, states, steps);
    var s := LastOf(states);
    WriteIsTimely(w, profiles, s, "b");
    assert Installs(s, Act("b", Operate(Works)), i);
    var more, taken := RunTakes(w, states, steps, Act("b", Operate(Works)));
    RenamesOver(w, s, "b", AgainJob(w, m, profiles, i), t);
    forall k | 0 <= k < |taken| ensures Timely(w, profiles, more[k], taken[k]) {
      if k < |steps| { assert more[k] == states[k] && taken[k] == steps[k]; }
    }
    states, steps := more, taken;
  }

  lemma RenamesOver(w: Setup, s: State, a: string, job: Job, t: nat)
    requires a in s.agents && s.agents[a] == Writing(job, Shut(t)) && JobSized(w, job)
    requires Temp(t) in s.files && s.files[Temp(t)] == JobData(job)
    ensures Enabled(w, s, Act(a, Operate(Works)))
    ensures var after := Next(w, s, Act(a, Operate(Works))).files;
            Named(JobPath(w, job)) in after && after[Named(JobPath(w, job))] == JobData(job)
  {
  }

  lemma RunBegins(w: Setup, s0: State) returns (states: seq<State>, steps: seq<Step>)
    requires Initial(w, s0)
    ensures states == [s0] && steps == [] && IsRun(w, states, steps)
  {
    states, steps := [s0], [];
  }

  /**
   The agents' renewals of an entry move forward in every timely run if and only if the agent's
   renewal time for it does not exceed its profile's: otherwise there is a timely run in which
   an agent installs the very certificate that is there.
   */
  lemma MovesForwardExactly(w: Setup, m: Maker, profiles: string -> int, i: nat)
    requires w.Apart() && Capable(w, m) && i < |w.certificates|
    ensures AlwaysForward(w, profiles, i) <==> w.certificates[i].renewBefore <= profiles(w.certificates[i].profile)
  {
    hide IsRun, Installs, Capable, Setup.Apart, Timely;
    if RenewsLate(w, profiles, i) {
      forall states: seq<State>, steps: seq<Step>, n: nat |
        IsRun(w, states, steps) && n < |steps| < |states| && AllTimely(w, profiles, states, steps)
        && Installs(states[n], steps[n], i)
        ensures StepsForward(w, states[n], states[n + 1], i)
      {
        ReplacementsExpireLater(w, profiles, states, steps, n, i);
      }
    } else {
      var states, steps := OverItself(w, m, profiles, i);
      var n := |steps| - 1;
      assert !StepsForward(w, states[n], states[n + 1], i);
    }
  }
}
