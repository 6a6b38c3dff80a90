/**
 One pass of one agent, as the program runs it on its own: the lock, then every configured
 certificate in turn. What the world does to a pass stands in its input. Each method also hands
 out the turns it has taken, which make it a process of the state machine.
 */
module AgentPass {
  import opened Wrappers
  import opened Pki
  import opened DnsName
  import opened Text
  import opened AtomicFile
  import opened Disk
  import opened Agent
  import opened AgentSafety
  import opened AgentTurns

  /** Outcomes of the operations for one certificate, with the time at which its expiry is looked at. */
  datatype EntryInput = EntryInput(
    now: int, keyFound: bool, keyReadable: bool, newKey: Option<NewKey>, keyFaults: Faults,
    certFound: bool, certReadable: bool, reply: Option<Bundle>, partFaults: seq<Faults>, reloads: bool)
  {
    /** A key that is made decodes to itself. */
    predicate Sound(decoder: Decoder) {
      && |partFaults| == 3
      && (newKey.Some? ==> decoder.key(newKey.value.pem) == Some(newKey.value.publicKey))
    }
  }

  /** Installing the first parts of a bundle accepted for the key on disk keeps every entry good. */
  lemma {:induction false} InstalledKeeps(w: Setup, files: Files, i: nat, publicKey: string, bundle: Bundle, n: nat)
    requires w.Apart() && CertsGood(w, files) && n <= 3 && i < |w.certificates|
    requires KeyHeld(w, files, i, publicKey) && Acceptable(w.decoder, w.certificates[i], publicKey, bundle.certPem)
    ensures var after := Installed(files, bundle, w.certificates[i].Paths(), n);
            && CertsGood(w, after) && KeyHeld(w, after, i, publicKey)
  {
    hide CertsGood, Acceptable, KeyHeld, Setup.Apart;
    if n > 0 {
      InstalledKeeps(w, files, i, publicKey, bundle, n - 1);
      var before := Installed(files, bundle, w.certificates[i].Paths(), n - 1);
      var after := Installed(files, bundle, w.certificates[i].Paths(), n);
      RenameKeeps(w, before, after, PartJob(i, publicKey, bundle, n - 1));
    }
  }

  /** Installing parts touches no file but theirs. */
  lemma {:induction false} InstalledApart(files: Files, bundle: Bundle, paths: seq<string>, n: nat)
    requires n <= 3 == |paths|
    ensures var after := Installed(files, bundle, paths, n);
            && (forall x :: x !in paths ==> SameAt(files, after, Named(x)))
            && (forall x :: Named(x) in files ==> Named(x) in after)
  {
    if n > 0 {
      InstalledApart(files, bundle, paths, n - 1);
      assert paths[n - 1] in paths;
    }
  }

  lemma NamedKeeps(w: Setup, a: Files, b: Files)
    requires CertsGood(w, a) && SameNamed(a, b)
    ensures CertsGood(w, b)
  {
    hide CertsGood;
    CertsFramed(w, a, b);
  }

  /** Making a key where there was none. */
  lemma KeyKeeps(w: Setup, files: Files, after: Files, i: nat, made: NewKey)
    requires w.Apart() && CertsGood(w, files) && i < |w.certificates|
    requires w.decoder.key(made.pem) == Some(made.publicKey) && KeyPath(w, i) !in files
    requires KeyPath(w, i) in after ==> after[KeyPath(w, i)] == made.pem
    requires forall x :: x != w.certificates[i].key ==> SameAt(files, after, Named(x))
    ensures CertsGood(w, after)
  {
    hide CertsGood, Setup.Apart;
    if KeyPath(w, i) in after {
      RenameKeeps(w, files, after, KeyJob(i, made.publicKey, made.pem));
    } else {
      CertsFramed(w, files, after);
    }
  }

  /** The key a pass works with: the one on disk, or a new one where there is none. */
  function KeyFor(w: Setup, i: nat, input: EntryInput, files: Files): Option<string>
    requires i < |w.certificates|
  {
    if !input.keyFound || !input.keyReadable then None
    else if KeyPath(w, i) in files then w.decoder.key(files[KeyPath(w, i)])
    else if input.newKey.Some? && FirstFault(input.keyFaults).None? then Some(input.newKey.value.publicKey)
    else None
  }

  /** A certificate that is there parses and belongs to the key. */
  predicate Belongs(w: Setup, i: nat, publicKey: string, files: Files)
    requires i < |w.certificates|
  {
    CertPath(w, i) in files ==>
      && w.decoder.cert(files[CertPath(w, i)]).Some?
      && w.decoder.cert(files[CertPath(w, i)]).value.publicKey == publicKey
  }

  /** A pass gets as far as knowing whether a certificate is wanted. */
  predicate Looks(w: Setup, i: nat, input: EntryInput, files: Files)
    requires i < |w.certificates|
  {
    && KeyFor(w, i, input, files).Some? && input.certFound && (CertPath(w, i) in files ==> input.certReadable)
    && Belongs(w, i, KeyFor(w, i, input, files).value, files)
  }

  /** A certificate that a host may install: for this key, and with the configured names in any order and spelling. */
  ghost predicate Fits(decoder: Decoder, entry: CertConfig, publicKey: string, certPem: string) {
    && decoder.cert(certPem).Some?
    && var c := decoder.cert(certPem).value;
       c.publicKey == publicKey && AllValid(c.dnsNames) && AllValid(entry.dnsNames)
       && Denoted(c.dnsNames) == Denoted(entry.dnsNames)
  }

  /** The agent's checks accept exactly the certificates that fit. */
  lemma AcceptableExactly(decoder: Decoder, entry: CertConfig, publicKey: string, certPem: string)
    ensures Acceptable(decoder, entry, publicKey, certPem) <==> Fits(decoder, entry, publicKey, certPem)
  {
    hide AllValid, Denoted;
  }

  /** It asks the broker: a certificate is wanted, for names that can be asked for. */
  ghost predicate Asks(w: Setup, i: nat, input: EntryInput, files: Files)
    requires i < |w.certificates|
  {
    && Looks(w, i, input, files) && Wanted(w, input.now, files, i)
    && AllValid(w.certificates[i].dnsNames) && w.certificates[i].dnsNames != []
  }

  /** It succeeds: no certificate is wanted, or an acceptable one is answered, written and taken up. */
  ghost predicate Succeeds(w: Setup, i: nat, input: EntryInput, files: Files)
    requires i < |w.certificates|
  {
    && Looks(w, i, input, files)
    && (Wanted(w, input.now, files, i) ==>
          && Asks(w, i, input, files) && input.reply.Some?
          && Fits(w.decoder, w.certificates[i], KeyFor(w, i, input, files).value, input.reply.value.certPem)
          && (forall k :: 0 <= k < |input.partFaults| ==> FirstFault(input.partFaults[k]).None?)
          && input.reloads)
  }

  /** With some valid names there is something to ask for. */
  lemma NamesToAskFor(names: seq<string>)
    requires AllValid(names)
    ensures CanonicalList(names).Success? && (CanonicalList(names).value == [] <==> names == [])
  {
    CanonicalListIsNormalForm(names);
    if names != [] {
      assert names[0] in names && Canonical(names[0]).value in Denoted(names);
    }
    if CanonicalList(names).value != [] {
      assert CanonicalList(names).value[0] in Elements(CanonicalList(names).value);
    }
  }

  /** The turn that ends an entry or takes it on, after turns that led so far. */
  lemma Turned(w: Setup, from: Place, turns: seq<Turn>, now: int, action: Action, files: Files, p: Phase, to: Place)
    returns (more: seq<Turn>)
    requires AllAt(turns, now) && After(w, from, turns) == Some(Place(files, p))
    requires Can(w, files, p, action) && Perform(w, now, files, p, action) == to
    ensures AllAt(more, now) && After(w, from, more) == Some(to)
    ensures more == turns + [Turn(now, action)]
  {
    hide After, Perform, Can;
    Onward(w, from, turns, Turn(now, action));
    more := turns + [Turn(now, action)];
  }

  lemma KeyTurns(w: Setup, i: nat, input: EntryInput, files: Files, after: Files, run: seq<Moved>)
    returns (turns: seq<Turn>)
    requires i < |w.certificates| && input.Sound(w.decoder)
    requires !input.keyFound || !input.keyReadable || KeyPath(w, i) in files || input.newKey.None? ==> after == files
    requires input.keyFound && input.keyReadable && KeyPath(w, i) !in files && input.newKey.Some? ==>
               WriteRun(w.certificates[i].key, input.newKey.value.pem, run, files, after,
                        FirstFault(input.keyFaults).None?)
    ensures AllAt(turns, input.now) && NoAsk(turns)
    ensures var key := KeyFor(w, i, input, files);
            After(w, Place(files, FindingKey(i)), turns)
            == Some(Place(after, if key.Some? then FindingCert(i, key.value) else Leaving(false)))
  {
    hide After, WriteRun, WriterNext, WriterCan;
    var from := Place(files, FindingKey(i));
    StaysPut(w, from);
    if !input.keyFound || !input.keyReadable {
      turns := Turned(w, from, [], input.now, FindKey(false), files, FindingKey(i), Place(files, Leaving(false)));
    } else if KeyPath(w, i) in files {
      turns := Turned(w, from, [], input.now, FindKey(true), files, FindingKey(i), Place(files, ReadingKey(i)));
      turns := Turned(w, from, turns, input.now, ReadKey(true), files, ReadingKey(i),
                      Place(files, KeyRead(w, files, i, true)));
    } else {
      turns := Turned(w, from, [], input.now, FindKey(true), files, FindingKey(i), Place(files, MakingKey(i)));
      var job := if input.newKey.Some? then KeyJob(i, input.newKey.value.publicKey, input.newKey.value.pem)
                 else IdentityJob("");
      turns := Turned(w, from, turns, input.now, MakeKey(input.newKey), files, MakingKey(i),
                      Place(files, if input.newKey.Some? then Writing(job, Starting) else Leaving(false)));
      if input.newKey.Some? {
        var more := JobTurns(w, input.now, job, run, files, after, FirstFault(input.keyFaults).None?);
        AfterBoth(w, from, turns, more);
        turns := turns + more;
      }
    }
  }

  method EnsureKey(w: Setup, i: nat, input: EntryInput, disk: FileSystem)
    returns (publicKey: Option<string>, ghost turns: seq<Turn>)
    requires w.Apart() && i < |w.certificates| && input.Sound(w.decoder)
    modifies disk
    ensures old(CertsGood(w, disk.files)) ==> CertsGood(w, disk.files)
    ensures publicKey == KeyFor(w, i, input, old(disk.files))
    ensures publicKey.Some? ==> KeyHeld(w, disk.files, i, publicKey.value)
    ensures KeyPath(w, i) in old(disk.files) ==> disk.files == old(disk.files)
    ensures forall x :: x != w.certificates[i].key ==> SameAt(old(disk.files), disk.files, Named(x))
    ensures AllAt(turns, input.now)
    ensures After(w, Place(old(disk.files), FindingKey(i)), turns)
            == Some(Place(disk.files, if publicKey.Some? then FindingCert(i, publicKey.value) else Leaving(false)))
  {
    hide CertsGood, Setup.Apart, WriteRun, After;
    ghost var before := disk.files;
    ghost var run := [];
    publicKey := None;
    if input.keyFound {
      var made := if input.newKey.Some? then Some((input.newKey.value.publicKey, input.newKey.value.pem)) else None;
      publicKey, run :=
        disk.EnsurePrivateKey(w.decoder, w.certificates[i].key, input.keyReadable, made, input.keyFaults);
      if CertsGood(w, before) && KeyPath(w, i) !in before {
        if input.newKey.Some? {
          KeyKeeps(w, before, disk.files, i, input.newKey.value);
        } else {
          NamedKeeps(w, before, disk.files);
        }
      }
    }
    turns := KeyTurns(w, i, input, before, disk.files, run);
  }

  /** The turns from looking for the certificate to leaving it alone, giving up or asking. */
  lemma LookTurns(w: Setup, i: nat, input: EntryInput, files: Files, publicKey: string)
    returns (turns: seq<Turn>)
    requires i < |w.certificates|
    ensures AllAt(turns, input.now) && NoAsk(turns)
    ensures After(w, Place(files, FindingCert(i, publicKey)), turns)
            == Some(Place(files,
                 if !input.certFound || (CertPath(w, i) in files && !input.certReadable)
                    || !Belongs(w, i, publicKey, files) then Leaving(false)
                 else if Wanted(w, input.now, files, i) then Asking(i, publicKey)
                 else EntryPhase(w, i + 1)))
  {
    hide After, HasExactNames, WriterNext, WriterCan;
    var from := Place(files, FindingCert(i, publicKey));
    StaysPut(w, from);
    if !input.certFound {
      turns := Turned(w, from, [], input.now, FindCert(false), files, from.phase, Place(files, Leaving(false)));
    } else if CertPath(w, i) !in files {
      turns := Turned(w, from, [], input.now, FindCert(true), files, from.phase, Place(files, Asking(i, publicKey)));
    } else {
      turns := Turned(w, from, [], input.now, FindCert(true), files, from.phase,
                      Place(files, ReadingCert(i, publicKey)));
      turns := Turned(w, from, turns, input.now, ReadCert(input.certReadable), files, ReadingCert(i, publicKey),
                      Place(files, CertRead(w, input.now, files, i, publicKey, input.certReadable)));
    }
  }

  /** The turns from asking to the end of the entry. */
  lemma AskTurns(
      w: Setup, i: nat, input: EntryInput, files: Files, publicKey: string,
      runs: seq<seq<Moved>>, after: Files, ok: bool)
    returns (turns: seq<Turn>)
    requires i < |w.certificates|
    requires if !Replied(w, i, publicKey, input.reply).Writing? then after == files && !ok
             else WriteRuns(input.reply.value, w.certificates[i].Paths(), runs, files, after, ok)
                  && (ok ==> |runs| == 3)
    ensures AllAt(turns, input.now)
    ensures turns != [] && turns[0].action == Ask(input.reply) && NoAsk(turns[1..])
    ensures After(w, Place(files, Asking(i, publicKey)), turns)
            == Some(Place(after, if ok && input.reloads then EntryPhase(w, i + 1) else Leaving(false)))
  {
    hide After, Acceptable, WriteRuns, WriterNext, WriterCan, CanonicalList;
    var from := Place(files, Asking(i, publicKey));
    StaysPut(w, from);
    var replied := Replied(w, i, publicKey, input.reply);
    turns := Turned(w, from, [], input.now, Ask(input.reply), files, from.phase, Place(files, replied));
    if replied.Writing? {
      var more := BundleTurns(w, input.now, i, publicKey, input.reply.value, runs, files, after, ok);
      AfterBoth(w, from, turns, more);
      turns := turns + more;
      if ok {
        turns := Turned(w, from, turns, input.now, Reload(input.reloads), after, Reloading(i),
                        Place(after, if input.reloads then EntryPhase(w, i + 1) else Leaving(false)));
      }
    }
  }

  /** Ask the broker, if there are names to ask for, and install an acceptable answer. */
  method RequestCertificate(w: Setup, i: nat, input: EntryInput, publicKey: string, disk: FileSystem)
    returns (ok: bool, asked: bool, ghost turns: seq<Turn>)
    requires w.Apart() && i < |w.certificates| && input.Sound(w.decoder)
    requires KeyHeld(w, disk.files, i, publicKey)
    modifies disk
    ensures old(CertsGood(w, disk.files)) ==> CertsGood(w, disk.files)
    ensures asked <==> AllValid(w.certificates[i].dnsNames) && w.certificates[i].dnsNames != []
    ensures !asked ==> disk.files == old(disk.files)
    ensures ok <==>
            && AllValid(w.certificates[i].dnsNames) && w.certificates[i].dnsNames != [] && input.reply.Some?
            && Fits(w.decoder, w.certificates[i], publicKey, input.reply.value.certPem)
            && (forall k :: 0 <= k < 3 ==> FirstFault(input.partFaults[k]).None?)
            && input.reloads
    ensures forall x :: x !in w.certificates[i].Paths() ==> SameAt(old(disk.files), disk.files, Named(x))
    ensures forall x :: Named(x) in old(disk.files) ==> Named(x) in disk.files
    ensures ok ==> SameNamedFrom(w, i, disk.files, input.reply.value)
    ensures AllAt(turns, input.now)
    ensures After(w, Place(old(disk.files), Asking(i, publicKey)), turns)
            == Some(Place(disk.files, if ok then EntryPhase(w, i + 1) else Leaving(false)))
  {
    hide CertsGood, Setup.Apart, Acceptable, Fits, After, WriteRuns, KeyHeld;
    ghost var before := disk.files;
    var entry := w.certificates[i];
    if input.reply.Some? { AcceptableExactly(w.decoder, entry, publicKey, input.reply.value.certPem); }
    CanonicalListIsNormalForm(entry.dnsNames);
    if AllValid(entry.dnsNames) { NamesToAskFor(entry.dnsNames); }
    var names := CanonicaliseList(entry.dnsNames);
    asked := names.Success? && names.value != [];
    if !asked || input.reply.None? || !Acceptable(w.decoder, entry, publicKey, input.reply.value.certPem) {
      turns := AskTurns(w, i, input, before, publicKey, [], before, false);
      return false, asked, turns;
    }
    var err, installed, runs := disk.WriteToDisk(input.reply.value, entry.Paths(), input.partFaults);
    InstalledApart(before, input.reply.value, entry.Paths(), installed);
    if CertsGood(w, before) {
      InstalledKeeps(w, before, i, publicKey, input.reply.value, installed);
      NamedKeeps(w, Installed(before, input.reply.value, entry.Paths(), installed), disk.files);
    }
    turns := AskTurns(w, i, input, before, publicKey, runs, disk.files, err.None?);
    if err.None? { InstalledLast(w, i, before, input.reply.value, disk.files); }
    return err.None? && input.reloads, asked, turns;
  }

  /**
   One certificate of a pass, on any disk. The broker is asked exactly when a certificate is
   wanted, the one that is there, if any, belongs to the key, and there are names to ask for;
   nothing but a missing key is written otherwise. When it succeeds is said of the files it
   started from, and what it does is what a process of the state machine does.
   */
  method EnsureServiceCertificate(w: Setup, i: nat, input: EntryInput, disk: FileSystem)
    returns (ok: bool, asked: bool, ghost turns: seq<Turn>)
    requires w.Apart() && i < |w.certificates| && input.Sound(w.decoder)
    modifies disk
    ensures old(CertsGood(w, disk.files)) ==> CertsGood(w, disk.files)
    ensures ok <==> Succeeds(w, i, input, old(disk.files))
    ensures asked <==> Asks(w, i, input, old(disk.files))
    ensures !asked ==> forall x :: x != w.certificates[i].key ==> SameAt(old(disk.files), disk.files, Named(x))
    ensures forall x :: x != w.certificates[i].key && x !in w.certificates[i].Paths() ==>
              SameAt(old(disk.files), disk.files, Named(x))
    ensures forall x :: Named(x) in old(disk.files) ==> Named(x) in disk.files
    ensures ok ==> CertPath(w, i) in disk.files
    ensures ok && asked ==> input.reply.Some? && SameNamedFrom(w, i, disk.files, input.reply.value)
    ensures AllAt(turns, input.now)
    ensures After(w, Place(old(disk.files), FindingKey(i)), turns)
            == Some(Place(disk.files, if ok then EntryPhase(w, i + 1) else Leaving(false)))
  {
    hide Acceptable, Fits, HasExactNames, Setup.Apart, After;
    ghost var start := disk.files;
    ghost var from := Place(disk.files, FindingKey(i));
    var publicKey;
    publicKey, turns := EnsureKey(w, i, input, disk);
    CertUntouched(w, i, start, disk.files);
    if publicKey.None? { return false, false, turns; }
    var entry := w.certificates[i];
    ghost var more := LookTurns(w, i, input, disk.files, publicKey.value);
    AfterBoth(w, from, turns, more);
    turns := turns + more;
    if !input.certFound { return false, false, turns; }
    if Named(entry.cert) in disk.files {
      if !input.certReadable { return false, false, turns; }
      var c := w.decoder.cert(disk.files[Named(entry.cert)]);
      if c.None? || c.value.publicKey != publicKey.value { return false, false, turns; }
      if !ExpiresWithin(c.value, entry.renewBefore, input.now) { return true, false, turns; }
    }
    assert Wanted(w, input.now, start, i);
    hide CertsGood, Wanted, KeyHeld;
    ok, asked, more := RequestCertificate(w, i, input, publicKey.value, disk);
    AfterBoth(w, from, turns, more);
    turns := turns + more;
  }

  /** Making a key touches no certificate, and wants of one stay as they were. */
  lemma CertUntouched(w: Setup, i: nat, before: Files, files: Files)
    requires w.Apart() && i < |w.certificates|
    requires forall x :: x != w.certificates[i].key ==> SameAt(before, files, Named(x))
    requires KeyPath(w, i) in before ==> files == before
    ensures SameAt(before, files, CertPath(w, i))
    ensures forall now :: Wanted(w, now, before, i) == Wanted(w, now, files, i)
    ensures forall x :: Named(x) in before ==> Named(x) in files
  {
    CertIsNoKey(w, i);
  }

  /** The certificate and the full chain, which nothing of the bundle is written over later, are the bundle's. */
  ghost predicate SameNamedFrom(w: Setup, i: nat, files: Files, bundle: Bundle)
    requires i < |w.certificates|
  {
    var entry := w.certificates[i];
    && CertPath(w, i) in files && files[CertPath(w, i)] == bundle.certPem
    && Named(entry.fullChain) in files && files[Named(entry.fullChain)] == bundle.fullChainPem
    && (entry.chain != entry.fullChain ==>
          Named(entry.chain) in files && files[Named(entry.chain)] == bundle.chainPem)
  }

  lemma InstalledLast(w: Setup, i: nat, before: Files, bundle: Bundle, files: Files)
    requires w.Apart() && i < |w.certificates|
    requires SameNamed(Installed(before, bundle, w.certificates[i].Paths(), 3), files)
    ensures SameNamedFrom(w, i, files, bundle)
  {
    var entry := w.certificates[i];
    var all := Installed(before, bundle, entry.Paths(), 3);
    assert all == before[Named(entry.cert) := bundle.certPem][Named(entry.chain) := bundle.chainPem]
                        [Named(entry.fullChain) := bundle.fullChainPem] by {
      assert Installed(before, bundle, entry.Paths(), 1) == before[Named(entry.cert) := bundle.certPem];
      assert Installed(before, bundle, entry.Paths(), 2)
          == before[Named(entry.cert) := bundle.certPem][Named(entry.chain) := bundle.chainPem];
    }
    assert SameAt(all, files, Named(entry.cert)) && SameAt(all, files, Named(entry.chain))
        && SameAt(all, files, Named(entry.fullChain));
  }

  lemma CertIsNoKey(w: Setup, i: nat)
    requires w.Apart() && i < |w.certificates|
    ensures w.certificates[i].cert != w.certificates[i].key
  {
    assert w.certificates[i].cert == w.certificates[i].Paths()[0];
  }

  /** Clock readings that never go back. */
  ghost predicate TimesInOrder(now: int, inputs: seq<EntryInput>) {
    && (forall i :: 0 <= i < |inputs| ==> now <= inputs[i].now)
    && forall i, j :: 0 <= i < j < |inputs| ==> inputs[i].now <= inputs[j].now
  }

  /** The time when the first n entries are done. */
  function TimeAfter(now: int, inputs: seq<EntryInput>, n: nat): int
    requires n <= |inputs|
  {
    if n == 0 then now else inputs[n - 1].now
  }

  lemma InOrderOn(start: int, turns: seq<Turn>, last: int, more: seq<Turn>, time: int)
    requires InOrder(start, turns) && (forall t :: t in turns ==> t.now <= last) && start <= last <= time
    requires AllAt(more, time)
    ensures InOrder(start, turns + more) && forall t :: t in turns + more ==> t.now <= time
  {
    forall i, j | 0 <= i < j < |turns + more| ensures (turns + more)[i].now <= (turns + more)[j].now {
      if j >= |turns| {
        assert more[j - |turns|] in more && more[j - |turns|].now == time;
        if i < |turns| { assert turns[i] in turns; } else { assert more[i - |turns|] in more; }
      }
    }
    forall i | 0 <= i < |turns + more| ensures start <= (turns + more)[i].now {
      if i >= |turns| { assert more[i - |turns|] in more; }
    }
  }

  /**
   The entries begun, each with the files it started from: all but the last of them succeeded,
   and the pass over them is a success just when the last one is, no entry being left then.
   */
  ghost predicate Attempted(w: Setup, inputs: seq<EntryInput>, files: Files, stages: seq<Files>, ok: bool) {
    && |stages| <= |inputs| == |w.certificates|
    && (forall i :: 0 <= i < |stages| - 1 ==> Succeeds(w, i, inputs[i], stages[i]))
    && if inputs == [] then ok
       else
         && stages != [] && stages[0] == files
         && (ok <==> Succeeds(w, |stages| - 1, inputs[|stages| - 1], stages[|stages| - 1]))
         && (ok ==> |stages| == |inputs|)
  }

  /** The loop over the certificates, which ends at the first that fails. */
  method RunEntries(w: Setup, now: int, inputs: seq<EntryInput>, disk: FileSystem)
    returns (ok: bool, ghost stages: seq<Files>, ghost turns: seq<Turn>)
    requires w.Apart() && Named(w.lock) in disk.files
    requires |inputs| == |w.certificates| && forall i :: 0 <= i < |inputs| ==> inputs[i].Sound(w.decoder)
    modifies disk
    ensures (old(CertsGood(w, disk.files)) ==> CertsGood(w, disk.files)) && Named(w.lock) in disk.files
    ensures |stages| <= |inputs| && Attempted(w, inputs, old(disk.files), stages, ok)
    ensures ok ==> forall i :: 0 <= i < |w.certificates| ==> CertPath(w, i) in disk.files
    ensures After(w, Place(old(disk.files), EntryPhase(w, 0)), turns) == Some(Place(disk.files, Leaving(ok)))
    ensures TimesInOrder(now, inputs) ==>
              InOrder(now, turns) && forall t :: t in turns ==> t.now <= TimeAfter(now, inputs, |stages|)
  {
    hide After, CertsGood, Succeeds, InOrder, Setup.Apart;
    ghost var start := disk.files;
    ghost var from := Place(start, EntryPhase(w, 0));
    StaysPut(w, from);
    NothingBefore(now);
    stages, turns := [], [];
    ok := true;
    var i := 0;
    while ok && i < |w.certificates|
      invariant i <= |w.certificates| && Named(w.lock) in disk.files
      invariant CertsGood(w, start) ==> CertsGood(w, disk.files)
      invariant ok ==> forall j :: 0 <= j < i ==> CertPath(w, j) in disk.files
      invariant |stages| == i && forall j :: 0 <= j < i - 1 ==> Succeeds(w, j, inputs[j], stages[j])
      invariant if i == 0 then ok && disk.files == start
                else stages[0] == start && (ok <==> Succeeds(w, i - 1, inputs[i - 1], stages[i - 1]))
      invariant After(w, from, turns) == Some(Place(disk.files, if ok then EntryPhase(w, i) else Leaving(false)))
      invariant TimesInOrder(now, inputs) ==>
                  InOrder(now, turns) && forall t :: t in turns ==> t.now <= TimeAfter(now, inputs, i)
    {
      ghost var more, files := [], disk.files;
      var asked;
      ok, asked, more := EnsureServiceCertificate(w, i, inputs[i], disk);
      AfterBoth(w, from, turns, more);
      if TimesInOrder(now, inputs) { InOrderOn(now, turns, TimeAfter(now, inputs, i), more, inputs[i].now); }
      turns := turns + more;
      stages := stages + [files];
      i := i + 1;
    }
  }

  /** The files once the identity, if it is renewed, has been written. */
  function WithIdentity(w: Setup, files: Files, preparation: Preparation): Files {
    match preparation
    case Renewed(pem) => files[Named(w.identityCert) := pem]
    case _ => files
  }

  /** The client and the identity are in order, and a renewed identity can be written. */
  predicate Prepared(w: Setup, files: Files, preparation: Preparation, faults: Faults) {
    && preparation != Refused && Named(w.identityCert) in files
    && (preparation.Renewed? ==> FirstFault(faults).None?)
  }

  /** A renewed identity is written over the old one; otherwise nothing is. */
  method PrepareIdentity(w: Setup, now: int, preparation: Preparation, faults: Faults, disk: FileSystem)
    returns (ok: bool, ghost turns: seq<Turn>)
    requires w.Apart() && Named(w.lock) in disk.files
    modifies disk
    ensures ok <==> Prepared(w, old(disk.files), preparation, faults)
    ensures ok ==> disk.files == WithIdentity(w, old(disk.files), preparation)
    ensures forall x :: x != w.identityCert ==> SameAt(old(disk.files), disk.files, Named(x))
    ensures AllAt(turns, now)
    ensures After(w, Place(old(disk.files), Entered), turns)
            == Some(Place(disk.files, if ok then EntryPhase(w, 0) else Leaving(false)))
  {
    ghost var before := disk.files;
    ghost var run := [];
    ok := preparation != Refused && Named(w.identityCert) in disk.files;
    if ok && preparation.Renewed? {
      var err;
      err, run := disk.WriteFileAtomic(w.identityCert, preparation.pem, faults);
      ok := err.None?;
    }
    turns := IdentityTurns(w, now, preparation, before, disk.files, run, ok);
  }

  lemma IdentityTurns(
      w: Setup, now: int, preparation: Preparation, before: Files, files: Files, run: seq<Moved>, ok: bool)
    returns (turns: seq<Turn>)
    requires if preparation.Renewed? && Named(w.identityCert) in before
             then WriteRun(w.identityCert, preparation.pem, run, before, files, ok)
             else files == before && (ok <==> preparation != Refused && Named(w.identityCert) in before)
    ensures AllAt(turns, now)
    ensures After(w, Place(before, Entered), turns)
            == Some(Place(files, if ok then EntryPhase(w, 0) else Leaving(false)))
  {
    hide After, WriteRun, WriterNext;
    var from := Place(before, Entered);
    StaysPut(w, from);
    if preparation.Renewed? && Named(w.identityCert) in before {
      var job := IdentityJob(preparation.pem);
      turns := Turned(w, from, [], now, Prepare(preparation), before, Entered, Place(before, Writing(job, Starting)));
      var more := JobTurns(w, now, job, run, before, files, ok);
      AfterBoth(w, from, turns, more);
      turns := turns + more;
    } else {
      turns := Turned(w, from, [], now, Prepare(preparation), before, Entered,
                      Place(files, if ok then EntryPhase(w, 0) else Leaving(false)));
    }
  }

  lemma LockTurns(w: Setup, now: int, before: Files, files: Files, lockable: bool, acquired: bool)
    returns (turns: seq<Turn>)
    requires acquired <==> lockable && Named(w.lock) !in before
    requires files == if acquired then before[Named(w.lock) := "pid"] else before
    ensures AllAt(turns, now)
    ensures After(w, Place(before, Waiting), turns) == Some(Place(files, if acquired then Entered else Gone(false)))
  {
    hide After, WriterNext;
    StaysPut(w, Place(before, Waiting));
    turns := Turned(w, Place(before, Waiting), [], now, Acquire(lockable), before, Waiting,
                    Place(files, if acquired then Entered else Gone(false)));
  }

  /** Writing the identity leaves every certificate good. */
  lemma IdentityGood(w: Setup, files: Files, after: Files)
    requires w.Apart() && CertsGood(w, files)
    requires forall x :: x != w.identityCert ==> SameAt(files, after, Named(x))
    ensures CertsGood(w, after)
  {
    assert SameEntries(w, files, after);
    hide CertsGood;
    CertsFramed(w, files, after);
  }

  /** Taking and giving back the lock leaves every certificate good. */
  lemma LockedGood(w: Setup, files: Files)
    requires w.Apart() && CertsGood(w, files)
    ensures CertsGood(w, files[Named(w.lock) := "pid"]) && CertsGood(w, files - {Named(w.lock)})
  {
    hide CertsGood, SameEntries, Setup.Apart;
    LockApart(w, files, "pid");
    CertsFramed(w, files, files[Named(w.lock) := "pid"]);
    CertsFramed(w, files, files - {Named(w.lock)});
  }

  /** All that is done between acquiring the lock and releasing it. */
  method RunLocked(
      w: Setup, preparation: Preparation, identityFaults: Faults, now: int, inputs: seq<EntryInput>, disk: FileSystem)
    returns (ok: bool, ghost stages: seq<Files>, ghost turns: seq<Turn>)
    requires w.Apart() && Named(w.lock) in disk.files
    requires |inputs| == |w.certificates| && forall i :: 0 <= i < |inputs| ==> inputs[i].Sound(w.decoder)
    modifies disk
    ensures (old(CertsGood(w, disk.files)) ==> CertsGood(w, disk.files)) && Named(w.lock) in disk.files
    ensures if Prepared(w, old(disk.files), preparation, identityFaults) then
              Attempted(w, inputs, WithIdentity(w, old(disk.files), preparation), stages, ok)
            else !ok
    ensures ok ==> forall i :: 0 <= i < |w.certificates| ==> CertPath(w, i) in disk.files
    ensures After(w, Place(old(disk.files), Entered), turns) == Some(Place(disk.files, Leaving(ok)))
    ensures |stages| <= |inputs|
    ensures TimesInOrder(now, inputs) ==>
              InOrder(now, turns) && forall t :: t in turns ==> t.now <= TimeAfter(now, inputs, |stages|)
  {
    hide After, CertsGood, Attempted, InOrder, Setup.Apart, EntryPhase, FirstFault, WithIdentity, Prepared;
    ghost var before := disk.files;
    ghost var from := Place(before, Entered);
    LockIsNoIdentity(w);
    ok, turns := PrepareIdentity(w, now, preparation, identityFaults, disk);
    if CertsGood(w, before) { IdentityGood(w, before, disk.files); }
    assert SameAt(before, disk.files, Named(w.lock));
    NothingBefore(now);
    InOrderOn(now, [], now, turns, now);
    assert [] + turns == turns;
    stages := [];
    if ok {
      ghost var more;
      ok, stages, more := RunEntries(w, now, inputs, disk);
      AfterBoth(w, from, turns, more);
      if TimesInOrder(now, inputs) {
        InOrderThen(now, turns, now, more);
        EndsBy(turns, more, TimeAfter(now, inputs, |stages|));
      }
      turns := turns + more;
    }
  }

  /**
   A whole pass. It changes nothing unless it gets the lock, gives the lock back if it can, and
   succeeds exactly when it was locked, the identity was in order and no entry failed. What it
   does is what a process of the state machine does.
   */
  method Run(
      w: Setup, lockable: bool, preparation: Preparation, identityFaults: Faults, now: int,
      inputs: seq<EntryInput>, unlockable: bool, disk: FileSystem)
    returns (ok: bool, acquired: bool, ghost stages: seq<Files>, ghost turns: seq<Turn>)
    requires w.Apart()
    requires |inputs| == |w.certificates| && forall i :: 0 <= i < |inputs| ==> inputs[i].Sound(w.decoder)
    modifies disk
    ensures acquired <==> lockable && Named(w.lock) !in old(disk.files)
    ensures !acquired ==> !ok && disk.files == old(disk.files)
    ensures acquired ==> (Named(w.lock) in disk.files <==> !unlockable)
    ensures old(CertsGood(w, disk.files)) ==> CertsGood(w, disk.files)
    ensures acquired ==>
              var locked := old(disk.files)[Named(w.lock) := "pid"];
              if Prepared(w, locked, preparation, identityFaults) then
                Attempted(w, inputs, WithIdentity(w, locked, preparation), stages, ok)
              else !ok
    ensures ok ==> forall i :: 0 <= i < |w.certificates| ==> CertPath(w, i) in disk.files
    ensures After(w, Place(old(disk.files), Waiting), turns) == Some(Place(disk.files, Gone(ok)))
    ensures TimesInOrder(now, inputs) ==> InOrder(now, turns)
  {
    hide After, CertsGood, Attempted, InOrder, Setup.Apart, WithIdentity, Prepared;
    ghost var before := disk.files;
    ghost var from := Place(before, Waiting);
    ghost var more;
    stages := [];
    acquired := disk.AcquireLock(w.lock, "pid", lockable);
    turns := LockTurns(w, now, before, disk.files, lockable, acquired);
    NothingBefore(now);
    InOrderOn(now, [], now, turns, now);
    assert [] + turns == turns;
    if !acquired { return false, false, stages, turns; }
    if CertsGood(w, before) { LockedGood(w, before); }
    ok, stages, more := RunLocked(w, preparation, identityFaults, now, inputs, disk);
    AfterBoth(w, from, turns, more);
    if TimesInOrder(now, inputs) {
      InOrderThen(now, turns, now, more);
      EndsBy(turns, more, TimeAfter(now, inputs, |stages|));
    }
    turns := turns + more;
    ghost var done := disk.files;
    disk.ReleaseLock(w.lock, unlockable);
    if CertsGood(w, done) { LockedGood(w, done); }
    ghost var leave := Turn(TimeAfter(now, inputs, |stages|), Leave(unlockable));
    LeaveTurn(w, from, turns, leave, done, ok);
    if TimesInOrder(now, inputs) { InOrderOn(now, turns, leave.now, [leave], leave.now); }
    turns := turns + [leave];
    forall j | ok && 0 <= j < |w.certificates| ensures CertPath(w, j) in disk.files {
      CertIsNotLock(w, j);
    }
  }

  lemma InOrderThen(start: int, turns: seq<Turn>, middle: int, more: seq<Turn>)
    requires InOrder(start, turns) && (forall t :: t in turns ==> t.now <= middle) && start <= middle
    requires InOrder(middle, more)
    ensures InOrder(start, turns + more)
  {
    forall i, j | 0 <= i < j < |turns + more| ensures (turns + more)[i].now <= (turns + more)[j].now {
      if i < |turns| { assert turns[i] in turns; }
    }
  }

  lemma EndsBy(turns: seq<Turn>, more: seq<Turn>, time: int)
    requires (forall t :: t in turns ==> t.now <= time) && forall t :: t in more ==> t.now <= time
    ensures forall t :: t in turns + more ==> t.now <= time
  {
  }

  lemma NothingBefore(now: int)
    ensures InOrder(now, [])
  {
  }

  lemma LockIsNoIdentity(w: Setup)
    requires w.Apart()
    ensures w.lock != w.identityCert
  {
  }

  lemma CertIsNotLock(w: Setup, i: nat)
    requires w.Apart() && i < |w.certificates|
    ensures w.certificates[i].cert != w.lock
  {
    assert w.certificates[i].cert == w.certificates[i].Paths()[0];
  }

  lemma LeaveTurn(w: Setup, from: Place, turns: seq<Turn>, leave: Turn, files: Files, ok: bool)
    requires After(w, from, turns) == Some(Place(files, Leaving(ok))) && leave.action.Leave?
    ensures After(w, from, turns + [leave])
            == Some(Place(if leave.action.removed then files - {Named(w.lock)} else files, Gone(ok)))
  {
    hide After;
    Onward(w, from, turns, leave);
  }
}
