/**
 The broker's protocol over its two stores: each of them is the store of the protocol, filed by
 slots of its own, and what a flight returns is what a store would serve at that instant.
 */
module BrokerStore {
  import opened Wrappers
  import opened Pki
  import opened CacheKey
  import opened PolicyCompile
  import opened Broker
  import opened BrokerRuns
  import Store

  /** What a flight that reads the store goes on to, given the store's answer. */
  function LookedUp(answer: Store.Answer): FlightStage {
    match answer
    case Hit(bundle) => Returning(Some(Issued(bundle, true)))
    case Miss => Calling
    case Failed => Returning(None)
  }

  /******* The file *******/

  ghost predicate FiledByString(w: World) {
    forall k :: w.slot(k) == k.String()
  }

  /** The entries of the file are the slots of the store, with the same bundles. */
  ghost predicate FileHolds(store: map<string, Stored>, entries: map<string, Store.CacheEntry>) {
    && entries.Keys == store.Keys
    && forall slot :: slot in store ==> entries[slot].bundle == store[slot].bundle
  }

  lemma FileIsTheStore(w: World, s: State, f: nat, entries: map<string, Store.CacheEntry>)
    requires FiledByString(w) && FileHolds(s.store, entries) && f < |s.flights|
    ensures var fl := s.flights[f];
            LookUpNext(w, s, f, true).flights[f].stage
            == LookedUp(Store.FileGet(entries, fl.key, fl.profile.renewBefore, s.clock))
    ensures forall ok :: s.flights[f].stage.Putting? ==>
              FileHolds(PutReturnsNext(w, s, f, true, ok).store,
                        Store.FilePut(entries, s.flights[f].key, s.flights[f].stage.bundle, s.clock))
  {
    hide CertificateCacheKey.String;
  }

  /******* The table *******/

  ghost predicate FiledByColumns(w: World) {
    forall k, m :: w.slot(k) == w.slot(m) ==> k == m
  }

  /** The rows of the table are the slots of the store, with the same bundles. */
  ghost predicate TableHolds(w: World, store: map<string, Stored>, rows: seq<Store.Row>) {
    forall k :: (Store.Find(rows, k).Some? <==> w.slot(k) in store)
      && (w.slot(k) in store ==> Store.Find(rows, k).value.Entry().bundle == store[w.slot(k)].bundle)
  }

  lemma TableAnswersLikeTheStore(w: World, s: State, f: nat, rows: seq<Store.Row>)
    requires FiledByColumns(w) && TableHolds(w, s.store, rows) && f < |s.flights|
    ensures var fl := s.flights[f];
            LookUpNext(w, s, f, true).flights[f].stage
            == LookedUp(Store.TableGet(rows, fl.key, fl.profile.renewBefore, s.clock))
  {
    hide Store.Find;
    var key := s.flights[f].key;
    assert Store.Find(rows, key).Some? <==> w.slot(key) in s.store;
  }

  lemma TableTakesPut(
      w: World, store: map<string, Stored>, rows: seq<Store.Row>, key: CertificateCacheKey, b: Bundle, now: int)
    requires FiledByColumns(w) && TableHolds(w, store, rows) && Store.WholeSeconds(b)
    ensures TableHolds(w, store[w.slot(key) := Stored(key, b)], Store.TablePut(rows, key, b, now))
  {
    var row := Store.NewRow(key, b, now);
    assert row.Entry().bundle == b && row.Key() == key;
    hide Store.Find, Store.Upsert, Store.NewRow, Store.WholeSeconds;
    forall k: CertificateCacheKey
      ensures var found, after := Store.Find(Store.Upsert(rows, row), k), store[w.slot(key) := Stored(key, b)];
              && (found.Some? <==> w.slot(k) in after)
              && (w.slot(k) in after ==> found.value.Entry().bundle == after[w.slot(k)].bundle)
    {
      Store.FindAfterUpsert(rows, row, k);
    }
  }

  lemma TableIsTheStore(w: World, s: State, f: nat, rows: seq<Store.Row>)
    requires FiledByColumns(w) && TableHolds(w, s.store, rows) && f < |s.flights|
    ensures var fl := s.flights[f];
            LookUpNext(w, s, f, true).flights[f].stage
            == LookedUp(Store.TableGet(rows, fl.key, fl.profile.renewBefore, s.clock))
    ensures forall ok :: s.flights[f].stage.Putting? && Store.WholeSeconds(s.flights[f].stage.bundle) ==>
              TableHolds(w, PutReturnsNext(w, s, f, true, ok).store,
                         Store.TablePut(rows, s.flights[f].key, s.flights[f].stage.bundle, s.clock))
  {
    TableAnswersLikeTheStore(w, s, f, rows);
    hide TableHolds, FiledByColumns, Store.TableGet, Store.TablePut, Store.WholeSeconds, LookUpNext, LookedUp;
    var fl := s.flights[f];
    if fl.stage.Putting? && Store.WholeSeconds(fl.stage.bundle) {
      TableTakesPut(w, s.store, rows, fl.key, fl.stage.bundle, s.clock);
    }
  }

  /** Both ways of filing tell keys with different strings apart, as the protocol needs. */
  lemma SlotsTellStringsApart(w: World, k: CertificateCacheKey, m: CertificateCacheKey)
    requires FiledByString(w) || FiledByColumns(w)
    ensures w.slot(k) == w.slot(m) ==> k.String() == m.String()
  {
  }

  /******* Whole runs over a store *******/

  /** A flight goes on with what a store has answered; the store of the state is not looked at. */
  function AnswerNext(s: State, f: nat, answer: Store.Answer): State
    requires f < |s.flights|
  {
    var fl := s.flights[f];
    var moved := MoveFlight(s, f, LookedUp(answer));
    if answer.Miss? then
      moved.(issuerCalls := s.issuerCalls +
        [IssuerCall(f, fl.leader, fl.key.identity, fl.key.profileName, fl.admittedAt)])
    else moved
  }

  lemma AnswerIsLookUp(w: World, s: State, f: nat, readable: bool, answer: Store.Answer)
    requires f < |s.flights|
    requires if readable then LookUpNext(w, s, f, true).flights[f].stage == LookedUp(answer) else answer.Failed?
    ensures LookUpNext(w, s, f, readable) == AnswerNext(s, f, answer)
  {
    hide Store.Serve;
  }

  /** How one step uses a store that gives this answer, and otherwise works as the protocol has it. */
  ghost predicate StepOver(w: World, s: State, t: State, step: Step, answer: Store.Answer) {
    && Enabled(w, s, step)
    && (step.LookUp? ==> step.flight < |s.flights|)
    && t == if step.LookUp? then AnswerNext(s, step.flight, answer) else Next(w, s, step)
  }

  ghost predicate Puts(s: State, step: Step) {
    step.PutReturns? && step.applied && step.flight < |s.flights| && s.flights[step.flight].stage.Putting?
  }

  /** The store of the state changes with a put that reaches it, and not otherwise. */
  lemma StoreStep(w: World, s: State, step: Step)
    requires Enabled(w, s, step)
    ensures step.PutReturns? && step.applied ==>
              Puts(s, step) && Next(w, s, step).store == PutReturnsNext(w, s, step.flight, true, step.ok).store
    ensures !(step.PutReturns? && step.applied) ==> Next(w, s, step).store == s.store
  {
    if step.PutReturns? {
      hide CompilePolicy, Framed;
    } else {
      hide Next, Enabled, RequestMoved;
      StepFramed(w, s, step);
    }
  }

  /** What the file answers to a step that looks, readable or not. */
  function FileAnswer(entries: map<string, Store.CacheEntry>, s: State, step: Step): Store.Answer {
    if !step.LookUp? || !step.readable || step.flight >= |s.flights| then Store.Failed
    else
      var fl := s.flights[step.flight];
      Store.FileGet(entries, fl.key, fl.profile.renewBefore, s.clock)
  }

  function FileAfter(entries: map<string, Store.CacheEntry>, s: State, step: Step): map<string, Store.CacheEntry> {
    if step.PutReturns? && step.applied && step.flight < |s.flights| && s.flights[step.flight].stage.Putting? then
      Store.FilePut(entries, s.flights[step.flight].key, s.flights[step.flight].stage.bundle, s.clock)
    else entries
  }

  /** A run of the broker that reads and writes the JSON file, which it starts without. */
  ghost predicate IsFileRun(
      w: World, states: seq<State>, steps: seq<Step>, files: seq<map<string, Store.CacheEntry>>) {
    && |states| == |files| == |steps| + 1
    && Initial(states[0]) && files[0] == map[]
    && forall i :: 0 <= i < |steps| ==>
         && StepOver(w, states[i], states[i + 1], steps[i], FileAnswer(files[i], states[i], steps[i]))
         && files[i + 1] == FileAfter(files[i], states[i], steps[i])
  }

  /** Over a file that holds the store, a step is a step of the protocol, and the file holds the store after it. */
  lemma FileStep(w: World, s: State, step: Step, entries: map<string, Store.CacheEntry>)
    requires FiledByString(w) && FileHolds(s.store, entries) && Enabled(w, s, step)
    ensures StepOver(w, s, Next(w, s, step), step, FileAnswer(entries, s, step))
    ensures FileHolds(Next(w, s, step).store, FileAfter(entries, s, step))
  {
    hide FileHolds, Store.FileGet, Store.FilePut, CertificateCacheKey.String, FiledByString;
    StoreStep(w, s, step);
    if step.LookUp? {
      LookUpMade(w, s, step);
      FileIsTheStore(w, s, step.flight, entries);
      hide Next, LookUpNext, LookedUp;
      AnswerIsLookUp(w, s, step.flight, step.readable, FileAnswer(entries, s, step));
    } else if Puts(s, step) {
      hide Next;
      FileIsTheStore(w, s, step.flight, entries);
    } else {
      hide Next;
    }
  }

  lemma {:induction false} FileRunHolds(
      w: World, states: seq<State>, steps: seq<Step>, files: seq<map<string, Store.CacheEntry>>, n: nat)
    requires FiledByString(w) && IsFileRun(w, states, steps, files) && n <= |steps|
    ensures FileHolds(states[n].store, files[n])
    ensures forall i :: 0 <= i < n ==>
              Enabled(w, states[i], steps[i]) && states[i + 1] == Next(w, states[i], steps[i])
  {
    hide Enabled, Next, FileAnswer, FileAfter, FiledByString, AnswerNext;
    if n > 0 {
      hide FileHolds;
      FileRunHolds(w, states, steps, files, n - 1);
      assert StepOver(w, states[n - 1], states[n], steps[n - 1], FileAnswer(files[n - 1], states[n - 1], steps[n - 1]));
      FileStep(w, states[n - 1], steps[n - 1], files[n - 1]);
    }
  }

  /** The file along a run of the protocol. */
  ghost function FilesOf(states: seq<State>, steps: seq<Step>, n: nat): (files: seq<map<string, Store.CacheEntry>>)
    requires n <= |steps| < |states|
    ensures |files| == n + 1
  {
    if n == 0 then [map[]]
    else
      var before := FilesOf(states, steps, n - 1);
      before + [FileAfter(before[n - 1], states[n - 1], steps[n - 1])]
  }

  lemma {:induction false} RunHasFiles(w: World, states: seq<State>, steps: seq<Step>, n: nat)
    requires FiledByString(w) && IsRun(w, states, steps) && n <= |steps| < |states|
    ensures FileHolds(states[n].store, FilesOf(states, steps, n)[n]) && FilesOf(states, steps, n)[0] == map[]
    ensures forall i :: 0 <= i < n ==>
              && StepOver(w, states[i], states[i + 1], steps[i],
                          FileAnswer(FilesOf(states, steps, n)[i], states[i], steps[i]))
              && FilesOf(states, steps, n)[i + 1] == FileAfter(FilesOf(states, steps, n)[i], states[i], steps[i])
  {
    hide Enabled, Next, FileAnswer, FileAfter, FiledByString, StepOver;
    if n > 0 {
      hide FileHolds;
      RunHasFiles(w, states, steps, n - 1);
      assert Enabled(w, states[n - 1], steps[n - 1]) && states[n] == Next(w, states[n - 1], steps[n - 1]);
      FileStep(w, states[n - 1], steps[n - 1], FilesOf(states, steps, n - 1)[n - 1]);
    }
  }

  /**
   The broker over the JSON file, with reads that fail and puts that are not applied or reported
   as failed, has exactly the runs of the protocol.
   */
  lemma FileBrokerIsTheBroker(w: World, states: seq<State>, steps: seq<Step>)
    requires FiledByString(w)
    ensures IsRun(w, states, steps) <==> exists files :: IsFileRun(w, states, steps, files)
  {
    hide Enabled, Next, FileAnswer, FileAfter, FileHolds, StepOver, FiledByString;
    if IsRun(w, states, steps) {
      RunHasFiles(w, states, steps, |steps|);
      assert IsFileRun(w, states, steps, FilesOf(states, steps, |steps|));
    }
    if files :| IsFileRun(w, states, steps, files) {
      FileRunHolds(w, states, steps, files, |steps|);
    }
  }

  /******* Whole runs over the table *******/

  function TableAnswer(rows: seq<Store.Row>, s: State, step: Step): Store.Answer {
    if !step.LookUp? || !step.readable || step.flight >= |s.flights| then Store.Failed
    else
      var fl := s.flights[step.flight];
      Store.TableGet(rows, fl.key, fl.profile.renewBefore, s.clock)
  }

  function TableAfter(rows: seq<Store.Row>, s: State, step: Step): seq<Store.Row> {
    if step.PutReturns? && step.applied && step.flight < |s.flights| && s.flights[step.flight].stage.Putting? then
      Store.TablePut(rows, s.flights[step.flight].key, s.flights[step.flight].stage.bundle, s.clock)
    else rows
  }

  /** A run of the broker that reads and writes the table, which is empty at first. */
  ghost predicate IsTableRun(w: World, states: seq<State>, steps: seq<Step>, tables: seq<seq<Store.Row>>) {
    && |states| == |tables| == |steps| + 1
    && Initial(states[0]) && tables[0] == []
    && forall i :: 0 <= i < |steps| ==>
         && StepOver(w, states[i], states[i + 1], steps[i], TableAnswer(tables[i], states[i], steps[i]))
         && tables[i + 1] == TableAfter(tables[i], states[i], steps[i])
  }

  /** Whatever is put has its times in whole seconds. */
  ghost predicate PutsWhole(states: seq<State>, steps: seq<Step>) {
    |steps| <= |states|
    && forall i :: 0 <= i < |steps| && Puts(states[i], steps[i]) ==>
         Store.WholeSeconds(states[i].flights[steps[i].flight].stage.bundle)
  }

  lemma TableStep(w: World, s: State, step: Step, rows: seq<Store.Row>)
    requires FiledByColumns(w) && TableHolds(w, s.store, rows) && Enabled(w, s, step)
    requires Puts(s, step) ==> Store.WholeSeconds(s.flights[step.flight].stage.bundle)
    ensures StepOver(w, s, Next(w, s, step), step, TableAnswer(rows, s, step))
    ensures TableHolds(w, Next(w, s, step).store, TableAfter(rows, s, step))
  {
    hide TableHolds, Store.TableGet, Store.TablePut, Store.WholeSeconds, FiledByColumns;
    StoreStep(w, s, step);
    if step.LookUp? {
      LookUpMade(w, s, step);
      TableIsTheStore(w, s, step.flight, rows);
      hide Next, LookUpNext, LookedUp;
      AnswerIsLookUp(w, s, step.flight, step.readable, TableAnswer(rows, s, step));
    } else if Puts(s, step) {
      hide Next;
      TableIsTheStore(w, s, step.flight, rows);
    } else {
      hide Next;
    }
  }

  lemma {:induction false} TableRunHolds(
      w: World, states: seq<State>, steps: seq<Step>, tables: seq<seq<Store.Row>>, n: nat)
    requires FiledByColumns(w) && IsTableRun(w, states, steps, tables) && PutsWhole(states, steps) && n <= |steps|
    ensures TableHolds(w, states[n].store, tables[n])
    ensures forall i :: 0 <= i < n ==>
              Enabled(w, states[i], steps[i]) && states[i + 1] == Next(w, states[i], steps[i])
  {
    hide Enabled, Next, TableAnswer, TableAfter, FiledByColumns, AnswerNext;
    if n > 0 {
      hide TableHolds;
      TableRunHolds(w, states, steps, tables, n - 1);
      assert StepOver(w, states[n - 1], states[n], steps[n - 1],
                      TableAnswer(tables[n - 1], states[n - 1], steps[n - 1]));
      TableStep(w, states[n - 1], steps[n - 1], tables[n - 1]);
    }
  }

  /** The table along a run of the protocol. */
  ghost function TablesOf(states: seq<State>, steps: seq<Step>, n: nat): (tables: seq<seq<Store.Row>>)
    requires n <= |steps| < |states|
    ensures |tables| == n + 1
  {
    if n == 0 then [[]]
    else
      var before := TablesOf(states, steps, n - 1);
      before + [TableAfter(before[n - 1], states[n - 1], steps[n - 1])]
  }

  lemma {:induction false} RunHasTables(w: World, states: seq<State>, steps: seq<Step>, n: nat)
    requires FiledByColumns(w) && IsRun(w, states, steps) && PutsWhole(states, steps) && n <= |steps| < |states|
    ensures TableHolds(w, states[n].store, TablesOf(states, steps, n)[n]) && TablesOf(states, steps, n)[0] == []
    ensures forall i :: 0 <= i < n ==>
              && StepOver(w, states[i], states[i + 1], steps[i],
                          TableAnswer(TablesOf(states, steps, n)[i], states[i], steps[i]))
              && TablesOf(states, steps, n)[i + 1] == TableAfter(TablesOf(states, steps, n)[i], states[i], steps[i])
  {
    hide Enabled, Next, TableAnswer, TableAfter, FiledByColumns, StepOver;
    if n > 0 {
      hide TableHolds;
      RunHasTables(w, states, steps, n - 1);
      assert Enabled(w, states[n - 1], steps[n - 1]) && states[n] == Next(w, states[n - 1], steps[n - 1]);
      TableStep(w, states[n - 1], steps[n - 1], TablesOf(states, steps, n - 1)[n - 1]);
    }
  }

  /** The broker over the table has exactly the runs of the protocol in which whole seconds are put. */
  lemma TableBrokerIsTheBroker(w: World, states: seq<State>, steps: seq<Step>)
    requires FiledByColumns(w) && PutsWhole(states, steps)
    ensures IsRun(w, states, steps) <==> exists tables :: IsTableRun(w, states, steps, tables)
  {
    hide Enabled, Next, TableAnswer, TableAfter, TableHolds, StepOver, FiledByColumns, PutsWhole;
    if IsRun(w, states, steps) {
      RunHasTables(w, states, steps, |steps|);
      assert IsTableRun(w, states, steps, TablesOf(states, steps, |steps|));
    }
    if tables :| IsTableRun(w, states, steps, tables) {
      TableRunHolds(w, states, steps, tables, |steps|);
    }
  }

  /******* What a flight returns *******/

  /**
   At the instant at which a flight gets its result, from the store or fresh, the store would
   serve it for the profile's renewal time, provided what the issuer makes lives longer.
   */
  lemma ResultsAreServed(w: World, s: State, step: Step)
    requires Enabled(w, s, step) && (step.LookUp? || step.PutReturns?)
    requires step.PutReturns? ==>
               s.flights[step.flight].stage.bundle.notAfter - s.clock > s.flights[step.flight].profile.renewBefore
    ensures step.flight < |s.flights| && step.flight < |Next(w, s, step).flights|
    ensures var stage := Next(w, s, step).flights[step.flight].stage;
            stage.Returning? && stage.outcome.Some? ==>
              Store.Serve(stage.outcome.value.bundle, s.flights[step.flight].profile.renewBefore, s.clock)
              == Store.Hit(stage.outcome.value.bundle)
  {
    hide Next, Enabled;
    FlightStepIs(w, s, step);
    if step.LookUp? {
      LookedUpServed(w, s, step.flight, step.readable);
    }
  }

  lemma LookedUpServed(w: World, s: State, f: nat, readable: bool)
    requires f < |s.flights|
    ensures var stage := LookUpNext(w, s, f, readable).flights[f].stage;
            stage.Returning? && stage.outcome.Some? ==>
              Store.Serve(stage.outcome.value.bundle, s.flights[f].profile.renewBefore, s.clock)
              == Store.Hit(stage.outcome.value.bundle)
  {
  }
}
