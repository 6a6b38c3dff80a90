/** The program's file helpers, as one process runs them on its own: atomic writes, the lock, keys and bundles. */
module Disk {
  import opened Wrappers
  import opened Pki
  import opened AtomicFile

  /** Which operations of one atomic write succeed, and how much a failing write leaves behind. */
  datatype Faults = Faults(
    mkdir: bool, create: bool, write: bool, leaves: nat, chmod: bool, sync: bool, close: bool,
    rename: bool, remove: bool, syncDir: bool)

  datatype WriteError =
    | CreatingDirectory | CreatingTemp | WritingTemp | ChangingMode | SyncingTemp | ClosingTemp
    | Renaming | SyncingDirectory

  /** The first operation on the temporary file that fails, if any does. */
  function TempFault(f: Faults): Option<WriteError> {
    if !f.write then Some(WritingTemp)
    else if !f.chmod then Some(ChangingMode)
    else if !f.sync then Some(SyncingTemp)
    else if !f.close then Some(ClosingTemp)
    else None
  }

  /** The first operation of an atomic write that fails; removing what is left over is not one of them. */
  function FirstFault(f: Faults): Option<WriteError> {
    if !f.mkdir then Some(CreatingDirectory)
    else if !f.create then Some(CreatingTemp)
    else if TempFault(f).Some? then TempFault(f)
    else if !f.rename then Some(Renaming)
    else if !f.syncDir then Some(SyncingDirectory)
    else None
  }

  /** The operations of an atomic write in their order, each with the error it gives. */
  function Operations(f: Faults): seq<(bool, WriteError)> {
    [(f.mkdir, CreatingDirectory), (f.create, CreatingTemp), (f.write, WritingTemp), (f.chmod, ChangingMode),
     (f.sync, SyncingTemp), (f.close, ClosingTemp), (f.rename, Renaming), (f.syncDir, SyncingDirectory)]
  }

  /** A write succeeds when every operation does, and fails with the error of the first that does not. */
  lemma FirstFaultExactly(f: Faults)
    ensures FirstFault(f).None? <==> forall i :: 0 <= i < 8 ==> Operations(f)[i].0
    ensures FirstFault(f).Some? ==>
              exists i :: 0 <= i < 8 && Operations(f)[i] == (false, FirstFault(f).value)
                && forall j :: 0 <= j < i ==> Operations(f)[j].0
  {
    var ops := Operations(f);
    if FirstFault(f).Some? {
      var i := if !f.mkdir then 0 else if !f.create then 1 else if !f.write then 2 else if !f.chmod then 3
               else if !f.sync then 4 else if !f.close then 5 else if !f.rename then 6 else 7;
      assert ops[i] == (false, FirstFault(f).value) && forall j :: 0 <= j < i ==> ops[j].0;
    } else {
      assert forall i :: 0 <= i < 8 ==> ops[i].0;
    }
    if forall i :: 0 <= i < 8 ==> ops[i].0 {
      assert ops[0].0 && ops[1].0 && ops[2].0 && ops[3].0 && ops[4].0 && ops[5].0 && ops[6].0 && ops[7].0;
    }
  }

  /** The chosen files of two states are the same; temporary ones may differ. */
  ghost predicate SameNamed(a: Files, b: Files) {
    forall x :: SameAt(a, b, Named(x))
  }

  class FileSystem {
    var files: Files

    constructor ()
      ensures files == map[]
    {
      files := map[];
    }

    /** The temporary file, from the moment it has a name until it has been renamed or given up. */
    method FillTemp(path: string, data: string, temp: nat, faults: Faults, ghost run: seq<Moved>)
      returns (err: Option<WriteError>, ghost more: seq<Moved>)
      requires IsWriterRun(path, data, run) && run[|run| - 1] == Moved(files, Created(temp))
      modifies this
      ensures IsWriterRun(path, data, more) && more[0] == run[0]
      ensures more[|more| - 1] == Moved(files, if err.None? then Shut(temp) else Abandoned(temp))
      ensures err == TempFault(faults)
    {
      more := run;
      if !faults.write {
        var n := if faults.leaves <= |data| then faults.leaves else |data|;
        RunExtends(path, data, more, Stores(n));
        files := files[Temp(temp) := data[..n]];
        more := more + [Moved(files, Created(temp))];
        RunExtends(path, data, more, Fails);
        more := more + [Moved(files, Abandoned(temp))];
        return Some(WritingTemp), more;
      }
      RunExtends(path, data, more, Works);
      files := files[Temp(temp) := data];
      more := more + [Moved(files, Filled(temp))];
      RunExtends(path, data, more, if faults.chmod then Works else Fails);
      if !faults.chmod {
        more := more + [Moved(files, Abandoned(temp))];
        return Some(ChangingMode), more;
      }
      more := more + [Moved(files, Moded(temp))];
      RunExtends(path, data, more, if faults.sync then Works else Fails);
      if !faults.sync {
        more := more + [Moved(files, Abandoned(temp))];
        return Some(SyncingTemp), more;
      }
      more := more + [Moved(files, Synced(temp))];
      RunExtends(path, data, more, if faults.close then Works else Fails);
      if !faults.close {
        more := more + [Moved(files, Abandoned(temp))];
        return Some(ClosingTemp), more;
      }
      more := more + [Moved(files, Shut(temp))];
      return None, more;
    }

    /**
     Replace a file: the new content goes to a temporary file that is then renamed. The call is
     one run of the operations that `AtomicFile` describes, so that all it proves of every
     point of such a run holds here.
     */
    method WriteFileAtomic(path: string, data: string, faults: Faults)
      returns (err: Option<WriteError>, ghost run: seq<Moved>)
      modifies this
      ensures IsWriterRun(path, data, run) && run[0] == Moved(old(files), Starting)
      ensures run[|run| - 1] == Moved(files, Returned(err.None?))
      ensures err == FirstFault(faults)
      ensures err.None? <==>
              && faults.mkdir && faults.create && faults.write && faults.chmod && faults.sync && faults.close
              && faults.rename && faults.syncDir
      ensures forall x :: x != path ==> SameAt(old(files), files, Named(x))
      ensures err.None? || err == Some(SyncingDirectory) ==> files == old(files)[Named(path) := data]
      ensures err.Some? && err != Some(SyncingDirectory) ==> SameNamed(old(files), files)
      ensures err.Some? && faults.remove ==> files == old(files) || err == Some(SyncingDirectory)
    {
      run := [Moved(files, Starting)];
      ghost var before := files;
      if !faults.mkdir || !faults.create {
        RunExtends(path, data, run, Fails);
        run := run + [Moved(files, Returned(false))];
        return Some(if !faults.mkdir then CreatingDirectory else CreatingTemp), run;
      }
      ghost var bound := FreshTemp(files.Keys);
      assert Temp(bound) !in files;
      var temp: nat :| Temp(temp) !in files;
      RunExtends(path, data, run, Makes(temp));
      files := files[Temp(temp) := ""];
      run := run + [Moved(files, Created(temp))];
      err, run := FillTemp(path, data, temp, faults, run);
      WriterRunAt(path, data, run, |run| - 1);
      if err.None? {
        err, run := RenameTemp(path, data, temp, faults, run);
        if err != Some(Renaming) { return; }
      }
      RunExtends(path, data, run, if faults.remove then Works else Fails);
      if faults.remove {
        files := files - {Temp(temp)};
        assert files == before;
      }
      run := run + [Moved(files, Returned(false))];
    }

    /** The complete temporary file takes the target's place; what fails after that leaves it there. */
    method RenameTemp(path: string, data: string, temp: nat, faults: Faults, ghost run: seq<Moved>)
      returns (err: Option<WriteError>, ghost more: seq<Moved>)
      requires IsWriterRun(path, data, run) && run[|run| - 1] == Moved(files, Shut(temp))
      requires OnlyTemp(run[0].files, files, temp) && files[Temp(temp)] == data
      modifies this
      ensures IsWriterRun(path, data, more) && more[0] == run[0]
      ensures err == if !faults.rename then Some(Renaming) else if !faults.syncDir then Some(SyncingDirectory) else None
      ensures files == if faults.rename then run[0].files[Named(path) := data] else old(files)
      ensures more[|more| - 1] == Moved(files, if faults.rename then Returned(err.None?) else Abandoned(temp))
    {
      more := run;
      RunExtends(path, data, more, if faults.rename then Works else Fails);
      if !faults.rename {
        more := more + [Moved(files, Abandoned(temp))];
        return Some(Renaming), more;
      }
      files := files[Named(path) := files[Temp(temp)]] - {Temp(temp)};
      more := more + [Moved(files, Renamed)];
      WriterRunAt(path, data, more, |more| - 1);
      RunExtends(path, data, more, if faults.syncDir then Works else Fails);
      more := more + [Moved(files, Returned(faults.syncDir))];
      return if faults.syncDir then None else Some(SyncingDirectory), more;
    }

    /** The lock file is only ever made where there is none. */
    method AcquireLock(path: string, pid: string, works: bool) returns (acquired: bool)
      modifies this
      ensures acquired <==> works && Named(path) !in old(files)
      ensures files == if acquired then old(files)[Named(path) := pid] else old(files)
    {
      if !works || Named(path) in files { return false; }
      files := files[Named(path) := pid];
      return true;
    }

    method ReleaseLock(path: string, works: bool)
      modifies this
      ensures files == if works then old(files) - {Named(path)} else old(files)
    {
      if works { files := files - {Named(path)}; }
    }

    /** A key that is on disk is read and never replaced; one that is not is made and written. */
    method EnsurePrivateKey(
        decoder: Decoder, path: string, readable: bool, made: Option<(string, string)>, faults: Faults)
      returns (publicKey: Option<string>, ghost run: seq<Moved>)
      requires made.Some? ==> decoder.key(made.value.1) == Some(made.value.0)
      modifies this
      ensures publicKey ==
                if !readable then None
                else if Named(path) in old(files) then decoder.key(old(files)[Named(path)])
                else if made.Some? && FirstFault(faults).None? then Some(made.value.0)
                else None
      ensures !readable || Named(path) in old(files) || made.None? ==> files == old(files)
      ensures readable && Named(path) !in old(files) && made.Some? ==>
                WriteRun(path, made.value.1, run, old(files), files, FirstFault(faults).None?)
      ensures publicKey.Some? ==> Named(path) in files && decoder.key(files[Named(path)]) == publicKey
      ensures Named(path) !in old(files) && Named(path) in files ==> made.Some? && files[Named(path)] == made.value.1
      ensures forall x :: x != path ==> SameAt(old(files), files, Named(x))
    {
      run := [];
      if !readable { return None, run; }
      if Named(path) in files { return decoder.key(files[Named(path)]), run; }
      if made.None? { return None, run; }
      var err;
      err, run := WriteFileAtomic(path, made.value.1, faults);
      return if err.None? then Some(made.value.0) else None, run;
    }

    /**
     Certificate, chain and full chain, in this order: whatever goes wrong, what is on disk is
     the first few of the new files and the rest of the old ones.
     */
    method WriteToDisk(bundle: Bundle, paths: seq<string>, faults: seq<Faults>)
      returns (err: Option<WriteError>, ghost installed: nat, ghost runs: seq<seq<Moved>>)
      requires |paths| == 3 && |faults| == 3
      modifies this
      ensures installed <= 3 && SameNamed(Installed(old(files), bundle, paths, installed), files)
      ensures err.None? ==> installed == |runs| == 3 && forall i :: 0 <= i < 3 ==> FirstFault(faults[i]).None?
      ensures err.Some? ==>
                1 <= |runs| <= 3 && err == FirstFault(faults[|runs| - 1])
                && (forall i :: 0 <= i < |runs| - 1 ==> FirstFault(faults[i]).None?)
                && installed == if err.value.SyncingDirectory? then |runs| else |runs| - 1
      ensures WriteRuns(bundle, paths, runs, old(files), files, err.None?)
    {
      hide WriteRuns, Installed, IsWriterRun, FirstFault;
      var data := Parts(bundle);
      ghost var start := files;
      NoRuns(bundle, paths, start);
      installed := 0;
      runs := [];
      for i := 0 to 3
        invariant installed == i == |runs| && SameNamed(Installed(start, bundle, paths, i), files)
        invariant forall j :: 0 <= j < i ==> FirstFault(faults[j]).None?
        invariant WriteRuns(bundle, paths, runs, start, files, true)
      {
        ghost var run;
        ghost var before, done := files, runs;
        err, run := WriteFileAtomic(paths[i], data[i], faults[i]);
        runs := runs + [run];
        RunsGrow(bundle, paths, done, run, start, before, files, err.None?);
        InstalledGrows(start, bundle, paths, i);
        if err.None? || err == Some(SyncingDirectory) { installed := i + 1; }
        if err.Some? { return; }
      }
      return None, 3, runs;
    }
  }

  /** A run of one atomic write from one state of the files to another, ending in success or not. */
  ghost predicate WriteRun(path: string, data: string, run: seq<Moved>, before: Files, after: Files, ok: bool) {
    IsWriterRun(path, data, run) && run[0] == Moved(before, Starting) && run[|run| - 1] == Moved(after, Returned(ok))
  }

  /** Runs of the writes of a bundle's parts, one after the other; all but the last succeeded. */
  ghost predicate WriteRuns(
      bundle: Bundle, paths: seq<string>, runs: seq<seq<Moved>>, before: Files, after: Files, ok: bool)
    requires |paths| == 3
    decreases |runs|
  {
    if runs == [] then before == after && ok
    else
      var n := |runs| - 1;
      |runs| <= 3
      && exists middle: Files ::
           WriteRuns(bundle, paths, runs[..n], before, middle, true)
           && WriteRun(paths[n], Parts(bundle)[n], runs[n], middle, after, ok)
  }

  lemma NoRuns(bundle: Bundle, paths: seq<string>, files: Files)
    requires |paths| == 3
    ensures WriteRuns(bundle, paths, [], files, files, true) && Installed(files, bundle, paths, 0) == files
  {
  }

  lemma InstalledGrows(before: Files, bundle: Bundle, paths: seq<string>, n: nat)
    requires n < 3 == |paths|
    ensures Installed(before, bundle, paths, n + 1)
            == Installed(before, bundle, paths, n)[Named(paths[n]) := Parts(bundle)[n]]
  {
  }

  lemma RunsGrow(
      bundle: Bundle, paths: seq<string>, runs: seq<seq<Moved>>, run: seq<Moved>,
      before: Files, middle: Files, after: Files, ok: bool)
    requires |paths| == 3 && |runs| < 3 && WriteRuns(bundle, paths, runs, before, middle, true)
    requires WriteRun(paths[|runs|], Parts(bundle)[|runs|], run, middle, after, ok)
    ensures WriteRuns(bundle, paths, runs + [run], before, after, ok)
  {
    hide WriteRun;
    assert (runs + [run])[..|runs|] == runs;
  }

  function Parts(bundle: Bundle): seq<string> {
    [bundle.certPem, bundle.chainPem, bundle.fullChainPem]
  }

  /** The files after the first n parts have been put in place. */
  function Installed(before: Files, bundle: Bundle, paths: seq<string>, n: nat): Files
    requires n <= 3 == |paths|
  {
    if n == 0 then before else Installed(before, bundle, paths, n - 1)[Named(paths[n - 1]) := Parts(bundle)[n - 1]]
  }

  /** With three different paths, a part is new just when it is among the first n, and old otherwise. */
  lemma InstalledInOrder(before: Files, bundle: Bundle, paths: seq<string>, n: nat, k: nat)
    requires n <= 3 == |paths| && k < 3 && paths[0] != paths[1] && paths[1] != paths[2] && paths[0] != paths[2]
    ensures var after := Installed(before, bundle, paths, n);
            var part := if k == 0 then bundle.certPem else if k == 1 then bundle.chainPem else bundle.fullChainPem;
            && (k < n ==> Named(paths[k]) in after && after[Named(paths[k])] == part)
            && (k >= n ==> SameAt(before, after, Named(paths[k])))
            && (forall x :: x !in paths ==> SameAt(before, after, Named(x)))
  {
    if n > 0 { InstalledInOrder(before, bundle, paths, n - 1, k); }
  }
}
