/**
 Files as every process sees them, and `WriteFileAtomic` as the file operations it is made of.
 Any of them may fail, and any may be the last one before a crash.
 */
module AtomicFile {
  import opened Wrappers

  /** A path that somebody chose, or a temporary name that nobody else ever uses. */
  datatype Path = Named(name: string) | Temp(number: nat)

  type Files = map<Path, string>

  /******* One operation at a time *******/

  /** How far one call of `WriteFileAtomic` has come. */
  datatype Writer =
    | Starting
    | Created(temp: nat)
    | Filled(temp: nat)
    | Moded(temp: nat)
    | Synced(temp: nat)
    | Shut(temp: nat)
    | Renamed
    | Abandoned(temp: nat)
    | Returned(ok: bool)

  /** What the operating system makes of the next operation. */
  datatype Effect =
    | Fails
    | Works
    | Makes(temp: nat)    // the temporary file, under a name that was free
    | Stores(length: nat)  // part of the data so far

  datatype Moved = Moved(files: Files, writer: Writer)

  predicate WriterCan(data: string, files: Files, w: Writer, e: Effect) {
    match w
    case Starting => e.Fails? || (e.Makes? && Temp(e.temp) !in files)
    case Created(_) => e.Fails? || e.Works? || (e.Stores? && e.length <= |data|)
    case Returned(_) => false
    case _ => e.Fails? || e.Works?
  }

  /**
   Until the rename, a failure abandons the temporary file; after it, only syncing the
   directory is left. Making the directory is part of the first operation.
   */
  function WriterNext(path: string, data: string, files: Files, w: Writer, e: Effect): Moved
    requires WriterCan(data, files, w, e)
  {
    match w
    case Starting =>
      if e.Fails? then Moved(files, Returned(false))
      else Moved(files[Temp(e.temp) := ""], Created(e.temp))
    case Created(t) =>
      if e.Fails? then Moved(files, Abandoned(t))
      else if e.Works? then Moved(files[Temp(t) := data], Filled(t))
      else Moved(files[Temp(t) := data[..e.length]], Created(t))
    case Filled(t) => Moved(files, if e.Works? then Moded(t) else Abandoned(t))
    case Moded(t) => Moved(files, if e.Works? then Synced(t) else Abandoned(t))
    case Synced(t) => Moved(files, if e.Works? then Shut(t) else Abandoned(t))
    case Shut(t) =>
      if e.Works? && Temp(t) in files then Moved(files[Named(path) := files[Temp(t)]] - {Temp(t)}, Renamed)
      else Moved(files, Abandoned(t))
    case Renamed => Moved(files, Returned(e.Works?))
    case Abandoned(t) => Moved(if e.Works? then files - {Temp(t)} else files, Returned(false))
  }

  /******* Every point of one call *******/

  /** Everything but one temporary file is as it was. */
  ghost predicate OnlyTemp(before: Files, files: Files, t: nat) {
    Temp(t) !in before && Temp(t) in files && files == before[Temp(t) := files[Temp(t)]]
  }

  /** What the files are when a call that started from `before` has come so far. */
  ghost predicate WriterAt(path: string, data: string, before: Files, m: Moved) {
    match m.writer
    case Starting => m.files == before
    case Created(t) => OnlyTemp(before, m.files, t)
    case Abandoned(t) => OnlyTemp(before, m.files, t)
    case Renamed => m.files == before[Named(path) := data]
    case Returned(ok) =>
      || m.files == before[Named(path) := data]
      || (!ok && (m.files == before || exists t: nat :: OnlyTemp(before, m.files, t)))
    case Filled(t) => OnlyTemp(before, m.files, t) && m.files[Temp(t)] == data
    case Moded(t) => OnlyTemp(before, m.files, t) && m.files[Temp(t)] == data
    case Synced(t) => OnlyTemp(before, m.files, t) && m.files[Temp(t)] == data
    case Shut(t) => OnlyTemp(before, m.files, t) && m.files[Temp(t)] == data
  }

  ghost predicate Follows(path: string, data: string, m: Moved, n: Moved) {
    exists e :: WriterCan(data, m.files, m.writer, e) && n == WriterNext(path, data, m.files, m.writer, e)
  }

  /** A call alone, up to any point: a crash is a run that goes no further. */
  ghost predicate IsWriterRun(path: string, data: string, run: seq<Moved>) {
    && run != [] && run[0].writer == Starting
    && forall i :: 0 <= i < |run| - 1 ==> Follows(path, data, run[i], run[i + 1])
  }

  lemma WriterStepAt(path: string, data: string, before: Files, m: Moved, e: Effect)
    requires WriterAt(path, data, before, m) && WriterCan(data, m.files, m.writer, e)
    ensures WriterAt(path, data, before, WriterNext(path, data, m.files, m.writer, e))
  {
    var n := WriterNext(path, data, m.files, m.writer, e);
    match m.writer
    case Abandoned(t) =>
      if e.Works? { assert n.files == before; }
    case Shut(t) =>
      if e.Works? { assert n.files == before[Named(path) := data]; }
    case _ =>
  }

  lemma {:induction false} WriterRunAt(path: string, data: string, run: seq<Moved>, n: nat)
    requires IsWriterRun(path, data, run) && n < |run|
    ensures WriterAt(path, data, run[0].files, run[n])
  {
    if n > 0 {
      WriterRunAt(path, data, run, n - 1);
      assert Follows(path, data, run[n - 1], run[n]);
      var e :| WriterCan(data, run[n - 1].files, run[n - 1].writer, e)
               && run[n] == WriterNext(path, data, run[n - 1].files, run[n - 1].writer, e);
      WriterStepAt(path, data, run[0].files, run[n - 1], e);
    }
  }

  /** Two states of the files agree about a path: both lack it or both hold the same there. */
  predicate SameAt(a: Files, b: Files, path: Path) {
    (path in a <==> path in b) && (path in a ==> a[path] == b[path])
  }

  /**
   At every point of a call, wherever it fails or crashes, the target is complete, old or new,
   and every other chosen path is untouched. Success means new, and an error means old unless
   the rename had been made.
   */
  lemma AtomicAtEveryPoint(path: string, data: string, run: seq<Moved>, n: nat)
    requires IsWriterRun(path, data, run) && n < |run|
    ensures var before, m := run[0].files, run[n];
            && (forall x :: x != path ==> SameAt(before, m.files, Named(x)))
            && (SameAt(before, m.files, Named(path)) || (Named(path) in m.files && m.files[Named(path)] == data))
            && (m.writer.Renamed? || m.writer == Returned(true) ==>
                  Named(path) in m.files && m.files[Named(path)] == data)
            && (!m.writer.Renamed? && !m.writer.Returned? ==> SameAt(before, m.files, Named(path)))
  {
    WriterRunAt(path, data, run, n);
  }

  /** A call with nothing in its way until the directory is synced. */
  lemma RunToTheEnd(path: string, data: string, before: Files, t: nat, ok: bool) returns (run: seq<Moved>)
    requires Temp(t) !in before
    ensures IsWriterRun(path, data, run) && |run| == 8 && run[0] == Moved(before, Starting)
    ensures run[5].writer == Shut(t)
    ensures run[7] == Moved(before[Named(path) := data], Returned(ok))
  {
    var m0 := Moved(before, Starting);
    var m1 := WriterNext(path, data, m0.files, m0.writer, Makes(t));
    var m2 := WriterNext(path, data, m1.files, m1.writer, Works);
    var m3 := WriterNext(path, data, m2.files, m2.writer, Works);
    var m4 := WriterNext(path, data, m3.files, m3.writer, Works);
    var m5 := WriterNext(path, data, m4.files, m4.writer, Works);
    var m6 := WriterNext(path, data, m5.files, m5.writer, Works);
    var m7 := WriterNext(path, data, m6.files, m6.writer, if ok then Works else Fails);
    run := [m0, m1, m2, m3, m4, m5, m6, m7];
    assert Follows(path, data, m0, m1) && Follows(path, data, m1, m2) && Follows(path, data, m2, m3);
    assert Follows(path, data, m3, m4) && Follows(path, data, m4, m5) && Follows(path, data, m5, m6);
    assert Follows(path, data, m6, m7);
    WriterRunAt(path, data, run, 6);
  }

  /** An error after a rename that was made leaves the new content: errors do not mean that nothing changed. */
  lemma ErrorAfterRename(path: string, data: string, before: Files, t: nat)
    requires Temp(t) !in before
    ensures exists run: seq<Moved> ::
              IsWriterRun(path, data, run) && run[0].files == before
              && run[|run| - 1] == Moved(before[Named(path) := data], Returned(false))
  {
    var run := RunToTheEnd(path, data, before, t, false);
    assert run[|run| - 1] == run[7];
  }

  lemma RunExtends(path: string, data: string, run: seq<Moved>, e: Effect)
    requires IsWriterRun(path, data, run)
    requires WriterCan(data, run[|run| - 1].files, run[|run| - 1].writer, e)
    ensures IsWriterRun(path, data, run + [WriterNext(path, data, run[|run| - 1].files, run[|run| - 1].writer, e)])
  {
    var m := run[|run| - 1];
    var n := WriterNext(path, data, m.files, m.writer, e);
    assert Follows(path, data, m, n);
    forall i | 0 <= i < |run| ensures Follows(path, data, (run + [n])[i], (run + [n])[i + 1]) {
      if i < |run| - 1 { assert Follows(path, data, run[i], run[i + 1]); }
    }
  }

  /** There is always a name left for a temporary file. */
  lemma {:induction false} FreshTemp(paths: set<Path>) returns (n: nat)
    ensures forall k: nat :: Temp(k) in paths ==> k < n
    decreases |paths|
  {
    n := 0;
    if p :| p in paths {
      n := FreshTemp(paths - {p});
      if p.Temp? && p.number >= n { n := p.number + 1; }
    }
  }
}
