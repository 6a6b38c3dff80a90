/**
 The certificate cache, twice: a JSON file mapping joined keys to entries, and a table with one
 row per seven-column key. Both are shown to answer like one map from keys to latest bundles.
 */
module Store {
  import opened Wrappers
  import opened Durations
  import opened Pki
  import opened CacheKey
  import opened AtomicFile
  import opened Disk
  import RateLimit

  datatype CacheEntry = CacheEntry(key: CertificateCacheKey, bundle: Bundle, createdAt: int, updatedAt: int)

  datatype Answer = Hit(bundle: Bundle) | Miss | Failed

  /** The zero `time.Time`, midnight of 1 January of year 1, counted from 1970. */
  const ZERO_TIME := -62_135_596_800 * SECOND

  /** A stored bundle is served while it expires later than the renewal time from now. */
  function Serve(bundle: Bundle, renewBefore: int, now: int): Answer {
    if bundle.notAfter - now <= renewBefore then Miss else Hit(bundle)
  }

  /******* The reference: one map *******/

  type Cache = map<CertificateCacheKey, CacheEntry>

  function Get(m: Cache, key: CertificateCacheKey, renewBefore: int, now: int): Answer {
    if key in m then Serve(m[key].bundle, renewBefore, now) else Miss
  }

  function Put(m: Cache, key: CertificateCacheKey, bundle: Bundle, now: int): Cache {
    m[key := CacheEntry(key, bundle, if key in m then m[key].createdAt else now, now)]
  }

  /******* The JSON file *******/

  function FileGet(entries: map<string, CacheEntry>, key: CertificateCacheKey, renewBefore: int, now: int): Answer {
    if key.String() !in entries then Miss else Serve(entries[key.String()].bundle, renewBefore, now)
  }

  function FilePut(
      entries: map<string, CacheEntry>, key: CertificateCacheKey, bundle: Bundle, now: int): map<string, CacheEntry> {
    var found := if key.String() in entries then entries[key.String()].createdAt else ZERO_TIME;
    entries[key.String() := CacheEntry(key, bundle, if found == ZERO_TIME then now else found, now)]
  }

  /** JSON, as far as it matters: what is written can be read again. */
  datatype Codec = Codec(
    encode: map<string, CacheEntry> -> string, decode: string -> Option<map<string, CacheEntry>>)
  {
    ghost predicate Faithful() {
      forall entries :: decode(encode(entries)) == Some(entries)
    }
  }

  class FileStore {
    const path: string
    const codec: Codec
    const disk: FileSystem

    constructor (path: string, codec: Codec, disk: FileSystem)
      ensures this.path == path && this.codec == codec && this.disk == disk
    {
      this.path := path;
      this.codec := codec;
      this.disk := disk;
    }

    /** The entries on disk; no file means none. `readable` is whether the read itself works. */
    function Load(readable: bool): Option<map<string, CacheEntry>>
      reads this, disk
    {
      if !readable then None
      else if Named(path) !in disk.files then Some(map[])
      else codec.decode(disk.files[Named(path)])
    }

    /** There is no file, or one that decodes. */
    ghost predicate Usable(readable: bool)
      reads this, disk
    {
      readable && (Named(path) in disk.files ==> codec.decode(disk.files[Named(path)]).Some?)
    }

    /** The entries of the file; none when there is no file. */
    ghost function Decoded(): map<string, CacheEntry>
      reads this, disk
    {
      if Named(path) in disk.files && codec.decode(disk.files[Named(path)]).Some?
      then codec.decode(disk.files[Named(path)]).value
      else map[]
    }

    method GetValidCertificate(key: CertificateCacheKey, renewBefore: int, now: int, readable: bool)
      returns (answer: Answer)
      ensures !readable ==> answer == Failed
      ensures readable && Named(path) !in disk.files ==> answer == Miss
      ensures readable && Named(path) in disk.files ==>
                match codec.decode(disk.files[Named(path)])
                case None => answer == Failed
                case Some(entries) =>
                  && answer == FileGet(entries, key, renewBefore, now)
                  && answer == if key.String() in entries && entries[key.String()].bundle.notAfter - now > renewBefore
                               then Hit(entries[key.String()].bundle) else Miss
    {
      var loaded := Load(readable);
      if loaded.None? { return Failed; }
      var entries := loaded.value;
      if key.String() !in entries { return Miss; }
      var entry := entries[key.String()];
      if entry.bundle.notAfter - now <= renewBefore { return Miss; }
      return Hit(entry.bundle);
    }

    /**
     A put reads the entries, of which a missing file has none, and writes them all again. One
     that fails leaves the file as it was, or as it would be after a put that worked, the latter
     just when only syncing the directory has failed.
     */
    method PutCertificate(key: CertificateCacheKey, bundle: Bundle, now: int, readable: bool, faults: Faults)
      returns (ok: bool)
      requires codec.Faithful()
      modifies disk
      ensures ok <==> old(Usable(readable)) && FirstFault(faults).None?
      ensures if old(Usable(readable)) && (FirstFault(faults).None? || FirstFault(faults) == Some(SyncingDirectory))
              then Named(path) in disk.files
                && codec.decode(disk.files[Named(path)]) == Some(FilePut(old(Decoded()), key, bundle, now))
              else SameNamed(old(disk.files), disk.files)
      ensures forall x :: x != path ==> SameAt(old(disk.files), disk.files, Named(x))
    {
      var loaded := Load(readable);
      if loaded.None? { return false; }
      var entries := loaded.value;
      var createdAt := if key.String() in entries then entries[key.String()].createdAt else ZERO_TIME;
      if createdAt == ZERO_TIME { createdAt := now; }
      entries := entries[key.String() := CacheEntry(key, bundle, createdAt, now)];
      ghost var before := disk.files;
      var err, run := disk.WriteFileAtomic(path, codec.encode(entries), faults);
      assert SameNamed(before, disk.files) ==> SameAt(before, disk.files, Named(path));
      return err.None?;
    }
  }

  /** What the first put of a new store leaves is that one entry, and it is served while it is fresh. */
  method FirstPutIsServed(
      store: FileStore, key: CertificateCacheKey, bundle: Bundle, put: int, faults: Faults, renewBefore: int, now: int)
    returns (ok: bool, answer: Answer)
    requires store.codec.Faithful() && Named(store.path) !in store.disk.files
    modifies store.disk
    ensures ok <==> FirstFault(faults).None?
    ensures ok ==>
              && Named(store.path) in store.disk.files
              && store.codec.decode(store.disk.files[Named(store.path)])
                 == Some(map[key.String() := CacheEntry(key, bundle, put, put)])
    ensures ok ==> answer == if bundle.notAfter - now > renewBefore then Hit(bundle) else Miss
    ensures !ok && FirstFault(faults) != Some(SyncingDirectory) ==> answer == Miss
  {
    ok := store.PutCertificate(key, bundle, put, true, faults);
    assert !ok && FirstFault(faults) != Some(SyncingDirectory) ==> Named(store.path) !in store.disk.files;
    answer := store.GetValidCertificate(key, renewBefore, now, true);
  }

  /******* The table *******/

  /** A row; its times are printed without fractions, so they are whole seconds. */
  datatype Row = Row(
    identity: string, profileName: string, profileHash: string, publicKeySha256: string,
    issuerName: string, issuerDirectory: string, issuerAccountKeyId: string,
    certPem: string, chainPem: string, fullChainPem: string, serial: string,
    notBefore: int, notAfter: int, createdAt: int, updatedAt: int)
  {
    function Key(): CertificateCacheKey {
      CertificateCacheKey(identity, profileName, profileHash, publicKeySha256,
                          issuerName, issuerDirectory, issuerAccountKeyId)
    }

    function Entry(): CacheEntry {
      CacheEntry(Key(),
                 Bundle(certPem, chainPem, fullChainPem, serial, notBefore * SECOND, notAfter * SECOND),
                 createdAt * SECOND, updatedAt * SECOND)
    }
  }

  function NewRow(key: CertificateCacheKey, b: Bundle, now: int): Row {
    Row(key.identity, key.profileName, key.profileHash, key.publicKeySha256,
        key.issuerName, key.issuerDirectory, key.issuerAccountKeyId,
        b.certPem, b.chainPem, b.fullChainPem, b.serial,
        b.notBefore / SECOND, b.notAfter / SECOND, now / SECOND, now / SECOND)
  }

  /** `SELECT ... WHERE` the seven columns match `LIMIT 1`. */
  function Find(rows: seq<Row>, key: CertificateCacheKey): Option<Row> {
    if rows == [] then None
    else if rows[0].Key() == key then Some(rows[0])
    else Find(rows[1..], key)
  }

  /** `INSERT ... ON CONFLICT DO UPDATE`: the conflicting row takes everything but its creation time. */
  function Upsert(rows: seq<Row>, row: Row): seq<Row> {
    if rows == [] then [row]
    else if rows[0].Key() == row.Key() then [row.(createdAt := rows[0].createdAt)] + rows[1..]
    else [rows[0]] + Upsert(rows[1..], row)
  }

  function TableGet(rows: seq<Row>, key: CertificateCacheKey, renewBefore: int, now: int): Answer {
    var row := Find(rows, key);
    if row.None? then Miss else Serve(row.value.Entry().bundle, renewBefore, now)
  }

  function TablePut(rows: seq<Row>, key: CertificateCacheKey, bundle: Bundle, now: int): seq<Row> {
    Upsert(rows, NewRow(key, bundle, now))
  }

  /** The constraint of the table: no two rows share the seven columns. */
  ghost predicate Unique(rows: seq<Row>) {
    forall i, j :: 0 <= i < j < |rows| ==> rows[i].Key() != rows[j].Key()
  }

  lemma {:induction false} UpsertUnique(rows: seq<Row>, row: Row)
    requires Unique(rows)
    ensures Unique(Upsert(rows, row))
    ensures forall r :: r in Upsert(rows, row) ==> r.Key() == row.Key() || r in rows
  {
    if rows != [] && rows[0].Key() != row.Key() {
      UpsertUnique(rows[1..], row);
      var rest := Upsert(rows[1..], row);
      forall i | 0 <= i < |rest| ensures rest[i].Key() != rows[0].Key() {
        assert rest[i] in rest;
        if rest[i] in rows[1..] {
          var j :| 0 <= j < |rows[1..]| && rows[1..][j] == rest[i];
          assert rows[j + 1] == rest[i];
        }
      }
    }
  }

  lemma {:induction false} FindAfterUpsert(rows: seq<Row>, row: Row, key: CertificateCacheKey)
    ensures Find(Upsert(rows, row), key) ==
            if key != row.Key() then Find(rows, key)
            else match Find(rows, key)
                 case None => Some(row)
                 case Some(before) => Some(row.(createdAt := before.createdAt))
  {
    if rows == [] {
      assert [row][1..] == [];
    } else if rows[0].Key() == row.Key() {
      var after := Upsert(rows, row);
      assert after[1..] == rows[1..];
      assert after[0].Key() == row.Key();
    } else {
      FindAfterUpsert(rows[1..], row, key);
      assert Upsert(rows, row)[1..] == Upsert(rows[1..], row);
    }
  }

  class SqliteStore {
    var rows: seq<Row>

    ghost predicate Valid()
      reads this
    {
      Unique(rows)
    }

    constructor ()
      ensures Valid() && rows == []
    {
      rows := [];
    }

    method GetValidCertificate(key: CertificateCacheKey, renewBefore: int, now: int, readable: bool)
      returns (answer: Answer)
      ensures answer == if readable then TableGet(rows, key, renewBefore, now) else Failed
    {
      if !readable { return Failed; }
      var row := Find(rows, key);
      if row.None? { return Miss; }
      var entry := row.value.Entry();
      if entry.bundle.notAfter - now <= renewBefore { return Miss; }
      return Hit(entry.bundle);
    }

    /** One statement: it applies as a whole or not at all, and may fail either way. */
    method PutCertificate(key: CertificateCacheKey, bundle: Bundle, now: int, applied: bool, reported: bool)
      returns (ok: bool)
      requires Valid()
      modifies this
      ensures Valid() && (ok <==> applied && reported)
      ensures rows == if applied then TablePut(old(rows), key, bundle, now) else old(rows)
    {
      if applied {
        UpsertUnique(rows, NewRow(key, bundle, now));
        rows := Upsert(rows, NewRow(key, bundle, now));
      }
      return applied && reported;
    }
  }

  /******* The stores agree *******/

  datatype Op =
    | Store(key: CertificateCacheKey, bundle: Bundle, now: int)
    | Fetch(key: CertificateCacheKey, renewBefore: int, now: int)

  /** As section 4.1.2.5 of RFC 5280 has them: validity times in whole seconds. */
  ghost predicate WholeSeconds(b: Bundle) {
    b.notBefore % SECOND == 0 && b.notAfter % SECOND == 0
  }

  /** Operations as the broker makes them, with a clock that is not at the zero time. */
  ghost predicate Plain(op: Op) {
    op.key.NulFree() && op.now != -62_135_596_800 * 1_000_000_000 && (op.Store? ==> WholeSeconds(op.bundle))
  }

  function CacheAfter(ops: seq<Op>, n: nat): Cache
    requires n <= |ops|
  {
    if n == 0 then map[]
    else match ops[n - 1]
      case Store(key, bundle, now) => Put(CacheAfter(ops, n - 1), key, bundle, now)
      case Fetch(_, _, _) => CacheAfter(ops, n - 1)
  }

  function FileAfter(ops: seq<Op>, n: nat): map<string, CacheEntry>
    requires n <= |ops|
  {
    if n == 0 then map[]
    else match ops[n - 1]
      case Store(key, bundle, now) => FilePut(FileAfter(ops, n - 1), key, bundle, now)
      case Fetch(_, _, _) => FileAfter(ops, n - 1)
  }

  function TableAfter(ops: seq<Op>, n: nat): seq<Row>
    requires n <= |ops|
  {
    if n == 0 then []
    else match ops[n - 1]
      case Store(key, bundle, now) => TablePut(TableAfter(ops, n - 1), key, bundle, now)
      case Fetch(_, _, _) => TableAfter(ops, n - 1)
  }

  lemma {:induction false} FileHolds(ops: seq<Op>, n: nat, key: CertificateCacheKey)
    requires n <= |ops| && (forall op :: op in ops ==> Plain(op)) && key.NulFree()
    ensures key.String() in FileAfter(ops, n) <==> key in CacheAfter(ops, n)
    ensures key in CacheAfter(ops, n) ==>
              FileAfter(ops, n)[key.String()] == CacheAfter(ops, n)[key]
              && CacheAfter(ops, n)[key].createdAt != ZERO_TIME
  {
    if n > 0 {
      var op := ops[n - 1];
      assert Plain(op);
      FileHolds(ops, n - 1, key);
      FileHolds(ops, n - 1, op.key);
      if op.key.String() == key.String() {
        StringInjective(op.key, key);
      }
    }
  }

  /** A time printed without its fraction and read back. */
  function Truncated(t: int): int {
    t / SECOND * SECOND
  }

  /** A new row reads back as what was put, in whole seconds. */
  lemma RowReads(key: CertificateCacheKey, b: Bundle, now: int)
    requires WholeSeconds(b)
    ensures var row := NewRow(key, b, now);
            row.Key() == key && row.Entry() == CacheEntry(key, b, Truncated(now), Truncated(now))
  {
  }

  lemma RowKeepsCreation(row: Row, before: Row)
    ensures row.(createdAt := before.createdAt).Entry() == row.Entry().(createdAt := before.Entry().createdAt)
  {
  }

  lemma {:induction false} TableHolds(ops: seq<Op>, n: nat, key: CertificateCacheKey)
    requires n <= |ops| && forall op :: op in ops ==> Plain(op)
    ensures Find(TableAfter(ops, n), key).Some? <==> key in CacheAfter(ops, n)
    ensures key in CacheAfter(ops, n) ==>
              var entry, kept := Find(TableAfter(ops, n), key).value.Entry(), CacheAfter(ops, n)[key];
              && entry.key == key && entry.bundle == kept.bundle
              && entry.createdAt == Truncated(kept.createdAt) && entry.updatedAt == Truncated(kept.updatedAt)
  {
    if n > 0 {
      var op := ops[n - 1];
      assert Plain(op);
      assert op.Store? ==> WholeSeconds(op.bundle);
      hide Plain, WholeSeconds, Truncated, CertificateCacheKey.NulFree;
      TableHolds(ops, n - 1, key);
      if op.Store? {
        var row, found := NewRow(op.key, op.bundle, op.now), Find(TableAfter(ops, n - 1), key);
        RowReads(op.key, op.bundle, op.now);
        if found.Some? { RowKeepsCreation(row, found.value); }
        FindAfterUpsert(TableAfter(ops, n - 1), row, key);
        hide NewRow, Row.Entry, Find, Upsert;
      }
    }
  }

  /**
   For every sequence of puts and gets, read at one clock: both stores give the reference's
   answers, hit or miss, and the same bundles.
   */
  lemma StoresAgree(ops: seq<Op>, n: nat)
    requires n < |ops| && ops[n].Fetch? && forall op :: op in ops ==> Plain(op)
    ensures var Fetch(key, renewBefore, now) := ops[n];
            var answer := Get(CacheAfter(ops, n), key, renewBefore, now);
            && FileGet(FileAfter(ops, n), key, renewBefore, now) == answer
            && TableGet(TableAfter(ops, n), key, renewBefore, now) == answer
  {
    assert Plain(ops[n]);
    FileHolds(ops, n, ops[n].key);
    TableHolds(ops, n, ops[n].key);
  }

  /** Later puts for a key keep the creation time of the first one, in both stores. */
  lemma {:induction false} CreationTimeKept(ops: seq<Op>, first: nat, n: nat)
    requires first < n <= |ops| && ops[first].Store? && forall op :: op in ops ==> Plain(op)
    requires ops[first].key !in CacheAfter(ops, first)
    ensures var key := ops[first].key;
            && key in CacheAfter(ops, n) && Find(TableAfter(ops, n), key).Some? && key.String() in FileAfter(ops, n)
            && CacheAfter(ops, n)[key].createdAt == ops[first].now
            && FileAfter(ops, n)[key.String()].createdAt == ops[first].now
            && Find(TableAfter(ops, n), key).value.Entry().createdAt == Truncated(ops[first].now)
  {
    assert Plain(ops[first]);
    CreationTimeInCache(ops, first, n);
    FileHolds(ops, n, ops[first].key);
    TableHolds(ops, n, ops[first].key);
  }

  lemma {:induction false} CreationTimeInCache(ops: seq<Op>, first: nat, n: nat)
    requires first < n <= |ops| && ops[first].Store?
    requires ops[first].key !in CacheAfter(ops, first)
    ensures ops[first].key in CacheAfter(ops, n)
    ensures CacheAfter(ops, n)[ops[first].key].createdAt == ops[first].now
  {
    if n > first + 1 {
      CreationTimeInCache(ops, first, n - 1);
    }
  }

  /** The update time in both stores is that of the last put of the key. */
  lemma {:induction false} UpdateTimeIsLast(ops: seq<Op>, last: nat, n: nat)
    requires last < n <= |ops| && ops[last].Store? && forall op :: op in ops ==> Plain(op)
    requires forall k :: last < k < n && ops[k].Store? ==> ops[k].key != ops[last].key
    ensures var key, put := ops[last].key, ops[last];
            && Find(TableAfter(ops, n), key).Some? && key.String() in FileAfter(ops, n)
            && FileAfter(ops, n)[key.String()].key == key && FileAfter(ops, n)[key.String()].bundle == put.bundle
            && FileAfter(ops, n)[key.String()].updatedAt == put.now
            && Find(TableAfter(ops, n), key).value.Entry().key == key
            && Find(TableAfter(ops, n), key).value.Entry().bundle == put.bundle
            && Find(TableAfter(ops, n), key).value.Entry().updatedAt == Truncated(put.now)
  {
    assert Plain(ops[last]);
    LastInCache(ops, last, n);
    FileHolds(ops, n, ops[last].key);
    TableHolds(ops, n, ops[last].key);
  }

  lemma {:induction false} LastInCache(ops: seq<Op>, last: nat, n: nat)
    requires last < n <= |ops| && ops[last].Store?
    requires forall k :: last < k < n && ops[k].Store? ==> ops[k].key != ops[last].key
    ensures ops[last].key in CacheAfter(ops, n)
    ensures var entry := CacheAfter(ops, n)[ops[last].key];
            entry.key == ops[last].key && entry.bundle == ops[last].bundle && entry.updatedAt == ops[last].now
  {
    if n > last + 1 { LastInCache(ops, last, n - 1); }
  }

  /******* Exactly when the stores agree *******/

  /** Operations with these keys and bundles. */
  ghost predicate Over(ops: seq<Op>, keys: set<CertificateCacheKey>, bundles: set<Bundle>) {
    forall op :: op in ops ==> op.key in keys && (op.Store? ==> op.bundle in bundles)
  }

  /** No two keys of the set share a string. */
  ghost predicate StringsApart(keys: set<CertificateCacheKey>) {
    forall k, m :: k in keys && m in keys && k.String() == m.String() ==> k == m
  }

  ghost predicate AlwaysAgree(keys: set<CertificateCacheKey>, bundles: set<Bundle>) {
    forall ops: seq<Op>, n: nat :: Over(ops, keys, bundles) && n < |ops| && ops[n].Fetch? ==>
      FileGet(FileAfter(ops, n), ops[n].key, ops[n].renewBefore, ops[n].now)
      == TableGet(TableAfter(ops, n), ops[n].key, ops[n].renewBefore, ops[n].now)
  }

  lemma {:induction false} FileHoldsApart(
      ops: seq<Op>, n: nat, key: CertificateCacheKey, keys: set<CertificateCacheKey>, bundles: set<Bundle>)
    requires n <= |ops| && Over(ops, keys, bundles) && StringsApart(keys) && key in keys
    ensures key.String() in FileAfter(ops, n) <==> key in CacheAfter(ops, n)
    ensures key in CacheAfter(ops, n) ==> FileAfter(ops, n)[key.String()].bundle == CacheAfter(ops, n)[key].bundle
  {
    hide CertificateCacheKey.String;
    if n > 0 {
      assert ops[n - 1] in ops;
      FileHoldsApart(ops, n - 1, key, keys, bundles);
    }
  }

  lemma {:induction false} TableHoldsWhole(
      ops: seq<Op>, n: nat, key: CertificateCacheKey, keys: set<CertificateCacheKey>, bundles: set<Bundle>)
    requires n <= |ops| && Over(ops, keys, bundles) && forall b :: b in bundles ==> WholeSeconds(b)
    ensures Find(TableAfter(ops, n), key).Some? <==> key in CacheAfter(ops, n)
    ensures key in CacheAfter(ops, n) ==>
              Find(TableAfter(ops, n), key).value.Entry().bundle == CacheAfter(ops, n)[key].bundle
  {
    if n > 0 {
      var op := ops[n - 1];
      assert op in ops;
      TableHoldsWhole(ops, n - 1, key, keys, bundles);
      if op.Store? {
        assert WholeSeconds(op.bundle);
        FindAfterUpsert(TableAfter(ops, n - 1), NewRow(op.key, op.bundle, op.now), key);
      }
    }
  }

  /** Putting a bundle under one key and getting it under another, while it is fresh. */
  function PutThenGet(k: CertificateCacheKey, m: CertificateCacheKey, b: Bundle): seq<Op> {
    [Store(k, b, b.notAfter - 10 * SECOND), Fetch(m, SECOND, b.notAfter - 10 * SECOND)]
  }

  lemma PutThenGetAnswers(k: CertificateCacheKey, m: CertificateCacheKey, b: Bundle)
    requires k.String() == m.String()
    ensures var ops, now := PutThenGet(k, m, b), b.notAfter - 10 * SECOND;
            && FileGet(FileAfter(ops, 1), m, SECOND, now) == Hit(b)
            && TableGet(TableAfter(ops, 1), m, SECOND, now)
               == if k == m then Hit(b.(notBefore := Truncated(b.notBefore), notAfter := Truncated(b.notAfter)))
                  else Miss
  {
    hide CertificateCacheKey.String;
    var ops, now := PutThenGet(k, m, b), b.notAfter - 10 * SECOND;
    assert TableAfter(ops, 0) == [] && FileAfter(ops, 0) == map[];
    var row := NewRow(k, b, now);
    assert TableAfter(ops, 1) == [row] && row.Key() == k;
    assert [row][1..] == [];
    assert Find([row], m) == if k == m then Some(row) else None;
  }

  /**
   For keys and bundles given, both stores give the same answers and the same bundles after
   every sequence of puts and gets if and only if no two of the keys share a string and every
   bundle has its times in whole seconds.
   */
  lemma StoresAgreeExactly(keys: set<CertificateCacheKey>, bundles: set<Bundle>)
    requires keys != {} && bundles != {}
    ensures AlwaysAgree(keys, bundles) <==> StringsApart(keys) && forall b :: b in bundles ==> WholeSeconds(b)
  {
    hide CertificateCacheKey.String, FileGet, TableGet, FileAfter, TableAfter;
    if StringsApart(keys) && forall b :: b in bundles ==> WholeSeconds(b) {
      forall ops: seq<Op>, n: nat | Over(ops, keys, bundles) && n < |ops| && ops[n].Fetch?
        ensures FileGet(FileAfter(ops, n), ops[n].key, ops[n].renewBefore, ops[n].now)
                == TableGet(TableAfter(ops, n), ops[n].key, ops[n].renewBefore, ops[n].now)
      {
        assert ops[n] in ops;
        SameBundlesSameAnswers(ops, n, keys, bundles);
      }
    }
    if AlwaysAgree(keys, bundles) {
      forall k, m, b | k in keys && m in keys && b in bundles && k.String() == m.String()
        ensures k == m && WholeSeconds(b)
      {
        AgreeOnPair(keys, bundles, k, m, b);
      }
      var k0 :| k0 in keys;
      var b0 :| b0 in bundles;
      assert forall b :: b in bundles && k0.String() == k0.String() ==> WholeSeconds(b);
      assert forall k, m :: k in keys && m in keys && b0 in bundles && k.String() == m.String() ==> k == m;
    }
  }

  lemma SameBundlesSameAnswers(ops: seq<Op>, n: nat, keys: set<CertificateCacheKey>, bundles: set<Bundle>)
    requires n < |ops| && ops[n].Fetch? && Over(ops, keys, bundles) && StringsApart(keys) && ops[n].key in keys
    requires forall b :: b in bundles ==> WholeSeconds(b)
    ensures FileGet(FileAfter(ops, n), ops[n].key, ops[n].renewBefore, ops[n].now)
            == TableGet(TableAfter(ops, n), ops[n].key, ops[n].renewBefore, ops[n].now)
  {
    hide CertificateCacheKey.String;
    FileHoldsApart(ops, n, ops[n].key, keys, bundles);
    TableHoldsWhole(ops, n, ops[n].key, keys, bundles);
  }

  lemma AgreeOnPair(
      keys: set<CertificateCacheKey>, bundles: set<Bundle>, k: CertificateCacheKey, m: CertificateCacheKey,
      b: Bundle)
    requires AlwaysAgree(keys, bundles) && k in keys && m in keys && b in bundles && k.String() == m.String()
    ensures k == m && WholeSeconds(b)
  {
    hide CertificateCacheKey.String, FileGet, TableGet, FileAfter, TableAfter;
    var ops := PutThenGet(k, m, b);
    assert Over(ops, keys, bundles) && ops[1].Fetch?;
    PutThenGetAnswers(k, m, b);
    assert b.notBefore == Truncated(b.notBefore) + b.notBefore % SECOND;
    assert b.notAfter == Truncated(b.notAfter) + b.notAfter % SECOND;
  }

  /**
   Whatever the stores held before, a bundle put into both is a hit in one just when it is in
   the other, at all times and for all renewal times, if and only if its expiry is in whole
   seconds.
   */
  lemma ServedAlikeExactly(
      entries: map<string, CacheEntry>, rows: seq<Row>, k: CertificateCacheKey, b: Bundle, put: int)
    ensures (forall renewBefore: int, now: int ::
              FileGet(FilePut(entries, k, b, put), k, renewBefore, now).Hit?
              <==> TableGet(TablePut(rows, k, b, put), k, renewBefore, now).Hit?)
            <==> b.notAfter % SECOND == 0
  {
    hide CertificateCacheKey.String;
    FindAfterUpsert(rows, NewRow(k, b, put), k);
    var e, r := FilePut(entries, k, b, put), TablePut(rows, k, b, put);
    assert Find(r, k).Some? && Find(r, k).value.Entry().bundle.notAfter == Truncated(b.notAfter);
    assert b.notAfter == Truncated(b.notAfter) + b.notAfter % SECOND;
    if b.notAfter % SECOND != 0 {
      var now := Truncated(b.notAfter);
      assert FileGet(e, k, 0, now).Hit? && !TableGet(r, k, 0, now).Hit?;
    }
  }

  /**
   For the keys of one broker the condition on strings is one on identities and profile names,
   and it holds when no identity is another one followed by a NUL.
   */
  lemma StringsApartByNames(keys: set<CertificateCacheKey>)
    requires forall k, m :: k in keys && m in keys ==> OneIssuer(k, m)
    ensures StringsApart(keys)
            <==> forall k, m :: k in keys && m in keys
                   && k.profileHash == m.profileHash && k.publicKeySha256 == m.publicKeySha256
                   && RateLimit.PairKey(k.identity, k.profileName) == RateLimit.PairKey(m.identity, m.profileName)
                   ==> k == m
    ensures RateLimit.Apart(set k | k in keys :: k.identity) ==> StringsApart(keys)
  {
    hide CertificateCacheKey.String;
    forall k, m | k in keys && m in keys
      ensures k.String() == m.String()
              <==> && k.profileHash == m.profileHash && k.publicKeySha256 == m.publicKeySha256
                   && RateLimit.PairKey(k.identity, k.profileName) == RateLimit.PairKey(m.identity, m.profileName)
      ensures RateLimit.PairKey(k.identity, k.profileName) == RateLimit.PairKey(m.identity, m.profileName)
                && k.identity == m.identity
              ==> k.profileName == m.profileName
      ensures RateLimit.Apart(set x | x in keys :: x.identity)
              && RateLimit.PairKey(k.identity, k.profileName) == RateLimit.PairKey(m.identity, m.profileName)
              ==> k.identity == m.identity
    {
      SameStringExactly(k, m);
      RateLimit.PairKeyCollides(k.identity, k.profileName, m.identity, m.profileName);
      RateLimit.PairKeyCollides(k.identity, k.profileName, k.identity, m.profileName);
      assert k.identity in (set x | x in keys :: x.identity) && m.identity in (set x | x in keys :: x.identity);
    }
  }

  /** With a NUL in a field, one key can be served another key's bundle from the file. */
  lemma NulsMixKeys(b: Bundle, now: int)
    requires b.notAfter > now
    ensures var k := CertificateCacheKey("a\0b", "c", "", "", "", "", "");
            var m := CertificateCacheKey("a", "b\0c", "", "", "", "", "");
            && FileGet(FilePut(map[], k, b, now), m, 0, now) == Hit(b)
            && TableGet(TablePut([], k, b, now), m, 0, now) == Miss
  {
    var k := CertificateCacheKey("a\0b", "c", "", "", "", "", "");
    var m := CertificateCacheKey("a", "b\0c", "", "", "", "", "");
    StringShape(k);
    StringShape(m);
    hide CertificateCacheKey.String;
    assert Tail(k) == Tail(m);
    hide Tail;
    assert "a\0b" + "\0" + ("c" + "\0" + Tail(k)) == "a" + "\0" + ("b\0c" + "\0" + Tail(m));
    assert k != m;
    assert Find([NewRow(k, b, now)], m) == Find([NewRow(k, b, now)][1..], m);
  }
}
