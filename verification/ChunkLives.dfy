/**
 Lives of a chunk store in which an acknowledgement without evidence is given
 and can be lost, and lives in which a revision is used again.
 */
module ChunkLives {
  import opened Records
  import opened ChunkDisk
  import opened ChunkPromises
  import opened ChunkStore

  /** Addressed to this store, at any revision. */
  function Here(store: LocalChunkStore): Target { Target(store.node, store.device, store.deviceEpoch, 0) }

  /** A chunk of one byte. */
  function OneByte(b: Byte, hash: Hash): Staged
  {
    Staged(ChunkObject(ChunkId(hash([b]), 1), 1, hash([b])), [b])
  }

  /** A store that holds one chunk, with everything synced. */
  ghost predicate Holds(store: LocalChunkStore, x: Staged)
    reads store
  {
    store.Valid() && Genuine(x, store.hash) && store.Durably(x.chunk)
  }

  /** The disk with the bytes of one file changed. */
  function Rotted(d: Disk, f: FileNo, data: seq<Byte>): Disk { d.(inodes := d.inodes[f := Inode(data, true)]) }

  lemma RottedIsOk(d: Disk, f: FileNo, data: seq<Byte>)
    requires DiskOk(d) && f in d.inodes
    ensures DiskOk(Rotted(d, f, data))
  {
    forall c | c in d.names ensures NameOk(Rotted(d, f, data), c) { assert NameOk(d, c); }
  }

  const EMPTY := Disk(map[], 0, map[], map[], {}, [], 0, false)

  /** What a store on an empty disk promises. */
  ghost function Fresh(): Promises { Promises({}, 0, FirmMarks(EMPTY, 0), []) }

  method FirstChunk(x: Staged, hash: Hash) returns (store: LocalChunkStore)
    requires Genuine(x, hash)
    ensures fresh(store) && store.hash == hash && Holds(store, x) && Calm(store.disk) && store.revision == 1
    ensures |store.disk.wal| == 1 && store.records.Keys == {x.chunk.id} && store.disk.names.Keys == {x.chunk.id}
    ensures Acked(x.chunk, 1) in store.acks
    ensures Point(store.disk.(walSynced := 0, walNamed := false), Fresh()) in store.trace
  {
    store := new LocalChunkStore("n", "d", 0, hash);
    ghost var d := store.disk;
    assert AllFit(d, store.records, [x], 1, hash) by { assert Fits(d, store.records, [x], 0, hash); }
    var ack := store.PersistBatch([x], Here(store), 1);
    assert store.Durably([x][0].chunk) && Acked([x][0].chunk, 1) in store.acks;
    OneKey(store.records, store.disk, x);
  }

  lemma OneKey(records: map<ChunkId, LocalRecord>, d: Disk, x: Staged)
    requires OnlyStaged(map[], records, [x]) && x.chunk.id in records
    requires x.chunk.id in d.names && forall c :: c in d.names ==> IsStaged(c, [x])
    ensures records.Keys == {x.chunk.id} && d.names.Keys == {x.chunk.id}
  {
    forall c | c in records ensures c == x.chunk.id { assert IsStaged(c, [x]); }
  }

  /** Acknowledges once more a chunk that is recorded and verifies: nothing is synced. */
  method AcknowledgeAgain(store: LocalChunkStore, x: Staged) returns (ack: Option<nat>)
    requires Holds(store, x)
    modifies store
    ensures Holds(store, x) && ack == Some(store.revision)
    ensures store.disk == old(store.disk) && store.Cat() == old(store.Cat()) && old(store.acks) <= store.acks
    ensures store.log == old(store.log) + [AckEvent(x.chunk.id, store.revision)]
  {
    assert AllFit(store.disk, store.records, [x], 1, store.hash) by {
      assert Fits(store.disk, store.records, [x], 0, store.hash);
    }
    assert store.AllDurably([x]);
    ack := store.PersistBatch([x], Here(store), 1);
    assert AckEvents(Chunks([x]), store.revision) == [AckEvent(x.chunk.id, store.revision)];
  }

  // ----------------------------------------------------------------- unsynced names

  /** The chunk's file rots, and a batch replaces it but ends in an error before the directory is synced. */
  method ReplaceUnsynced(store: LocalChunkStore, x: Staged, data: seq<Byte>)
    requires Holds(store, x) && Calm(store.disk) && store.hash(data) != x.chunk.digest
    modifies store
    ensures Holds(store, x) && !Bound(store.disk, x.chunk, store.hash)
  {
    var c := x.chunk.id;
    var f := store.disk.names[c];
    assert NameOk(store.disk, c);
    RottedIsOk(store.disk, f, data);
    store.Decay(Rotted(store.disk, f, data));
    assert AllFit(store.disk, store.records, [x, x], 1, store.hash) by {
      assert Fits(store.disk, store.records, [x, x], 0, store.hash);
    }
    var ack := store.PersistBatch([x, x], Here(store), 1);
    assert Shows(store.disk, [x, x][0].chunk, store.hash);
    assert store.disk.durable[c] == f && store.disk.inodes[f] == Inode(data, true);
  }

  /**
   An acknowledgement is given, the chunk is recorded and verifies, and a power loss can bring the
   rotten file back.
   */
  method LoseByUnsyncedName(hash: Hash) returns (store: LocalChunkStore, x: Staged, ack: Option<nat>)
    requires hash([0]) != hash([1])
    ensures fresh(store) && store.hash == hash && Holds(store, x) && ack == Some(store.revision)
    ensures CanBeLost(store.disk, Acked(x.chunk, store.revision), hash)
  {
    x := OneByte(1, hash);
    store := FirstChunk(x, hash);
    ReplaceUnsynced(store, x, [0]);
    ack := AcknowledgeAgain(store, x);
    store.AckIsSafeExactly(Acked(x.chunk, store.revision));
  }

  /** Replacing a chunk's file by rename, up to but without the directory sync. */
  function Replaced(d: Disk, x: Staged): Disk
  {
    var f := d.nextFile;
    Publish(SyncFile(WriteFile(CreateFile(d), f, x.bytes), f), x.chunk.id, f)
  }

  /**
   Whenever the name last synced does not lead to the chunk's bytes, replacing
   the file alone makes it verify and yet leaves the chunk unbound; the directory
   sync binds it.
   */
  lemma UnsyncedReplacementCanBeLost(d: Disk, x: Staged, r: nat, hash: Hash)
    requires DiskOk(d) && Replay(d.wal, |d.wal|).Some? && Genuine(x, hash)
    requires !(x.chunk.id in d.durable && Solid(d, d.durable[x.chunk.id], x.chunk, hash))
    ensures Shows(Replaced(d, x), x.chunk, hash) && CanBeLost(Replaced(d, x), Acked(x.chunk, r), hash)
    ensures Bound(SyncDirectory(Replaced(d, x)), x.chunk, hash)
  {
    var e := Replaced(d, x);
    forall c | c in e.names ensures NameOk(e, c) { if c != x.chunk.id { assert NameOk(d, c); } }
    assert DiskOk(e);
    EvidenceIsExact(e, Acked(x.chunk, r), hash);
  }

  // ------------------------------------------------------------------ unsynced log

  /** A disk with one intact, named file whose record was written but not synced. */
  function OneLine(x: Staged): Disk
  {
    Disk(map[0 := Inode(x.bytes, true)], 1, map[x.chunk.id := 0], map[x.chunk.id := 0], {},
         [Txn(1, [LocalRecord(x.chunk, Durable, 1)])], 0, true)
  }

  lemma UnsyncedLineCanBeLost(x: Staged, hash: Hash)
    requires Genuine(x, hash)
    ensures DiskOk(OneLine(x)) && Bound(OneLine(x), x.chunk, hash) && Shows(OneLine(x), x.chunk, hash)
    ensures Replay(OneLine(x).wal, 1).Some? && Vouches(Replay(OneLine(x).wal, 1).value, Acked(x.chunk, 1))
    ensures CanBeLost(OneLine(x), Acked(x.chunk, 1), hash)
  {
    var d := OneLine(x);
    var records := [LocalRecord(x.chunk, Durable, 1)];
    assert Entered(map[], records, 1) == Entered(map[], records, 0)[x.chunk.id := records[0]];
    assert Replay(d.wal, 1) == ReplayLine(Replay(d.wal, 0).value, d.wal[0]);
    forall c | c in d.names ensures NameOk(d, c) {}
    assert Survives(d, 0) && !LoggedAt(d.wal, 0, Acked(x.chunk, 1));
    EvidenceIsExact(d, Acked(x.chunk, 1), hash);
  }

  /** The process is killed between writing the catalog's line and syncing it, and started again. */
  method KilledBeforeSync(x: Staged, hash: Hash) returns (store: LocalChunkStore)
    requires Genuine(x, hash)
    ensures fresh(store) && store.hash == hash && Holds(store, x) && store.revision == 1
    ensures store.disk.pending == {} && !store.disk.walNamed && store.disk.walSynced == 0 && |store.disk.wal| == 1
  {
    var first := FirstChunk(x, hash);
    var left := first.disk.(walSynced := 0, walNamed := false);
    ghost var point := Point(left, Fresh());
    assert PointOk(point, hash);
    store := new LocalChunkStore.Reopen(point, left, "n", "d", 0, hash);
    assert store.Cat() == first.Cat();
  }

  /** The first revision is firm for a chunk though no line of the log is synced: without it the reach is the same. */
  lemma FirstIsFirm(d: Disk, cat: Catalog, c: ChunkId)
    requires |d.wal| == 1 && d.walSynced == 0 && !d.walNamed && Settled(d, cat) && cat.revision == 1
    ensures Floor(d) == 0 && Firm(d, c, 1)
  {
    forall n: nat | Survives(d, n) ensures ReachesAt(d.wal, n, c, 1) {}
  }

  /** The name is synced, the file intact, the chunk acknowledged: and a power loss can take back the record. */
  method LoseByUnsyncedLog(hash: Hash) returns (store: LocalChunkStore, x: Staged, ack: Option<nat>)
    ensures fresh(store) && store.hash == hash && Holds(store, x) && ack == Some(store.revision)
    ensures Bound(store.disk, x.chunk, hash)
    ensures CanBeLost(store.disk, Acked(x.chunk, store.revision), hash)
    ensures Floor(store.disk) < store.revision && Firm(store.disk, x.chunk.id, store.revision)
  {
    x := OneByte(1, hash);
    store := KilledBeforeSync(x, hash);
    ack := AcknowledgeAgain(store, x);
    assert NameOk(store.disk, x.chunk.id);
    assert Survives(store.disk, 0) && !LoggedAt(store.disk.wal, 0, Acked(x.chunk, store.revision));
    store.AckIsSafeExactly(Acked(x.chunk, store.revision));
    FirstIsFirm(store.disk, store.Cat(), x.chunk.id);
  }

  // ------------------------------------------------------------- a revision twice

  /** A power loss may leave only the log's first line. */
  ghost predicate MayFallToFirst(store: LocalChunkStore, x: Staged)
    reads store
  {
    && Acked(x.chunk, 1) in store.acks && Survives(store.disk, 1)
    && Replay(store.disk.wal, 1).Some? && Replay(store.disk.wal, 1).value.revision == 1
  }

  /** A second chunk is installed; on the way its line is written but not synced. */
  method AddSecond(store: LocalChunkStore, x: Staged, y: Staged)
    requires Holds(store, x) && Calm(store.disk) && store.revision == 1 && |store.disk.wal| == 1
    requires Genuine(y, store.hash) && y.chunk.id !in store.records && y.chunk.id !in store.disk.names
    modifies store
    ensures store.Valid() && store.revision == 2 && OneLineMore(old(store.disk), store.disk)
    ensures Point(store.disk.(walSynced := 1, walNamed := true), old(store.Now())) in store.trace
  {
    assert AllFit(store.disk, store.records, [y], 1, store.hash) by {
      assert Fits(store.disk, store.records, [y], 0, store.hash);
    }
    var ack := store.PersistBatch([y], Here(store), 1);
    assert store.Durably([y][0].chunk);
  }

  lemma FirstLineReplays(d: Disk, e: Disk)
    requires DiskOk(d) && OneLineMore(d, e) && |d.wal| == 1
    ensures |e.wal| == 2 && Replay(e.wal, 1) == Replay(d.wal, 1)
  {
    assert e.wal[..1] == d.wal[..1];
    ReplayPrefix(e.wal, d.wal, 1);
  }

  /** What the second batch leaves behind if it is killed before its line is synced. */
  method SecondBatch(x: Staged, y: Staged, hash: Hash) returns (store: LocalChunkStore, left: Disk, ghost point: Point)
    requires Genuine(x, hash) && Genuine(y, hash) && x.chunk.id != y.chunk.id
    ensures fresh(store) && store.hash == hash && store.Valid() && store.revision == 2
    ensures left == store.disk.(walSynced := 1, walNamed := true) && |left.wal| == 2
    ensures PointOk(point, hash) && point.disk == left && Acked(x.chunk, 1) in point.promises.acks
    ensures Replay(left.wal, 1).Some? && Replay(left.wal, 1).value.revision == 1
  {
    store := FirstChunk(x, hash);
    ghost var was, promised := store.disk, store.Now();
    AddSecond(store, x, y);
    FirstLineReplays(was, store.disk);
    left := store.disk.(walSynced := 1, walNamed := true);
    point := Point(left, promised);
  }

  /** It is started again: the store is at revision 2, the disk holds revision 1. */
  method KilledInSecond(x: Staged, y: Staged, hash: Hash) returns (store: LocalChunkStore)
    requires Genuine(x, hash) && Genuine(y, hash) && x.chunk.id != y.chunk.id
    ensures fresh(store) && store.hash == hash && Holds(store, x) && store.revision == 2 && Floor(store.disk) == 1
    ensures MayFallToFirst(store, x)
  {
    var first, left, point := SecondBatch(x, y, hash);
    store := new LocalChunkStore.Reopen(point, left, "n", "d", 0, hash);
    assert store.Cat() == first.Cat();
  }

  /** A power loss takes the unsynced line back, and the store opens at revision 1. */
  method BackToFirst(store: LocalChunkStore, x: Staged) returns (again: LocalChunkStore)
    requires Holds(store, x) && MayFallToFirst(store, x)
    ensures fresh(again) && again.hash == store.hash && Holds(again, x) && again.revision == 1
    ensures store.log <= again.log
  {
    ImageIsLoss(store.disk, store.disk.durable, 1, x.chunk, store.hash);
    var left := Image(store.disk, store.disk.durable, 1, x.chunk);
    again := new LocalChunkStore.Reopen(Point(store.disk, store.Now()), left, "n", "d", 0, store.hash);
  }

  /** The chunk's file rots and is quarantined at the next revision. */
  method RotAndQuarantine(store: LocalChunkStore, x: Staged, data: seq<Byte>)
    requires Holds(store, x) && !Genuine(Staged(x.chunk, data), store.hash) && store.revision < MAX64
    modifies store
    ensures store.Valid()
    ensures store.log == old(store.log) + [QuarantineEvent(x.chunk.id, old(store.revision) + 1)]
  {
    var c := x.chunk.id;
    assert NameOk(store.disk, c);
    RottedIsOk(store.disk, store.disk.names[c], data);
    store.Decay(Rotted(store.disk, store.disk.names[c], data));
    var ok := store.QuarantineIfInvalid(c);
  }

  /**
   An acknowledgement that was not firm and a later quarantine of its chunk have
   the same revision, so nobody can tell from the revisions which came first.
   */
  method RevisionUsedTwice(hash: Hash) returns (store: LocalChunkStore, x: Staged, ghost p: nat, ghost q: nat)
    requires hash([0]) != hash([1])
    ensures fresh(store) && store.Valid() && p < q < |store.log|
    ensures store.log[p] == AckEvent(x.chunk.id, 2) && store.log[q] == QuarantineEvent(x.chunk.id, 2)
  {
    x := OneByte(1, hash);
    store, p := AcknowledgedAndBack(x, OneByte(0, hash), hash);
    q := |store.log|;
    RotAndQuarantine(store, x, [0]);
  }

  /** The restarted store acknowledges at the revision that is then taken back. */
  method AcknowledgedAndBack(x: Staged, y: Staged, hash: Hash) returns (store: LocalChunkStore, ghost p: nat)
    requires Genuine(x, hash) && Genuine(y, hash) && x.chunk.id != y.chunk.id
    ensures fresh(store) && store.hash == hash && Holds(store, x) && store.revision == 1
    ensures p < |store.log| && store.log[p] == AckEvent(x.chunk.id, 2)
  {
    var killed := KilledInSecond(x, y, hash);
    p := |killed.log|;
    var ack := AcknowledgeAgain(killed, x);
    store := BackToFirst(killed, x);
    assert store.log[p] == killed.log[p];
  }

  // ------------------------------------------------------- what is not firm is overtaken

  /** The chunk's bytes in a new file, synced and under its name. */
  function Restored(d: Disk, x: Staged): Disk { SyncDirectory(Replaced(d, x)) }

  lemma RestoredIsOk(d: Disk, x: Staged)
    requires DiskOk(d)
    ensures DiskOk(Restored(d, x)) && (|x.bytes| == x.chunk.length ==> HasLength(Restored(d, x), x.chunk))
    ensures forall chunk: ChunkObject ::
      chunk.id != x.chunk.id && HasLength(d, chunk) ==> HasLength(Restored(d, x), chunk)
  {
    var e := Restored(d, x);
    forall c | c in e.names ensures NameOk(e, c) { if c != x.chunk.id { assert NameOk(d, c); } }
  }

  function Zeros(n: nat): (s: seq<Byte>)
    ensures |s| == n
  {
    seq(n, _ => 0)
  }

  /** Gives every recorded chunk a file of its length. */
  method FillFiles(store: LocalChunkStore, records: map<ChunkId, LocalRecord>)
    requires store.Valid() && forall c :: c in records ==> records[c].chunk.id == c
    modifies store`disk, store`acks, store`trace
    ensures store.Valid() && OnlyNamesAndFiles(old(store.disk), store.disk)
    ensures forall c :: c in records ==> HasLength(store.disk, records[c].chunk)
  {
    var todo := records.Keys;
    while todo != {}
      invariant store.Valid() && OnlyNamesAndFiles(old(store.disk), store.disk) && todo <= records.Keys
      invariant forall c :: c in records && c !in todo ==> HasLength(store.disk, records[c].chunk)
    {
      var c :| c in todo;
      todo := todo - {c};
      var x := Staged(records[c].chunk, Zeros(records[c].chunk.length));
      RestoredIsOk(store.disk, x);
      store.Decay(Restored(store.disk, x));
    }
  }

  ghost predicate OnlyNamesAndFiles(d: Disk, e: Disk)
  {
    e.wal == d.wal && e.walSynced == d.walSynced && e.walNamed == d.walNamed
  }

  /** What a power loss leaves of a disk with only the first `n` lines of the log. */
  lemma FallsTo(d: Disk, n: nat, x: Staged, records: map<ChunkId, LocalRecord>, hash: Hash)
    requires DiskOk(d) && Survives(d, n) && d.durable == d.names && Shows(d, x.chunk, hash)
    requires forall c :: c in records ==> HasLength(d, records[c].chunk)
    ensures var e := Image(d, d.names, n, x.chunk);
      PowerLoss(d, e) && Replay(e.wal, n) == Replay(d.wal, n) && Shows(e, x.chunk, hash) && !AnyDamaged(e, records)
  {
    ImageIsLoss(d, d.names, n, x.chunk, hash);
    var e := Image(d, d.names, n, x.chunk);
    assert NameOk(d, x.chunk.id);
    forall c | c in records ensures HasLength(e, records[c].chunk) { assert NameOk(d, records[c].chunk.id); }
  }

  /** A power loss leaves the first `n` lines and every file in order, and the store is opened again. */
  method FallBack(store: LocalChunkStore, n: nat, x: Staged) returns (later: LocalChunkStore)
    requires store.Valid() && Survives(store.disk, n) && Genuine(x, store.hash)
    requires SameAsRecorded([x.chunk], store.records)
    modifies store`disk, store`acks, store`trace
    ensures fresh(later) && later.Valid() && later.hash == store.hash && store.log <= later.log
    ensures Some(later.Cat()) == Replay(old(store.disk.wal), n)
    ensures later.Verifies(x.chunk) && SameAsRecorded([x.chunk], later.records)
  {
    assert LogKeeps(store.disk.wal, n, store.Now());
    ReplayRises(store.disk.wal, n, |store.disk.wal|);
    var records := Replay(store.disk.wal, n).value.records;
    forall c | c in records ensures records[c].chunk.id == c {
      assert Told(Replay(store.disk.wal, n).value, store.Now(), n == |store.disk.wal|, c);
    }
    FillFiles(store, records);
    RestoredIsOk(store.disk, x);
    store.Decay(Restored(store.disk, x));
    forall c | c in records ensures HasLength(store.disk, records[c].chunk) {
      if c == x.chunk.id { assert [x.chunk][0] == records[c].chunk; }
    }
    FallsTo(store.disk, n, x, records, store.hash);
    var left := Image(store.disk, store.disk.names, n, x.chunk);
    var again := LocalChunkStore.Open(Point(store.disk, store.Now()), left, store.node, store.device,
                                      store.deviceEpoch, store.hash);
    later := again.value;
  }

  /** A store with the chunk's bytes in place acknowledges it at exactly its reach. */
  method AcknowledgeNext(store: LocalChunkStore, x: Staged)
    requires store.Valid() && Genuine(x, store.hash) && store.Verifies(x.chunk)
    requires SameAsRecorded([x.chunk], store.records)
    modifies store
    ensures Holds(store, x) && store.revision == Reach(old(store.Cat()), x.chunk.id)
    ensures store.log == old(store.log) + [AckEvent(x.chunk.id, store.revision)]
  {
    assert [x.chunk][0] == x.chunk;
    assert AllFit(store.disk, store.records, [x], 1, store.hash) by {
      assert Fits(store.disk, store.records, [x], 0, store.hash);
    }
    if store.Durably(x.chunk) { assert store.AllDurably([x]); }
    var ack := store.PersistBatch([x], Here(store), 1);
    assert store.Durably([x][0].chunk);
    assert AckEvents(Chunks([x]), store.revision) == [AckEvent(x.chunk.id, store.revision)];
  }

  /** Whatever part of the log survives, the store can acknowledge the chunk next at exactly its reach. */
  method AcknowledgeAtReach(store: LocalChunkStore, n: nat, x: Staged) returns (later: LocalChunkStore)
    requires store.Valid() && Survives(store.disk, n) && Genuine(x, store.hash)
    requires SameAsRecorded([x.chunk], store.records)
    modifies store`disk, store`acks, store`trace
    ensures fresh(later) && later.hash == store.hash && Holds(later, x) && Replay(old(store.disk.wal), n).Some?
    ensures later.revision == Reach(Replay(old(store.disk.wal), n).value, x.chunk.id)
    ensures store.log < later.log && later.log[|later.log| - 1] == AckEvent(x.chunk.id, later.revision)
  {
    later := FallBack(store, n, x);
    AcknowledgeNext(later, x);
  }

  /** If a revision is not firm for a chunk, a later acknowledgement of the chunk can be below it. */
  method AcknowledgedBelow(store: LocalChunkStore, x: Staged, r: nat) returns (later: LocalChunkStore)
    requires store.Valid() && Genuine(x, store.hash) && SameAsRecorded([x.chunk], store.records)
    requires !Firm(store.disk, x.chunk.id, r)
    modifies store`disk, store`acks, store`trace
    ensures fresh(later) && later.hash == store.hash && Holds(later, x) && store.log < later.log
    ensures later.log[|later.log| - 1] == AckEvent(x.chunk.id, later.revision) && later.revision < r
  {
    var n: nat :|
      n <= |store.disk.wal| && Survives(store.disk, n) && !ReachesAt(store.disk.wal, n, x.chunk.id, r);
    later := AcknowledgeAtReach(store, n, x);
  }

  /** And a later quarantine can be at it or below. */
  method QuarantinedNotAbove(store: LocalChunkStore, x: Staged, r: nat) returns (later: LocalChunkStore)
    requires store.Valid() && Genuine(x, store.hash) && SameAsRecorded([x.chunk], store.records)
    requires !Firm(store.disk, x.chunk.id, r) && r <= MAX64
    modifies store`disk, store`acks, store`trace
    ensures fresh(later) && later.hash == store.hash && later.Valid() && store.log < later.log
    ensures var e := later.log[|later.log| - 1]; e == QuarantineEvent(x.chunk.id, e.revision) && e.revision <= r
  {
    later := AcknowledgedBelow(store, x, r);
    RotAndQuarantine(later, x, if x.chunk.length == 0 then [0] else []);
  }
}
