/**
 The local chunk store (src/node/chunk.rs): batches of chunks made durable
 behind ordered sync barriers, quarantine, and opening again after a kill or a
 power loss.  Every disk state the store passes through keeps what it has
 promised so far.
 */
module ChunkStore {
  import opened Records
  import opened ChunkDisk
  import opened ChunkPromises

  datatype Staged = Staged(chunk: ChunkObject, bytes: seq<Byte>)

  predicate Genuine(x: Staged, hash: Hash) { |x.bytes| == x.chunk.length && hash(x.bytes) == x.chunk.digest }

  function Chunks(staged: seq<Staged>): (cs: seq<ChunkObject>)
    ensures |cs| == |staged| && forall i :: 0 <= i < |cs| ==> cs[i] == staged[i].chunk
  {
    seq(|staged|, i requires 0 <= i < |staged| => staged[i].chunk)
  }

  function RecordsOf(chunks: seq<ChunkObject>, state: LocalState, revision: nat): (rs: seq<LocalRecord>)
    ensures |rs| == |chunks| && forall i :: 0 <= i < |rs| ==> rs[i] == LocalRecord(chunks[i], state, revision)
  {
    seq(|chunks|, i requires 0 <= i < |chunks| => LocalRecord(chunks[i], state, revision))
  }

  /** What is recorded already of these chunks is recorded as the same chunk. */
  ghost predicate SameAsRecorded(chunks: seq<ChunkObject>, records: map<ChunkId, LocalRecord>)
  {
    forall i :: 0 <= i < |chunks| && chunks[i].id in records ==> records[chunks[i].id].chunk == chunks[i]
  }

  /** New durable records keep every promise. */
  lemma DurableHonours(cat: Catalog, chunks: seq<ChunkObject>, next: nat, p: Promises)
    requires Honours(cat, p, false) && next == SatAdd64(cat.revision, 1) && cat.revision <= next
    requires SameAsRecorded(chunks, cat.records)
    ensures ReplayLine(cat, Txn(next, RecordsOf(chunks, Durable, next))).Some?
    ensures Honours(ReplayLine(cat, Txn(next, RecordsOf(chunks, Durable, next))).value, p, false)
    ensures Extends(cat, ReplayLine(cat, Txn(next, RecordsOf(chunks, Durable, next))).value)
  {
    var rs := RecordsOf(chunks, Durable, next);
    var after := ReplayLine(cat, Txn(next, rs)).value;
    forall c ensures Reach(cat, c) <= Reach(after, c) { EnteredHolds(cat.records, rs, |rs|, c); }
    forall c | c in cat.records ensures c in after.records && after.records[c].chunk == cat.records[c].chunk {
      EnteredHolds(cat.records, rs, |rs|, c);
    }
    forall c | c in after.records ensures after.records[c].chunk.id == c && Told(after, p, false, c) {
      EnteredHolds(cat.records, rs, |rs|, c);
      if c in cat.records { assert Told(cat, p, false, c); }
    }
    forall a | a in p.acks ensures Vouches(after, a) {
      assert Vouches(cat, a);
      EnteredHolds(cat.records, rs, |rs|, a.chunk.id);
    }
  }

  /** These chunks are recorded as durable. */
  ghost predicate AllDurable(chunks: seq<ChunkObject>, records: map<ChunkId, LocalRecord>)
  {
    forall i :: 0 <= i < |chunks| ==>
      && chunks[i].id in records && records[chunks[i].id].chunk == chunks[i] && records[chunks[i].id].state == Durable
  }

  /** Quarantining durable records keeps every promise, if none of them is of an acknowledged chunk. */
  lemma QuarantineHonours(cat: Catalog, chunks: seq<ChunkObject>, next: nat, p: Promises)
    requires Honours(cat, p, false) && next == cat.revision + 1 && next <= MAX64
    requires forall i, a :: 0 <= i < |chunks| && a in p.acks ==> a.chunk.id != chunks[i].id
    requires AllDurable(chunks, cat.records)
    ensures ReplayLine(cat, Txn(next, RecordsOf(chunks, Quarantined, next))).Some?
    ensures Honours(ReplayLine(cat, Txn(next, RecordsOf(chunks, Quarantined, next))).value, p, true)
    ensures Extends(cat, ReplayLine(cat, Txn(next, RecordsOf(chunks, Quarantined, next))).value)
  {
    var rs := RecordsOf(chunks, Quarantined, next);
    var after := ReplayLine(cat, Txn(next, rs)).value;
    forall c ensures Reach(cat, c) <= Reach(after, c) { EnteredHolds(cat.records, rs, |rs|, c); }
    forall c | c in cat.records ensures c in after.records && after.records[c].chunk == cat.records[c].chunk {
      EnteredHolds(cat.records, rs, |rs|, c);
    }
    forall c | c in after.records ensures after.records[c].chunk.id == c && Told(after, p, true, c) {
      EnteredHolds(cat.records, rs, |rs|, c);
      if c in cat.records { assert Told(cat, p, false, c); }
    }
    forall a | a in p.acks ensures Vouches(after, a) {
      assert Vouches(cat, a);
      EnteredHolds(cat.records, rs, |rs|, a.chunk.id);
    }
  }

  // -------------------------------------------------------- what a batch may meet

  /** Files are never overwritten. */
  ghost predicate FilesStay(d: Disk, e: Disk)
  {
    forall f :: f in d.inodes ==> f in e.inodes && e.inodes[f] == d.inodes[f]
  }

  /** One item can be installed: its id is not another chunk's, and no foreign file has its name. */
  predicate ItemFits(d: Disk, rs: map<ChunkId, LocalRecord>, chunk: ChunkObject, hash: Hash)
  {
    if chunk.id in rs then rs[chunk.id].chunk == chunk
    else chunk.id in d.names ==> Intact(d, d.names[chunk.id], chunk, hash)
  }

  /** Item `i` of a batch can be installed after the ones before it, judged by the disk the batch began with. */
  ghost predicate Fits(d: Disk, rs: map<ChunkId, LocalRecord>, staged: seq<Staged>, i: int, hash: Hash)
    requires 0 <= i < |staged|
  {
    var chunk := staged[i].chunk;
    && ItemFits(d, rs, chunk, hash)
    && (chunk.id !in rs ==> forall j :: 0 <= j < i && staged[j].chunk.id == chunk.id ==> staged[j].chunk == chunk)
  }

  ghost predicate AllFit(d: Disk, rs: map<ChunkId, LocalRecord>, staged: seq<Staged>, n: int, hash: Hash)
    requires 0 <= n <= |staged|
  {
    forall i {:trigger Fits(d, rs, staged, i, hash)} :: 0 <= i < n ==> Fits(d, rs, staged, i, hash)
  }

  /** A batch item whose bytes are in place: freshly installed, or recorded already. */
  ghost predicate ReadyIn(d: Disk, rs: map<ChunkId, LocalRecord>, chunk: ChunkObject, installed: seq<ChunkObject>,
                          hash: Hash)
  {
    && chunk.id in d.names && Solid(d, d.names[chunk.id], chunk, hash)
    && (chunk.id in rs ==> rs[chunk.id].chunk == chunk)
    && (chunk in installed || (chunk.id in rs && rs[chunk.id].state == Durable))
  }

  /** How the names have changed after the first `n` items, for chunks without a record. */
  ghost predicate NamedBy(d: Disk, e: Disk, rs: map<ChunkId, LocalRecord>, staged: seq<Staged>, n: int, c: ChunkId)
    requires 0 <= n <= |staged|
  {
    && (c in d.names ==> c in e.names && (c !in rs ==> e.names[c] == d.names[c]))
    && (c in e.names && c !in d.names ==> exists j :: 0 <= j < n && staged[j].chunk.id == c)
  }

  ghost predicate ReadyAll(d: Disk, rs: map<ChunkId, LocalRecord>, chunks: seq<ChunkObject>,
                           installed: seq<ChunkObject>,
                           hash: Hash)
  {
    forall i :: 0 <= i < |chunks| ==> ReadyIn(d, rs, chunks[i], installed, hash)
  }

  /** Only files and names differ, and no file was overwritten. */
  ghost predicate OnlyFiles(d: Disk, e: Disk)
  {
    && e == d.(inodes := e.inodes, nextFile := e.nextFile, names := e.names, pending := e.pending)
    && FilesStay(d, e)
  }

  /** What handling one item does to the disk, whether or not it succeeds. */
  ghost predicate ItemDone(d: Disk, e: Disk, rs: map<ChunkId, LocalRecord>, chunk: ChunkObject,
                           done: seq<ChunkObject>, more: seq<ChunkObject>, hash: Hash)
  {
    && OnlyFiles(d, e) && ReadyAll(e, rs, more, more, hash)
    && (forall c :: ReadyIn(d, rs, c, done, hash) ==> ReadyIn(e, rs, c, more, hash))
    && (forall x :: x in more ==> x in done || x == chunk)
    && (forall c :: c in e.names && c != chunk.id ==> c in d.names)
    && (forall c :: c in d.names ==> c in e.names && (c !in rs ==> e.names[c] == d.names[c]))
  }

  lemma InstalledIsDone(d: Disk, e: Disk, rs: map<ChunkId, LocalRecord>, chunk: ChunkObject,
                        done: seq<ChunkObject>, more: seq<ChunkObject>, replace: bool, hash: Hash)
    requires OnlyFiles(d, e) && ReadyAll(d, rs, done, done, hash)
    requires (chunk.id in rs ==> rs[chunk.id].chunk == chunk) && (replace ==> chunk.id in rs)
    requires forall c :: c in e.names && c != chunk.id ==> c in d.names
    requires forall c :: c in d.names && (c != chunk.id || !replace) ==> c in e.names && e.names[c] == d.names[c]
    requires if more == done then e.names == d.names || Placed(e, chunk, hash)
             else more == done + [chunk] && Placed(e, chunk, hash)
    ensures ItemDone(d, e, rs, chunk, done, more, hash)
  {
  }

  ghost predicate Placed(e: Disk, chunk: ChunkObject, hash: Hash)
  {
    chunk.id in e.names && Solid(e, e.names[chunk.id], chunk, hash)
  }

  ghost predicate IsStaged(c: ChunkId, staged: seq<Staged>) { exists i :: 0 <= i < |staged| && staged[i].chunk.id == c }

  /** Records of chunks outside the batch are left alone. */
  ghost predicate OnlyStaged(was: map<ChunkId, LocalRecord>, now: map<ChunkId, LocalRecord>, staged: seq<Staged>)
  {
    forall c :: !IsStaged(c, staged) ==> (c in now <==> c in was) && (c in now ==> now[c] == was[c])
  }

  lemma EnteredOnlyStaged(was: map<ChunkId, LocalRecord>, rs: seq<LocalRecord>, staged: seq<Staged>)
    requires forall i :: 0 <= i < |rs| ==> IsStaged(rs[i].chunk.id, staged)
    ensures OnlyStaged(was, Entered(was, rs, |rs|), staged)
  {
    var now := Entered(was, rs, |rs|);
    forall c | !IsStaged(c, staged) ensures (c in now <==> c in was) && (c in now ==> now[c] == was[c]) {
      EnteredHolds(was, rs, |rs|, c);
    }
  }

  /** What the first `n` items of a batch have done to the disk it began with. */
  ghost predicate Progress(d: Disk, e: Disk, rs: map<ChunkId, LocalRecord>, staged: seq<Staged>, n: int,
                           done: seq<ChunkObject>, hash: Hash)
    requires 0 <= n <= |staged|
  {
    && OnlyFiles(d, e) && ReadyAll(e, rs, done, done, hash)
    && (forall x :: x in done ==> IsStaged(x.id, staged))
    && (forall j :: 0 <= j < n ==> ReadyIn(e, rs, staged[j].chunk, done, hash))
    && (forall c {:trigger NamedBy(d, e, rs, staged, n, c)} :: NamedBy(d, e, rs, staged, n, c))
  }

  lemma ProgressStarts(d: Disk, rs: map<ChunkId, LocalRecord>, staged: seq<Staged>, hash: Hash)
    ensures Progress(d, d, rs, staged, 0, [], hash)
  {
    forall c ensures NamedBy(d, d, rs, staged, 0, c) {}
  }

  lemma ProgressNext(d: Disk, e: Disk, f: Disk, rs: map<ChunkId, LocalRecord>, staged: seq<Staged>, i: nat,
                     done: seq<ChunkObject>, more: seq<ChunkObject>, hash: Hash)
    requires i < |staged| && Progress(d, e, rs, staged, i, done, hash)
    requires ItemDone(e, f, rs, staged[i].chunk, done, more, hash) && ReadyIn(f, rs, staged[i].chunk, more, hash)
    ensures Progress(d, f, rs, staged, i + 1, more, hash)
  {
    var n := i + 1;
    forall c ensures NamedBy(d, f, rs, staged, n, c) {
      assert NamedBy(d, e, rs, staged, i, c);
      if c == staged[i].chunk.id { assert staged[i].chunk.id == c; }
    }
  }

  /** What fits at its turn is what fitted at the start. */
  lemma FitsAtItsTurn(d: Disk, e: Disk, rs: map<ChunkId, LocalRecord>, staged: seq<Staged>, i: nat,
                      installed: seq<ChunkObject>, hash: Hash)
    requires i < |staged| && DiskOk(d) && Progress(d, e, rs, staged, i, installed, hash)
    ensures ItemFits(e, rs, staged[i].chunk, hash) <==> Fits(d, rs, staged, i, hash)
  {
    var c := staged[i].chunk.id;
    assert NamedBy(d, e, rs, staged, i, c);
    if c in d.names { assert NameOk(d, c); }
  }

  predicate Shows(e: Disk, chunk: ChunkObject, hash: Hash)
  {
    chunk.id in e.names && Intact(e, e.names[chunk.id], chunk, hash)
  }

  /** Every item before the first that failed is in place. */
  ghost predicate FitsShown(d: Disk, rs: map<ChunkId, LocalRecord>, e: Disk, staged: seq<Staged>, broken: nat,
                            hash: Hash)
  {
    forall i :: 0 <= i < |staged| && i < broken && AllFit(d, rs, staged, i + 1, hash) ==>
      Shows(e, staged[i].chunk, hash)
  }

  lemma ShownSoFar(d: Disk, rs: map<ChunkId, LocalRecord>, e: Disk, staged: seq<Staged>, n: nat, broken: nat,
                   hash: Hash)
    requires n <= |staged| && forall j :: 0 <= j < n ==> Shows(e, staged[j].chunk, hash)
    requires n == broken || n == |staged| || !Fits(d, rs, staged, n, hash)
    ensures FitsShown(d, rs, e, staged, broken, hash)
    ensures n < |staged| && n < broken ==> !AllFit(d, rs, staged, |staged|, hash)
  {
  }

  /** No name appears but those of the batch. */
  ghost predicate NewNamesStaged(d: Disk, e: Disk, staged: seq<Staged>)
  {
    forall c :: c in e.names ==> c in d.names || IsStaged(c, staged)
  }

  lemma NamesSoFar(d: Disk, e: Disk, rs: map<ChunkId, LocalRecord>, staged: seq<Staged>, n: nat, done: seq<ChunkObject>,
                   hash: Hash)
    requires n <= |staged| && Progress(d, e, rs, staged, n, done, hash)
    ensures NewNamesStaged(d, e, staged)
  {
    forall c | c in e.names ensures c in d.names || IsStaged(c, staged) { assert NamedBy(d, e, rs, staged, n, c); }
  }

  /** What a batch has done to the disk when it stops, by success or error. */
  ghost predicate Stopped(d: Disk, e: Disk, rs: map<ChunkId, LocalRecord>, staged: seq<Staged>, broken: nat, hash: Hash)
  {
    OnlyFiles(d, e) && FitsShown(d, rs, e, staged, broken, hash) && NewNamesStaged(d, e, staged)
  }

  lemma StopsHere(d: Disk, e: Disk, rs: map<ChunkId, LocalRecord>, staged: seq<Staged>, n: nat,
                  done: seq<ChunkObject>, broken: nat, hash: Hash)
    requires n <= |staged| && Progress(d, e, rs, staged, n, done, hash) && (n == broken || n == |staged|)
    ensures Stopped(d, e, rs, staged, broken, hash)
  {
    NamesSoFar(d, e, rs, staged, n, done, hash);
    ShownSoFar(d, rs, e, staged, n, broken, hash);
  }

  lemma StopsAfter(d: Disk, e: Disk, f: Disk, rs: map<ChunkId, LocalRecord>, staged: seq<Staged>, n: nat,
                   done: seq<ChunkObject>, more: seq<ChunkObject>, broken: nat, hash: Hash)
    requires n < |staged| && n < broken && Progress(d, e, rs, staged, n, done, hash)
    requires ItemDone(e, f, rs, staged[n].chunk, done, more, hash) && !Fits(d, rs, staged, n, hash)
    ensures Stopped(d, f, rs, staged, broken, hash) && !AllFit(d, rs, staged, |staged|, hash)
  {
    forall j | 0 <= j < n ensures Shows(f, staged[j].chunk, hash) {
      assert ReadyIn(e, rs, staged[j].chunk, done, hash);
    }
    assert IsStaged(staged[n].chunk.id, staged);
    NamesSoFar(d, e, rs, staged, n, done, hash);
    ShownSoFar(d, rs, f, staged, n, broken, hash);
  }

  /** A point in the life of the store: the disk, and what had been promised by then. */
  datatype Point = Point(disk: Disk, promises: Promises)

  ghost predicate PointOk(x: Point, hash: Hash) { Keeps(x.disk, x.promises, hash) && Ordered(x.promises) }

  /** The disk before the log of its last transaction was synced. */
  function Unsynced(after: Disk, before: Disk): Disk
  {
    after.(walSynced := before.walSynced, walNamed := before.walNamed)
  }

  ghost predicate OneLineMore(d: Disk, e: Disk) { d.wal <= e.wal && |e.wal| == |d.wal| + 1 }

  /** Nothing is left unsynced. */
  predicate Calm(d: Disk) { Synced(d) && d.pending == {} }

  lemma CalmIsEvidence(d: Disk, cat: Catalog, a: Acked, hash: Hash)
    requires DiskOk(d) && Calm(d) && Settled(d, cat) && Vouches(cat, a)
    requires a.chunk.id in d.names && Intact(d, d.names[a.chunk.id], a.chunk, hash)
    ensures Evidence(d, a, hash)
  {
    assert NameOk(d, a.chunk.id);
    forall n: nat | Survives(d, n) ensures LoggedAt(d.wal, n, a) {}
  }

  /** Durable records, once synced, are held. */
  lemma EnteredIsHeld(d: Disk, was: Catalog, cat: Catalog, p: Promises, hash: Hash)
    requires Keeps(d, p, hash) && Settled(d, cat) && Synced(d) && Ordered(p) && Honours(cat, p, false)
    requires p.floor <= was.revision <= cat.revision
    ensures var q := Promises(p.acks, cat.revision, p.marks, p.log);
      Keeps(d, q, hash) && Honours(cat, q, false) && Ordered(q) && Floor(d) == cat.revision
  {
    forall c | c in cat.records && cat.records[c].state == Quarantined
      ensures Tells(p.log, c, cat.records[c].revision)
    {
      QuarantinesAreTold(cat, p, c);
    }
    Advance(d, cat, p, Promises(p.acks, cat.revision, p.marks, p.log), hash);
  }

  datatype Target = Target(node: NodeId, device: string, deviceEpoch: nat, floor: nat)

  class LocalChunkStore {
    const node: NodeId
    const device: string
    const deviceEpoch: nat
    const hash: Hash
    var disk: Disk
    var revision: nat
    var records: map<ChunkId, LocalRecord>
    ghost var acks: set<Acked>
    ghost var log: seq<StoreEvent>
    /** What was firm, and how many events had been told then. */
    ghost var marks: iset<Mark>
    /** Every disk state passed through. */
    ghost var trace: seq<Point>

    /** Promised at this moment. */
    ghost function Now(): Promises
      requires disk.walSynced <= |disk.wal|
      reads this
    {
      Promises(acks, Floor(disk), marks, log)
    }

    function Cat(): Catalog
      reads this
    {
      Catalog(revision, records)
    }

    ghost predicate Consistent()
      reads this
    {
      && disk.walSynced <= |disk.wal|
      && Keeps(disk, Now(), hash) && Honours(Cat(), Now(), false) && Ordered(Now()) && Settled(disk, Cat())
      && (forall i :: 0 <= i < |trace| ==> PointOk(trace[i], hash))
    }

    /** Every promise can be kept, and all that is firm now is remembered. */
    ghost predicate Valid()
      reads this
    {
      Consistent() && FirmMarks(disk, |log|) <= marks
    }

    /** Remembers what is firm now. */
    ghost method Remember()
      requires Consistent()
      modifies this`marks
      ensures Valid() && marks == old(marks) + FirmMarks(disk, |log|)
    {
      var p := Now();
      marks := marks + FirmMarks(disk, |log|);
      RememberKeeps(disk, Cat(), p, Now(), hash);
    }

    /** What is firm stays so while the log is left alone. */
    lemma StillMarked(d: Disk)
      requires Valid() && d.wal == disk.wal && d.walSynced == disk.walSynced && d.walNamed == disk.walNamed
      ensures FirmMarks(d, |log|) <= marks
    {
      forall m | m in FirmMarks(d, |log|) ensures m in marks { FirmIsOfTheLog(d, disk, m.chunk, m.revision); }
    }

    /** The record's file, as `verify_file` sees it. */
    predicate Verifies(chunk: ChunkObject)
      reads this
    {
      Shows(disk, chunk, hash)
    }

    /** Recorded as durable, and its name leads to its bytes. */
    ghost predicate Durably(chunk: ChunkObject)
      reads this
    {
      && chunk.id in records && records[chunk.id].chunk == chunk && records[chunk.id].state == Durable
      && Verifies(chunk)
    }

    ghost predicate Ready(chunk: ChunkObject, installed: seq<ChunkObject>)
      reads this
    {
      ReadyIn(disk, records, chunk, installed, hash)
    }

    ghost predicate AllReady(chunks: seq<ChunkObject>, installed: seq<ChunkObject>)
      reads this
    {
      ReadyAll(disk, records, chunks, installed, hash)
    }

    lemma AckedIsRecorded(a: Acked)
      requires Valid() && a in acks
      ensures Vouches(Cat(), a) && Verifies(a.chunk)
    {
      KeptIsIntact(disk, Now(), a, hash);
    }

    lemma IdsMatch()
      requires Valid()
      ensures forall c :: c in records ==> records[c].chunk.id == c
    {
      forall c | c in records ensures records[c].chunk.id == c { assert Told(Cat(), Now(), false, c); }
    }

    /** Starts with an empty disk. */
    constructor (node: NodeId, device: string, deviceEpoch: nat, hash: Hash)
      ensures Valid() && this.hash == hash && this.node == node && this.device == device
      ensures this.deviceEpoch == deviceEpoch
      ensures records == map[] && revision == 0 && acks == {} && log == [] && trace == []
      ensures marks == FirmMarks(disk, 0)
      ensures disk == Disk(map[], 0, map[], map[], {}, [], 0, false)
    {
      this.node, this.device, this.deviceEpoch, this.hash := node, device, deviceEpoch, hash;
      disk := Disk(map[], 0, map[], map[], {}, [], 0, false);
      revision, records, acks, log, marks, trace := 0, map[], {}, [], iset{}, [];
      new;
      Remember();
    }

    /** One primitive step on files or names, remembered as a point where an interruption may strike. */
    method Step(d: Disk)
      requires Valid() && Keeps(d, Now(), hash)
      requires d.wal == disk.wal && d.walSynced == disk.walSynced && d.walNamed == disk.walNamed
      modifies this`disk, this`trace
      ensures Valid() && disk == d && Now() == old(Now()) && trace == old(trace) + [Point(d, Now())]
    {
      StillMarked(d);
      disk := d;
      trace := trace + [Point(d, Now())];
    }

    /** Writes a staging file and syncs it. */
    method StageFile(bytes: seq<Byte>) returns (f: FileNo)
      requires Valid()
      modifies this`disk, this`trace
      ensures Valid() && old(trace) <= trace
      ensures f !in old(disk.inodes)
      ensures disk == old(disk).(inodes := old(disk.inodes)[f := Inode(bytes, true)], nextFile := f + 1)
    {
      f := disk.nextFile;
      ghost var p := Now();
      CreateKeeps(disk, p, hash);
      Step(CreateFile(disk));
      TouchKeeps(disk, f, Inode(bytes, false), p, hash);
      Step(WriteFile(disk, f, bytes));
      TouchKeeps(disk, f, Inode(bytes, true), p, hash);
      Step(SyncFile(disk, f));
    }

    /** Writes a staging file, syncs it, and gives it the chunk's name unless a file already has it. */
    method InstallFile(x: Staged, replace: bool) returns (ok: bool)
      requires Valid() && Genuine(x, hash) && (x.chunk.id in records ==> records[x.chunk.id].chunk == x.chunk)
      modifies this`disk, this`trace
      ensures Valid() && old(trace) <= trace && FilesStay(old(disk), disk)
      ensures ok ==> x.chunk.id in disk.names && Solid(disk, disk.names[x.chunk.id], x.chunk, hash)
      ensures ok <==> replace || x.chunk.id !in old(disk.names) || old(Verifies(x.chunk))
      ensures forall c :: c in disk.names && c != x.chunk.id ==> c in old(disk.names)
      ensures forall c :: c in old(disk.names) && (c != x.chunk.id || !replace)
                          ==> c in disk.names && disk.names[c] == old(disk.names)[c]
      ensures disk == old(disk).(inodes := disk.inodes, nextFile := disk.nextFile, names := disk.names,
                                 pending := disk.pending)
      ensures !ok ==> disk.names == old(disk.names)
    {
      var c := x.chunk.id;
      if c in disk.names { assert NameOk(disk, c); }
      var f := StageFile(x.bytes);
      if !replace && c in disk.names {
        assert NameOk(disk, c);
        return Intact(disk, disk.names[c], x.chunk, hash);
      }
      forall a | a in acks && a.chunk.id == c ensures a.chunk == x.chunk { AckedIsRecorded(a); }
      PublishKeeps(disk, x.chunk, f, Now(), hash);
      Step(Publish(disk, c, f));
      return true;
    }

    /** Appends one transaction to the catalog: write, sync the log, sync its directory. */
    method AppendCatalogTxn(line: WalLine)
      requires Valid() && ReplayLine(Cat(), line).Some? && Honours(ReplayLine(Cat(), line).value, Now(), true)
      requires Extends(Cat(), ReplayLine(Cat(), line).value)
      modifies this`disk, this`trace
      ensures disk == old(disk).(wal := old(disk.wal) + [line], walSynced := |old(disk.wal)| + 1, walNamed := true)
      ensures Keeps(disk, old(Now()), hash) && Settled(disk, ReplayLine(Cat(), line).value)
      ensures old(trace) <= trace && forall i :: 0 <= i < |trace| ==> PointOk(trace[i], hash)
      ensures Point(Unsynced(disk, old(disk)), old(Now())) in trace
    {
      ghost var p := Now();
      ghost var start := trace;
      AppendKeeps(disk, Cat(), line, p, hash);
      disk := AppendLine(disk, line);
      ghost var first := Point(disk, p);
      SyncLogKeeps(disk, p, hash);
      disk := SyncLog(disk);
      ghost var second := Point(disk, p);
      SyncLogKeeps(disk, p, hash);
      disk := SyncRoot(disk);
      trace := start + [first, second, Point(disk, p)];
      assert trace[|start|] == first;
    }

    /** Makes the directory and then the catalog durable for the installed chunks. */
    method CommitInstalled(chunks: seq<ChunkObject>)
      requires Valid() && AllReady(chunks, chunks)
      modifies this`disk, this`trace, this`revision, this`records, this`marks
      ensures old(marks) <= marks
      ensures Valid() && old(trace) <= trace && revision == SatAdd64(old(revision), 1) >= old(revision)
      ensures records == Entered(old(records), RecordsOf(chunks, Durable, revision), |chunks|)
      ensures disk.durable == disk.names == old(disk.names) && disk.inodes == old(disk.inodes) && Calm(disk)
      ensures old(disk.wal) <= disk.wal && |disk.wal| == |old(disk.wal)| + 1
      ensures Point(Unsynced(disk, old(disk)), old(Now())) in trace
    {
      SyncDirectoryKeeps(disk, Now(), hash);
      Step(SyncDirectory(disk));
      EnterDurable(chunks);
    }

    /** Enters chunks that are in place into the catalog, at the next revision. */
    method EnterDurable(chunks: seq<ChunkObject>)
      requires Valid() && AllReady(chunks, chunks)
      modifies this`disk, this`trace, this`revision, this`records, this`marks
      ensures Valid() && old(trace) <= trace && old(marks) <= marks && Synced(disk) && OneLineMore(old(disk), disk)
      ensures revision == SatAdd64(old(revision), 1) >= old(revision)
      ensures records == Entered(old(records), RecordsOf(chunks, Durable, revision), |chunks|)
      ensures disk == old(disk).(wal := disk.wal, walSynced := disk.walSynced, walNamed := disk.walNamed)
      ensures Point(Unsynced(disk, old(disk)), old(Now())) in trace
    {
      ghost var p, cat := Now(), Cat();
      var next := SatAdd64(revision, 1);
      var line := Txn(next, RecordsOf(chunks, Durable, next));
      CanEnter(chunks);
      AppendCatalogTxn(line);
      revision := next;
      records := Entered(records, line.records, |line.records|);
      HoldEntered(cat, p);
    }

    /** Once the transaction is synced, its revision is held and remembered as firm. */
    ghost method HoldEntered(was: Catalog, p: Promises)
      requires Keeps(disk, p, hash) && Settled(disk, Cat()) && Synced(disk) && Ordered(p) && Honours(Cat(), p, false)
      requires p == Promises(acks, p.floor, marks, log) && p.floor <= was.revision <= revision
      requires forall i :: 0 <= i < |trace| ==> PointOk(trace[i], hash)
      modifies this`marks
      ensures Valid() && old(marks) <= marks
    {
      EnteredIsHeld(disk, was, Cat(), p, hash);
      Remember();
    }

    /** A transaction of ready chunks keeps every promise. */
    lemma CanEnter(chunks: seq<ChunkObject>)
      requires Valid() && ReadyAll(disk, records, chunks, chunks, hash)
      ensures var next := SatAdd64(revision, 1); var line := Txn(next, RecordsOf(chunks, Durable, next));
        && next >= revision && ReplayLine(Cat(), line).Some?
        && Honours(ReplayLine(Cat(), line).value, Now(), false) && Honours(ReplayLine(Cat(), line).value, Now(), true)
        && Extends(Cat(), ReplayLine(Cat(), line).value)
    {
      ReplayRises(disk.wal, 0, |disk.wal|);
      var next := SatAdd64(revision, 1);
      DurableHonours(Cat(), chunks, next, Now());
      Lenient(ReplayLine(Cat(), Txn(next, RecordsOf(chunks, Durable, next))).value, Now(), true);
    }

    /** One batch item: skipped if its recorded file verifies, replaced if not, linked if unrecorded. */
    method PersistItem(item: Staged, done: seq<ChunkObject>) returns (ok: bool, installed: seq<ChunkObject>)
      requires Valid() && Genuine(item, hash) && AllReady(done, done)
      modifies this`disk, this`trace
      ensures Valid() && old(trace) <= trace && ItemDone(old(disk), disk, records, item.chunk, done, installed, hash)
      ensures ok <==> old(ItemFits(disk, records, item.chunk, hash))
      ensures ok ==> Ready(item.chunk, installed) && (installed == [] ==> done == [] && disk == old(disk))
      ensures old(Durably(item.chunk)) ==> disk == old(disk) && installed == done
    {
      installed := done;
      var replace := false;
      if item.chunk.id in records {
        var existing := records[item.chunk.id];
        if existing.chunk != item.chunk { return false, installed; }
        if existing.state == Quarantined {
          replace := true;
        } else if Verifies(item.chunk) {
          assert NameOk(disk, item.chunk.id);
          return true, installed;
        } else {
          replace := true;
        }
      }
      ghost var d := disk;
      ok := InstallFile(item, replace);
      if ok && item.chunk !in installed { installed := installed + [item.chunk]; }
      InstalledIsDone(d, disk, records, item.chunk, done, installed, replace, hash);
    }

    /** Installs every item, in order, up to the first error. */
    method InstallAll(staged: seq<Staged>, broken: nat) returns (installed: Option<seq<ChunkObject>>)
      requires Valid() && forall i :: 0 <= i < |staged| ==> Genuine(staged[i], hash)
      modifies this`disk, this`trace
      ensures Valid() && old(trace) <= trace && Stopped(old(disk), disk, records, staged, broken, hash)
      ensures installed.Some? <==> broken >= |staged| && AllFit(old(disk), records, staged, |staged|, hash)
      ensures installed.Some? ==> Progress(old(disk), disk, records, staged, |staged|, installed.value, hash)
      ensures installed == Some([]) ==> disk == old(disk)
      ensures installed.Some? && old(AllDurably(staged)) ==> installed == Some([])
    {
      var done: seq<ChunkObject> := [];
      ghost var d := disk;
      ProgressStarts(d, records, staged, hash);
      for i := 0 to |staged|
        invariant Valid() && old(trace) <= trace && i <= broken
        invariant Progress(d, disk, records, staged, i, done, hash) && AllFit(d, records, staged, i, hash)
        invariant done == [] ==> disk == d
        invariant old(AllDurably(staged)) ==> done == []
      {
        if i == broken {
          StopsHere(d, disk, records, staged, i, done, broken, hash);
          return None;
        }
        FitsAtItsTurn(d, disk, records, staged, i, done, hash);
        ghost var before := disk;
        var ok, more := PersistItem(staged[i], done);
        if !ok {
          StopsAfter(d, before, disk, records, staged, i, done, more, broken, hash);
          return None;
        }
        ProgressNext(d, before, disk, records, staged, i, done, more, hash);
        done := more;
      }
      StopsHere(d, disk, records, staged, |staged|, done, broken, hash);
      return Some(done);
    }

    ghost predicate AllDurably(staged: seq<Staged>)
      reads this
    {
      forall i :: 0 <= i < |staged| ==> Durably(staged[i].chunk)
    }

    /** Every item with evidence becomes a promise; all are told. */
    ghost method TellAcks(chunks: seq<ChunkObject>)
      requires Valid() && AllDurable(chunks, records)
      modifies this`acks, this`log, this`marks
      ensures Valid() && log == old(log) + AckEvents(chunks, revision) && old(acks) <= acks && old(marks) <= marks
      ensures forall i :: 0 <= i < |chunks| ==>
                          (Acked(chunks[i], revision) in acks <==> Evidence(disk, Acked(chunks[i], revision), hash))
    {
      var p := Now();
      acks := acks
        + set i | 0 <= i < |chunks| && Evidence(disk, Acked(chunks[i], revision), hash) :: Acked(chunks[i], revision);
      log := log + AckEvents(chunks, revision);
      TellingKeepsOrder(p, Now(), AckEvents(chunks, revision));
      Acknowledge(disk, Cat(), p, Now(), hash);
      Remember();
      forall i | 0 <= i < |chunks| && Acked(chunks[i], revision) in acks
        ensures Evidence(disk, Acked(chunks[i], revision), hash)
      {
        KeptIsEvidence(disk, Now(), Acked(chunks[i], revision), hash);
      }
    }

    /** Ready items are durable once the installed ones are entered. */
    lemma EnteredDurably(was: map<ChunkId, LocalRecord>, chunks: seq<ChunkObject>, installed: seq<ChunkObject>)
      requires forall i :: 0 <= i < |chunks| ==> ReadyIn(disk, was, chunks[i], installed, hash)
      requires forall i :: 0 <= i < |installed| ==> ReadyIn(disk, was, installed[i], installed, hash)
      requires records == Entered(was, RecordsOf(installed, Durable, revision), |installed|)
      ensures forall i :: 0 <= i < |chunks| ==> Durably(chunks[i])
    {
      forall i | 0 <= i < |chunks| ensures Durably(chunks[i]) {
        EnteredHolds(was, RecordsOf(installed, Durable, revision), |installed|, chunks[i].id);
      }
    }

    /** Installs the batch and, if anything was installed, makes it durable behind the two barriers. */
    method MakeDurable(staged: seq<Staged>, broken: nat) returns (ok: bool)
      requires Valid() && forall i :: 0 <= i < |staged| ==> Genuine(staged[i], hash)
      modifies this`disk, this`trace, this`revision, this`records, this`marks
      ensures Valid() && old(trace) <= trace && revision >= old(revision) && FilesStay(old(disk), disk)
      ensures old(marks) <= marks
      ensures ok <==> broken >= |staged| && AllFit(old(disk), old(records), staged, |staged|, hash)
      ensures !ok ==> revision == old(revision) && records == old(records) && OnlyFiles(old(disk), disk)
      ensures FitsShown(old(disk), old(records), disk, staged, broken, hash)
      ensures ok ==> AllDurably(staged)
      ensures ok ==> (disk == old(disk) && Cat() == old(Cat()))
                     || (Calm(disk) && revision == SatAdd64(old(revision), 1) && OneLineMore(old(disk), disk)
                         && Point(Unsynced(disk, old(disk)), old(Now())) in trace)
      ensures OnlyStaged(old(records), records, staged) && NewNamesStaged(old(disk), disk, staged)
      ensures ok && old(AllDurably(staged)) ==> disk == old(disk) && Cat() == old(Cat())
    {
      var installed := InstallAll(staged, broken);
      if installed.None? { return false; }
      if installed.value != [] {
        ghost var d := disk;
        CommitBatch(staged, installed.value, old(disk));
        assert Unsynced(disk, d) == Unsynced(disk, old(disk));
      }
      return true;
    }

    /** The barriers of a batch of which something was installed. */
    method CommitBatch(staged: seq<Staged>, installed: seq<ChunkObject>, ghost start: Disk)
      requires Valid() && Progress(start, disk, records, staged, |staged|, installed, hash)
      modifies this`disk, this`trace, this`revision, this`records, this`marks
      ensures Valid() && old(trace) <= trace && old(marks) <= marks
      ensures revision == SatAdd64(old(revision), 1) >= old(revision)
      ensures AllDurably(staged) && OnlyStaged(old(records), records, staged)
      ensures disk.names == old(disk.names) && disk.inodes == old(disk.inodes) && Calm(disk)
      ensures OneLineMore(old(disk), disk) && Point(Unsynced(disk, old(disk)), old(Now())) in trace
    {
      ghost var was := records;
      CommitInstalled(installed);
      EnteredDurably(was, Chunks(staged), installed);
      EnteredOnlyStaged(was, RecordsOf(installed, Durable, revision), staged);
      assert forall i :: 0 <= i < |staged| ==> Chunks(staged)[i] == staged[i].chunk;
    }

    predicate Addressed(target: Target)
      reads this
    {
      target == Target(node, device, deviceEpoch, target.floor) && revision >= target.floor
    }

    /**
     Installs a batch and acknowledges it.  `broken` is the item at which an
     input or output error ends the call, if it is below the batch's length.
     */
    method PersistBatch(staged: seq<Staged>, target: Target, broken: nat) returns (ack: Option<nat>)
      requires Valid() && forall i :: 0 <= i < |staged| ==> Genuine(staged[i], hash)
      modifies this
      ensures Valid() && old(trace) <= trace && old(acks) <= acks && old(marks) <= marks && FilesStay(old(disk), disk)
      ensures ack.Some? <==> old(Addressed(target)) && broken >= |staged|
                             && AllFit(old(disk), old(records), staged, |staged|, hash)
      ensures ack.Some? ==> ack.value == revision >= old(revision) && AllDurably(staged)
      ensures ack.Some? ==> log == old(log) + AckEvents(Chunks(staged), revision)
      ensures ack.Some? ==> forall i :: 0 <= i < |staged| ==>
                (Acked(staged[i].chunk, revision) in acks <==> Evidence(disk, Acked(staged[i].chunk, revision), hash))
      ensures ack.Some? && Calm(disk) ==> forall i :: 0 <= i < |staged| ==> Acked(staged[i].chunk, revision) in acks
      ensures ack.Some? && Calm(disk) ==> forall i :: 0 <= i < |staged| ==> Firm(disk, staged[i].chunk.id, revision)
      ensures ack.Some? ==> (disk == old(disk) && Cat() == old(Cat()))
                            || (Calm(disk) && revision == SatAdd64(old(revision), 1) && OneLineMore(old(disk), disk)
                                && Point(Unsynced(disk, old(disk)), old(Now())) in trace)
      ensures OnlyStaged(old(records), records, staged) && NewNamesStaged(old(disk), disk, staged)
      ensures ack.Some? && old(AllDurably(staged)) ==> disk == old(disk) && Cat() == old(Cat())
      ensures ack.None? ==> Cat() == old(Cat()) && acks == old(acks) && log == old(log) && OnlyFiles(old(disk), disk)
      ensures old(Addressed(target)) ==> FitsShown(old(disk), old(records), disk, staged, broken, hash)
    {
      if target.node != node || target.device != device || target.deviceEpoch != deviceEpoch { return None; }
      if revision < target.floor { return None; }
      var ok := MakeDurable(staged, broken);
      if !ok { return None; }
      TellAcks(Chunks(staged));
      if Calm(disk) { AllEvident(staged); }
      return Some(revision);
    }

    /** With nothing unsynced, what is recorded and verifies has evidence, and its revision is firm. */
    lemma AllEvident(staged: seq<Staged>)
      requires Valid() && Calm(disk) && AllDurably(staged)
      ensures forall i :: 0 <= i < |staged| ==> Evidence(disk, Acked(staged[i].chunk, revision), hash)
      ensures forall i :: 0 <= i < |staged| ==> Firm(disk, staged[i].chunk.id, revision)
    {
      forall i | 0 <= i < |staged| ensures Evidence(disk, Acked(staged[i].chunk, revision), hash) {
        CalmIsEvidence(disk, Cat(), Acked(staged[i].chunk, revision), hash);
      }
      forall i | 0 <= i < |staged| ensures Firm(disk, staged[i].chunk.id, revision) {
        HeldIsFirm(disk, staged[i].chunk.id, revision);
      }
    }

    /** Marks damaged records at a new revision. */
    method QuarantineRecords(chunks: seq<ChunkObject>) returns (ok: bool)
      requires Valid()
      requires AllDurable(chunks, records)
      requires forall i :: 0 <= i < |chunks| ==> !Verifies(chunks[i])
      modifies this`disk, this`trace, this`revision, this`records, this`log, this`marks
      ensures Valid() && old(trace) <= trace && old(marks) <= marks
      ensures ok == (old(revision) < MAX64) && (!ok ==> unchanged(this))
      ensures ok ==> revision == old(revision) + 1 == Floor(disk)
      ensures ok ==> forall i :: 0 <= i < |chunks| ==> Firm(disk, chunks[i].id, revision)
      ensures ok ==> log == old(log) + QuarantineEvents(RecordsOf(chunks, Quarantined, revision), revision)
      ensures ok ==> records == Entered(old(records), RecordsOf(chunks, Quarantined, revision), |chunks|)
      ensures disk == old(disk).(wal := disk.wal, walSynced := disk.walSynced, walNamed := disk.walNamed)
    {
      if revision >= MAX64 { return false; }
      var next := revision + 1;
      var line := Txn(next, RecordsOf(chunks, Quarantined, next));
      forall i, a | 0 <= i < |chunks| && a in acks ensures a.chunk.id != chunks[i].id { AckedIsRecorded(a); }
      ghost var p := Now();
      ghost var cat := Cat();
      QuarantineHonours(cat, chunks, next, p);
      AppendCatalogTxn(line);
      revision := next;
      records := Entered(records, line.records, |line.records|);
      log := log + QuarantineEvents(line.records, next);
      QuarantinedIsHeld(disk, cat, Cat(), line.records, p, hash);
      Remember();
      forall i | 0 <= i < |chunks| ensures Firm(disk, chunks[i].id, revision) {
        HeldIsFirm(disk, chunks[i].id, revision);
      }
      return true;
    }

    /** Rechecks the file now under the chunk's name, and quarantines the record only if that fails. */
    method QuarantineIfInvalid(c: ChunkId) returns (ok: bool)
      requires Valid()
      modifies this`disk, this`trace, this`revision, this`records, this`log, this`marks
      ensures Valid() && old(trace) <= trace && old(marks) <= marks
      ensures old(c !in records || records[c].state == Quarantined || Verifies(records[c].chunk)) ==>
        ok && unchanged(this)
      ensures old(c in records && records[c].state == Durable && !Verifies(records[c].chunk))
              ==> ok == (old(revision) < MAX64)
                  && (ok ==> log == old(log) + [QuarantineEvent(c, old(revision) + 1)] && Firm(disk, c, revision)
                             && records == old(records)[c := Spoken(old(records)[c], old(revision) + 1)])
    {
      if c !in records || records[c].state == Quarantined { return true; }
      var chunk := records[c].chunk;
      IdsMatch();
      if Verifies(chunk) { return true; }
      ok := QuarantineRecords([chunk]);
      if ok {
        assert [chunk][0].id == c;
        ghost var rs := RecordsOf([chunk], Quarantined, revision);
        assert QuarantineEvents(rs, revision) == [QuarantineEvent(c, revision)];
        assert Entered(old(records), rs, 1) == Entered(old(records), rs, 0)[c := rs[0]];
      }
    }

    /** `open_verified`: a reader only for a recorded file that verifies; a file that fails is quarantined. */
    method OpenVerified(c: ChunkId) returns (r: Option<ChunkObject>)
      requires Valid()
      modifies this`disk, this`trace, this`revision, this`records, this`log, this`marks
      ensures Valid() && old(trace) <= trace && old(marks) <= marks
      ensures r.Some? <==> old(c in records && Durably(records[c].chunk))
      ensures r.Some? ==> unchanged(this) && r.value == records[c].chunk
      ensures r.None? && c in old(records) && old(revision) < MAX64 ==> c in records && records[c].state == Quarantined
    {
      IdsMatch();
      if c !in records || records[c].state != Durable { return None; }
      if Verifies(records[c].chunk) { return Some(records[c].chunk); }
      var quarantined := QuarantineIfInvalid(c);
      return None;
    }

    method FindDamaged() returns (damaged: seq<ChunkObject>)
      requires forall c :: c in records ==> records[c].chunk.id == c
      ensures forall i :: 0 <= i < |damaged| ==>
        && damaged[i].id in records && records[damaged[i].id].chunk == damaged[i]
        && Damaged(disk, records[damaged[i].id])
      ensures forall c :: c in records ==> (Damaged(disk, records[c]) <==> records[c].chunk in damaged)
    {
      var todo := records.Keys;
      damaged := [];
      while todo != {}
        invariant todo <= records.Keys
        invariant forall i :: 0 <= i < |damaged| ==>
          && damaged[i].id in records && records[damaged[i].id].chunk == damaged[i]
          && Damaged(disk, records[damaged[i].id])
        invariant forall c :: c in records && c !in todo && Damaged(disk, records[c]) ==> records[c].chunk in damaged
      {
        var c :| c in todo;
        todo := todo - {c};
        if Damaged(disk, records[c]) { damaged := damaged + [records[c].chunk]; }
      }
    }

    /** The pass over the catalog at open: quarantines exactly the records whose files are missing or short. */
    method Recover() returns (ok: bool)
      requires Valid()
      modifies this`disk, this`trace, this`revision, this`records, this`log, this`marks
      ensures Valid() && old(trace) <= trace && old(log) <= log && old(marks) <= marks && revision >= old(revision)
      ensures Floor(disk) >= old(Floor(disk))
      ensures ok <==> old(revision) < MAX64 || !AnyDamaged(old(disk), old(records))
      ensures ok ==> records.Keys == old(records.Keys)
      ensures ok ==> forall c :: c in records ==> records[c] == Checked(old(disk), old(records)[c], revision)
      ensures !ok || !AnyDamaged(old(disk), old(records)) ==> unchanged(this)
      ensures disk == old(disk).(wal := disk.wal, walSynced := disk.walSynced, walNamed := disk.walNamed)
    {
      IdsMatch();
      var damaged := FindDamaged();
      if damaged == [] { return true; }
      assert Damaged(disk, records[damaged[0].id]);
      FloorRises(disk, Cat(), Now(), hash);
      ghost var was := records;
      ok := QuarantineRecords(damaged);
      if ok { QuarantinedExactly(was, damaged); }
    }

    lemma QuarantinedExactly(was: map<ChunkId, LocalRecord>, damaged: seq<ChunkObject>)
      requires forall c :: c in was ==> was[c].chunk.id == c
      requires forall i :: 0 <= i < |damaged| ==> damaged[i].id in was && was[damaged[i].id].chunk == damaged[i]
      requires records == Entered(was, RecordsOf(damaged, Quarantined, revision), |damaged|)
      ensures records.Keys == was.Keys
      ensures forall c :: c in was ==>
        records[c] == if was[c].chunk in damaged then Spoken(was[c], revision) else was[c]
    {
      var rs := RecordsOf(damaged, Quarantined, revision);
      forall c ensures c in records <==> c in was { EnteredHolds(was, rs, |rs|, c); }
      forall c | c in was
        ensures records[c] == if was[c].chunk in damaged then Spoken(was[c], revision) else was[c]
      {
        EnteredHolds(was, rs, |rs|, c);
        if was[c].chunk in damaged {
          var i :| 0 <= i < |damaged| && damaged[i] == was[c].chunk;
          assert rs[i].chunk.id == c;
        }
      }
    }

    /** Replays the log of the disk a kill or a power loss left, at any point of an earlier store's life. */
    constructor Reopen(ghost x: Point, e: Disk, node: NodeId, device: string, deviceEpoch: nat, hash: Hash)
      requires PointOk(x, hash) && Interrupted(x.disk, e) && Replay(e.wal, |e.wal|).Some?
      ensures Valid() && disk == e && Some(Cat()) == Replay(e.wal, |e.wal|) && trace == []
      ensures this.hash == hash && this.node == node && this.device == device && this.deviceEpoch == deviceEpoch
      ensures acks == x.promises.acks && x.promises.log <= log && Floor(disk) >= x.promises.floor
      ensures x.promises.marks <= marks
      ensures forall a :: a in acks ==> Durably(a.chunk)
    {
      this.node, this.device, this.deviceEpoch, this.hash := node, device, deviceEpoch, hash;
      var cat := RecoverCatalog(e.wal);
      disk, revision, records, trace := e, cat.value.revision, cat.value.records, [];
      InterruptionKeeps(x.disk, e, x.promises, hash);
      ResumedKeeps(e, cat.value, x.promises, hash);
      acks, log, marks := x.promises.acks, Resumed(e, cat.value, x.promises).log, x.promises.marks;
      new;
      Remember();
    }

    /**
     `open`: replay and then the pass over the records.  It fails only if the log
     does not replay or no revision is left for a quarantine; otherwise every
     acknowledged chunk is there and every durable record has a file of its length.
     */
    static method Open(ghost x: Point, e: Disk, node: NodeId, device: string, deviceEpoch: nat, hash: Hash)
      returns (store: Option<LocalChunkStore>)
      requires PointOk(x, hash) && Interrupted(x.disk, e)
      ensures store.Some? <==> CanOpen(e)
      ensures store.Some? ==> fresh(store.value) && store.value.Valid() && store.value.hash == hash
      ensures store.Some? ==> store.value.node == node && store.value.device == device
      ensures store.Some? ==> store.value.deviceEpoch == deviceEpoch
      ensures store.Some? && !AnyDamaged(e, Replay(e.wal, |e.wal|).value.records)
              ==> store.value.disk == e && Some(store.value.Cat()) == Replay(e.wal, |e.wal|)
      ensures store.Some? ==> store.value.acks == x.promises.acks && x.promises.log <= store.value.log
      ensures store.Some? ==> Floor(store.value.disk) >= x.promises.floor && x.promises.marks <= store.value.marks
      ensures store.Some? ==> forall a :: a in store.value.acks
                                          ==> store.value.Durably(a.chunk) && store.value.revision >= a.revision
      ensures store.Some? ==> forall c :: c in store.value.records && store.value.records[c].state == Durable
                                          ==> HasLength(store.value.disk, store.value.records[c].chunk)
    {
      var cat := RecoverCatalog(e.wal);
      if cat.None? { return None; }
      var made := new LocalChunkStore.Reopen(x, e, node, device, deviceEpoch, hash);
      var ok := made.Recover();
      if !ok { return None; }
      forall a | a in made.acks ensures made.Durably(a.chunk) && made.revision >= a.revision {
        made.AckedIsRecorded(a);
      }
      return Some(made);
    }

    /**
     Anything that happens to the chunk files and their names outside the
     store's control.  Only acknowledgements whose bytes it leaves are kept.
     */
    method Decay(d: Disk)
      requires Valid() && DiskOk(d)
      requires d.wal == disk.wal && d.walSynced == disk.walSynced && d.walNamed == disk.walNamed
      modifies this`disk, this`acks, this`trace
      ensures Valid() && disk == d && old(trace) <= trace
      ensures forall a :: a in acks <==> a in old(acks) && Bound(d, a.chunk, hash)
    {
      ghost var p := Now();
      forall n: nat | Survives(d, n) ensures LogKeeps(d.wal, n, p) { assert Survives(disk, n); }
      acks := set a | a in acks && Bound(d, a.chunk, hash);
      FewerAcks(d, Cat(), p, Promises(acks, p.floor, marks, log), hash);
      StillMarked(d);
      disk := d;
      trace := trace + [Point(d, Now())];
    }

    // ---------------------------------------------------------------- theorems

    /**
     At every point passed through, every kill or power loss that the store opens
     again after leaves every acknowledged chunk recorded and intact, at no lower
     revision.
     */
    lemma AcksSurviveInterruptions(x: Point, e: Disk, a: Acked)
      requires Valid() && (x in trace || x == Point(disk, Now()))
      requires Interrupted(x.disk, e) && Replay(e.wal, |e.wal|).Some? && a in x.promises.acks
      ensures Recovered(e, a, hash)
    {
      InterruptionKeeps(x.disk, e, x.promises, hash);
    }

    /** Exactly when what would be acknowledged now could be lost. */
    lemma AckIsSafeExactly(a: Acked)
      requires Valid()
      ensures CanBeLost(disk, a, hash) <==> !Evidence(disk, a, hash)
    {
      EvidenceIsExact(disk, a, hash);
    }

    /** Exactly which revisions a power loss could take back, to be used again: those above the held one. */
    lemma RevisionIsHeldExactly(r: nat)
      requires Valid()
      ensures CanFallBelow(disk, r) <==> r > Floor(disk)
    {
      FloorIsExact(disk, r);
    }

    /** Exactly when an interruption could leave the chunk's reach below `r`. */
    lemma RevisionIsFirmExactly(c: ChunkId, r: nat)
      requires Valid()
      ensures CanBeOvertaken(disk, c, r) <==> !Firm(disk, c, r)
    {
      FirmIsExact(disk, c, r);
    }

    /** After event `i` was told, and before event `j` was, its revision was firm for its chunk. */
    ghost predicate FirmBetween(i: nat, j: nat)
      requires i < |log|
      reads this
    {
      exists told :: i < told <= j && Mark(log[i].chunk, log[i].revision, told) in marks
    }

    /**
     A quarantined record was told, and an acknowledgement of its chunk is below it
     exactly if it came first, whenever the earlier of the two was firm before the
     later one.
     */
    lemma QuarantineRevisionSeparates(c: ChunkId) returns (at: nat)
      requires Valid() && c in records && records[c].state == Quarantined
      ensures at < |log| && IsQuarantine(log[at], c, records[c].revision)
      ensures forall p :: 0 <= p < |log| && log[p].AckEvent? && log[p].chunk == c
                          && (FirmBetween(p, at) || FirmBetween(at, p))
                          ==> (log[p].revision < records[c].revision <==> p < at)
    {
      QuarantinesAreTold(Cat(), Now(), c);
      at :| at < |log| && IsQuarantine(log[at], c, records[c].revision);
    }
  }

  // ------------------------------------------------------------------- for the class

  function Spoken(r: LocalRecord, revision: nat): LocalRecord { LocalRecord(r.chunk, Quarantined, revision) }

  /** A durable record whose file is missing or has the wrong length. */
  predicate Damaged(d: Disk, r: LocalRecord) { r.state == Durable && !HasLength(d, r.chunk) }

  ghost predicate AnyDamaged(d: Disk, records: map<ChunkId, LocalRecord>)
  {
    exists c :: c in records && Damaged(d, records[c])
  }

  function Checked(d: Disk, r: LocalRecord, revision: nat): LocalRecord
  {
    if Damaged(d, r) then Spoken(r, revision) else r
  }

  predicate HasLength(d: Disk, chunk: ChunkObject)
  {
    chunk.id in d.names && d.names[chunk.id] in d.inodes && |d.inodes[d.names[chunk.id]].data| == chunk.length
  }

  /** The log replays, and a quarantine has a revision left if one is needed. */
  ghost predicate CanOpen(e: Disk)
  {
    var cat := Replay(e.wal, |e.wal|);
    cat.Some? && (cat.value.revision < MAX64 || !AnyDamaged(e, cat.value.records))
  }

  /** Quarantine records, once synced, are held and told. */
  lemma {:induction false} QuarantinedIsHeld(d: Disk, was: Catalog, cat: Catalog, rs: seq<LocalRecord>, p: Promises,
                                             hash: Hash)
    requires Keeps(d, p, hash) && Settled(d, cat) && Synced(d) && Ordered(p) && Honours(was, p, false)
    requires was.revision < cat.revision && cat.records == Entered(was.records, rs, |rs|)
    requires forall i :: 0 <= i < |rs| ==> rs[i].revision == cat.revision && Reach(was, rs[i].chunk.id) == was.revision
    ensures var q := Promises(p.acks, cat.revision, p.marks, p.log + QuarantineEvents(rs, cat.revision));
      Keeps(d, q, hash) && Honours(cat, q, false) && Ordered(q) && Floor(d) == cat.revision
  {
    var es := QuarantineEvents(rs, cat.revision);
    var q := Promises(p.acks, cat.revision, p.marks, p.log + es);
    TellingKeepsOrder(p, q, es);
    forall c | c in cat.records && cat.records[c].state == Quarantined
      ensures Tells(p.log + es, c, cat.records[c].revision)
    {
      EnteredHolds(was.records, rs, |rs|, c);
      if i :| 0 <= i < |rs| && rs[i].chunk.id == c && cat.records[c] == rs[i] {
        assert IsQuarantine(es[i], c, cat.revision);
      } else {
        QuarantinesAreTold(was, p, c);
      }
      TellsMore(p.log, es, c, cat.records[c].revision);
    }
    Advance(d, cat, p, q, hash);
  }

  lemma FewerAcks(d: Disk, cat: Catalog, p: Promises, q: Promises, hash: Hash)
    requires DiskOk(d) && (forall n: nat :: Survives(d, n) ==> LogKeeps(d.wal, n, p)) && Honours(cat, p, false)
    requires q.floor == p.floor && q.marks == p.marks && q.log == p.log
    requires forall a :: a in q.acks ==> a in p.acks && Bound(d, a.chunk, hash)
    ensures Keeps(d, q, hash) && Honours(cat, q, false)
  {
    forall n: nat | Survives(d, n) && Replay(d.wal, n).Some?
      ensures LogKeeps(d.wal, n, q)
    {
      assert LogKeeps(d.wal, n, p);
      FewerHonours(Replay(d.wal, n).value, p, q, n == |d.wal|);
    }
    FewerHonours(cat, p, q, false);
  }

  lemma FewerHonours(cat: Catalog, p: Promises, q: Promises, last: bool)
    requires Honours(cat, p, last) && q.floor == p.floor && q.marks == p.marks && q.log == p.log && q.acks <= p.acks
    ensures Honours(cat, q, last)
  {
    forall c | c in cat.records ensures cat.records[c].chunk.id == c && Told(cat, q, last, c) {
      assert Told(cat, p, last, c);
    }
  }
}
