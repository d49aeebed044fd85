/**
 The disk below the local chunk store (src/node/chunk.rs): file contents, the
 chunk directory and the catalog's write-ahead log, each with a durable and a
 volatile half, and what a kill or a power loss may leave of them.
 */
module ChunkDisk {
  import opened Records
  import VerifiedRead

  type FileNo = nat

  datatype Inode = Inode(data: seq<Byte>, synced: bool)

  datatype LocalState = Durable | Quarantined

  datatype LocalRecord = LocalRecord(chunk: ChunkObject, state: LocalState, revision: nat)

  /** A line of the log: a transaction, or bytes that do not decode or fail their checksum. */
  datatype WalLine = Txn(revision: nat, records: seq<LocalRecord>) | Torn

  /**
   `names` is the chunk directory as processes see it, `durable` as of its last
   sync; `pending` holds the bindings made since, any of which a power loss may keep.
   The store never removes a name.  `wal[..walSynced]` is durable once `walNamed`.
   */
  datatype Disk = Disk(
    inodes: map<FileNo, Inode>,
    nextFile: FileNo,
    names: map<ChunkId, FileNo>,
    durable: map<ChunkId, FileNo>,
    pending: set<(ChunkId, FileNo)>,
    wal: seq<WalLine>,
    walSynced: nat,
    walNamed: bool)

  // ----------------------------------------------------------- primitive steps

  function CreateFile(d: Disk): Disk
  {
    d.(inodes := d.inodes[d.nextFile := Inode([], false)], nextFile := d.nextFile + 1)
  }

  function WriteFile(d: Disk, f: FileNo, data: seq<Byte>): Disk { d.(inodes := d.inodes[f := Inode(data, false)]) }

  function SyncFile(d: Disk, f: FileNo): Disk
    requires f in d.inodes
  {
    d.(inodes := d.inodes[f := d.inodes[f].(synced := true)])
  }

  /** A rename or hard link into the chunk directory. */
  function Publish(d: Disk, c: ChunkId, f: FileNo): Disk
  {
    d.(names := d.names[c := f], pending := d.pending + {(c, f)})
  }

  function SyncDirectory(d: Disk): Disk { d.(durable := d.names, pending := {}) }

  function AppendLine(d: Disk, line: WalLine): Disk { d.(wal := d.wal + [line]) }

  function SyncLog(d: Disk): Disk { d.(walSynced := |d.wal|) }

  function SyncRoot(d: Disk): Disk { d.(walNamed := true) }

  // -------------------------------------------------------------- interruptions

  /** The first `n` lines of the log may be what a power loss leaves of it. */
  predicate Survives(d: Disk, n: nat)
  {
    n <= |d.wal| && (d.walSynced <= n || (!d.walNamed && n == 0))
  }

  /** What a power loss may leave of the log: some surviving lines, and perhaps a torn one. */
  ghost predicate LogImage(d: Disk, w: seq<WalLine>)
  {
    exists n: nat :: Survives(d, n) && (w == d.wal[..n] || (n < |d.wal| && w == d.wal[..n] + [Torn]))
  }

  /** A name is bound as it was at the last directory sync, or in any way it was bound since. */
  ghost predicate NameImage(d: Disk, e: Disk, c: ChunkId)
  {
    && (c in d.durable ==> c in e.names)
    && (c in e.names ==> (c in d.durable && e.names[c] == d.durable[c]) || (c, e.names[c]) in d.pending)
  }

  ghost predicate FilesKept(d: Disk, e: Disk, f: FileNo)
    requires f in d.inodes && f in e.inodes
  {
    e.inodes[f].synced && (d.inodes[f].synced ==> e.inodes[f].data == d.inodes[f].data)
  }

  /** `e` is a disk found after a power loss: unsynced files hold anything, and all that is found is durable. */
  ghost predicate PowerLoss(d: Disk, e: Disk)
  {
    && e.inodes.Keys == d.inodes.Keys && e.nextFile == d.nextFile
    && (forall f {:trigger FilesKept(d, e, f)} :: f in d.inodes ==> FilesKept(d, e, f))
    && (forall c {:trigger NameImage(d, e, c)} :: NameImage(d, e, c))
    && e.durable == e.names && e.pending == {}
    && LogImage(d, e.wal) && e.walSynced == |e.wal| && e.walNamed
  }

  /** A killed process leaves the disk as it is, unsynced halves unsynced, and perhaps half a line written. */
  ghost predicate Killed(d: Disk, e: Disk) { e == d || e == AppendLine(d, Torn) }

  ghost predicate Interrupted(d: Disk, e: Disk) { Killed(d, e) || PowerLoss(d, e) }

  // --------------------------------------------------------------------- replay

  datatype Catalog = Catalog(revision: nat, records: map<ChunkId, LocalRecord>)

  predicate AllAt(rs: seq<LocalRecord>, revision: nat)
  {
    forall i :: 0 <= i < |rs| ==> rs[i].revision == revision
  }

  function Entered(m: map<ChunkId, LocalRecord>, rs: seq<LocalRecord>, n: nat): map<ChunkId, LocalRecord>
    requires n <= |rs|
  {
    if n == 0 then m else Entered(m, rs, n - 1)[rs[n - 1].chunk.id := rs[n - 1]]
  }

  /** A chunk's record after a transaction is one of its lines, or the one before. */
  lemma {:induction false} EnteredHolds(m: map<ChunkId, LocalRecord>, rs: seq<LocalRecord>, n: nat, c: ChunkId)
    requires n <= |rs|
    ensures c in Entered(m, rs, n) <==> c in m || exists i :: 0 <= i < n && rs[i].chunk.id == c
    ensures c in Entered(m, rs, n)
      ==> (exists i :: 0 <= i < n && rs[i].chunk.id == c && Entered(m, rs, n)[c] == rs[i])
          || (c in m && Entered(m, rs, n)[c] == m[c] && forall i :: 0 <= i < n ==> rs[i].chunk.id != c)
  {
    if n > 0 { EnteredHolds(m, rs, n - 1, c); }
  }

  /** One line onto a catalog. */
  function ReplayLine(cat: Catalog, line: WalLine): Option<Catalog>
  {
    if line.Torn? || line.revision != SatAdd64(cat.revision, 1) || !AllAt(line.records, line.revision) then None
    else Some(Catalog(line.revision, Entered(cat.records, line.records, |line.records|)))
  }

  function Replay(w: seq<WalLine>, n: nat): Option<Catalog>
    requires n <= |w|
  {
    if n == 0 then Some(Catalog(0, map[]))
    else
      match Replay(w, n - 1)
      case None => None
      case Some(cat) => ReplayLine(cat, w[n - 1])
  }

  /** `LocalCatalog::recover`: reads the log line by line and stops at the first bad one. */
  method RecoverCatalog(w: seq<WalLine>) returns (cat: Option<Catalog>)
    ensures cat == Replay(w, |w|)
  {
    var revision: nat := 0;
    var records: map<ChunkId, LocalRecord> := map[];
    for i := 0 to |w|
      invariant Replay(w, i) == Some(Catalog(revision, records))
    {
      var line := w[i];
      if line.Torn? {
        ReplayStops(w, i + 1);
        return None;
      }
      if line.revision != SatAdd64(revision, 1) {
        ReplayStops(w, i + 1);
        return None;
      }
      ghost var start := records;
      for j := 0 to |line.records|
        invariant AllAt(line.records[..j], line.revision)
        invariant records == Entered(start, line.records, j)
      {
        if line.records[j].revision != line.revision {
          assert !AllAt(line.records, line.revision);
          ReplayStops(w, i + 1);
          return None;
        }
        records := records[line.records[j].chunk.id := line.records[j]];
      }
      assert line.records[..|line.records|] == line.records;
      revision := line.revision;
    }
    return Some(Catalog(revision, records));
  }

  lemma {:induction false} ReplayStops(w: seq<WalLine>, n: nat)
    requires n <= |w| && Replay(w, n).None?
    ensures Replay(w, |w|).None?
    decreases |w| - n
  {
    if n < |w| { ReplayStops(w, n + 1); }
  }

  lemma {:induction false} ReplayPrefix(w: seq<WalLine>, v: seq<WalLine>, n: nat)
    requires n <= |w| && n <= |v| && w[..n] == v[..n]
    ensures Replay(w, n) == Replay(v, n)
  {
    if n > 0 {
      assert w[..n - 1] == w[..n][..n - 1] && v[..n - 1] == v[..n][..n - 1];
      assert w[n - 1] == w[..n][n - 1] && v[n - 1] == v[..n][n - 1];
      ReplayPrefix(w, v, n - 1);
    }
  }

  lemma LastIsTxn(w: seq<WalLine>)
    requires |w| > 0 && Replay(w, |w|).Some?
    ensures w[|w| - 1].Txn? && Replay(w, |w|).value.revision <= MAX64
  {
    assert ReplayLine(Replay(w, |w| - 1).value, w[|w| - 1]).Some?;
  }

  /** Every beginning of a log that replays does so too, and revisions never fall along it. */
  lemma {:induction false} ReplayRises(w: seq<WalLine>, n: nat, m: nat)
    requires n <= m <= |w| && Replay(w, m).Some?
    ensures Replay(w, n).Some? && Replay(w, n).value.revision <= Replay(w, m).value.revision <= MAX64
    decreases m
  {
    if n < m {
      ReplayRises(w, n, m - 1);
      assert ReplayLine(Replay(w, m - 1).value, w[m - 1]).Some?;
    }
  }

  /** A log that replays after a power loss replays as one of its surviving beginnings did. */
  lemma ReplayAfterLoss(d: Disk, e: Disk) returns (n: nat)
    requires PowerLoss(d, e) && Replay(e.wal, |e.wal|).Some?
    ensures Survives(d, n) && e.wal == d.wal[..n] && Replay(e.wal, |e.wal|) == Replay(d.wal, n)
  {
    n :| Survives(d, n) && (e.wal == d.wal[..n] || (n < |d.wal| && e.wal == d.wal[..n] + [Torn]));
    if |e.wal| > 0 { LastIsTxn(e.wal); }
    assert |e.wal| == n;
    ReplayPrefix(e.wal, d.wal, n);
  }

  /** A disk that a killed process left and that opens is the disk as it was. */
  lemma KilledIsSame(d: Disk, e: Disk)
    requires Killed(d, e) && Replay(e.wal, |e.wal|).Some?
    ensures e == d
  {
    if |e.wal| > 0 { LastIsTxn(e.wal); }
  }

  // ------------------------------------------------------------------- evidence

  /** `verify_file`: length and digest match. */
  predicate Intact(d: Disk, f: FileNo, chunk: ChunkObject, hash: Hash)
  {
    f in d.inodes && |d.inodes[f].data| == chunk.length && hash(d.inodes[f].data) == chunk.digest
  }

  /** Scanning a file that does not change finds out exactly whether it is intact. */
  lemma VerifyFindsIntact(d: Disk, f: FileNo, chunk: ChunkObject, hash: Hash, file: VerifiedRead.FileView)
    requires f in d.inodes && VerifiedRead.Stable(file, d.inodes[f].data)
    ensures VerifiedRead.Verdict(file, chunk, hash).Good? <==> Intact(d, f, chunk, hash)
  {
    VerifiedRead.VerifyIsExact(file, d.inodes[f].data, chunk, hash);
  }

  predicate Solid(d: Disk, f: FileNo, chunk: ChunkObject, hash: Hash)
  {
    Intact(d, f, chunk, hash) && d.inodes[f].synced
  }

  /** However the chunk's name may be bound after a power loss, it is bound to the chunk's bytes. */
  ghost predicate Bound(d: Disk, chunk: ChunkObject, hash: Hash)
  {
    && chunk.id in d.durable && Solid(d, d.durable[chunk.id], chunk, hash)
    && forall f :: (chunk.id, f) in d.pending ==> Solid(d, f, chunk, hash)
  }

  /** An acknowledgement of a chunk at a catalog revision. */
  datatype Acked = Acked(chunk: ChunkObject, revision: nat)

  ghost predicate Vouches(cat: Catalog, a: Acked)
  {
    && cat.revision >= a.revision
    && a.chunk.id in cat.records && cat.records[a.chunk.id].chunk == a.chunk && cat.records[a.chunk.id].state == Durable
  }

  ghost predicate LoggedAt(w: seq<WalLine>, n: nat, a: Acked)
    requires n <= |w|
  {
    Replay(w, n).Some? ==> Vouches(Replay(w, n).value, a)
  }

  /** Whatever part of the log survives, it records the chunk. */
  ghost predicate Logged(d: Disk, a: Acked)
  {
    forall n: nat :: Survives(d, n) ==> LoggedAt(d.wal, n, a)
  }

  ghost predicate Evidence(d: Disk, a: Acked, hash: Hash) { Bound(d, a.chunk, hash) && Logged(d, a) }

  /** What a successful reopen must find for an acknowledged chunk. */
  ghost predicate Recovered(e: Disk, a: Acked, hash: Hash)
  {
    && Replay(e.wal, |e.wal|).Some? && Vouches(Replay(e.wal, |e.wal|).value, a)
    && a.chunk.id in e.names && Intact(e, e.names[a.chunk.id], a.chunk, hash)
  }

  // ------------------------------------------------------------- disks in order

  /** The files of all bindings a power loss may keep exist. */
  ghost predicate NoDangling(d: Disk)
  {
    && (forall c :: c in d.durable ==> d.durable[c] in d.inodes)
    && (forall c, f :: (c, f) in d.pending ==> f in d.inodes)
    && d.walSynced <= |d.wal|
  }

  ghost predicate NameOk(d: Disk, c: ChunkId)
    requires c in d.names
  {
    && d.names[c] in d.inodes && d.inodes[d.names[c]].synced
    && ((c in d.durable && d.durable[c] == d.names[c]) || (c, d.names[c]) in d.pending)
  }

  /** Only synced files are ever named, and file numbers are not reused. */
  ghost predicate DiskOk(d: Disk)
  {
    && (forall f :: f in d.inodes ==> f < d.nextFile)
    && (forall c {:trigger NameOk(d, c)} :: c in d.names ==> NameOk(d, c))
    && (forall c :: c in d.durable ==> c in d.names)
    && NoDangling(d)
  }

  lemma InterruptedIsOk(d: Disk, e: Disk)
    requires DiskOk(d) && Interrupted(d, e) && Replay(e.wal, |e.wal|).Some?
    ensures DiskOk(e)
  {
    if Killed(d, e) {
      KilledIsSame(d, e);
    } else {
      forall c | c in e.names ensures NameOk(e, c) {
        assert NameImage(d, e, c);
        assert FilesKept(d, e, e.names[c]);
      }
    }
  }

  // --------------------------------------------------- what interruptions can lose

  lemma EvidenceSurvivesLoss(d: Disk, e: Disk, a: Acked, hash: Hash)
    requires Evidence(d, a, hash) && PowerLoss(d, e) && Replay(e.wal, |e.wal|).Some?
    ensures Recovered(e, a, hash) && Evidence(e, a, hash)
  {
    assert NameImage(d, e, a.chunk.id);
    assert FilesKept(d, e, e.names[a.chunk.id]);
    var n := ReplayAfterLoss(d, e);
    assert LoggedAt(d.wal, n, a);
    forall m: nat | Survives(e, m) ensures LoggedAt(e.wal, m, a) {}
  }

  /** Evidence on disk survives every kill and every power loss, and is evidence again. */
  lemma EvidenceSurvives(d: Disk, e: Disk, a: Acked, hash: Hash)
    requires DiskOk(d) && Evidence(d, a, hash) && Interrupted(d, e) && Replay(e.wal, |e.wal|).Some?
    ensures Recovered(e, a, hash) && Evidence(e, a, hash)
  {
    if Killed(d, e) {
      KilledIsSame(d, e);
      assert NameOk(d, a.chunk.id);
      assert Survives(d, |d.wal|) && LoggedAt(d.wal, |d.wal|, a);
    } else {
      EvidenceSurvivesLoss(d, e, a, hash);
    }
  }

  /** Some interruption that the store opens again after has lost the record, the bytes or the revision. */
  ghost predicate CanBeLost(d: Disk, a: Acked, hash: Hash)
  {
    exists e :: Interrupted(d, e) && Replay(e.wal, |e.wal|).Some? && !Recovered(e, a, hash)
  }

  lemma CanBeLostBy(d: Disk, e: Disk, a: Acked, hash: Hash)
    requires PowerLoss(d, e) && Replay(e.wal, |e.wal|).Some? && !Recovered(e, a, hash)
    ensures CanBeLost(d, a, hash)
  {
  }

  /** Exactly when no interruption can lose what was acknowledged: evidence. */
  lemma EvidenceIsExact(d: Disk, a: Acked, hash: Hash)
    requires DiskOk(d) && Replay(d.wal, |d.wal|).Some?
    ensures CanBeLost(d, a, hash) <==> !Evidence(d, a, hash)
  {
    if Evidence(d, a, hash) {
      forall e | Interrupted(d, e) && Replay(e.wal, |e.wal|).Some? ensures Recovered(e, a, hash) {
        EvidenceSurvives(d, e, a, hash);
      }
    } else if !Bound(d, a.chunk, hash) {
      var names := BadNames(d, a.chunk, hash);
      ImageIsLoss(d, names, |d.wal|, a.chunk, hash);
      CanBeLostBy(d, Image(d, names, |d.wal|, a.chunk), a, hash);
    } else {
      var n: nat :| Survives(d, n) && !LoggedAt(d.wal, n, a);
      ImageIsLoss(d, d.durable, n, a.chunk, hash);
      CanBeLostBy(d, Image(d, d.durable, n, a.chunk), a, hash);
    }
  }

  /** Names a power loss may leave that do not lead to the chunk's bytes. */
  lemma BadNames(d: Disk, chunk: ChunkObject, hash: Hash) returns (names: map<ChunkId, FileNo>)
    requires NoDangling(d) && !Bound(d, chunk, hash)
    ensures NamesMayBe(d, names)
    ensures chunk.id in names ==> names[chunk.id] in d.inodes && !Solid(d, names[chunk.id], chunk, hash)
  {
    names := d.durable;
    if chunk.id in d.durable && Solid(d, d.durable[chunk.id], chunk, hash) {
      var f :| (chunk.id, f) in d.pending && !Solid(d, f, chunk, hash);
      names := d.durable[chunk.id := f];
    }
  }

  ghost predicate NamesMayBe(d: Disk, names: map<ChunkId, FileNo>)
  {
    && (forall c :: c in d.durable ==> c in names)
    && (forall c :: c in names ==> (c in d.durable && names[c] == d.durable[c]) || (c, names[c]) in d.pending)
  }

  function Spoilt(inode: Inode, chunk: ChunkObject): Inode
  {
    Inode(if inode.synced then inode.data else if chunk.length == 0 then [0] else [], true)
  }

  /** The power loss that keeps these names and the first `n` lines, and spoils every unsynced file. */
  function Image(d: Disk, names: map<ChunkId, FileNo>, n: nat, chunk: ChunkObject): Disk
    requires n <= |d.wal|
  {
    Disk(map f | f in d.inodes :: Spoilt(d.inodes[f], chunk), d.nextFile, names, names, {}, d.wal[..n], n, true)
  }

  lemma ImageIsLoss(d: Disk, names: map<ChunkId, FileNo>, n: nat, chunk: ChunkObject, hash: Hash)
    requires d.walSynced <= |d.wal| && NamesMayBe(d, names) && Survives(d, n)
    ensures PowerLoss(d, Image(d, names, n, chunk))
    ensures Replay(Image(d, names, n, chunk).wal, n) == Replay(d.wal, n)
    ensures forall f :: f in d.inodes && !Solid(d, f, chunk, hash) ==>
      !Intact(Image(d, names, n, chunk), f, chunk, hash)
  {
    var e := Image(d, names, n, chunk);
    ReplayPrefix(e.wal, d.wal, n);
    forall f | f in d.inodes ensures FilesKept(d, e, f) {}
    forall c ensures NameImage(d, e, c) {}
  }

  // --------------------------------------------------------------- the held revision

  /** The revision that no power loss takes back: that of the synced part of the log. */
  ghost function Floor(d: Disk): nat
    requires d.walSynced <= |d.wal|
  {
    if d.walNamed && Replay(d.wal, d.walSynced).Some? then Replay(d.wal, d.walSynced).value.revision else 0
  }

  /** Whatever survives has at least the held revision. */
  lemma FloorHolds(d: Disk, n: nat)
    requires d.walSynced <= |d.wal| && Survives(d, n) && Replay(d.wal, n).Some?
    ensures Replay(d.wal, n).value.revision >= Floor(d)
  {
    if d.walNamed { ReplayRises(d.wal, d.walSynced, n); }
  }

  /** Some power loss after which the store opens again leaves it below revision `r`. */
  ghost predicate CanFallBelow(d: Disk, r: nat)
  {
    exists e :: PowerLoss(d, e) && Replay(e.wal, |e.wal|).Some? && Replay(e.wal, |e.wal|).value.revision < r
  }

  /** Exactly the revisions above the held one can be fallen below, and so be used again. */
  lemma FloorIsExact(d: Disk, r: nat)
    requires DiskOk(d) && Replay(d.wal, |d.wal|).Some?
    ensures CanFallBelow(d, r) <==> r > Floor(d)
  {
    if r > Floor(d) {
      var n := if d.walNamed then d.walSynced else 0;
      ReplayRises(d.wal, n, |d.wal|);
      var chunk := ChunkObject(ChunkId([], 0), 0, []);
      ImageIsLoss(d, d.durable, n, chunk, _ => []);
      assert PowerLoss(d, Image(d, d.durable, n, chunk));
    } else {
      forall e | PowerLoss(d, e) && Replay(e.wal, |e.wal|).Some?
        ensures Replay(e.wal, |e.wal|).value.revision >= r
      {
        var n := ReplayAfterLoss(d, e);
        FloorHolds(d, n);
      }
    }
  }

  // ----------------------------------------------------------- revisions of one chunk

  /**
   The lowest revision at which a store with this catalog can acknowledge the
   chunk.  It can quarantine the chunk above that, and not at it.
   */
  function Reach(cat: Catalog, c: ChunkId): nat
  {
    if c in cat.records && cat.records[c].state == Durable then cat.revision else SatAdd64(cat.revision, 1)
  }

  predicate ReachesAt(w: seq<WalLine>, n: nat, c: ChunkId, r: nat)
    requires n <= |w|
  {
    Replay(w, n).Some? ==> Reach(Replay(w, n).value, c) >= r
  }

  /** Whatever part of the log survives, the chunk can be acknowledged at `r` at the lowest. */
  ghost predicate Firm(d: Disk, c: ChunkId, r: nat) { forall n: nat :: Survives(d, n) ==> ReachesAt(d.wal, n, c, r) }

  /** Some interruption that the store opens again after leaves the chunk's reach below `r`. */
  ghost predicate CanBeOvertaken(d: Disk, c: ChunkId, r: nat)
  {
    exists e :: Interrupted(d, e) && Replay(e.wal, |e.wal|).Some? && Reach(Replay(e.wal, |e.wal|).value, c) < r
  }

  /** Exactly when no interruption can take a chunk's reach below a revision: it is firm. */
  lemma FirmIsExact(d: Disk, c: ChunkId, r: nat)
    requires DiskOk(d) && Replay(d.wal, |d.wal|).Some?
    ensures CanBeOvertaken(d, c, r) <==> !Firm(d, c, r)
  {
    if Firm(d, c, r) {
      forall e | Interrupted(d, e) && Replay(e.wal, |e.wal|).Some?
        ensures Reach(Replay(e.wal, |e.wal|).value, c) >= r
      {
        FirmSurvives(d, e, c, r);
      }
    } else {
      var n: nat :| Survives(d, n) && !ReachesAt(d.wal, n, c, r);
      var chunk := ChunkObject(c, 0, []);
      ImageIsLoss(d, d.durable, n, chunk, _ => []);
      assert Interrupted(d, Image(d, d.durable, n, chunk));
    }
  }

  lemma FirmSurvives(d: Disk, e: Disk, c: ChunkId, r: nat)
    requires DiskOk(d) && Firm(d, c, r) && Interrupted(d, e) && Replay(e.wal, |e.wal|).Some?
    ensures Reach(Replay(e.wal, |e.wal|).value, c) >= r
  {
    if Killed(d, e) {
      KilledIsSame(d, e);
      assert Survives(d, |d.wal|) && ReachesAt(d.wal, |d.wal|, c, r);
    } else {
      var n := ReplayAfterLoss(d, e);
      assert ReachesAt(d.wal, n, c, r);
    }
  }

  /** A held revision is firm for every chunk. */
  lemma HeldIsFirm(d: Disk, c: ChunkId, r: nat)
    requires d.walSynced <= |d.wal| && r <= Floor(d)
    ensures Firm(d, c, r)
  {
    forall n: nat | Survives(d, n) && Replay(d.wal, n).Some? ensures ReachesAt(d.wal, n, c, r) {
      FloorHolds(d, n);
      ReplayRises(d.wal, n, n);
    }
  }

  /** Firmness is a matter of the log. */
  lemma FirmIsOfTheLog(d: Disk, e: Disk, c: ChunkId, r: nat)
    requires d.wal == e.wal && d.walSynced == e.walSynced && d.walNamed == e.walNamed
    ensures Firm(d, c, r) <==> Firm(e, c, r)
  {
    forall n: nat ensures Survives(d, n) <==> Survives(e, n) {}
  }

  /** Every chunk recorded in `a` is recorded in `b`, as the same chunk. */
  ghost predicate Extends(a: Catalog, b: Catalog)
  {
    forall c :: c in a.records ==> c in b.records && b.records[c].chunk == a.records[c].chunk
  }
}
