/**
 What the local chunk store has promised at a point of its life, and that each
 primitive disk step keeps the disk in a state from which every promise can be
 met after a kill or a power loss.
 */
module ChunkPromises {
  import opened Records
  import opened ChunkDisk

  // ------------------------------------------------------------------ event log

  /** What the store tells the outside world: acknowledgements and quarantines. */
  datatype StoreEvent =
    | AckEvent(chunk: ChunkId, revision: nat)
    | QuarantineEvent(chunk: ChunkId, revision: nat)

  /** The event may come after any event of its chunk at `r`: an acknowledgement is not below it, a quarantine above. */
  ghost predicate Follows(e: StoreEvent, r: nat) { if e.AckEvent? then r <= e.revision else r < e.revision }

  /** Remembers that a revision was firm for a chunk at a moment when `told` events had been told. */
  datatype Mark = Mark(chunk: ChunkId, revision: nat, told: nat)

  /** All that is firm on a disk. */
  ghost function FirmMarks(d: Disk, told: nat): iset<Mark>
  {
    iset m: Mark | m.told == told && Firm(d, m.chunk, m.revision)
  }

  ghost predicate Tells(log: seq<StoreEvent>, c: ChunkId, revision: nat)
  {
    exists i :: 0 <= i < |log| && IsQuarantine(log[i], c, revision)
  }

  ghost predicate IsQuarantine(e: StoreEvent, c: ChunkId, revision: nat)
  {
    e.QuarantineEvent? && e.chunk == c && e.revision == revision
  }

  lemma TellsMore(log: seq<StoreEvent>, more: seq<StoreEvent>, c: ChunkId, revision: nat)
    requires Tells(log, c, revision) || Tells(more, c, revision)
    ensures Tells(log + more, c, revision)
  {
    if Tells(log, c, revision) {
      var i :| 0 <= i < |log| && IsQuarantine(log[i], c, revision);
      assert (log + more)[i] == log[i];
    } else {
      var i :| 0 <= i < |more| && IsQuarantine(more[i], c, revision);
      assert (log + more)[|log| + i] == more[i];
    }
  }

  ghost function AckEvents(chunks: seq<ChunkObject>, revision: nat): (es: seq<StoreEvent>)
    ensures |es| == |chunks| && forall i :: 0 <= i < |es| ==> es[i] == AckEvent(chunks[i].id, revision)
  {
    seq(|chunks|, i requires 0 <= i < |chunks| => AckEvent(chunks[i].id, revision))
  }

  ghost function QuarantineEvents(rs: seq<LocalRecord>, revision: nat): (es: seq<StoreEvent>)
    ensures |es| == |rs| && forall i :: 0 <= i < |es| ==> es[i] == QuarantineEvent(rs[i].chunk.id, revision)
  {
    seq(|rs|, i requires 0 <= i < |rs| => QuarantineEvent(rs[i].chunk.id, revision))
  }

  // ------------------------------------------------------------------- promises

  /** Acknowledgements with evidence on disk, a revision that is held, what was firm when, and the events told. */
  datatype Promises = Promises(acks: set<Acked>, floor: nat, marks: iset<Mark>, log: seq<StoreEvent>)

  /** From the moment a revision was firm for a chunk, every event of the chunk follows it. */
  ghost predicate Ordered(p: Promises)
  {
    forall m, j :: m in p.marks && m.told <= j < |p.log| && p.log[j].chunk == m.chunk ==> Follows(p.log[j], m.revision)
  }

  lemma TellingKeepsOrder(p: Promises, q: Promises, es: seq<StoreEvent>)
    requires Ordered(p) && q.marks == p.marks && q.log == p.log + es
    requires forall i, m :: 0 <= i < |es| && m in p.marks && m.chunk == es[i].chunk ==> Follows(es[i], m.revision)
    ensures Ordered(q)
  {
    forall m, j | m in q.marks && m.told <= j < |q.log| && q.log[j].chunk == m.chunk
      ensures Follows(q.log[j], m.revision)
    {
      if j >= |p.log| { assert q.log[j] == es[j - |p.log|]; } else { assert q.log[j] == p.log[j]; }
    }
  }

  ghost predicate AboveMarks(p: Promises, c: ChunkId, r: nat)
  {
    forall m :: m in p.marks && m.chunk == c ==> m.revision < r
  }

  /** A quarantined record has been told; in the last line it may also be above all that was ever firm. */
  ghost predicate Told(cat: Catalog, p: Promises, last: bool, c: ChunkId)
    requires c in cat.records
  {
    || cat.records[c].state != Quarantined
    || Tells(p.log, c, cat.records[c].revision)
    || (last && AboveMarks(p, c, cat.records[c].revision))
  }

  /** A catalog the store may come back with. */
  ghost predicate Honours(cat: Catalog, p: Promises, last: bool)
  {
    && cat.revision >= p.floor
    && (forall m :: m in p.marks ==> Reach(cat, m.chunk) >= m.revision)
    && (forall a :: a in p.acks ==> Vouches(cat, a))
    && (forall c {:trigger Told(cat, p, last, c)} :: c in cat.records
          ==> cat.records[c].chunk.id == c && Told(cat, p, last, c))
  }

  ghost predicate LogKeeps(w: seq<WalLine>, n: nat, p: Promises)
    requires n <= |w|
  {
    Replay(w, n).Some? ==>
      && Honours(Replay(w, n).value, p, n == |w|)
      && (Replay(w, |w|).Some? ==> Extends(Replay(w, n).value, Replay(w, |w|).value))
  }

  /** Every interruption leaves a disk that honours the promises, if it opens at all. */
  ghost predicate Keeps(d: Disk, p: Promises, hash: Hash)
  {
    && DiskOk(d)
    && (forall n: nat :: Survives(d, n) ==> LogKeeps(d.wal, n, p))
    && (forall a :: a in p.acks ==> Bound(d, a.chunk, hash))
  }

  /** The catalog that the whole log replays to. */
  ghost predicate Settled(d: Disk, cat: Catalog) { Replay(d.wal, |d.wal|) == Some(cat) }

  /** The log and its name are synced. */
  predicate Synced(d: Disk) { d.walSynced == |d.wal| && d.walNamed }

  lemma KeptIsEvidence(d: Disk, p: Promises, a: Acked, hash: Hash)
    requires Keeps(d, p, hash) && a in p.acks
    ensures Evidence(d, a, hash)
  {
    forall n: nat | Survives(d, n) ensures LoggedAt(d.wal, n, a) { assert LogKeeps(d.wal, n, p); }
  }

  /** The file an acknowledged chunk's name now leads to holds its bytes. */
  lemma KeptIsIntact(d: Disk, p: Promises, a: Acked, hash: Hash)
    requires Keeps(d, p, hash) && a in p.acks
    ensures a.chunk.id in d.names && Solid(d, d.names[a.chunk.id], a.chunk, hash)
  {
    assert NameOk(d, a.chunk.id);
  }

  // ------------------------------------------------- each primitive step keeps them

  lemma CreateKeeps(d: Disk, p: Promises, hash: Hash)
    requires Keeps(d, p, hash)
    ensures Keeps(CreateFile(d), p, hash) && Unnamed(CreateFile(d), d.nextFile)
  {
    var e := CreateFile(d);
    forall c | c in e.names ensures NameOk(e, c) { assert NameOk(d, c); }
    forall n: nat | Survives(e, n) ensures LogKeeps(e.wal, n, p) { assert Survives(d, n); }
  }

  /** A file no name leads to. */
  ghost predicate Unnamed(d: Disk, f: FileNo)
  {
    && f in d.inodes
    && (forall c :: c in d.names ==> d.names[c] != f)
    && (forall c :: c in d.durable ==> d.durable[c] != f)
    && (forall c :: (c, f) !in d.pending)
  }

  lemma TouchKeeps(d: Disk, f: FileNo, x: Inode, p: Promises, hash: Hash)
    requires Keeps(d, p, hash) && Unnamed(d, f)
    ensures Keeps(d.(inodes := d.inodes[f := x]), p, hash) && Unnamed(d.(inodes := d.inodes[f := x]), f)
  {
    var e := d.(inodes := d.inodes[f := x]);
    forall c | c in e.names ensures NameOk(e, c) { assert NameOk(d, c); }
    forall n: nat | Survives(e, n) ensures LogKeeps(e.wal, n, p) { assert Survives(d, n); }
  }

  lemma PublishKeeps(d: Disk, chunk: ChunkObject, f: FileNo, p: Promises, hash: Hash)
    requires Keeps(d, p, hash) && Solid(d, f, chunk, hash)
    requires forall a :: a in p.acks && a.chunk.id == chunk.id ==> a.chunk == chunk
    ensures Keeps(Publish(d, chunk.id, f), p, hash)
  {
    var e := Publish(d, chunk.id, f);
    forall c | c in e.names ensures NameOk(e, c) { if c != chunk.id { assert NameOk(d, c); } }
    forall n: nat | Survives(e, n) ensures LogKeeps(e.wal, n, p) { assert Survives(d, n); }
  }

  lemma SyncDirectoryKeeps(d: Disk, p: Promises, hash: Hash)
    requires Keeps(d, p, hash)
    ensures Keeps(SyncDirectory(d), p, hash)
  {
    var e := SyncDirectory(d);
    forall c | c in e.names ensures NameOk(e, c) { assert NameOk(d, c); }
    forall n: nat | Survives(e, n) ensures LogKeeps(e.wal, n, p) { assert Survives(d, n); }
    forall a | a in p.acks ensures Bound(e, a.chunk, hash) { KeptIsIntact(d, p, a, hash); }
  }

  lemma SyncLogKeeps(d: Disk, p: Promises, hash: Hash)
    requires Keeps(d, p, hash)
    ensures Keeps(SyncLog(d), p, hash) && Keeps(SyncRoot(d), p, hash)
  {
    forall c | c in d.names ensures NameOk(SyncLog(d), c) && NameOk(SyncRoot(d), c) { assert NameOk(d, c); }
    forall n: nat | Survives(SyncLog(d), n) || Survives(SyncRoot(d), n) ensures LogKeeps(d.wal, n, p) {
      assert Survives(d, n);
    }
  }

  lemma AppendKeeps(d: Disk, cat: Catalog, line: WalLine, p: Promises, hash: Hash)
    requires Keeps(d, p, hash) && Settled(d, cat) && Honours(cat, p, false)
    requires ReplayLine(cat, line).Some? && Honours(ReplayLine(cat, line).value, p, true)
    requires Extends(cat, ReplayLine(cat, line).value)
    ensures Keeps(AppendLine(d, line), p, hash)
    ensures Replay(AppendLine(d, line).wal, |d.wal| + 1) == ReplayLine(cat, line)
  {
    var e := AppendLine(d, line);
    var len := |d.wal|;
    assert e.wal[..len] == d.wal[..len];
    ReplayPrefix(e.wal, d.wal, len);
    assert e.wal[len] == line;
    forall c | c in e.names ensures NameOk(e, c) { assert NameOk(d, c); }
    forall n: nat | Survives(e, n) ensures LogKeeps(e.wal, n, p) {
      if n <= len { AppendKeepsAt(d, e, cat, n, p); }
    }
  }

  lemma AppendKeepsAt(d: Disk, e: Disk, cat: Catalog, n: nat, p: Promises)
    requires n <= |d.wal| && |e.wal| == |d.wal| + 1 && e.wal[..|d.wal|] == d.wal && LogKeeps(d.wal, n, p)
    requires Settled(d, cat) && Honours(cat, p, false)
    requires Replay(e.wal, |e.wal|).Some? && Extends(cat, Replay(e.wal, |e.wal|).value)
    ensures LogKeeps(e.wal, n, p)
  {
    assert e.wal[..n] == e.wal[..|d.wal|][..n] == d.wal[..n];
    ReplayPrefix(e.wal, d.wal, n);
  }

  /** A disk found after an interruption keeps the promises. */
  lemma InterruptionKeeps(d: Disk, e: Disk, p: Promises, hash: Hash)
    requires Keeps(d, p, hash) && Interrupted(d, e) && Replay(e.wal, |e.wal|).Some?
    ensures Keeps(e, p, hash)
    ensures forall a :: a in p.acks ==> Recovered(e, a, hash)
  {
    InterruptedIsOk(d, e);
    forall a | a in p.acks ensures Bound(e, a.chunk, hash) && Recovered(e, a, hash) {
      KeptIsEvidence(d, p, a, hash);
      EvidenceSurvives(d, e, a, hash);
    }
    if Killed(d, e) {
      KilledIsSame(d, e);
    } else {
      LossKeepsLog(d, e, p, hash);
    }
  }

  lemma LossKeepsLog(d: Disk, e: Disk, p: Promises, hash: Hash)
    requires Keeps(d, p, hash) && PowerLoss(d, e) && Replay(e.wal, |e.wal|).Some?
    ensures forall n: nat :: Survives(e, n) ==> LogKeeps(e.wal, n, p)
  {
    var n := ReplayAfterLoss(d, e);
    assert LogKeeps(d.wal, n, p);
    var cat := Replay(d.wal, n).value;
    forall c | c in cat.records ensures cat.records[c].chunk.id == c && Told(cat, p, true, c) {
      assert Told(cat, p, n == |d.wal|, c);
    }
  }

  // ------------------------------------------------------------------- reopening

  /** The quarantines in a recovered catalog that are above all that was ever firm. */
  ghost function Untold(cat: Catalog, p: Promises): set<ChunkId>
  {
    set c | c in cat.records && cat.records[c].state == Quarantined && AboveMarks(p, c, cat.records[c].revision)
  }

  ghost function Telling(cat: Catalog, cs: set<ChunkId>): (es: seq<StoreEvent>)
    requires forall c :: c in cs ==> c in cat.records
    ensures forall c :: c in cs ==> Tells(es, c, cat.records[c].revision)
    ensures forall i :: 0 <= i < |es| ==> TellsOneOf(es[i], cat, cs)
    decreases |cs|
  {
    if cs == {} then []
    else
      var c :| c in cs;
      var first := [QuarantineEvent(c, cat.records[c].revision)];
      var rest := Telling(cat, cs - {c});
      assert Tells(first, c, cat.records[c].revision) by { assert IsQuarantine(first[0], c, cat.records[c].revision); }
      TellingMore(cat, cs, c, first, rest);
      first + rest
  }

  ghost predicate TellsOneOf(e: StoreEvent, cat: Catalog, cs: set<ChunkId>)
    requires forall c :: c in cs ==> c in cat.records
  {
    e.QuarantineEvent? && e.chunk in cs && e.revision == cat.records[e.chunk].revision
  }

  lemma TellingMore(cat: Catalog, cs: set<ChunkId>, c: ChunkId, first: seq<StoreEvent>, rest: seq<StoreEvent>)
    requires forall x :: x in cs ==> x in cat.records
    requires c in cs && Tells(first, c, cat.records[c].revision)
    requires forall x :: x in cs - {c} ==> Tells(rest, x, cat.records[x].revision)
    ensures forall x :: x in cs ==> Tells(first + rest, x, cat.records[x].revision)
  {
    forall x | x in cs ensures Tells(first + rest, x, cat.records[x].revision) {
      TellsMore(first, rest, x, cat.records[x].revision);
    }
  }

  /** The promises as of a reopened disk. */
  ghost function Resumed(e: Disk, cat: Catalog, p: Promises): Promises
    requires e.walSynced <= |e.wal|
  {
    Promises(p.acks, Floor(e), p.marks, p.log + Telling(cat, Untold(cat, p)))
  }

  lemma ResumedTells(e: Disk, cat: Catalog, p: Promises, n: nat, hash: Hash)
    requires Keeps(e, p, hash) && Settled(e, cat) && Survives(e, n)
    ensures Replay(e.wal, n).Some? ==> Honours(Replay(e.wal, n).value, Resumed(e, cat, p), false)
  {
    if Replay(e.wal, n).Some? {
      var q := Resumed(e, cat, p);
      var at := Replay(e.wal, n).value;
      assert LogKeeps(e.wal, n, p);
      FloorHolds(e, n);
      forall c | c in at.records ensures at.records[c].chunk.id == c && Told(at, q, false, c) {
        assert Told(at, p, n == |e.wal|, c);
        if at.records[c].state == Quarantined {
          TellsMore(p.log, Telling(cat, Untold(cat, p)), c, at.records[c].revision);
        }
      }
    }
  }

  /** On reopening, what only the log knew is told, above all that was ever firm, and all promises are kept. */
  lemma ResumedKeeps(e: Disk, cat: Catalog, p: Promises, hash: Hash)
    requires Keeps(e, p, hash) && Ordered(p) && Settled(e, cat)
    ensures Keeps(e, Resumed(e, cat, p), hash) && Ordered(Resumed(e, cat, p))
    ensures Honours(cat, Resumed(e, cat, p), false) && Floor(e) >= p.floor
  {
    forall n: nat | Survives(e, n) ensures LogKeeps(e.wal, n, Resumed(e, cat, p)) {
      ResumedTells(e, cat, p, n, hash);
      assert LogKeeps(e.wal, n, p);
      if Replay(e.wal, n).Some? { Lenient(Replay(e.wal, n).value, Resumed(e, cat, p), n == |e.wal|); }
    }
    assert Survives(e, |e.wal|);
    ResumedTells(e, cat, p, |e.wal|, hash);
    FloorRises(e, cat, p, hash);
    TellingKeepsOrder(p, Resumed(e, cat, p), Telling(cat, Untold(cat, p)));
  }

  lemma Lenient(cat: Catalog, p: Promises, last: bool)
    requires Honours(cat, p, false)
    ensures Honours(cat, p, last)
  {
    forall c | c in cat.records ensures cat.records[c].chunk.id == c && Told(cat, p, last, c) {
      assert Told(cat, p, false, c);
    }
  }

  /** The held revision never falls. */
  lemma FloorRises(e: Disk, cat: Catalog, p: Promises, hash: Hash)
    requires Keeps(e, p, hash) && Settled(e, cat)
    ensures cat.revision >= Floor(e) >= p.floor
  {
    var n := if e.walNamed then e.walSynced else 0;
    assert Survives(e, n) && Survives(e, |e.wal|);
    ReplayRises(e.wal, n, |e.wal|);
    FloorHolds(e, |e.wal|);
    assert LogKeeps(e.wal, n, p);
  }

  // ----------------------------------------------------------- promises that grow

  /** A completed transaction is held from then on, quarantines told. */
  lemma Advance(d: Disk, cat: Catalog, p: Promises, q: Promises, hash: Hash)
    requires Keeps(d, p, hash) && Settled(d, cat) && Synced(d)
    requires q.acks == p.acks && q.floor == cat.revision && q.marks == p.marks
    requires forall c :: c in cat.records && cat.records[c].state == Quarantined ==>
      Tells(q.log, c, cat.records[c].revision)
    ensures Keeps(d, q, hash) && Honours(cat, q, false) && Floor(d) == q.floor
  {
    assert Survives(d, |d.wal|) && LogKeeps(d.wal, |d.wal|, p);
    forall c | c in cat.records ensures cat.records[c].chunk.id == c && Told(cat, q, false, c) {
      assert Told(cat, p, true, c);
    }
    assert Honours(cat, q, false);
    Lenient(cat, q, true);
  }

  /** Every quarantine in a catalog that honours without leniency has been told. */
  lemma QuarantinesAreTold(cat: Catalog, p: Promises, c: ChunkId)
    requires Honours(cat, p, false) && c in cat.records && cat.records[c].state == Quarantined
    ensures Tells(p.log, c, cat.records[c].revision)
  {
    assert Told(cat, p, false, c);
  }

  /** Chunks with evidence may be acknowledged. */
  lemma Acknowledge(d: Disk, cat: Catalog, p: Promises, q: Promises, hash: Hash)
    requires Keeps(d, p, hash) && Settled(d, cat) && Honours(cat, p, false)
    requires q.floor == p.floor && q.marks == p.marks && p.log <= q.log
    requires forall a :: a in q.acks ==> a in p.acks || Evidence(d, a, hash)
    ensures Keeps(d, q, hash) && Honours(cat, q, false)
  {
    assert Survives(d, |d.wal|);
    forall n: nat | Survives(d, n) && Replay(d.wal, n).Some?
      ensures LogKeeps(d.wal, n, q)
    {
      assert LogKeeps(d.wal, n, p);
      StillHonours(d, n, Replay(d.wal, n).value, p, q, n == |d.wal|, hash);
    }
    StillHonours(d, |d.wal|, cat, p, q, false, hash);
  }

  lemma StillHonours(d: Disk, n: nat, cat: Catalog, p: Promises, q: Promises, last: bool, hash: Hash)
    requires Survives(d, n) && Replay(d.wal, n) == Some(cat) && Honours(cat, p, last)
    requires q.floor == p.floor && q.marks == p.marks && p.log <= q.log
    requires forall a :: a in q.acks ==> a in p.acks || Evidence(d, a, hash)
    ensures Honours(cat, q, last)
  {
    var more := q.log[|p.log|..];
    assert q.log == p.log + more;
    forall a | a in q.acks ensures Vouches(cat, a) { if a !in p.acks { assert LoggedAt(d.wal, n, a); } }
    forall c | c in cat.records ensures cat.records[c].chunk.id == c && Told(cat, q, last, c) {
      assert Told(cat, p, last, c);
      if Tells(p.log, c, cat.records[c].revision) { TellsMore(p.log, more, c, cat.records[c].revision); }
    }
  }

  /** What is firm now may be remembered. */
  lemma RememberKeeps(d: Disk, cat: Catalog, p: Promises, q: Promises, hash: Hash)
    requires Keeps(d, p, hash) && Settled(d, cat) && Honours(cat, p, false) && Ordered(p)
    requires q == p.(marks := p.marks + FirmMarks(d, |p.log|))
    ensures Keeps(d, q, hash) && Honours(cat, q, false) && Ordered(q)
  {
    assert Survives(d, |d.wal|);
    forall n: nat | Survives(d, n) && Replay(d.wal, n).Some?
      ensures LogKeeps(d.wal, n, q)
    {
      assert LogKeeps(d.wal, n, p);
      RememberHonours(d, n, Replay(d.wal, n).value, p, q);
      Lenient(Replay(d.wal, n).value, q, n == |d.wal|);
    }
    RememberHonours(d, |d.wal|, cat, p, q);
  }

  lemma RememberHonours(d: Disk, n: nat, cat: Catalog, p: Promises, q: Promises)
    requires Survives(d, n) && Replay(d.wal, n) == Some(cat) && Honours(cat, p, false)
    requires q == p.(marks := p.marks + FirmMarks(d, |p.log|))
    ensures Honours(cat, q, false)
  {
    forall m | m in q.marks ensures Reach(cat, m.chunk) >= m.revision {
      if m !in p.marks { assert ReachesAt(d.wal, n, m.chunk, m.revision); }
    }
    forall c | c in cat.records ensures cat.records[c].chunk.id == c && Told(cat, q, false, c) {
      assert Told(cat, p, false, c);
    }
  }
}
