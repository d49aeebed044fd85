/**
 What commits of file versions keep (src/meta/dfs.rs): stored layouts are
 well-shaped and every chunk they refer to is recorded and placed; layouts and
 versions never change; the versions of an inode form one chain that ends at
 its head.
 */
module FileHistory {
  import opened Records
  import opened MetaStore
  import opened FileLayouts
  import opened Replication
  import opened FileCommits

  // ------------------------------------------------------ effect of a commit

  lemma {:induction false} FilesSkip(inodes: map<InodeId, InodeRecord>, versions: map<FileVersionId, FileVersion>,
                                     layouts: map<LayoutRootId, LayoutRoot>, a: seq<TxnMutation>, b: seq<TxnMutation>,
                                     n: nat)
    requires Within(a, STOCK) && n <= |a| + |b|
    ensures InodesAfter(inodes, a + b, n) == if n <= |a| then inodes else InodesAfter(inodes, b, n - |a|)
    ensures VersionsAfter(versions, a + b, n) == if n <= |a| then versions else VersionsAfter(versions, b, n - |a|)
    ensures LayoutsAfter(layouts, a + b, n) == if n <= |a| then layouts else LayoutsAfter(layouts, b, n - |a|)
  {
    if n > 0 {
      FilesSkip(inodes, versions, layouts, a, b, n - 1);
      if n <= |a| {
        assert (a + b)[n - 1] == a[n - 1] && AreaOf(a[n - 1]) in STOCK;
      } else {
        assert (a + b)[n - 1] == b[n - 1 - |a|];
      }
    }
  }

  lemma FileMutationsEffect(inodes: map<InodeId, InodeRecord>, versions: map<FileVersionId, FileVersion>,
                            layouts: map<LayoutRootId, LayoutRoot>, req: CommitRequest, updated: InodeRecord)
    ensures var b := FileMutations(req, updated);
      && |b| == 4
      && InodesAfter(inodes, b, 4) == inodes[updated.id := updated]
      && VersionsAfter(versions, b, 4) == versions[req.version.id := req.version]
      && LayoutsAfter(layouts, b, 4) == layouts[req.layout.id := req.layout]
  {
    var b := FileMutations(req, updated);
    assert InodesAfter(inodes, b, 2) == inodes by { assert InodesAfter(inodes, b, 1) == inodes; }
    assert VersionsAfter(versions, b, 2) == versions[req.version.id := req.version] by {
      assert VersionsAfter(versions, b, 1) == versions;
    }
    assert LayoutsAfter(layouts, b, 2) == layouts[req.layout.id := req.layout] by {
      assert LayoutsAfter(layouts, b, 1) == layouts[req.layout.id := req.layout];
    }
  }

  const COMMITTED := {OfRequests, OfInodes, OfVersions, OfLayouts} + STOCK

  lemma CommitFiles(s: State, a: seq<TxnMutation>, req: CommitRequest, updated: InodeRecord)
    requires Within(a, STOCK)
    ensures var ms := a + FileMutations(req, updated);
      && InodesAfter(s.inodes, ms, |ms|) == s.inodes[updated.id := updated]
      && VersionsAfter(s.versions, ms, |ms|) == s.versions[req.version.id := req.version]
      && LayoutsAfter(s.layouts, ms, |ms|) == s.layouts[req.layout.id := req.layout]
      && Within(ms, COMMITTED)
  {
    var b := FileMutations(req, updated);
    FileMutationsEffect(s.inodes, s.versions, s.layouts, req, updated);
    FilesSkip(s.inodes, s.versions, s.layouts, a, b, |a| + 4);
    forall i | 0 <= i < |a + b| ensures AreaOf((a + b)[i]) in COMMITTED {
      if i < |a| { assert AreaOf(a[i]) in STOCK; } else { assert (a + b)[i] == b[i - |a|]; }
    }
  }

  lemma CommitStock(k: Stock, a: seq<TxnMutation>, req: CommitRequest, updated: InodeRecord)
    ensures StockAfter(k, a + FileMutations(req, updated)) == StockAfter(k, a)
  {
    StockAppend(k, a, FileMutations(req, updated));
    StockSpared(StockAfter(k, a), FileMutations(req, updated));
  }

  lemma CommitFinds(s: State, req: CommitRequest, current: InodeRecord, lease: WriteLease, cfg: ReplicationConfig,
                    at: nat)
    requires AllHold(s, CommitConditions(req, current, lease, cfg), at)
    ensures current.id in s.inodes && s.inodes[current.id] == current
    ensures lease.inode in s.leases && s.leases[lease.inode] == lease
    ensures s.config == Some(cfg)
    ensures req.version.id !in s.versions && req.layout.id !in s.layouts
  {
    var cs := CommitConditions(req, current, lease, cfg);
    StoredAt(s, cs, at, 1, InodeEntity(current));
    StoredAt(s, cs, at, 2, LeaseEntity(lease));
    StoredAt(s, cs, at, 3, ConfigEntity(cfg));
    FreeAt(s, cs, at, 4, VersionAt(req.version.id));
    FreeAt(s, cs, at, 5, LayoutAt(req.layout.id));
  }

  /** What a committing version commit found, and the records it wrote. */
  ghost predicate FilesWritten(s: State, t: State, req: CommitRequest, current: InodeRecord, updated: InodeRecord,
                               lease: WriteLease)
  {
    && current.id in s.inodes && s.inodes[current.id] == current
    && lease.inode in s.leases && s.leases[lease.inode] == lease
    && req.version.id !in s.versions && req.layout.id !in s.layouts
    && t.inodes == s.inodes[updated.id := updated]
    && t.versions == s.versions[req.version.id := req.version]
    && t.layouts == s.layouts[req.layout.id := req.layout]
    && OnlyChanged(s, t, COMMITTED)
  }

  lemma CommitWrites(s: State, req: CommitRequest, current: InodeRecord, updated: InodeRecord, lease: WriteLease,
                     cfg: ReplicationConfig, now: nat, at: nat)
    requires Commits(s, CommitTxn(req, current, updated, lease, cfg, now), at)
    ensures FilesWritten(s, Commit(s, CommitTxn(req, current, updated, lease, cfg, now), at), req, current, updated,
                         lease)
  {
    CommitFinds(s, req, current, lease, cfg, at);
    ReceiptsAreas(req.receipts, |req.receipts|, cfg, now);
    CommitFiles(s, ReceiptsMutations(req.receipts, |req.receipts|, cfg, now), req, updated);
    CommitFrame(s, CommitTxn(req, current, updated, lease, cfg, now), at, COMMITTED);
  }

  lemma CommitBrings(s: State, req: CommitRequest, current: InodeRecord, updated: InodeRecord, lease: WriteLease,
                     cfg: ReplicationConfig, now: nat, at: nat)
    requires Commits(s, CommitTxn(req, current, updated, lease, cfg, now), at)
    ensures StockOf(Commit(s, CommitTxn(req, current, updated, lease, cfg, now), at))
      == BringAll(StockOf(s), req.receipts, |req.receipts|, cfg, now)
  {
    ReceiptsEffect(StockOf(s), req.receipts, |req.receipts|, cfg, now);
    CommitStock(StockOf(s), ReceiptsMutations(req.receipts, |req.receipts|, cfg, now), req, updated);
  }

  // ------------------------------------------------------------------ layouts

  ghost predicate ExtentOk(k: Stock, e: Extent)
  {
    ChunkEnd(e) <= e.chunk.length && e.chunk in k.placements
  }

  ghost predicate ExtentsOk(k: Stock, extents: seq<Extent>)
  {
    forall i {:trigger ExtentOk(k, extents[i])} :: 0 <= i < |extents| ==> ExtentOk(k, extents[i])
  }

  ghost predicate LayoutOk(s: State, l: LayoutRootId)
    requires l in s.layouts
  {
    && s.layouts[l].id == l && Shaped(s.layouts[l].extents, s.layouts[l].fileLength)
    && ExtentsOk(StockOf(s), s.layouts[l].extents)
  }

  ghost predicate VersionOk(s: State, v: FileVersionId)
    requires v in s.versions
  {
    var x := s.versions[v];
    x.id == v && x.inode in s.inodes && x.layout in s.layouts && s.layouts[x.layout].fileLength == x.length
  }

  ghost predicate FilesOk(s: State)
  {
    && (forall l {:trigger LayoutOk(s, l)} :: l in s.layouts ==> LayoutOk(s, l))
    && (forall v {:trigger VersionOk(s, v)} :: v in s.versions ==> VersionOk(s, v))
  }

  /** Layouts and versions are immutable; placements are never dropped. */
  ghost predicate FilesGrow(s: State, t: State)
  {
    && (forall l :: l in s.layouts ==> l in t.layouts && t.layouts[l] == s.layouts[l])
    && (forall v :: v in s.versions ==> v in t.versions && t.versions[v] == s.versions[v])
    && (forall c :: c in s.placements ==> c in t.placements)
    && (forall i :: i in s.inodes ==> i in t.inodes)
  }

  lemma FilesGrowTransitive(s: State, t: State, u: State)
    requires FilesGrow(s, t) && FilesGrow(t, u)
    ensures FilesGrow(s, u)
  {
  }

  lemma {:induction false} BringAllKeys(k: Stock, rs: seq<ChunkReceipt>, n: nat, cfg: ReplicationConfig, now: nat,
                                        c: ChunkId)
    requires n <= |rs|
    ensures c in BringAll(k, rs, n, cfg, now).placements <==> c in k.placements || c in ChunkIds(rs, n)
  {
    if n > 0 {
      BringAllKeys(k, rs, n - 1, cfg, now, c);
      assert ChunkIds(rs, n) == ChunkIds(rs, n - 1) + {rs[n - 1].chunk.id};
    }
  }

  /** Every extent a commit accepts is inside a chunk that is recorded and placed once it commits. */
  lemma SourcedIsOk(s: State, e: Extent, req: CommitRequest, base: Option<LayoutRoot>, cfg: ReplicationConfig, now: nat)
    requires Sourced(e, req.receipts, base)
    requires forall i :: 0 <= i < |req.receipts| ==> ContentDerived(req.receipts[i].chunk)
    requires base.Some? ==> ExtentsOk(StockOf(s), base.value.extents)
    ensures ExtentOk(BringAll(StockOf(s), req.receipts, |req.receipts|, cfg, now), e)
  {
    var n := |req.receipts|;
    BringAllKeys(StockOf(s), req.receipts, n, cfg, now, e.chunk);
    if Brought(req.receipts, e.chunk).Some? {
      BroughtFrom(req.receipts, e.chunk);
      var i :| 0 <= i < n && req.receipts[i].chunk == Brought(req.receipts, e.chunk).value;
      assert e.chunk in ChunkIds(req.receipts, n);
    } else {
      forall i | 0 <= i < |base.value.extents|
        ensures ChunkEnd(base.value.extents[i]) <= base.value.extents[i].chunk.length
      {
        assert ExtentOk(StockOf(s), base.value.extents[i]);
      }
      InheritedStaysInside(e, base.value);
      var i :| 0 <= i < |base.value.extents| && base.value.extents[i].chunk == e.chunk;
      assert ExtentOk(StockOf(s), base.value.extents[i]);
    }
  }

  lemma MorePlacements(k: Stock, l: Stock, extents: seq<Extent>)
    requires ExtentsOk(k, extents) && forall c :: c in k.placements ==> c in l.placements
    ensures ExtentsOk(l, extents)
  {
    forall i | 0 <= i < |extents| ensures ExtentOk(l, extents[i]) { assert ExtentOk(k, extents[i]); }
  }

  /** A commit, as seen by the file records. */
  ghost predicate CommitSeen(s: State, t: State, req: CommitRequest, updated: InodeRecord, cfg: ReplicationConfig,
                             now: nat)
  {
    && OneFile(req) && req.version.id !in s.versions && req.layout.id !in s.layouts
    && updated.id == req.inode && req.inode in s.inodes
    && t.inodes == s.inodes[updated.id := updated]
    && t.versions == s.versions[req.version.id := req.version]
    && t.layouts == s.layouts[req.layout.id := req.layout]
    && StockOf(t) == BringAll(StockOf(s), req.receipts, |req.receipts|, cfg, now)
  }

  lemma CommitGrows(s: State, t: State, req: CommitRequest, updated: InodeRecord, cfg: ReplicationConfig, now: nat)
    requires CommitSeen(s, t, req, updated, cfg, now)
    ensures FilesGrow(s, t)
  {
    forall c | c in s.placements ensures c in t.placements {
      BringAllKeys(StockOf(s), req.receipts, |req.receipts|, cfg, now, c);
    }
  }

  lemma CommitKeepsFiles(s: State, t: State, req: CommitRequest, updated: InodeRecord, base: Option<LayoutRoot>,
                         cfg: ReplicationConfig, now: nat)
    requires FilesOk(s) && CommitSeen(s, t, req, updated, cfg, now)
    requires Shaped(req.layout.extents, req.layout.fileLength) && AllSourced(req.layout.extents, req.receipts, base)
    requires forall i :: 0 <= i < |req.receipts| ==> ContentDerived(req.receipts[i].chunk)
    requires base.Some? ==> base.value.id in s.layouts && s.layouts[base.value.id] == base.value
    ensures FilesOk(t)
  {
    CommitGrows(s, t, req, updated, cfg, now);
    if base.Some? { assert LayoutOk(s, base.value.id); }
    forall l | l in t.layouts ensures LayoutOk(t, l) {
      if l == req.layout.id {
        forall i | 0 <= i < |req.layout.extents| ensures ExtentOk(StockOf(t), req.layout.extents[i]) {
          assert Sourced(req.layout.extents[i], req.receipts, base);
          SourcedIsOk(s, req.layout.extents[i], req, base, cfg, now);
        }
      } else {
        assert LayoutOk(s, l);
        MorePlacements(StockOf(s), StockOf(t), s.layouts[l].extents);
      }
    }
    forall v | v in t.versions ensures VersionOk(t, v) { if v != req.version.id { assert VersionOk(s, v); } }
  }

  // ----------------------------------------------------------------- history

  type Versions = map<FileVersionId, FileVersion>

  ghost predicate Linked(vs: Versions, i: InodeId, hist: seq<FileVersionId>, a: nat)
    requires a < |hist|
  {
    hist[a] in vs && vs[hist[a]].inode == i && vs[hist[a]].parent == if a == 0 then None else Some(hist[a - 1])
  }

  function Last(hist: seq<FileVersionId>): Option<FileVersionId> { if hist == [] then None else Some(hist[|hist| - 1]) }

  /** `hist` lists exactly the versions of the inode, oldest first, each the child of the one before. */
  ghost predicate IsHistory(vs: Versions, i: InodeId, head: Option<FileVersionId>, hist: seq<FileVersionId>)
  {
    && (forall a {:trigger Linked(vs, i, hist, a)} :: 0 <= a < |hist| ==> Linked(vs, i, hist, a))
    && (forall a, b :: 0 <= a < b < |hist| ==> hist[a] != hist[b])
    && (forall v :: v in vs && vs[v].inode == i ==> v in hist)
    && head == Last(hist)
  }

  ghost predicate Chronicled(s: State, i: InodeId)
    requires i in s.inodes
  {
    exists hist :: IsHistory(s.versions, i, s.inodes[i].head, hist)
  }

  ghost predicate HistoryOk(s: State)
  {
    forall i {:trigger Chronicled(s, i)} :: i in s.inodes ==> Chronicled(s, i)
  }

  /** A new version under the head extends the history of its inode. */
  lemma HistoryExtends(vs: Versions, i: InodeId, head: Option<FileVersionId>, hist: seq<FileVersionId>, x: FileVersion)
    requires IsHistory(vs, i, head, hist) && x.id !in vs && x.inode == i && x.parent == head
    ensures IsHistory(vs[x.id := x], i, Some(x.id), hist + [x.id])
  {
    var ws, more := vs[x.id := x], hist + [x.id];
    forall a | 0 <= a < |hist| ensures hist[a] != x.id { assert Linked(vs, i, hist, a); }
    forall a | 0 <= a < |more| ensures Linked(ws, i, more, a) {
      if a < |hist| { assert Linked(vs, i, hist, a); }
    }
    forall v | v in ws && ws[v].inode == i ensures v in more { if v == x.id { assert more[|hist|] == v; } }
  }

  lemma OtherHistoryStays(vs: Versions, i: InodeId, head: Option<FileVersionId>, hist: seq<FileVersionId>,
                          x: FileVersion)
    requires IsHistory(vs, i, head, hist) && x.id !in vs && x.inode != i
    ensures IsHistory(vs[x.id := x], i, head, hist)
  {
    var ws := vs[x.id := x];
    forall a | 0 <= a < |hist| ensures Linked(ws, i, hist, a) { assert Linked(vs, i, hist, a); }
  }

  lemma CommitKeepsHistory(s: State, t: State, req: CommitRequest, updated: InodeRecord, cfg: ReplicationConfig,
                           now: nat)
    requires HistoryOk(s) && CommitSeen(s, t, req, updated, cfg, now)
    requires updated.head == Some(req.version.id) && s.inodes[req.inode].head == req.expectedHead
    ensures HistoryOk(t)
  {
    forall i | i in t.inodes ensures Chronicled(t, i) {
      assert Chronicled(s, i);
      var hist :| IsHistory(s.versions, i, s.inodes[i].head, hist);
      if i == req.inode {
        HistoryExtends(s.versions, i, req.expectedHead, hist, req.version);
      } else {
        OtherHistoryStays(s.versions, i, s.inodes[i].head, hist, req.version);
      }
    }
  }

  /** Transactions that write no version keep every head, and new inodes start without one. */
  ghost predicate HeadsKept(s: State, t: State)
  {
    && t.versions == s.versions
    && forall i :: i in t.inodes ==> t.inodes[i].head == if i in s.inodes then s.inodes[i].head else None
  }

  lemma HeadsKeptHistory(s: State, t: State)
    requires HistoryOk(s) && FilesOk(s) && HeadsKept(s, t)
    ensures HistoryOk(t)
  {
    forall i | i in t.inodes ensures Chronicled(t, i) {
      if i in s.inodes {
        assert Chronicled(s, i);
      } else {
        forall v | v in s.versions ensures s.versions[v].inode != i { assert VersionOk(s, v); }
        assert IsHistory(t.versions, i, t.inodes[i].head, []);
      }
    }
  }

  /** `n` steps along `parent_version`. */
  ghost function StepsBack(vs: Versions, v: Option<FileVersionId>, n: nat): Option<FileVersionId>
    decreases n
  {
    if n == 0 || v.None? then v
    else StepsBack(vs, if v.value in vs then vs[v.value].parent else None, n - 1)
  }

  /** Following parents from the head visits the history backwards and then ends. */
  lemma {:induction false} HeadWalksHistory(vs: Versions, i: InodeId, head: Option<FileVersionId>,
                                            hist: seq<FileVersionId>,
                                            from: nat, n: nat)
    requires IsHistory(vs, i, head, hist) && n <= from <= |hist|
    ensures StepsBack(vs, Last(hist[..from]), n) == Last(hist[..from - n])
    decreases n
  {
    if n > 0 {
      HeadWalksHistory(vs, i, head, hist, from - 1, n - 1);
      assert Linked(vs, i, hist, from - 1);
    }
  }

  /** In two states of a run the earlier history is a prefix of the later one. */
  lemma {:induction false} HistoryIsPrefix(vs: Versions, ws: Versions, i: InodeId, hs: seq<FileVersionId>,
                                           ht: seq<FileVersionId>,
                                           n: nat)
    requires IsHistory(vs, i, Last(hs), hs) && IsHistory(ws, i, Last(ht), ht)
    requires forall v :: v in vs ==> v in ws && ws[v] == vs[v]
    requires n <= |hs|
    ensures n <= |ht| && forall a :: 0 <= a < n ==> ht[a] == hs[a]
  {
    if n > 0 {
      HistoryIsPrefix(vs, ws, i, hs, ht, n - 1);
      assert Linked(vs, i, hs, n - 1);
      var a :| 0 <= a < |ht| && ht[a] == hs[n - 1];
      assert Linked(ws, i, ht, a);
      if n > 1 { assert ht[a - 1] == ht[n - 2]; }
    }
  }
}
