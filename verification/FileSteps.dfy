/**
 Lease, metadata and version-commit events of a run are good steps.
 */
module FileSteps {
  import opened Records
  import opened MetaStore
  import opened NamespacePlans
  import opened NamespaceEffects
  import opened NamespaceSafety
  import opened InodeHistory
  import opened Leases
  import opened FileLayouts
  import opened Replication
  import opened FileCommits
  import opened FileHistory
  import opened RepairClaims
  import opened RequestLog
  import opened OwnerRoots
  import opened RootSafety
  import opened MetaRun
  import opened NamespaceSteps

  // --------------------------------------------------------------------- leases

  const LEASES := {OfRequests, OfLeases}

  lemma LeaseLogs(s: State, key: RequestKey, op: StoreOperation, existing: Option<WriteLease>, lease: WriteLease,
                  cfg: ReplicationConfig, at: nat)
    requires Inv(s, cfg)
    ensures LogStep(s, Commit(s, LeaseTxn(key, op, existing, lease), at))
  {
    var o := RequestOutcome(key, op, LeaseResult(lease));
    assert LeaseTxn(key, op, existing, lease).mutations[1] == RecordOutcome(o);
    PlainStep(s, LeaseTxn(key, op, existing, lease), at, o, cfg);
  }

  lemma LeaseOnlyStep(s: State, t: State, cfg: ReplicationConfig)
    requires Inv(s, cfg) && OnlyChanged(s, t, LEASES) && LeaseStep(s, t) && LogStep(s, t)
    ensures StepAside(s, t, cfg)
  {
    assert Kept(s, t, OfGrants);
    TreeKept(s, t, LEASES);
    FilesKept(s, t, LEASES);
    StockKept(s, t, LEASES, cfg);
    RootsKept(s, t, LEASES);
  }

  lemma AcquireStep(s: State, inodeAt: State, leaseAt: State, req: LeaseRequest, cfg: ReplicationConfig, now: nat,
                    at: nat)
    requires Inv(s, cfg) && LeasesKeyed(leaseAt) && Headroom(leaseAt)
    requires PlanAcquire(inodeAt, leaseAt, req, now).Planned?
    ensures StepAside(s, Commit(s, PlanAcquire(inodeAt, leaseAt, req, now).txn, at), cfg)
  {
    var existing := if req.inode in leaseAt.leases then Some(leaseAt.leases[req.inode]) else None;
    AcquireGrows(s, inodeAt, leaseAt, req, now, at);
    LeaseLogs(s, req.Key(), DfsAcquireWriteLease, existing, Acquired(existing, req, now).value, cfg, at);
    LeaseOnlyStep(s, Commit(s, PlanAcquire(inodeAt, leaseAt, req, now).txn, at), cfg);
  }

  lemma RenewStep(s: State, leaseAt: State, req: LeaseRequest, shown: WriteLease, cfg: ReplicationConfig, now: nat,
                  at: nat)
    requires Inv(s, cfg) && PlanRenew(leaseAt, req, shown, now).Planned?
    ensures StepAside(s, Commit(s, PlanRenew(leaseAt, req, shown, now).txn, at), cfg)
  {
    var stored := ValidLease(leaseAt, req.caller, shown.inode, shown, now).value;
    RenewGrows(s, leaseAt, req, shown, now, at);
    LeaseLogs(s, req.Key(), DfsRenewWriteLease, Some(stored), Renewed(stored, req.seconds, now), cfg, at);
    LeaseOnlyStep(s, Commit(s, PlanRenew(leaseAt, req, shown, now).txn, at), cfg);
  }

  // ------------------------------------------------------------------- metadata

  const INODES := {OfRequests, OfInodes}

  /** A rewrite that keeps everything but attributes, xattrs and revision. */
  predicate Rewrites(current: InodeRecord, updated: InodeRecord)
  {
    && updated == current.(attrs := updated.attrs, xattrs := updated.xattrs, revision := SatAdd64(current.revision, 1))
    && updated.attrs.nlink == current.attrs.nlink
  }

  lemma RewriteParts(s: State, t: State, current: InodeRecord, updated: InodeRecord, cfg: ReplicationConfig)
    requires Inv(s, cfg) && Headroom(s) && Rewrites(current, updated) && current.id in s.inodes
    requires s.inodes[current.id] == current
    requires t.inodes == s.inodes[updated.id := updated] && OnlyChanged(s, t, INODES) && LogGrows(s, t)
    ensures TreeStep(s, t) && FileStep(s, t)
  {
    assert Kept(s, t, OfDentries);
    RewriteKeepsInv(s, t, updated);
    RewriteAges(s, t, updated);
    RewriteFiles(s, t, current, updated, cfg);
  }

  lemma RewriteFiles(s: State, t: State, current: InodeRecord, updated: InodeRecord, cfg: ReplicationConfig)
    requires FilesOk(s) && HistoryOk(s) && Rewrites(current, updated) && current.id in s.inodes
    requires s.inodes[current.id] == current
    requires t.inodes == s.inodes[updated.id := updated] && OnlyChanged(s, t, INODES)
    ensures FileStep(s, t)
  {
    assert Kept(s, t, OfVersions) && Kept(s, t, OfLayouts) && Kept(s, t, OfPlacements);
    SameFiles(s, t);
  }

  lemma RewriteStep(s: State, t: State, current: InodeRecord, updated: InodeRecord, cfg: ReplicationConfig)
    requires Inv(s, cfg) && Headroom(s) && Rewrites(current, updated) && current.id in s.inodes
    requires s.inodes[current.id] == current
    requires t.inodes == s.inodes[updated.id := updated] && OnlyChanged(s, t, INODES) && LogStep(s, t)
    ensures StepAside(s, t, cfg)
  {
    RewriteParts(s, t, current, updated, cfg);
    RewriteElse(s, t, cfg);
  }

  lemma RewriteElse(s: State, t: State, cfg: ReplicationConfig)
    requires LeasesKeyed(s) && StockOk(StockOf(s), cfg) && RootsOk(s) && OnlyChanged(s, t, INODES) && LogGrows(s, t)
    ensures LeaseStep(s, t) && StockStep(s, t, cfg) && RootStep(s, t) && t.grants == s.grants
  {
    LeasesKept(s, t, INODES);
    StockKept(s, t, INODES, cfg);
    RootsKept(s, t, INODES);
    assert Kept(s, t, OfGrants);
  }

  lemma UpdateLogs(s: State, key: RequestKey, op: StoreOperation, current: InodeRecord, updated: InodeRecord,
                   lease: Option<WriteLease>, cfg: ReplicationConfig, at: nat)
    requires Inv(s, cfg)
    ensures LogStep(s, Commit(s, UpdateTxn(key, op, current, updated, lease), at))
  {
    var o := RequestOutcome(key, op, InodeResult(updated));
    assert UpdateTxn(key, op, current, updated, lease).mutations[1] == RecordOutcome(o);
    PlainStep(s, UpdateTxn(key, op, current, updated, lease), at, o, cfg);
  }

  lemma UpdateStep(s: State, key: RequestKey, op: StoreOperation, current: InodeRecord, updated: InodeRecord,
                   lease: Option<WriteLease>, cfg: ReplicationConfig, at: nat)
    requires Inv(s, cfg) && Headroom(s) && Rewrites(current, updated)
    ensures StepAside(s, Commit(s, UpdateTxn(key, op, current, updated, lease), at), cfg)
  {
    var t := Commit(s, UpdateTxn(key, op, current, updated, lease), at);
    UpdateLogs(s, key, op, current, updated, lease, cfg, at);
    if Commits(s, UpdateTxn(key, op, current, updated, lease), at) {
      UpdateEffect(s, key, op, current, updated, lease, at);
      RewriteStep(s, t, current, updated, cfg);
    } else {
      IdleStep(s, cfg);
    }
  }

  // --------------------------------------------------------------------- commit

  /** The inode and lease of a planned commit. */
  predicate InodeAccepted(from: CommitReads, req: CommitRequest, now: nat, current: InodeRecord, updated: InodeRecord,
                          lease: WriteLease)
  {
    && GetInode(from.inodeAt, req.inode) == Ok(current) && CommittedInode(current, req) == Some(updated)
    && ValidLease(from.leaseAt, req.origin.callerId, req.inode, req.lease, now) == Ok(lease)
    && OneFile(req) && current.head == req.expectedHead
  }

  /** The layout of a planned commit, against the base it was checked with. */
  ghost predicate LayoutAccepted(from: CommitReads, req: CommitRequest, base: Option<LayoutRoot>)
  {
    && BaseLayout(from.versionAt, from.layoutAt, req.expectedHead) == Ok(base)
    && Shaped(req.layout.extents, req.layout.fileLength) && AllSourced(req.layout.extents, req.receipts, base)
  }

  ghost predicate ReceiptsAccepted(from: CommitReads, req: CommitRequest, cfg: ReplicationConfig, now: nat)
  {
    ReceiptsOk(req.origin.callerId, req.origin.operation, req.receipts, |req.receipts|, cfg, from.receipts, now)
  }

  lemma CommitIsPlanned(from: CommitReads, req: CommitRequest, cfg: ReplicationConfig, now: nat)
    returns (current: InodeRecord, updated: InodeRecord, lease: WriteLease, base: Option<LayoutRoot>)
    requires PlanCommit(from, req, cfg, now).Planned?
    ensures PlanCommit(from, req, cfg, now).txn == CommitTxn(req, current, updated, lease, cfg, now)
    ensures InodeAccepted(from, req, now, current, updated, lease)
    ensures LayoutAccepted(from, req, base) && ReceiptsAccepted(from, req, cfg, now)
  {
    current := GetInode(from.inodeAt, req.inode).value;
    updated := CommittedInode(current, req).value;
    lease := ValidLease(from.leaseAt, req.origin.callerId, req.inode, req.lease, now).value;
    base := BaseLayout(from.versionAt, from.layoutAt, req.expectedHead).value;
  }

  /** A commit takes effect only while the epoch it presents is the current one. */
  lemma CommitIsFenced(s: State, from: CommitReads, req: CommitRequest, cfg: ReplicationConfig, now: nat, at: nat)
    requires PlanCommit(from, req, cfg, now).Planned? && Commits(s, PlanCommit(from, req, cfg, now).txn, at)
    ensures req.inode in s.leases && s.leases[req.inode].epoch == req.lease.epoch
    ensures Owns(s.leases[req.inode], req.origin.callerId, req.lease.session)
  {
    var current, updated, lease, base := CommitIsPlanned(from, req, cfg, now);
    CommitWrites(s, req, current, updated, lease, cfg, now, at);
    PinnedLeaseIsPresented(s, from.leaseAt, req.origin.callerId, req.inode, req.lease, now);
  }

  ghost predicate HonestReceipts(req: CommitRequest)
  {
    forall i :: 0 <= i < |req.receipts| ==> ContentDerived(req.receipts[i].chunk)
  }

  lemma ReceiptsProve(caller: NodeId, op: OperationId, rs: seq<ChunkReceipt>, cfg: ReplicationConfig,
                      evs: seq<Evidence>, now: nat)
    requires ReceiptsOk(caller, op, rs, |rs|, cfg, evs, now) && forall i :: 0 <= i < |rs| ==>
      ContentDerived(rs[i].chunk)
    ensures AllProven(rs, cfg)
  {
    forall i | 0 <= i < |rs|
      ensures ContentDerived(rs[i].chunk) && Proven(rs[i].acks, rs[i].chunk) && |rs[i].acks| >= cfg.sync
    {
      assert ReceiptAt(caller, op, rs, i, cfg, evs, now);
      ReceiptProves(caller, rs[i], cfg, evs[i], now);
    }
  }

  /** The base layout a commit was checked against is still stored. */
  lemma BaseIsStored(s: State, versionAt: State, layoutAt: State, head: Option<FileVersionId>)
    requires FilesOk(layoutAt) && FilesGrow(layoutAt, s) && BaseLayout(versionAt, layoutAt, head).Ok?
    ensures var base := BaseLayout(versionAt, layoutAt, head).value;
      base.Some? ==> base.value.id in s.layouts && s.layouts[base.value.id] == base.value
  {
    if head.Some? { assert LayoutOk(layoutAt, versionAt.versions[head.value].layout); }
  }

  lemma CommittedAges(s: State, t: State, current: InodeRecord, updated: InodeRecord, req: CommitRequest)
    requires NsInv(s) && Headroom(s) && current.id in s.inodes && s.inodes[current.id] == current
    requires CommittedInode(current, req) == Some(updated)
    requires t.inodes == s.inodes[updated.id := updated] && t.dentries == s.dentries
    ensures TreeStep(s, t)
  {
    RewriteKeepsInv(s, t, updated);
    RewriteAges(s, t, updated);
  }

  lemma CommitFileStep(s: State, t: State, req: CommitRequest, cfg: ReplicationConfig, now: nat,
                       updated: InodeRecord, base: Option<LayoutRoot>)
    requires FilesOk(s) && HistoryOk(s) && HonestReceipts(req)
    requires base.Some? ==> base.value.id in s.layouts && s.layouts[base.value.id] == base.value
    requires Shaped(req.layout.extents, req.layout.fileLength) && AllSourced(req.layout.extents, req.receipts, base)
    requires CommitSeen(s, t, req, updated, cfg, now)
    requires updated.head == Some(req.version.id) && s.inodes[req.inode].head == req.expectedHead
    ensures FileStep(s, t)
  {
    CommitGrows(s, t, req, updated, cfg, now);
    CommitKeepsFiles(s, t, req, updated, base, cfg, now);
    CommitKeepsHistory(s, t, req, updated, cfg, now);
  }

  lemma CommitIsSeen(s: State, t: State, from: CommitReads, req: CommitRequest, cfg: ReplicationConfig, now: nat,
                     current: InodeRecord, updated: InodeRecord, lease: WriteLease)
    requires IdsOk(from.inodeAt) && InodeAccepted(from, req, now, current, updated, lease)
    requires FilesWritten(s, t, req, current, updated, lease)
    requires StockOf(t) == BringAll(StockOf(s), req.receipts, |req.receipts|, cfg, now)
    ensures CommitSeen(s, t, req, updated, cfg, now)
    ensures updated.head == Some(req.version.id) && s.inodes[req.inode].head == req.expectedHead
  {
    if req.inode in from.inodeAt.inodes { assert IdOk(from.inodeAt, req.inode); }
  }

  lemma CommitStockStep(s: State, t: State, from: CommitReads, req: CommitRequest, cfg: ReplicationConfig, now: nat)
    requires StockOk(StockOf(s), cfg) && HonestReceipts(req) && ReceiptsAccepted(from, req, cfg, now)
    requires StockOf(t) == BringAll(StockOf(s), req.receipts, |req.receipts|, cfg, now)
    ensures StockStep(s, t, cfg)
  {
    ReceiptsProve(req.origin.callerId, req.origin.operation, req.receipts, cfg, from.receipts, now);
    BringAllKeepsStock(StockOf(s), req.receipts, |req.receipts|, cfg, now);
    BringAllClaimless(StockOf(s), req.receipts, |req.receipts|, cfg, now);
    ClaimlessIsFresh(s, t);
  }

  lemma CommitPlain(req: CommitRequest, current: InodeRecord, updated: InodeRecord, lease: WriteLease,
                    cfg: ReplicationConfig, now: nat)
    ensures Plain(CommitTxn(req, current, updated, lease, cfg, now),
                  req.origin.Outcome(DfsCommitFileVersion, InodeResult(updated)))
  {
    var o := req.origin.Outcome(DfsCommitFileVersion, InodeResult(updated));
    var a := ReceiptsMutations(req.receipts, |req.receipts|, cfg, now);
    var b := FileMutations(req, updated);
    ReceiptsPut(req.receipts, |req.receipts|, cfg, now);
    assert (a + b)[|a| + 3] == RecordOutcome(o);
    forall i | 0 <= i < |a + b| ensures PlainMutation((a + b)[i], o) {
      if i < |a| { assert a[i].Put?; } else { assert (a + b)[i] == b[i - |a|]; }
    }
  }

  lemma CommitLogStep(s: State, req: CommitRequest, current: InodeRecord, updated: InodeRecord, lease: WriteLease,
                      cfg: ReplicationConfig, now: nat, at: nat)
    requires Inv(s, cfg)
    ensures LogStep(s, Commit(s, CommitTxn(req, current, updated, lease, cfg, now), at))
  {
    CommitPlain(req, current, updated, lease, cfg, now);
    PlainStep(s, CommitTxn(req, current, updated, lease, cfg, now), at,
              req.origin.Outcome(DfsCommitFileVersion, InodeResult(updated)), cfg);
  }

  lemma {:induction false} ReceiptsPut(rs: seq<ChunkReceipt>, n: nat, cfg: ReplicationConfig, now: nat)
    requires n <= |rs|
    ensures forall i :: 0 <= i < |ReceiptsMutations(rs, n, cfg, now)| ==> ReceiptsMutations(rs, n, cfg, now)[i].Put?
  {
    if n > 0 {
      ReceiptsPut(rs, n - 1, cfg, now);
      var last := ReceiptMutations(rs[n - 1], cfg, now);
      assert forall i :: 0 <= i < |last| ==> last[i].Put?;
    }
  }

  // The parts of the step, each from the facts it needs.

  lemma CommitTreeStep(s: State, t: State, req: CommitRequest, current: InodeRecord, updated: InodeRecord,
                       lease: WriteLease)
    requires NsInv(s) && Headroom(s) && CommittedInode(current, req) == Some(updated)
    requires FilesWritten(s, t, req, current, updated, lease)
    ensures TreeStep(s, t) && OnlyChanged(s, t, COMMITTED)
  {
    assert Kept(s, t, OfDentries);
    CommittedAges(s, t, current, updated, req);
  }

  lemma CommitTreePart(s: State, req: CommitRequest, cfg: ReplicationConfig, now: nat, at: nat,
                       current: InodeRecord, updated: InodeRecord, lease: WriteLease)
    requires NsInv(s) && Headroom(s) && CommittedInode(current, req) == Some(updated)
    requires Commits(s, CommitTxn(req, current, updated, lease, cfg, now), at)
    ensures var t := Commit(s, CommitTxn(req, current, updated, lease, cfg, now), at);
      TreeStep(s, t) && OnlyChanged(s, t, COMMITTED)
  {
    CommitWrites(s, req, current, updated, lease, cfg, now, at);
    CommitTreeStep(s, Commit(s, CommitTxn(req, current, updated, lease, cfg, now), at), req, current, updated, lease);
  }

  lemma CommitFilePart(s: State, from: CommitReads, req: CommitRequest, cfg: ReplicationConfig, now: nat, at: nat,
                       current: InodeRecord, updated: InodeRecord, lease: WriteLease, base: Option<LayoutRoot>)
    requires FilesOk(s) && HistoryOk(s) && HonestReceipts(req)
    requires IdsOk(from.inodeAt) && FilesOk(from.layoutAt) && FilesGrow(from.layoutAt, s)
    requires InodeAccepted(from, req, now, current, updated, lease) && LayoutAccepted(from, req, base)
    requires Commits(s, CommitTxn(req, current, updated, lease, cfg, now), at)
    ensures FileStep(s, Commit(s, CommitTxn(req, current, updated, lease, cfg, now), at))
  {
    var t := Commit(s, CommitTxn(req, current, updated, lease, cfg, now), at);
    CommitWrites(s, req, current, updated, lease, cfg, now, at);
    CommitBrings(s, req, current, updated, lease, cfg, now, at);
    CommitIsSeen(s, t, from, req, cfg, now, current, updated, lease);
    BaseIsStored(s, from.versionAt, from.layoutAt, req.expectedHead);
    CommitFileStep(s, t, req, cfg, now, updated, base);
  }

  lemma CommitStockPart(s: State, from: CommitReads, req: CommitRequest, cfg: ReplicationConfig, now: nat, at: nat,
                        current: InodeRecord, updated: InodeRecord, lease: WriteLease)
    requires StockOk(StockOf(s), cfg) && HonestReceipts(req) && ReceiptsAccepted(from, req, cfg, now)
    requires Commits(s, CommitTxn(req, current, updated, lease, cfg, now), at)
    ensures StockStep(s, Commit(s, CommitTxn(req, current, updated, lease, cfg, now), at), cfg)
  {
    CommitBrings(s, req, current, updated, lease, cfg, now, at);
    CommitStockStep(s, Commit(s, CommitTxn(req, current, updated, lease, cfg, now), at), from, req, cfg, now);
  }

  lemma CommitParts(s: State, t: State, cfg: ReplicationConfig)
    requires Inv(s, cfg) && OnlyChanged(s, t, COMMITTED) && TreeStep(s, t) && FileStep(s, t) && StockStep(s, t, cfg)
    requires LogStep(s, t)
    ensures StepAside(s, t, cfg)
  {
    assert Kept(s, t, OfGrants);
    LeasesKept(s, t, COMMITTED);
    RootsKept(s, t, COMMITTED);
  }

  lemma CommitTxnStep(s: State, from: CommitReads, req: CommitRequest, cfg: ReplicationConfig, now: nat, at: nat,
                      current: InodeRecord, updated: InodeRecord, lease: WriteLease, base: Option<LayoutRoot>)
    requires Inv(s, cfg) && Headroom(s) && HonestReceipts(req)
    requires IdsOk(from.inodeAt) && FilesOk(from.layoutAt) && FilesGrow(from.layoutAt, s)
    requires InodeAccepted(from, req, now, current, updated, lease) && LayoutAccepted(from, req, base)
    requires ReceiptsAccepted(from, req, cfg, now) && Commits(s, CommitTxn(req, current, updated, lease, cfg, now), at)
    ensures StepAside(s, Commit(s, CommitTxn(req, current, updated, lease, cfg, now), at), cfg)
  {
    CommitLogStep(s, req, current, updated, lease, cfg, now, at);
    CommitTreePart(s, req, cfg, now, at, current, updated, lease);
    CommitFilePart(s, from, req, cfg, now, at, current, updated, lease, base);
    CommitStockPart(s, from, req, cfg, now, at, current, updated, lease);
    CommitParts(s, Commit(s, CommitTxn(req, current, updated, lease, cfg, now), at), cfg);
  }

  lemma CommitVersionStep(s: State, from: CommitReads, req: CommitRequest, cfg: ReplicationConfig, now: nat, at: nat)
    requires Inv(s, cfg) && Headroom(s) && HonestReceipts(req)
    requires IdsOk(from.inodeAt) && FilesOk(from.layoutAt) && FilesGrow(from.layoutAt, s)
    requires PlanCommit(from, req, cfg, now).Planned?
    ensures StepAside(s, Commit(s, PlanCommit(from, req, cfg, now).txn, at), cfg)
  {
    var current, updated, lease, base := CommitIsPlanned(from, req, cfg, now);
    if Commits(s, CommitTxn(req, current, updated, lease, cfg, now), at) {
      CommitTxnStep(s, from, req, cfg, now, at, current, updated, lease, base);
    } else {
      IdleStep(s, cfg);
    }
  }
}
