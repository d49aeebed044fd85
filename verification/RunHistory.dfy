/**
 What each step of a run may write, and what follows for claims and for the
 bytes of file versions.
 */
module RunHistory {
  import opened Records
  import opened MetaStore
  import opened FileLayouts
  import opened FileCommits
  import opened FileHistory
  import opened FileSteps
  import opened RepairPlans
  import opened RepairSafety
  import opened RepairClaims
  import opened MetaRun
  import opened RunSteps
  import opened EventFrames
  import opened RunTheorems

  // ------------------------------------------------------- what each step may write

  lemma RegisterFacts(h: seq<State>, es: seq<Step>, cfg: ReplicationConfig, k: nat, request: RequestKey,
                      lease: SessionLease)
    requires Run(h, es, cfg) && k < |es| && es[k].event == Register(request, lease)
    ensures h[k + 1] == RegisterSession(h[k], request, lease, es[k].at)
  {
    assert Moves(h, es, cfg, k);
  }

  lemma TreeStepFacts(h: seq<State>, es: seq<Step>, cfg: ReplicationConfig, k: nat, x: TreeEvent)
    requires Run(h, es, cfg) && k < |es| && es[k].event == OnTree(x)
    ensures h[k + 1] == Submit(h[k], PlanTree(x, es[k].now), es[k].at)
  {
    assert Moves(h, es, cfg, k);
  }

  lemma FileStepFacts(h: seq<State>, es: seq<Step>, cfg: ReplicationConfig, k: nat, x: FileEvent)
    requires Run(h, es, cfg) && k < |es| && es[k].event == OnFiles(x)
    ensures h[k + 1] == Submit(h[k], PlanFile(x, cfg, es[k].now), es[k].at)
    ensures forall j :: 0 <= j < |FileReads(x)| ==> Seen(h, k, FileReads(x)[j])
  {
    assert Moves(h, es, cfg, k);
    assert ReadsOf(es[k].event) == FileReads(x);
  }

  lemma RepairReadAll(h: seq<State>, es: seq<Step>, cfg: ReplicationConfig, k: nat, x: RepairEvent)
    requires Run(h, es, cfg) && k < |es| && es[k].event == OnRepair(x)
    ensures Inv(h[k], cfg) && AllRead(RepairReads(x), h[k], cfg)
  {
    StateIsGood(h, es, cfg, k);
    RunIsGood(h, es, cfg, k);
    RoomSoFar(h, es, cfg, k);
    assert Moves(h, es, cfg, k);
    StepReads(h, es, cfg, k);
    assert ReadsOf(es[k].event) == RepairReads(x);
  }

  /** A step that is neither a claim request nor a version commit installs no claim and writes no version. */
  lemma OtherStepsAreQuiet(h: seq<State>, es: seq<Step>, cfg: ReplicationConfig, k: nat)
    requires Run(h, es, cfg) && k < |es| && !CommitsVersion(es[k].event)
    ensures h[k + 1].versions == h[k].versions && h[k + 1].layouts == h[k].layouts
    ensures !InstallsClaim(es[k].event) ==> Claimless(h[k].tasks, h[k + 1].tasks)
  {
    match es[k].event
    case Register(request, lease) =>
      RegisterFacts(h, es, cfg, k, request, lease);
      RegisterIsQuiet(h[k], request, lease, es[k].at);
    case OnTree(x) =>
      TreeStepFacts(h, es, cfg, k, x);
      TreeIsQuiet(h[k], x, es[k].now, es[k].at);
    case OnFiles(x) =>
      FileStepFacts(h, es, cfg, k, x);
      MetadataIsQuiet(h[k], x, cfg, es[k].now, es[k].at);
    case OnRepair(x) =>
      RepairStepFacts(h, es, cfg, k, x);
      RepairReadAll(h, es, cfg, k, x);
      RepairWritesNoVersion(h[k], x, cfg, es[k].now, es[k].at);
    case OnRoots(x) =>
      OwnerStepFacts(h, es, cfg, k, x);
      OwnerIsQuiet(h[k], x, es[k].at);
  }

  lemma CommitStepFacts(h: seq<State>, es: seq<Step>, cfg: ReplicationConfig, k: nat, from: CommitReads,
                        req: CommitRequest)
    requires Run(h, es, cfg) && k < |es| && es[k].event == OnFiles(CommitVersion(from, req))
    ensures h[k + 1] == Submit(h[k], PlanCommit(from, req, cfg, es[k].now), es[k].at)
  {
    assert Moves(h, es, cfg, k);
  }

  // ------------------------------------------------------------------------- claims

  lemma SubmitInstallsNoClaim(s: State, from: CommitReads, req: CommitRequest, cfg: ReplicationConfig, now: nat,
                              at: nat)
    ensures Claimless(s.tasks, Submit(s, PlanCommit(from, req, cfg, now), at).tasks)
  {
    if PlanCommit(from, req, cfg, now).Planned? { CommitWritesOne(s, from, req, cfg, now, at); }
  }

  /** Only claim requests install claims. */
  lemma OthersInstallNoClaim(h: seq<State>, es: seq<Step>, cfg: ReplicationConfig, k: nat)
    requires Run(h, es, cfg) && k < |es| && !InstallsClaim(es[k].event)
    ensures Claimless(h[k].tasks, h[k + 1].tasks)
  {
    if CommitsVersion(es[k].event) {
      CommitStepFacts(h, es, cfg, k, es[k].event.file.from, es[k].event.file.commit);
      SubmitInstallsNoClaim(h[k], es[k].event.file.from, es[k].event.file.commit, cfg, es[k].now, es[k].at);
    } else {
      OtherStepsAreQuiet(h, es, cfg, k);
    }
  }

  /** The claim is unexpired and its worker current and live. */
  ghost predicate IsLive(s: State, c: ReplicationClaim, at: nat)
  {
    c.expires > at && c.worker in s.current && Backs(s.current[c.worker], c, at)
  }

  /** Whatever event comes next, a live claim is never replaced by another; no claim request removes it. */
  lemma LiveClaimsAreKept(h: seq<State>, es: seq<Step>, cfg: ReplicationConfig, k: nat, id: TaskId, c: ReplicationClaim)
    requires Run(h, es, cfg) && k < |es| && Claims(h[k], id, c) && IsLive(h[k], c, es[k].at)
    ensures id in h[k + 1].tasks && h[k + 1].tasks[id].claim.Some? ==> Claims(h[k + 1], id, c)
    ensures InstallsClaim(es[k].event) ==> Claims(h[k + 1], id, c)
  {
    if InstallsClaim(es[k].event) {
      var x := es[k].event.repair;
      ClaimRequestsKeepLiveClaims(h, es, cfg, k, x.claimFrom, x.worker, x.leaseSeconds, id, c);
    } else {
      OthersInstallNoClaim(h, es, cfg, k);
    }
  }

  // ------------------------------------------------------------------ bytes of versions

  /** Step `k` committed version `v`. */
  ghost predicate Committed(h: seq<State>, es: seq<Step>, cfg: ReplicationConfig, k: nat, v: FileVersionId)
    requires k < |es| && |h| == |es| + 1
  {
    && CommitsVersion(es[k].event) && es[k].event.file.commit.version.id == v
    && (var plan := PlanCommit(es[k].event.file.from, es[k].event.file.commit, cfg, es[k].now);
        plan.Planned? && Commits(h[k], plan.txn, es[k].at))
  }

  lemma NewVersionIsCommitted(h: seq<State>, es: seq<Step>, cfg: ReplicationConfig, k: nat, v: FileVersionId)
    requires Run(h, es, cfg) && k < |es| && v in h[k + 1].versions && v !in h[k].versions
    ensures Committed(h, es, cfg, k, v)
  {
    if CommitsVersion(es[k].event) {
      CommitStepFacts(h, es, cfg, k, es[k].event.file.from, es[k].event.file.commit);
      SubmitAdds(h[k], es[k].event.file.from, es[k].event.file.commit, cfg, es[k].now, es[k].at, v);
    } else {
      OtherStepsAreQuiet(h, es, cfg, k);
    }
  }

  lemma SubmitAdds(s: State, from: CommitReads, req: CommitRequest, cfg: ReplicationConfig, now: nat, at: nat,
                   v: FileVersionId)
    requires v in Submit(s, PlanCommit(from, req, cfg, now), at).versions && v !in s.versions
    ensures PlanCommit(from, req, cfg, now).Planned? && Commits(s, PlanCommit(from, req, cfg, now).txn, at)
    ensures req.version.id == v
  {
    if PlanCommit(from, req, cfg, now).Planned? { CommitWritesOne(s, from, req, cfg, now, at); }
  }

  /** Every stored version was committed by some step. */
  lemma {:induction false} VersionsAreCommitted(h: seq<State>, es: seq<Step>, cfg: ReplicationConfig, j: nat,
                                                v: FileVersionId)
    returns (k: nat)
    requires Run(h, es, cfg) && j < |h| && v in h[j].versions
    ensures k < j && Committed(h, es, cfg, k, v)
    decreases j
  {
    if j == 0 {
      StartsEmpty(h, es, cfg);
    } else if v in h[j - 1].versions {
      k := VersionsAreCommitted(h, es, cfg, j - 1, v);
    } else {
      k := j - 1;
      NewVersionIsCommitted(h, es, cfg, k, v);
    }
  }

  lemma StartsEmpty(h: seq<State>, es: seq<Step>, cfg: ReplicationConfig)
    requires Run(h, es, cfg)
    ensures h[0].versions == map[]
  {
  }

  /** A byte of a version's layout is in a chunk that its commit brought, or where it is in the parent version. */
  ghost predicate ByteIsSourced(s: State, v: FileVersionId, receipts: seq<ChunkReceipt>, b: nat)
    requires FilesOk(s) && v in s.versions
  {
    assert VersionOk(s, v);
    var x := s.versions[v];
    var place := Resolve(s.layouts[x.layout].extents, b);
    || place.None? || Brought(receipts, place.value.0).Some?
    || (x.parent.Some? && x.parent.value in s.versions
        && assert VersionOk(s, x.parent.value);
           place == Resolve(s.layouts[s.versions[x.parent.value].layout].extents, b))
  }

  lemma AcceptedByteIsSourced(l: LayoutRoot, receipts: seq<ChunkReceipt>, base: Option<LayoutRoot>, b: nat)
    requires Shaped(l.extents, l.fileLength) && AllSourced(l.extents, receipts, base)
    requires base.Some? ==> Shaped(base.value.extents, base.value.fileLength)
    ensures var place := Resolve(l.extents, b);
      || place.None? || Brought(receipts, place.value.0).Some?
      || (base.Some? && place == Resolve(base.value.extents, b))
  {
    if i :| 0 <= i < |l.extents| && Covers(l.extents[i], b) {
      ResolveAt(l.extents, l.fileLength, b, i);
      assert Sourced(l.extents[i], receipts, base);
      if Brought(receipts, l.extents[i].chunk).None? { InheritedByteIsSame(l, base.value, i, b); }
    }
  }

  /** The layout a commit was checked against is the parent's, now and in every later state. */
  lemma BaseIsParents(s: State, versionAt: State, layoutAt: State, head: Option<FileVersionId>)
    requires FilesOk(s) && FilesGrow(versionAt, s) && FilesGrow(layoutAt, s)
    requires BaseLayout(versionAt, layoutAt, head).Ok?
    ensures var base := BaseLayout(versionAt, layoutAt, head).value;
      && (base.Some? <==> head.Some?)
      && (base.Some? ==> head.value in s.versions && s.versions[head.value].layout in s.layouts
                         && s.layouts[s.versions[head.value].layout] == base.value
                         && Shaped(base.value.extents, base.value.fileLength))
  {
    if head.Some? {
      assert VersionOk(s, head.value);
      assert LayoutOk(s, s.versions[head.value].layout);
    }
  }

  lemma CommittedBytesAreSourced(s: State, from: CommitReads, req: CommitRequest, cfg: ReplicationConfig, now: nat)
    requires FilesOk(s) && FilesGrow(from.versionAt, s) && FilesGrow(from.layoutAt, s)
    requires PlanCommit(from, req, cfg, now).Planned? && req.version.id in s.versions
    requires s.versions[req.version.id] == req.version && req.layout.id in s.layouts
    requires s.layouts[req.layout.id] == req.layout
    ensures forall b: nat :: ByteIsSourced(s, req.version.id, req.receipts, b)
  {
    var current, updated, lease, base := CommitIsPlanned(from, req, cfg, now);
    BaseIsParents(s, from.versionAt, from.layoutAt, req.expectedHead);
    forall b: nat ensures ByteIsSourced(s, req.version.id, req.receipts, b) {
      AcceptedByteIsSourced(req.layout, req.receipts, base, b);
    }
  }

  lemma SeenFilesGrow(h: seq<State>, cfg: ReplicationConfig, n: nat, k: nat, j: nat, x: State)
    requires n < |h| && k <= j <= n && GoodUpTo(h, cfg, n) && Seen(h, k, x)
    ensures FilesGrow(x, h[j])
  {
    var i :| 0 <= i <= k && h[i] == x;
    assert LaterAt(h, i, j);
  }

  lemma CommitReadsGrow(h: seq<State>, cfg: ReplicationConfig, n: nat, k: nat, j: nat, from: CommitReads,
                        req: CommitRequest)
    requires n < |h| && k < j <= n && GoodUpTo(h, cfg, n)
    requires forall i :: 0 <= i < 5 ==> Seen(h, k, FileReads(CommitVersion(from, req))[i])
    ensures FilesGrow(from.versionAt, h[j]) && FilesGrow(from.layoutAt, h[j])
    ensures FilesOk(h[j]) && FilesGrow(h[k + 1], h[j])
  {
    var xs := FileReads(CommitVersion(from, req));
    assert Seen(h, k, xs[3]) && Seen(h, k, xs[4]);
    SeenFilesGrow(h, cfg, n, k, j, from.versionAt);
    SeenFilesGrow(h, cfg, n, k, j, from.layoutAt);
    assert LaterAt(h, k + 1, j) && InvAt(h, cfg, j);
  }

  lemma CommittedReads(h: seq<State>, es: seq<Step>, cfg: ReplicationConfig, k: nat, j: nat, from: CommitReads,
                       req: CommitRequest)
    requires Run(h, es, cfg) && k < j < |h| && es[k].event == OnFiles(CommitVersion(from, req))
    ensures FilesGrow(from.versionAt, h[j]) && FilesGrow(from.layoutAt, h[j])
    ensures FilesOk(h[j]) && FilesGrow(h[k + 1], h[j])
  {
    FileStepFacts(h, es, cfg, k, CommitVersion(from, req));
    RunIsGood(h, es, cfg, |es|);
    CommitReadsGrow(h, cfg, |es|, k, j, from, req);
  }

  lemma CommittedIsStored(h: seq<State>, es: seq<Step>, cfg: ReplicationConfig, k: nat, v: FileVersionId)
    requires Run(h, es, cfg) && k < |es| && Committed(h, es, cfg, k, v)
    ensures var req := es[k].event.file.commit;
      && v in h[k + 1].versions && h[k + 1].versions[v] == req.version
      && req.layout.id in h[k + 1].layouts && h[k + 1].layouts[req.layout.id] == req.layout
  {
    var x := es[k].event.file;
    CommitStepFacts(h, es, cfg, k, x.from, x.commit);
    CommitWritesOne(h[k], x.from, x.commit, cfg, es[k].now, es[k].at);
  }

  /**
   In every run every stored version was committed by some step, and each byte
   of its layout is in a chunk that this commit brought or resolves as in the
   stored layout of its parent.
   */
  lemma VersionsInheritBytes(h: seq<State>, es: seq<Step>, cfg: ReplicationConfig, j: nat, v: FileVersionId)
    returns (k: nat)
    requires Run(h, es, cfg) && j < |h| && v in h[j].versions
    ensures k < j && Committed(h, es, cfg, k, v) && FilesOk(h[j])
    ensures forall b: nat :: ByteIsSourced(h[j], v, es[k].event.file.commit.receipts, b)
  {
    k := VersionsAreCommitted(h, es, cfg, j, v);
    CommittedReads(h, es, cfg, k, j, es[k].event.file.from, es[k].event.file.commit);
    CommittedIsStored(h, es, cfg, k, v);
    CommittedBytesAreSourced(h[j], es[k].event.file.from, es[k].event.file.commit, cfg, es[k].now);
  }
}
