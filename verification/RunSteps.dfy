/**
 The remaining events of a run, and the theorem that every event is a good step.
 */
module RunSteps {
  import opened Records
  import opened MetaStore
  import opened NamespaceEffects
  import opened InodeHistory
  import opened Leases
  import opened Replication
  import opened FileHistory
  import opened RepairPlans
  import opened RepairSafety
  import opened ReportSafety
  import opened RepairClaims
  import opened OwnerRoots
  import opened RootSafety
  import opened RequestLog
  import opened MetaRun
  import opened NamespaceSteps
  import opened FileSteps

  // ------------------------------------------------------------------- metadata

  lemma SetMetadataStep(s: State, inodeAt: State, req: MetadataRequest, cfg: ReplicationConfig, at: nat)
    requires Inv(s, cfg) && Headroom(s) && PlanSetMetadata(inodeAt, req).Planned?
    ensures StepAside(s, Commit(s, PlanSetMetadata(inodeAt, req).txn, at), cfg)
  {
    var current := GetInode(inodeAt, req.inode).value;
    UpdateStep(s, req.Key(), DfsSetInodeMetadata, current, WithMetadata(current, req.attrs, req.xattrs), None, cfg, at);
  }

  lemma SyncStep(s: State, inodeAt: State, leaseAt: State, req: SyncRequest, cfg: ReplicationConfig, now: nat, at: nat)
    requires Inv(s, cfg) && Headroom(s) && PlanSync(inodeAt, leaseAt, req, now).Planned?
    ensures StepAside(s, Commit(s, PlanSync(inodeAt, leaseAt, req, now).txn, at), cfg)
  {
    var current := GetInode(inodeAt, req.inode).value;
    var stored := ValidLease(leaseAt, req.caller, req.inode, req.lease, now).value;
    UpdateStep(s, req.Key(), DfsSyncInodeMetadata, current,
               Synced(current, req.mtime.value, req.ctime.value, req.killPriv), Some(stored), cfg, at);
  }

  // ----------------------------------------------------- sessions and the config

  lemma ConfigStep(s: State, cfg: ReplicationConfig, at: nat)
    requires Inv(s, cfg)
    ensures StepAside(s, Commit(s, ConfigTxn(cfg), at), cfg)
  {
    var txn := ConfigTxn(cfg);
    var o := RequestOutcome(txn.request, DfsInitializeReplicationConfig, EmptyResult);
    assert txn.mutations[1] == RecordOutcome(o);
    PlainStep(s, txn, at, o, cfg);
    CommitFrame(s, txn, at, REST);
    QuietStep(s, Commit(s, txn, at), cfg);
  }

  lemma RegisterLogs(s: State, request: RequestKey, lease: SessionLease, at: nat)
    requires RevisionsOk(s) && CanRegister(s, request, lease, at)
    ensures LogStep(s, RegisterSession(s, request, lease, at))
  {
    var t := RegisterSession(s, request, lease, at);
    forall g ensures GrantAges(s, t, g) {}
    forall n ensures SessionAges(s, t, n) {}
  }

  lemma RegisterFrame(s: State, request: RequestKey, lease: SessionLease, at: nat)
    requires CanRegister(s, request, lease, at)
    ensures OnlyChanged(s, RegisterSession(s, request, lease, at), REST)
  {
    forall a | a !in REST ensures Kept(s, RegisterSession(s, request, lease, at), a) { match a case _ => }
  }

  lemma RegisterStep(s: State, request: RequestKey, lease: SessionLease, cfg: ReplicationConfig, at: nat)
    requires Inv(s, cfg)
    ensures StepAside(s, RegisterSession(s, request, lease, at), cfg)
  {
    if CanRegister(s, request, lease, at) {
      RegisterLogs(s, request, lease, at);
      RegisterFrame(s, request, lease, at);
      QuietStep(s, RegisterSession(s, request, lease, at), cfg);
    } else {
      IdleStep(s, cfg);
    }
  }

  // --------------------------------------------------------------------- repair

  /** What is left to show for a repair transaction. */
  lemma RepairStep(s: State, t: State, cfg: ReplicationConfig)
    requires Inv(s, cfg) && OnlyChanged(s, t, REPAIR) && LogStep(s, t) && StockStep(s, t, cfg)
    requires forall c :: c in s.placements ==> c in t.placements
    ensures StepAside(s, t, cfg)
  {
    assert Kept(s, t, OfGrants);
    TreeKept(s, t, REPAIR);
    LeasesKept(s, t, REPAIR);
    FilesKept(s, t, REPAIR);
    RootsKept(s, t, REPAIR);
  }

  lemma {:induction false} PlacementsStay(m: map<ChunkId, PlacementRecord>, ms: seq<TxnMutation>, n: nat,
                                          o: RequestOutcome)
    requires n <= |ms| && AllPlain(ms, o)
    ensures forall c :: c in m ==> c in PlacementsAfter(m, ms, n)
  {
    if n > 0 {
      PlacementsStay(m, ms, n - 1, o);
      assert PlainMutation(ms[n - 1], o);
    }
  }

  /** Plain transactions drop no placement. */
  lemma PlainKeepsPlacements(s: State, txn: MetaTxn, at: nat, o: RequestOutcome)
    requires Plain(txn, o)
    ensures forall c :: c in s.placements ==> c in Commit(s, txn, at).placements
  {
    PlacementsStay(s.placements, txn.mutations, |txn.mutations|, o);
  }

  lemma RepairTxnStep(s: State, txn: MetaTxn, o: RequestOutcome, cfg: ReplicationConfig, at: nat)
    requires Inv(s, cfg) && Plain(txn, o)
    requires OnlyChanged(s, Commit(s, txn, at), REPAIR) && StockStep(s, Commit(s, txn, at), cfg)
    ensures StepAside(s, Commit(s, txn, at), cfg)
  {
    PlainStep(s, txn, at, o, cfg);
    PlainKeepsPlacements(s, txn, at, o);
    RepairStep(s, Commit(s, txn, at), cfg);
  }

  lemma PlanClaimPlain(from: ClaimReads, w: Worker, cfg: ReplicationConfig, leaseSeconds: nat, now: nat)
    returns (o: RequestOutcome)
    requires PlanClaim(from, w, cfg, leaseSeconds, now).Planned?
    ensures Plain(PlanClaim(from, w, cfg, leaseSeconds, now).txn, o) && BoundTo(o.result, o.operation, w.digest)
    ensures ChecksFirst(PlanClaim(from, w, cfg, leaseSeconds, now).txn)
  {
    var session := CurrentSession(from.callerAt, w, now).value;
    var task := Candidate(from.placementsAt.placements, from.tasksAt.tasks, from.choice, now).value;
    var p := from.placementAt.placements[task.chunk];
    o := PlanClaimForPlain(from, w, session, task, p, RetiredConditions(from.workerAt, task, now).value, cfg,
                           leaseSeconds, now);
  }

  lemma PlanClaimForPlain(from: ClaimReads, w: Worker, session: NodeSession, task: ReplicationTask, p: PlacementRecord,
                          retired: seq<TxnCondition>, cfg: ReplicationConfig, leaseSeconds: nat, now: nat)
    returns (o: RequestOutcome)
    requires PlanClaimFor(from, w, session, task, p, retired, cfg, leaseSeconds, now).Planned?
    ensures Plain(PlanClaimFor(from, w, session, task, p, retired, cfg, leaseSeconds, now).txn, o)
    ensures BoundTo(o.result, o.operation, w.digest)
    ensures w.Key().IsValid() ==>
      ChecksFirst(PlanClaimFor(from, w, session, task, p, retired, cfg, leaseSeconds, now).txn)
  {
    if from.live == 0 {
      o := ClaimOutcome(w, None);
      DebtPlain(w, TaskCondition(from.taskAt, task, true).value, p, PlacementBlocked, BlockedTask(task, now), [],
                retired);
    } else {
      match Select(from, w, session, task, cfg, now)
      case Ok(None) =>
        o := ClaimOutcome(w, None);
        DebtPlain(w, TaskCondition(from.taskAt, task, p.health != UnderReplicated).value, p, UnderReplicated, task,
                  [EntityEquals(ConfigEntity(cfg))], retired);
      case Ok(Some(x)) =>
        var claim := NewClaim(w, task, x.chunk, x.source.id, x.group, from.sessionsRevision, cfg, leaseSeconds, now);
        o := ClaimOutcome(w, Some(claim));
        ClaimPlain(w, TaskCondition(from.taskAt, task, true).value, x.placement, x.chunk, x.source, cfg, task, claim,
                   retired);
    }
  }

  lemma ClaimEventStep(s: State, from: ClaimReads, w: Worker, leaseSeconds: nat, cfg: ReplicationConfig, now: nat,
                       at: nat)
    requires Inv(s, cfg) && ClaimReadsOk(from, cfg) && PlanClaim(from, w, cfg, leaseSeconds, now).Planned?
    ensures StepAside(s, Commit(s, PlanClaim(from, w, cfg, leaseSeconds, now).txn, at), cfg)
  {
    PlanClaimKeeps(s, from, w, cfg, leaseSeconds, now, at);
    PlanClaimFresh(s, from, w, cfg, leaseSeconds, now, at);
    var o := PlanClaimPlain(from, w, cfg, leaseSeconds, now);
    RepairTxnStep(s, PlanClaim(from, w, cfg, leaseSeconds, now).txn, o, cfg, at);
  }

  lemma ReportPlain(w: Worker, conditions: seq<TxnCondition>, puts: seq<TxnMutation>, task: ReplicationTask)
    requires forall i :: 0 <= i < |puts| ==> puts[i].Put?
    ensures Plain(ReportTxn(w, conditions, puts, task),
                  RequestOutcome(w.Key(), DfsReportReplicationTask, NamespaceResult(w.digest, TaskResult(task))))
  {
    var o := RequestOutcome(w.Key(), DfsReportReplicationTask, NamespaceResult(w.digest, TaskResult(task)));
    var ms := ReportTxn(w, conditions, puts, task).mutations;
    assert ms[|puts| + 1] == RecordOutcome(o);
    forall i | 0 <= i < |ms| ensures PlainMutation(ms[i], o) {
      if i < |puts| { assert puts[i].Put?; }
    }
  }

  lemma PlanReportPlain(from: ReportReads, w: Worker, claim: ReplicationClaim, report: Report, cfg: ReplicationConfig,
                        now: nat)
    returns (o: RequestOutcome)
    requires PlanReport(from, w, claim, report, cfg, now).Planned?
    ensures Plain(PlanReport(from, w, claim, report, cfg, now).txn, o) && BoundTo(o.result, o.operation, w.digest)
  {
    var txn := PlanReport(from, w, claim, report, cfg, now).txn;
    var task := from.taskAt.tasks[claim.task];
    var n := |txn.mutations| - 2;
    var puts := txn.mutations[..n];
    assert txn.mutations[n].Put? && txn.mutations[n].entity.TaskEntity?;
    var after := txn.mutations[n].entity.task;
    assert txn == ReportTxn(w, txn.conditions, puts, after);
    ReportPlain(w, txn.conditions, puts, after);
    o := RequestOutcome(w.Key(), DfsReportReplicationTask, NamespaceResult(w.digest, TaskResult(after)));
  }

  lemma ReportEventStep(s: State, from: ReportReads, w: Worker, claim: ReplicationClaim, report: Report,
                        cfg: ReplicationConfig, now: nat, at: nat)
    requires Inv(s, cfg) && ReportReadsOk(from, cfg) && PlanReport(from, w, claim, report, cfg, now).Planned?
    ensures StepAside(s, Commit(s, PlanReport(from, w, claim, report, cfg, now).txn, at), cfg)
  {
    PlanReportKeeps(s, from, w, claim, report, cfg, now, at);
    ClaimlessIsFresh(s, Commit(s, PlanReport(from, w, claim, report, cfg, now).txn, at));
    var o := PlanReportPlain(from, w, claim, report, cfg, now);
    RepairTxnStep(s, PlanReport(from, w, claim, report, cfg, now).txn, o, cfg, at);
  }

  lemma CorruptionPlain(w: Worker, session: NodeSession, chunk: ChunkObject, p: PlacementRecord, task: TxnCondition,
                        attempt: nat, observed: seq<CopyRecord>, live: nat, c: Corruption, cfg: ReplicationConfig,
                        now: nat)
    requires CorruptionPlan(w, session, chunk, p, task, attempt, observed, live, c, cfg, now).Planned?
    ensures Plain(CorruptionPlan(w, session, chunk, p, task, attempt, observed, live, c, cfg, now).txn,
                  CorruptionOutcome(w))
  {
    var ms := CorruptionPlan(w, session, chunk, p, task, attempt, observed, live, c, cfg, now).txn.mutations;
    assert ms[|ms| - 1] == RecordOutcome(CorruptionOutcome(w));
  }

  lemma CorruptionEventStep(s: State, from: CorruptionReads, w: Worker, c: Corruption, cfg: ReplicationConfig, now: nat,
                            at: nat)
    requires Inv(s, cfg) && CorruptionReadsOk(from, cfg) && PlanCorruption(from, w, c, cfg, now).Planned?
    ensures StepAside(s, Commit(s, PlanCorruption(from, w, c, cfg, now).txn, at), cfg)
  {
    PlanCorruptionKeeps(s, from, w, c, cfg, now, at);
    ClaimlessIsFresh(s, Commit(s, PlanCorruption(from, w, c, cfg, now).txn, at));
    var id := RepairTask(c.chunk);
    CorruptionPlain(w, CurrentSession(from.callerAt, w, now).value, from.chunkAt.chunks[c.chunk],
                    from.placementAt.placements[c.chunk],
                    ObservedTask(from.taskAt, id), if id in from.taskAt.tasks then from.taskAt.tasks[id].attempt else 0,
                    from.observed, from.live, c, cfg, now);
    RepairTxnStep(s, PlanCorruption(from, w, c, cfg, now).txn, CorruptionOutcome(w), cfg, at);
  }

  // ---------------------------------------------------------------- owner roots

  lemma RootEventStep(s: State, t: State, cfg: ReplicationConfig)
    requires Inv(s, cfg) && OnlyChanged(s, t, ROOTS) && LogStep(s, t) && RootStep(s, t)
    ensures GoodStep(s, t, cfg)
  {
    TreeKept(s, t, ROOTS);
    LeasesKept(s, t, ROOTS);
    FilesKept(s, t, ROOTS);
    StockKept(s, t, ROOTS, cfg);
  }

  lemma ReserveEventStep(s: State, i: ReserveInput, cfg: ReplicationConfig, at: nat)
    requires Inv(s, cfg)
    ensures GoodStep(s, Commit(s, ReserveTxn(i), at), cfg)
  {
    var txn := ReserveTxn(i);
    var o := RequestOutcome(txn.request, ReserveRoot, ReservationResult(NewReservation(i)));
    assert txn.mutations[1] == RecordOutcome(o);
    PlainStep(s, txn, at, o, cfg);
    if Commits(s, txn, at) {
      CommitFrame(s, txn, at, ROOTS);
      ReserveKeeps(s, i, at);
      RootEventStep(s, Commit(s, txn, at), cfg);
    } else {
      IdleStep(s, cfg);
    }
  }

  lemma ActivateEventStep(s: State, request: string, r: RootReservation, prepareId: string, cfg: ReplicationConfig,
                          at: nat)
    requires Inv(s, cfg)
    ensures GoodStep(s, Commit(s, ActivateTxn(request, r, prepareId), at), cfg)
  {
    var txn := ActivateTxn(request, r, prepareId);
    var g := HomeGrant(ActivatedRoot(r, prepareId), 1);
    var o := RequestOutcome(txn.request, ActivateRoot, GrantResult(g));
    ActivateMaps(s, ActivatedRoot(r, prepareId), g, o);
    PlainStep(s, txn, at, o, cfg);
    if Commits(s, txn, at) {
      CommitFrame(s, txn, at, ROOTS);
      ActivateKeeps(s, request, r, prepareId, at);
      RootEventStep(s, Commit(s, txn, at), cfg);
    } else {
      IdleStep(s, cfg);
    }
  }

  lemma AbortEventStep(s: State, request: string, r: RootReservation, root: string, session: SessionId,
                       cfg: ReplicationConfig, at: nat)
    requires Inv(s, cfg)
    ensures GoodStep(s, Commit(s, AbortTxn(request, r, root, session), at), cfg)
  {
    var txn := AbortTxn(request, r, root, session);
    var o := RequestOutcome(txn.request, AbortRoot, EmptyResult);
    assert txn.mutations[1] == RecordOutcome(o);
    PlainStep(s, txn, at, o, cfg);
    if Commits(s, txn, at) {
      CommitFrame(s, txn, at, ROOTS);
      AbortKeeps(s, request, r, root, session, at);
      RootEventStep(s, Commit(s, txn, at), cfg);
    } else {
      IdleStep(s, cfg);
    }
  }

  lemma AcquireEventStep(s: State, i: AcquireInput, grant: RootGrant, holder: TxnCondition, cfg: ReplicationConfig,
                         at: nat)
    requires Inv(s, cfg)
    ensures GoodStep(s, Commit(s, AcquireTxn(i, grant, holder), at), cfg)
  {
    var txn := AcquireTxn(i, grant, holder);
    var o := RequestOutcome(txn.request, AcquireRoot, GrantResult(grant));
    assert txn.mutations[1] == RecordOutcome(o);
    PlainStep(s, txn, at, o, cfg);
    CommitFrame(s, txn, at, {OfRequests, OfGrants});
    CommitFrame(s, txn, at, ROOTS);
    RootsKept(s, Commit(s, txn, at), {OfRequests, OfGrants});
    RootEventStep(s, Commit(s, txn, at), cfg);
  }

  lemma RecoverLogs(s: State, request: string, root: RootRecord, generation: nat, cfg: ReplicationConfig, at: nat)
    requires Inv(s, cfg)
    ensures LogStep(s, Commit(s, RecoverTxn(request, root, generation), at))
    ensures OnlyChanged(s, Commit(s, RecoverTxn(request, root, generation), at), ROOTS)
  {
    var txn := RecoverTxn(request, root, generation);
    var o := RequestOutcome(txn.request, RecoverRoot, GrantResult(HomeGrant(root, generation)));
    assert txn.mutations[2] == RecordOutcome(o);
    PlainStep(s, txn, at, o, cfg);
    CommitFrame(s, txn, at, ROOTS);
  }

  lemma RecoverEventStep(s: State, rootAt: State, grantAt: State, i: RecoverInput, cfg: ReplicationConfig, at: nat)
    requires Inv(s, cfg) && RootsOk(rootAt) && RootsStay(rootAt, s) && PlanRecover(rootAt, grantAt, i).Planned?
    ensures GoodStep(s, Commit(s, PlanRecover(rootAt, grantAt, i).txn, at), cfg)
  {
    var was := rootAt.roots[i.root];
    var home := GrantKey(was.root, was.homeNode, was.homeSession);
    var generation := if home in grantAt.grants then SatAdd64(grantAt.grants[home].generation, 1) else 1;
    RecoverLogs(s, i.request, was.(homeSession := i.session), generation, cfg, at);
    if Commits(s, PlanRecover(rootAt, grantAt, i).txn, at) {
      RecoverKeeps(s, rootAt, grantAt, i, at);
      RootEventStep(s, Commit(s, PlanRecover(rootAt, grantAt, i).txn, at), cfg);
    } else {
      IdleStep(s, cfg);
    }
  }

  // ------------------------------------------------------------------ all events

  function TreeReads(e: TreeEvent): seq<State>
  {
    match e
    case StartNamespace(_) => []
    case Add(p, _, _) => [p]
    case MakeLink(p, v, _) => [p, v]
    case Unlink(p, v, _) => [p, v]
    case Rename(o, n, v, _) => [o, n, v]
  }

  function FileReads(e: FileEvent): seq<State>
  {
    match e
    case StartReplication => []
    case SetMetadata(i, _) => [i]
    case AcquireLease(i, l, _) => [i, l]
    case RenewLease(l, _, _) => [l]
    case SyncMetadata(i, l, _) => [i, l]
    case CommitVersion(f, _) => [f.inodeAt, f.leaseAt, f.configAt, f.versionAt, f.layoutAt]
  }

  function RepairReads(e: RepairEvent): seq<State>
  {
    match e
    case ClaimRepair(f, _, _) =>
      [f.callerAt, f.configAt, f.placementsAt, f.tasksAt, f.workerAt, f.placementAt, f.chunkAt, f.buildAt, f.copyAt,
       f.taskAt]
    case ReportRepair(f, _, _, _) => [f.callerAt, f.taskAt, f.placementAt, f.chunkAt, f.copyAt, f.configAt]
    case ReportCorruption(f, _, _) => [f.callerAt, f.chunkAt, f.placementAt, f.configAt, f.taskAt]
  }

  function OwnerReads(e: OwnerEvent): seq<State>
  {
    match e
    case Reserve(r, _) => [r]
    case Activate(r, _, _, _) => [r]
    case Abort(r, _) => [r]
    case AcquireAccess(r, h, g, _) => [r, h, g]
    case Recover(r, g, _) => [r, g]
  }

  /** The states an event reads. */
  function ReadsOf(e: Event): seq<State>
  {
    match e
    case Register(_, _) => []
    case OnTree(x) => TreeReads(x)
    case OnFiles(x) => FileReads(x)
    case OnRepair(x) => RepairReads(x)
    case OnRoots(x) => OwnerReads(x)
  }

  /** What the model assumes of callers: a created file has one link, and chunk ids are derived from content. */
  ghost predicate Honest(e: Event)
  {
    && (e.OnTree? && e.tree.Add? && e.tree.add.what.NewFile? ==> e.tree.add.attrs.nlink == 1)
    && (e.OnFiles? && e.file.CommitVersion? ==> HonestReceipts(e.file.commit))
  }

  /** A state read earlier in the run. */
  ghost predicate WasRead(x: State, s: State, cfg: ReplicationConfig) { Inv(x, cfg) && Later(x, s) && Headroom(x) }

  ghost predicate AllRead(xs: seq<State>, s: State, cfg: ReplicationConfig)
  {
    forall i {:trigger WasRead(xs[i], s, cfg)} :: 0 <= i < |xs| ==> WasRead(xs[i], s, cfg)
  }

  lemma TreeEventStep(s: State, e: TreeEvent, cfg: ReplicationConfig, now: nat, at: nat)
    requires Inv(s, cfg) && Headroom(s) && AllRead(TreeReads(e), s, cfg)
    requires e.Add? && e.add.what.NewFile? ==> e.add.attrs.nlink == 1
    ensures StepAside(s, Submit(s, PlanTree(e, now), at), cfg)
  {
    if PlanTree(e, now).Refused? {
      IdleStep(s, cfg);
    } else {
      match e
      case StartNamespace(ns) => StartStep(s, ns, cfg, at);
      case Add(p, req, id) =>
        assert IdsOk(p) by { assert WasRead(TreeReads(e)[0], s, cfg); }
        AddStep(s, p, req, id, cfg, now, at);
      case MakeLink(p, v, req) =>
        assert IdsOk(p) by { assert WasRead(TreeReads(e)[0], s, cfg); }
        LinkStep(s, p, v, req, cfg, now, at);
      case Unlink(p, v, req) =>
        assert IdsOk(p) by { assert WasRead(TreeReads(e)[0], s, cfg); }
        UnlinkStep(s, p, v, req, cfg, now, at);
      case Rename(o, n, v, req) =>
        assert IdsOk(o) by { assert WasRead(TreeReads(e)[0], s, cfg); }
        assert IdsOk(n) by { assert WasRead(TreeReads(e)[1], s, cfg); }
        RenameStep(s, o, n, v, req, cfg, now, at);
    }
  }

  lemma FileEventStep(s: State, e: FileEvent, cfg: ReplicationConfig, now: nat, at: nat)
    requires Inv(s, cfg) && Headroom(s) && AllRead(FileReads(e), s, cfg)
    requires e.CommitVersion? ==> HonestReceipts(e.commit)
    ensures StepAside(s, Submit(s, PlanFile(e, cfg, now), at), cfg)
  {
    if PlanFile(e, cfg, now).Refused? {
      IdleStep(s, cfg);
    } else {
      match e
      case StartReplication => ConfigStep(s, cfg, at);
      case SetMetadata(i, req) => SetMetadataStep(s, i, req, cfg, at);
      case AcquireLease(i, l, req) =>
        assert LeasesKeyed(l) && Headroom(l) by { assert WasRead(FileReads(e)[1], s, cfg); }
        AcquireStep(s, i, l, req, cfg, now, at);
      case RenewLease(l, req, shown) => RenewStep(s, l, req, shown, cfg, now, at);
      case SyncMetadata(i, l, req) => SyncStep(s, i, l, req, cfg, now, at);
      case CommitVersion(f, req) =>
        assert IdsOk(f.inodeAt) by { assert WasRead(FileReads(e)[0], s, cfg); }
        assert FilesOk(f.layoutAt) && FilesGrow(f.layoutAt, s) by { assert WasRead(FileReads(e)[4], s, cfg); }
        CommitVersionStep(s, f, req, cfg, now, at);
    }
  }

  lemma StockWasOk(xs: seq<State>, s: State, cfg: ReplicationConfig, i: nat)
    requires AllRead(xs, s, cfg) && i < |xs|
    ensures StockOk(StockOf(xs[i]), cfg)
  {
    assert WasRead(xs[i], s, cfg);
  }

  lemma ClaimReadsAre(f: ClaimReads, w: Worker, seconds: nat, s: State, cfg: ReplicationConfig)
    requires AllRead(RepairReads(ClaimRepair(f, w, seconds)), s, cfg)
    ensures ClaimReadsOk(f, cfg) && StockOk(StockOf(f.taskAt), cfg)
  {
    var xs := RepairReads(ClaimRepair(f, w, seconds));
    StockWasOk(xs, s, cfg, 2);
    StockWasOk(xs, s, cfg, 3);
    StockWasOk(xs, s, cfg, 5);
    StockWasOk(xs, s, cfg, 6);
    StockWasOk(xs, s, cfg, 9);
  }

  lemma ReportReadsAre(f: ReportReads, w: Worker, claim: ReplicationClaim, report: Report, s: State,
                       cfg: ReplicationConfig)
    requires AllRead(RepairReads(ReportRepair(f, w, claim, report)), s, cfg)
    ensures ReportReadsOk(f, cfg)
  {
    var xs := RepairReads(ReportRepair(f, w, claim, report));
    StockWasOk(xs, s, cfg, 1);
    StockWasOk(xs, s, cfg, 2);
    StockWasOk(xs, s, cfg, 4);
  }

  lemma CorruptionReadsAre(f: CorruptionReads, w: Worker, c: Corruption, s: State, cfg: ReplicationConfig)
    requires AllRead(RepairReads(ReportCorruption(f, w, c)), s, cfg)
    ensures CorruptionReadsOk(f, cfg)
  {
    var xs := RepairReads(ReportCorruption(f, w, c));
    StockWasOk(xs, s, cfg, 1);
    StockWasOk(xs, s, cfg, 2);
  }

  lemma RepairEventStep(s: State, e: RepairEvent, cfg: ReplicationConfig, now: nat, at: nat)
    requires Inv(s, cfg) && AllRead(RepairReads(e), s, cfg)
    ensures StepAside(s, Submit(s, PlanRepair(e, cfg, now), at), cfg)
  {
    if PlanRepair(e, cfg, now).Refused? {
      IdleStep(s, cfg);
    } else {
      match e
      case ClaimRepair(f, w, seconds) =>
        ClaimReadsAre(f, w, seconds, s, cfg);
        ClaimEventStep(s, f, w, seconds, cfg, now, at);
      case ReportRepair(f, w, claim, report) =>
        ReportReadsAre(f, w, claim, report, s, cfg);
        ReportEventStep(s, f, w, claim, report, cfg, now, at);
      case ReportCorruption(f, w, c) =>
        CorruptionReadsAre(f, w, c, s, cfg);
        CorruptionEventStep(s, f, w, c, cfg, now, at);
    }
  }

  lemma AcquireAccessStep(s: State, rootAt: State, homeAt: State, holderAt: State, i: AcquireInput,
                          cfg: ReplicationConfig, at: nat)
    requires Inv(s, cfg) && PlanAcquireRoot(rootAt, homeAt, holderAt, i).Planned?
    ensures GoodStep(s, Commit(s, PlanAcquireRoot(rootAt, homeAt, holderAt, i).txn, at), cfg)
  {
    var root := rootAt.roots[i.root];
    var holder := GrantKey(root.root, i.node, i.session);
    var generation := homeAt.grants[GrantKey(root.root, root.homeNode, root.homeSession)].generation;
    var kept := KeptRights(holderAt.grants, holder, Access(root.epoch, root.homeSession, generation));
    AcquireEventStep(s, i, AcquiredGrant(root, i, generation, kept), HolderCondition(holderAt, holder), cfg, at);
  }

  lemma PlanActivateStep(s: State, reservationAt: State, request: string, shown: RootReservation, prepareId: string,
                         cfg: ReplicationConfig, at: nat)
    requires Inv(s, cfg) && PlanActivate(reservationAt, request, shown, prepareId).Planned?
    ensures GoodStep(s, Commit(s, PlanActivate(reservationAt, request, shown, prepareId).txn, at), cfg)
  {
    ActivateEventStep(s, request, reservationAt.reservations[shown.root], prepareId, cfg, at);
  }

  lemma PlanAbortStep(s: State, reservationAt: State, i: AbortInput, cfg: ReplicationConfig, at: nat)
    requires Inv(s, cfg) && PlanAbort(reservationAt, i).Planned?
    ensures GoodStep(s, Commit(s, PlanAbort(reservationAt, i).txn, at), cfg)
  {
    var txn := AbortTxn(i.request, reservationAt.reservations[i.root], i.root, i.session);
    AbortEventStep(s, i.request, reservationAt.reservations[i.root], i.root, i.session, cfg, at);
    assert PlanAbort(reservationAt, i).txn == txn;
  }

  lemma OwnerEventStep(s: State, e: OwnerEvent, cfg: ReplicationConfig, at: nat)
    requires Inv(s, cfg) && AllRead(OwnerReads(e), s, cfg)
    ensures GoodStep(s, Submit(s, PlanOwner(e), at), cfg)
  {
    if PlanOwner(e).Refused? {
      IdleStep(s, cfg);
    } else {
      match e
      case Reserve(r, i) => ReserveEventStep(s, i, cfg, at);
      case Activate(r, q, x, p) => PlanActivateStep(s, r, q, x, p, cfg, at);
      case Abort(r, i) => PlanAbortStep(s, r, i, cfg, at);
      case AcquireAccess(r, h, g, i) => AcquireAccessStep(s, r, h, g, i, cfg, at);
      case Recover(r, g, i) =>
        assert RootsOk(r) && RootsStay(r, s) by { assert WasRead(OwnerReads(e)[0], s, cfg); }
        RecoverEventStep(s, r, g, i, cfg, at);
    }
  }

  /** Every event of the authority, planned from any earlier states, is a good step. */
  lemma EventStep(s: State, e: Event, cfg: ReplicationConfig, now: nat, at: nat)
    requires Inv(s, cfg) && Headroom(s) && AllRead(ReadsOf(e), s, cfg) && Honest(e)
    ensures GoodStep(s, Next(s, e, cfg, now, at), cfg)
    ensures !e.OnRoots? ==> Next(s, e, cfg, now, at).grants == s.grants
  {
    match e
    case Register(request, lease) => RegisterStep(s, request, lease, cfg, at);
    case OnTree(x) => TreeEventStep(s, x, cfg, now, at);
    case OnFiles(x) => FileEventStep(s, x, cfg, now, at);
    case OnRepair(x) => RepairEventStep(s, x, cfg, now, at);
    case OnRoots(x) => OwnerEventStep(s, x, cfg, at);
  }
}
