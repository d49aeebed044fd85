/**
 Runs of the metadata authority: any interleaving of transactions planned from
 any earlier states, together with session registration.  `Inv` holds in every
 state of a run and `Later` between any two; each step owes the parts below.
 */
module MetaRun {
  import opened Records
  import opened MetaStore
  import opened NamespacePlans
  import opened NamespaceEffects
  import opened NamespaceSafety
  import opened InodeHistory
  import opened Leases
  import opened Replication
  import opened FileCommits
  import opened FileHistory
  import opened RepairPlans
  import opened RepairClaims
  import opened OwnerRoots
  import opened RootSafety
  import opened RequestLog

  // -------------------------------------------------------------------- events

  datatype TreeEvent =
    | StartNamespace(ns: NamespaceId)
    | Add(parentAt: State, add: AddRequest, id: InodeId)
    | MakeLink(parentAt: State, view: State, link: LinkRequest)
    | Unlink(parentAt: State, view: State, remove: RemoveRequest)
    | Rename(oldAt: State, newAt: State, view: State, rename: RenameRequest)

  datatype FileEvent =
    | StartReplication
    | SetMetadata(inodeAt: State, metadata: MetadataRequest)
    | AcquireLease(inodeAt: State, leaseAt: State, acquire: LeaseRequest)
    | RenewLease(leaseAt: State, renew: LeaseRequest, shown: WriteLease)
    | SyncMetadata(inodeAt: State, leaseAt: State, sync: SyncRequest)
    | CommitVersion(from: CommitReads, commit: CommitRequest)

  datatype RepairEvent =
    | ClaimRepair(claimFrom: ClaimReads, worker: Worker, leaseSeconds: nat)
    | ReportRepair(reportFrom: ReportReads, worker: Worker, claim: ReplicationClaim, report: Report)
    | ReportCorruption(corruptionFrom: CorruptionReads, worker: Worker, corruption: Corruption)

  datatype OwnerEvent =
    | Reserve(reservationAt: State, reserve: ReserveInput)
    | Activate(reservationAt: State, request: string, shown: RootReservation, prepareId: string)
    | Abort(reservationAt: State, abort: AbortInput)
    | AcquireAccess(rootAt: State, homeAt: State, holderAt: State, access: AcquireInput)
    | Recover(rootAt: State, grantAt: State, recover: RecoverInput)

  /** One event: a registration, or a transaction planned from the states it carries. */
  datatype Event =
    | Register(request: RequestKey, lease: SessionLease)
    | OnTree(tree: TreeEvent)
    | OnFiles(file: FileEvent)
    | OnRepair(repair: RepairEvent)
    | OnRoots(owner: OwnerEvent)

  datatype SessionLease = SessionLease(node: NodeId, session: SessionId, dataAddr: string, devices: seq<Device>,
                                       ttl: nat)

  // -------------------------------------------------------------- registration

  predicate IsHeartbeat(s: State, lease: SessionLease, at: nat)
  {
    lease.node in s.current && s.current[lease.node].session == lease.session && s.current[lease.node].IsLive(at)
  }

  /** A heartbeat of the live current session keeps its epoch; any other session starts a new one. */
  function SessionEpoch(s: State, lease: SessionLease, at: nat): nat
  {
    if IsHeartbeat(s, lease, at) then s.current[lease.node].epoch
    else SatAdd64(if lease.node in s.nodeEpochs then s.nodeEpochs[lease.node] else 0, 1)
  }

  predicate CanRegister(s: State, request: RequestKey, lease: SessionLease, at: nat)
  {
    && lease.node != "" && lease.session != "" && lease.ttl > 0 && request !in s.requests && request.IsValid()
    && ((lease.node, lease.session) in s.sessions ==> s.sessions[(lease.node, lease.session)].IsLive(at))
  }

  function RegisterSession(s: State, request: RequestKey, lease: SessionLease, at: nat): State
  {
    if !CanRegister(s, request, lease, at) then s
    else
      var epoch := SessionEpoch(s, lease, at);
      var session := NodeSession(lease.node, lease.session, lease.dataAddr, lease.devices, epoch,
                                 SatAdd64(at, lease.ttl));
      s.(revision := s.revision + 1,
         modRev := s.modRev[SessionAt(lease.node, lease.session) := s.revision + 1]
                           [CurrentSessionAt(lease.node) := s.revision + 1],
         requests := s.requests[request := RequestOutcome(request, RegisterNode, SessionResult(session))],
         sessions := s.sessions[(lease.node, lease.session) := session],
         current := s.current[lease.node := session],
         nodeEpochs := if IsHeartbeat(s, lease, at) then s.nodeEpochs else s.nodeEpochs[lease.node := epoch])
  }

  // --------------------------------------------------------------------- steps

  function ConfigTxn(cfg: ReplicationConfig): MetaTxn
  {
    var key := RequestKey("afs-meta", "dfs-replication-config-v1");
    MetaTxn(key, DfsInitializeReplicationConfig,
            [ RequestAbsent(key), Missing(ConfigAt) ],
            [ Put(ConfigEntity(cfg)), RecordOutcome(RequestOutcome(key, DfsInitializeReplicationConfig, EmptyResult)) ])
  }

  ghost function PlanTree(e: TreeEvent, now: nat): Plan
  {
    match e
    case StartNamespace(ns) => Planned(RootTxn(ns))
    case Add(p, req, id) => PlanAdd(p, req, id, now)
    case MakeLink(p, v, req) => PlanLink(p, v, req, now)
    case Unlink(p, v, req) => PlanRemove(p, v, req, now)
    case Rename(o, n, v, req) => PlanRename(o, n, v, req, now)
  }

  ghost function PlanFile(e: FileEvent, cfg: ReplicationConfig, now: nat): Plan
  {
    match e
    case StartReplication => Planned(ConfigTxn(cfg))
    case SetMetadata(i, req) => PlanSetMetadata(i, req)
    case AcquireLease(i, l, req) => PlanAcquire(i, l, req, now)
    case RenewLease(l, req, shown) => PlanRenew(l, req, shown, now)
    case SyncMetadata(i, l, req) => PlanSync(i, l, req, now)
    case CommitVersion(from, req) => PlanCommit(from, req, cfg, now)
  }

  ghost function PlanRepair(e: RepairEvent, cfg: ReplicationConfig, now: nat): Plan
  {
    match e
    case ClaimRepair(from, w, seconds) => PlanClaim(from, w, cfg, seconds, now)
    case ReportRepair(from, w, claim, report) => PlanReport(from, w, claim, report, cfg, now)
    case ReportCorruption(from, w, c) => PlanCorruption(from, w, c, cfg, now)
  }

  function PlanOwner(e: OwnerEvent): Plan
  {
    match e
    case Reserve(r, i) => PlanReserve(r, i)
    case Activate(r, q, x, p) => PlanActivate(r, q, x, p)
    case Abort(r, i) => PlanAbort(r, i)
    case AcquireAccess(r, h, g, i) => PlanAcquireRoot(r, h, g, i)
    case Recover(r, g, i) => PlanRecover(r, g, i)
  }

  ghost function PlanOf(e: Event, cfg: ReplicationConfig, now: nat): Plan
  {
    match e
    case Register(_, _) => Refused(Invalid)
    case OnTree(x) => PlanTree(x, now)
    case OnFiles(x) => PlanFile(x, cfg, now)
    case OnRepair(x) => PlanRepair(x, cfg, now)
    case OnRoots(x) => PlanOwner(x)
  }

  /** The state after a plan meets the store. */
  ghost function Submit(s: State, plan: Plan, at: nat): State { if plan.Planned? then Commit(s, plan.txn, at) else s }

  ghost function Next(s: State, e: Event, cfg: ReplicationConfig, now: nat, at: nat): State
  {
    if e.Register? then RegisterSession(s, e.request, e.lease, at) else Submit(s, PlanOf(e, cfg, now), at)
  }

  // ---------------------------------------------------------------- invariants

  ghost predicate Inv(s: State, cfg: ReplicationConfig)
  {
    && NsInv(s) && LeasesKeyed(s)
    && FilesOk(s) && HistoryOk(s)
    && StockOk(StockOf(s), cfg) && ClaimsLogged(s)
    && RootsOk(s) && RevisionsOk(s)
  }

  ghost predicate Later(s: State, t: State)
  {
    && Ages(s, t) && LeasesGrow(s, t) && FilesGrow(s, t)
    && LogGrows(s, t) && RootsStay(s, t) && RevisionsAge(s, t)
  }

  lemma LaterReflexive(s: State, cfg: ReplicationConfig)
    requires Inv(s, cfg)
    ensures Later(s, s)
  {
    AgesReflexive(s);
    forall i ensures LeaseGrows(s, s, i) {}
    forall g ensures GrantAges(s, s, g) {}
    forall n ensures SessionAges(s, s, n) {}
    forall r | r in s.roots ensures RootStays(s, s, r) {}
  }

  lemma LaterTransitive(s: State, t: State, u: State)
    requires Later(s, t) && Later(t, u)
    ensures Later(s, u)
  {
    AgesTransitive(s, t, u);
    LeasesGrowTransitive(s, t, u);
    FilesGrowTransitive(s, t, u);
    LogGrowsTransitive(s, t, u);
    RevisionsAgeTransitive(s, t, u);
    forall r | r in s.roots ensures RootStays(s, u, r) { assert RootStays(s, t, r) && RootStays(t, u, r); }
  }

  // What a step owes, part by part.

  ghost predicate TreeStep(s: State, t: State) { NsInv(t) && Ages(s, t) }

  ghost predicate LeaseStep(s: State, t: State) { LeasesKeyed(t) && LeasesGrow(s, t) }

  ghost predicate FileStep(s: State, t: State) { FilesOk(t) && HistoryOk(t) && FilesGrow(s, t) }

  ghost predicate StockStep(s: State, t: State, cfg: ReplicationConfig)
  {
    StockOk(StockOf(t), cfg) && ClaimsFresh(s, t)
  }

  ghost predicate LogStep(s: State, t: State) { LogGrows(s, t) && RevisionsOk(t) && RevisionsAge(s, t) }

  ghost predicate GoodStep(s: State, t: State, cfg: ReplicationConfig)
  {
    TreeStep(s, t) && LeaseStep(s, t) && FileStep(s, t) && StockStep(s, t, cfg) && RootStep(s, t) && LogStep(s, t)
  }

  /** A good step that also leaves every grant alone. */
  ghost predicate StepAside(s: State, t: State, cfg: ReplicationConfig) { GoodStep(s, t, cfg) && t.grants == s.grants }

  lemma GoodStepKeeps(s: State, t: State, cfg: ReplicationConfig)
    requires Inv(s, cfg) && GoodStep(s, t, cfg)
    ensures Inv(t, cfg) && Later(s, t) && ClaimsFresh(s, t) && ReservationsFresh(s, t)
  {
    FreshKeepsLogged(s, t);
  }

  // ------------------------------------------- parts a step does not touch

  lemma SameTree(s: State, t: State)
    requires NsInv(s) && t.inodes == s.inodes && t.dentries == s.dentries
    ensures TreeStep(s, t)
  {
    SameKeepsInv(s, t);
    SameAges(s, t);
  }

  lemma SameLeases(s: State, t: State)
    requires LeasesKeyed(s) && t.leases == s.leases
    ensures LeaseStep(s, t)
  {
    forall i ensures LeaseGrows(s, t, i) {}
  }

  /** Steps that write no layout and no version, and drop no placement or inode. */
  lemma SameFiles(s: State, t: State)
    requires FilesOk(s) && HistoryOk(s) && HeadsKept(s, t) && t.layouts == s.layouts
    requires forall i :: i in s.inodes ==> i in t.inodes
    requires forall c :: c in s.placements ==> c in t.placements
    ensures FileStep(s, t)
  {
    forall l | l in t.layouts ensures LayoutOk(t, l) {
      assert LayoutOk(s, l);
      MorePlacements(StockOf(s), StockOf(t), s.layouts[l].extents);
    }
    forall v | v in t.versions ensures VersionOk(t, v) { assert VersionOk(s, v); }
    HeadsKeptHistory(s, t);
  }

  lemma SameStock(s: State, t: State, cfg: ReplicationConfig)
    requires StockOk(StockOf(s), cfg) && StockOf(t) == StockOf(s)
    ensures StockStep(s, t, cfg)
  {
    assert t.tasks == s.tasks;
    ClaimlessIsFresh(s, t);
  }

  /** A step that only leaves an outcome, or nothing. */
  lemma IdleStep(s: State, cfg: ReplicationConfig)
    requires Inv(s, cfg)
    ensures StepAside(s, s, cfg)
  {
    LaterReflexive(s, cfg);
    SameStock(s, s, cfg);
    OtherStep(s, s);
  }

  // The same, from the frame of a transaction.

  lemma TreeKept(s: State, t: State, areas: set<Area>)
    requires NsInv(s) && OnlyChanged(s, t, areas) && OfInodes !in areas && OfDentries !in areas
    ensures TreeStep(s, t)
  {
    assert Kept(s, t, OfInodes) && Kept(s, t, OfDentries);
    SameTree(s, t);
  }

  lemma LeasesKept(s: State, t: State, areas: set<Area>)
    requires LeasesKeyed(s) && OnlyChanged(s, t, areas) && OfLeases !in areas
    ensures LeaseStep(s, t)
  {
    assert Kept(s, t, OfLeases);
    SameLeases(s, t);
  }

  lemma FilesKept(s: State, t: State, areas: set<Area>)
    requires FilesOk(s) && HistoryOk(s) && OnlyChanged(s, t, areas)
    requires OfInodes !in areas && OfVersions !in areas && OfLayouts !in areas
    requires OfPlacements !in areas || forall c :: c in s.placements ==> c in t.placements
    ensures FileStep(s, t)
  {
    assert Kept(s, t, OfInodes) && Kept(s, t, OfVersions) && Kept(s, t, OfLayouts);
    assert OfPlacements !in areas ==> Kept(s, t, OfPlacements);
    SameFiles(s, t);
  }

  lemma StockKept(s: State, t: State, areas: set<Area>, cfg: ReplicationConfig)
    requires StockOk(StockOf(s), cfg) && OnlyChanged(s, t, areas) && areas !! STOCK
    ensures StockStep(s, t, cfg)
  {
    assert Kept(s, t, OfChunks) && Kept(s, t, OfPlacements) && Kept(s, t, OfCopies) && Kept(s, t, OfTasks);
    SameStock(s, t, cfg);
  }

  lemma RootsKept(s: State, t: State, areas: set<Area>)
    requires RootsOk(s) && LogGrows(s, t) && OnlyChanged(s, t, areas) && OfRoots !in areas && OfReservations !in areas
    ensures RootStep(s, t)
  {
    assert Kept(s, t, OfRoots) && Kept(s, t, OfReservations);
    OtherStep(s, t);
  }

  const REST := {OfRequests, OfSessions, OfCurrent, OfConfig}

  /** A step outside all records of files, replication and roots. */
  lemma QuietStep(s: State, t: State, cfg: ReplicationConfig)
    requires Inv(s, cfg) && OnlyChanged(s, t, REST) && LogStep(s, t)
    ensures StepAside(s, t, cfg)
  {
    assert Kept(s, t, OfGrants);
    TreeKept(s, t, REST);
    LeasesKept(s, t, REST);
    FilesKept(s, t, REST);
    StockKept(s, t, REST, cfg);
    RootsKept(s, t, REST);
  }
}
