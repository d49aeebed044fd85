/**
 The transactional store behind the metadata authority (src/meta/store.rs).

 A transaction is a list of conditions and a list of mutations.  `Commit` is
 `compare_and_commit`: a request that already has an outcome gets that outcome
 back; otherwise every mutation is applied if, and only if, every condition
 holds of the current state.
 */
module MetaStore {
  import opened Records
  import NT = NamespaceTree

  datatype RequestKey = RequestKey(caller: string, request: string)
  {
    predicate IsValid() { caller != "" && request != "" }
  }

  datatype StoreOperation =
    | RegisterNode | ReserveRoot | AbortRoot | ActivateRoot | AcquireRoot | RecoverRoot
    | DfsCreate | DfsMkdir | DfsMknod | DfsInitializeNamespace | DfsUnlink | DfsRmdir | DfsRename
    | DfsLink | DfsSymlink | DfsSetInodeMetadata | DfsAcquireWriteLease | DfsRenewWriteLease
    | DfsSyncInodeMetadata | DfsCommitFileVersion | DfsInitializeReplicationConfig
    | DfsClaimReplicationTask | DfsReportReplicationTask | DfsReportChunkCorruption

  datatype OperationResult =
    | NamespaceResult(digest: Digest, result: OperationResult)
    | SessionResult(session: NodeSession)
    | ReservationResult(reservation: RootReservation)
    | GrantResult(grant: RootGrant)
    | InodeResult(inode: InodeRecord)
    | InodeWithLeaseResult(inode: InodeRecord, lease: WriteLease)
    | LeaseResult(lease: WriteLease)
    | ClaimResult(claimDigest: Digest, claim: Option<ReplicationClaim>)
    | TaskResult(task: ReplicationTask)
    | RenameResult(inode: InodeRecord, replaced: Option<InodeRecord>)
    | EmptyResult

  datatype RequestOutcome = RequestOutcome(
    request: RequestKey, operation: StoreOperation, result: OperationResult)

  datatype MetaKey =
    | SessionAt(node: NodeId, session: SessionId)
    | CurrentSessionAt(node: NodeId)
    | RootAt(root: string)
    | ReservationAt(root: string)
    | GrantAt(grant: GrantKey)
    | DentryAt(dentry: DentryKey)
    | InodeAt(inode: InodeId)
    | VersionAt(version: FileVersionId)
    | LayoutAt(layout: LayoutRootId)
    | ChunkAt(chunk: ChunkId)
    | ConfigAt
    | PlacementAt(chunk: ChunkId)
    | CopyAt(copy: CopyId)
    | TaskAt(task: TaskId)
    | LeaseAt(inode: InodeId)

  datatype MetaEntity =
    | SessionEntity(session: NodeSession)
    | RootEntity(root: RootRecord)
    | ReservationEntity(reservation: RootReservation)
    | GrantEntity(grant: RootGrant)
    | DentryEntity(key: DentryKey, target: InodeId)
    | InodeEntity(inode: InodeRecord)
    | VersionEntity(version: FileVersion)
    | LayoutEntity(layout: LayoutRoot)
    | ChunkEntity(chunk: ChunkObject)
    | ConfigEntity(config: ReplicationConfig)
    | PlacementEntity(placement: PlacementRecord)
    | CopyEntity(copy: CopyRecord)
    | TaskEntity(task: ReplicationTask)
    | LeaseEntity(lease: WriteLease)

  function GrantKeyOf(g: RootGrant): GrantKey { GrantKey(g.root, g.holderNode, g.holderSession) }

  function KeyOf(e: MetaEntity): MetaKey
  {
    match e
    case SessionEntity(x) => SessionAt(x.node, x.session)
    case RootEntity(x) => RootAt(x.root)
    case ReservationEntity(x) => ReservationAt(x.root)
    case GrantEntity(x) => GrantAt(GrantKeyOf(x))
    case DentryEntity(k, _) => DentryAt(k)
    case InodeEntity(x) => InodeAt(x.id)
    case VersionEntity(x) => VersionAt(x.id)
    case LayoutEntity(x) => LayoutAt(x.id)
    case ChunkEntity(x) => ChunkAt(x.id)
    case ConfigEntity(_) => ConfigAt
    case PlacementEntity(x) => PlacementAt(x.chunk)
    case CopyEntity(x) => CopyAt(x.id)
    case TaskEntity(x) => TaskAt(x.id)
    case LeaseEntity(x) => LeaseAt(x.inode)
  }

  /** One map per kind of entity; `modRev` is the store revision of each key's last write. */
  datatype State = State(
    revision: nat,
    modRev: map<MetaKey, nat>,
    requests: map<RequestKey, RequestOutcome>,
    inodes: map<InodeId, InodeRecord>,
    dentries: map<DentryKey, InodeId>,
    leases: map<InodeId, WriteLease>,
    versions: map<FileVersionId, FileVersion>,
    layouts: map<LayoutRootId, LayoutRoot>,
    chunks: map<ChunkId, ChunkObject>,
    config: Option<ReplicationConfig>,
    placements: map<ChunkId, PlacementRecord>,
    copies: map<CopyId, CopyRecord>,
    tasks: map<TaskId, ReplicationTask>,
    sessions: map<(NodeId, SessionId), NodeSession>,
    current: map<NodeId, NodeSession>,
    nodeEpochs: map<NodeId, nat>,
    roots: map<string, RootRecord>,
    reservations: map<string, RootReservation>,
    grants: map<GrantKey, RootGrant>)

  const EMPTY := State(0, map[], map[], map[], map[], map[], map[], map[], map[], None,
                       map[], map[], map[], map[], map[], map[], map[], map[], map[])

  datatype TxnCondition =
    | Missing(key: MetaKey)
    | RevisionEquals(key: MetaKey, revision: nat)
    | EntityEquals(entity: MetaEntity)
    | NodeSessionCurrent(node: NodeId, session: SessionId)
    | RootEpochEquals(root: string, epoch: nat)
    | RequestAbsent(request: RequestKey)
    | DirectoryEmpty(ns: NamespaceId, parent: InodeId)
    | NotDescendant(ns: NamespaceId, ancestor: InodeId, child: InodeId)

  datatype TxnMutation =
    | Put(entity: MetaEntity)
    | Delete(key: MetaKey)
    | RecordOutcome(outcome: RequestOutcome)

  datatype MetaTxn = MetaTxn(
    request: RequestKey, operation: StoreOperation,
    conditions: seq<TxnCondition>, mutations: seq<TxnMutation>)

  datatype TxnOutcome =
    | Committed(outcome: RequestOutcome)
    | ConditionFailed(existing: Option<RequestOutcome>)
    | ContractViolation

  predicate RecordsOutcome(ms: seq<TxnMutation>, request: RequestKey, op: StoreOperation)
    decreases |ms|
  {
    ms != [] &&
    ((ms[0].RecordOutcome? && ms[0].outcome.request == request && ms[0].outcome.operation == op)
     || RecordsOutcome(ms[1..], request, op))
  }

  predicate ChecksRequest(cs: seq<TxnCondition>, request: RequestKey)
    decreases |cs|
  {
    cs != [] && (cs[0] == RequestAbsent(request) || ChecksRequest(cs[1..], request))
  }

  /** `MetaTxn::validate`: the outcome is checked and recorded in the same commit. */
  predicate IsValidTxn(txn: MetaTxn)
  {
    && txn.request.IsValid()
    && ChecksRequest(txn.conditions, txn.request)
    && RecordsOutcome(txn.mutations, txn.request, txn.operation)
  }

  predicate Present(s: State, key: MetaKey)
  {
    match key
    case SessionAt(n, x) => (n, x) in s.sessions
    case CurrentSessionAt(n) => n in s.current
    case RootAt(r) => r in s.roots
    case ReservationAt(r) => r in s.reservations
    case GrantAt(g) => g in s.grants
    case DentryAt(k) => k in s.dentries
    case InodeAt(i) => i in s.inodes
    case VersionAt(v) => v in s.versions
    case LayoutAt(l) => l in s.layouts
    case ChunkAt(c) => c in s.chunks
    case ConfigAt => s.config.Some?
    case PlacementAt(c) => c in s.placements
    case CopyAt(c) => c in s.copies
    case TaskAt(t) => t in s.tasks
    case LeaseAt(i) => i in s.leases
  }

  predicate Stored(s: State, e: MetaEntity)
  {
    match e
    case SessionEntity(x) => (x.node, x.session) in s.sessions && s.sessions[(x.node, x.session)] == x
    case RootEntity(x) => x.root in s.roots && s.roots[x.root] == x
    case ReservationEntity(x) => x.root in s.reservations && s.reservations[x.root] == x
    case GrantEntity(x) => GrantKeyOf(x) in s.grants && s.grants[GrantKeyOf(x)] == x
    case DentryEntity(k, i) => k in s.dentries && s.dentries[k] == i
    case InodeEntity(x) => x.id in s.inodes && s.inodes[x.id] == x
    case VersionEntity(x) => x.id in s.versions && s.versions[x.id] == x
    case LayoutEntity(x) => x.id in s.layouts && s.layouts[x.id] == x
    case ChunkEntity(x) => x.id in s.chunks && s.chunks[x.id] == x
    case ConfigEntity(x) => s.config == Some(x)
    case PlacementEntity(x) => x.chunk in s.placements && s.placements[x.chunk] == x
    case CopyEntity(x) => x.id in s.copies && s.copies[x.id] == x
    case TaskEntity(x) => x.id in s.tasks && s.tasks[x.id] == x
    case LeaseEntity(x) => x.inode in s.leases && s.leases[x.inode] == x
  }

  predicate SessionCurrent(s: State, node: NodeId, session: SessionId, now: nat)
  {
    node in s.current && s.current[node].session == session && s.current[node].IsLive(now)
  }

  /**
   `condition_matches`.  `NotDescendant` is stated as a relation on the entries;
   `DescendantSearch.StoreWalk` is the source's parent walk, and it computes
   this relation wherever a run asks for it (`RunTheorems.SearchesDecideRenames`).
   */
  ghost predicate Holds(s: State, c: TxnCondition, now: nat)
  {
    match c
    case Missing(key) => !Present(s, key)
    case RevisionEquals(key, r) => Present(s, key) && key in s.modRev && s.modRev[key] == r
    case EntityEquals(e) => Stored(s, e)
    case NodeSessionCurrent(n, x) => SessionCurrent(s, n, x, now)
    case RootEpochEquals(r, e) => r in s.roots && s.roots[r].epoch == e
    case RequestAbsent(k) => k !in s.requests
    case DirectoryEmpty(ns, d) => forall k :: k in s.dentries ==> !(k.ns == ns && k.parent == d)
    case NotDescendant(_, a, b) => !NT.AncestorOrSame(s.dentries, a, b)
  }

  // Each map takes, in order, the mutations that concern it.

  function ModRevAfter(m: map<MetaKey, nat>, ms: seq<TxnMutation>, n: nat, revision: nat): map<MetaKey, nat>
    requires n <= |ms|
  {
    if n == 0 then m
    else
      var m, x := ModRevAfter(m, ms, n - 1, revision), ms[n - 1];
      if x.Put? then m[KeyOf(x.entity) := revision] else if x.Delete? then m - {x.key} else m
  }

  function RequestsAfter(m: map<RequestKey, RequestOutcome>, ms: seq<TxnMutation>,
                         n: nat): map<RequestKey, RequestOutcome>
    requires n <= |ms|
  {
    if n == 0 then m
    else
      var m, x := RequestsAfter(m, ms, n - 1), ms[n - 1];
      if x.RecordOutcome? then m[x.outcome.request := x.outcome] else m
  }

  function ConfigAfter(m: Option<ReplicationConfig>, ms: seq<TxnMutation>, n: nat): Option<ReplicationConfig>
    requires n <= |ms|
  {
    if n == 0 then m
    else
      var m, x := ConfigAfter(m, ms, n - 1), ms[n - 1];
      if x.Put? && x.entity.ConfigEntity? then Some(x.entity.config)
      else if x.Delete? && x.key.ConfigAt? then None
      else m
  }

  function CurrentAfter(m: map<NodeId, NodeSession>, ms: seq<TxnMutation>, n: nat): map<NodeId, NodeSession>
    requires n <= |ms|
  {
    if n == 0 then m
    else
      var m, x := CurrentAfter(m, ms, n - 1), ms[n - 1];
      if x.Delete? && x.key.CurrentSessionAt? then m - {x.key.node} else m
  }

  function InodesAfter(m: map<InodeId, InodeRecord>, ms: seq<TxnMutation>, n: nat): map<InodeId, InodeRecord>
    requires n <= |ms|
  {
    if n == 0 then m
    else
      var m, x := InodesAfter(m, ms, n - 1), ms[n - 1];
      if x.Put? && x.entity.InodeEntity? then m[x.entity.inode.id := x.entity.inode]
      else if x.Delete? && x.key.InodeAt? then m - {x.key.inode}
      else m
  }

  function DentriesAfter(m: map<DentryKey, InodeId>, ms: seq<TxnMutation>, n: nat): map<DentryKey, InodeId>
    requires n <= |ms|
  {
    if n == 0 then m
    else
      var m, x := DentriesAfter(m, ms, n - 1), ms[n - 1];
      if x.Put? && x.entity.DentryEntity? then m[x.entity.key := x.entity.target]
      else if x.Delete? && x.key.DentryAt? then m - {x.key.dentry}
      else m
  }

  function LeasesAfter(m: map<InodeId, WriteLease>, ms: seq<TxnMutation>, n: nat): map<InodeId, WriteLease>
    requires n <= |ms|
  {
    if n == 0 then m
    else
      var m, x := LeasesAfter(m, ms, n - 1), ms[n - 1];
      if x.Put? && x.entity.LeaseEntity? then m[x.entity.lease.inode := x.entity.lease]
      else if x.Delete? && x.key.LeaseAt? then m - {x.key.inode}
      else m
  }

  function VersionsAfter(m: map<FileVersionId, FileVersion>, ms: seq<TxnMutation>,
                         n: nat): map<FileVersionId, FileVersion>
    requires n <= |ms|
  {
    if n == 0 then m
    else
      var m, x := VersionsAfter(m, ms, n - 1), ms[n - 1];
      if x.Put? && x.entity.VersionEntity? then m[x.entity.version.id := x.entity.version]
      else if x.Delete? && x.key.VersionAt? then m - {x.key.version}
      else m
  }

  function LayoutsAfter(m: map<LayoutRootId, LayoutRoot>, ms: seq<TxnMutation>, n: nat): map<LayoutRootId, LayoutRoot>
    requires n <= |ms|
  {
    if n == 0 then m
    else
      var m, x := LayoutsAfter(m, ms, n - 1), ms[n - 1];
      if x.Put? && x.entity.LayoutEntity? then m[x.entity.layout.id := x.entity.layout]
      else if x.Delete? && x.key.LayoutAt? then m - {x.key.layout}
      else m
  }

  function ChunksAfter(m: map<ChunkId, ChunkObject>, ms: seq<TxnMutation>, n: nat): map<ChunkId, ChunkObject>
    requires n <= |ms|
  {
    if n == 0 then m
    else
      var m, x := ChunksAfter(m, ms, n - 1), ms[n - 1];
      if x.Put? && x.entity.ChunkEntity? then m[x.entity.chunk.id := x.entity.chunk]
      else if x.Delete? && x.key.ChunkAt? then m - {x.key.chunk}
      else m
  }

  function PlacementsAfter(m: map<ChunkId, PlacementRecord>, ms: seq<TxnMutation>,
                           n: nat): map<ChunkId, PlacementRecord>
    requires n <= |ms|
  {
    if n == 0 then m
    else
      var m, x := PlacementsAfter(m, ms, n - 1), ms[n - 1];
      if x.Put? && x.entity.PlacementEntity? then m[x.entity.placement.chunk := x.entity.placement]
      else if x.Delete? && x.key.PlacementAt? then m - {x.key.chunk}
      else m
  }

  function CopiesAfter(m: map<CopyId, CopyRecord>, ms: seq<TxnMutation>, n: nat): map<CopyId, CopyRecord>
    requires n <= |ms|
  {
    if n == 0 then m
    else
      var m, x := CopiesAfter(m, ms, n - 1), ms[n - 1];
      if x.Put? && x.entity.CopyEntity? then m[x.entity.copy.id := x.entity.copy]
      else if x.Delete? && x.key.CopyAt? then m - {x.key.copy}
      else m
  }

  function TasksAfter(m: map<TaskId, ReplicationTask>, ms: seq<TxnMutation>, n: nat): map<TaskId, ReplicationTask>
    requires n <= |ms|
  {
    if n == 0 then m
    else
      var m, x := TasksAfter(m, ms, n - 1), ms[n - 1];
      if x.Put? && x.entity.TaskEntity? then m[x.entity.task.id := x.entity.task]
      else if x.Delete? && x.key.TaskAt? then m - {x.key.task}
      else m
  }

  function SessionsAfter(m: map<(NodeId, SessionId), NodeSession>, ms: seq<TxnMutation>,
                         n: nat): map<(NodeId, SessionId), NodeSession>
    requires n <= |ms|
  {
    if n == 0 then m
    else
      var m, x := SessionsAfter(m, ms, n - 1), ms[n - 1];
      if x.Put? && x.entity.SessionEntity? then m[(x.entity.session.node, x.entity.session.session) := x.entity.session]
      else if x.Delete? && x.key.SessionAt? then m - {(x.key.node, x.key.session)}
      else m
  }

  function RootsAfter(m: map<string, RootRecord>, ms: seq<TxnMutation>, n: nat): map<string, RootRecord>
    requires n <= |ms|
  {
    if n == 0 then m
    else
      var m, x := RootsAfter(m, ms, n - 1), ms[n - 1];
      if x.Put? && x.entity.RootEntity? then m[x.entity.root.root := x.entity.root]
      else if x.Delete? && x.key.RootAt? then m - {x.key.root}
      else m
  }

  function ReservationsAfter(m: map<string, RootReservation>, ms: seq<TxnMutation>,
                             n: nat): map<string, RootReservation>
    requires n <= |ms|
  {
    if n == 0 then m
    else
      var m, x := ReservationsAfter(m, ms, n - 1), ms[n - 1];
      if x.Put? && x.entity.ReservationEntity? then m[x.entity.reservation.root := x.entity.reservation]
      else if x.Delete? && x.key.ReservationAt? then m - {x.key.root}
      else m
  }

  function GrantsAfter(m: map<GrantKey, RootGrant>, ms: seq<TxnMutation>, n: nat): map<GrantKey, RootGrant>
    requires n <= |ms|
  {
    if n == 0 then m
    else
      var m, x := GrantsAfter(m, ms, n - 1), ms[n - 1];
      if x.Put? && x.entity.GrantEntity? then m[GrantKeyOf(x.entity.grant) := x.entity.grant]
      else if x.Delete? && x.key.GrantAt? then m - {x.key.grant}
      else m
  }

  function ApplyAll(s: State, ms: seq<TxnMutation>): State
  {
    var n := |ms|;
    s.(modRev := ModRevAfter(s.modRev, ms, n, s.revision),
       requests := RequestsAfter(s.requests, ms, n),
       inodes := InodesAfter(s.inodes, ms, n),
       dentries := DentriesAfter(s.dentries, ms, n),
       leases := LeasesAfter(s.leases, ms, n),
       versions := VersionsAfter(s.versions, ms, n),
       layouts := LayoutsAfter(s.layouts, ms, n),
       chunks := ChunksAfter(s.chunks, ms, n),
       config := ConfigAfter(s.config, ms, n),
       placements := PlacementsAfter(s.placements, ms, n),
       copies := CopiesAfter(s.copies, ms, n),
       tasks := TasksAfter(s.tasks, ms, n),
       sessions := SessionsAfter(s.sessions, ms, n),
       current := CurrentAfter(s.current, ms, n),
       roots := RootsAfter(s.roots, ms, n),
       reservations := ReservationsAfter(s.reservations, ms, n),
       grants := GrantsAfter(s.grants, ms, n))
  }

  ghost predicate AllHold(s: State, cs: seq<TxnCondition>, now: nat)
    decreases |cs|
  {
    cs == [] || (Holds(s, cs[0], now) && AllHold(s, cs[1..], now))
  }

  ghost predicate Commits(s: State, txn: MetaTxn, now: nat)
  {
    IsValidTxn(txn) && txn.request !in s.requests && AllHold(s, txn.conditions, now)
  }

  ghost function Commit(s: State, txn: MetaTxn, now: nat): State
  {
    if Commits(s, txn, now) then ApplyAll(s.(revision := s.revision + 1), txn.mutations) else s
  }

  ghost function OutcomeOf(s: State, txn: MetaTxn, now: nat): TxnOutcome
  {
    if !IsValidTxn(txn) then ContractViolation
    else if txn.request in s.requests then ConditionFailed(Some(s.requests[txn.request]))
    else if !AllHold(s, txn.conditions, now) then ConditionFailed(None)
    else
      var m := FirstOutcome(txn.mutations);
      if m.Some? then Committed(m.value) else ContractViolation
  }

  function FirstOutcome(ms: seq<TxnMutation>): Option<RequestOutcome>
  {
    if ms == [] then None
    else if ms[0].RecordOutcome? then Some(ms[0].outcome)
    else FirstOutcome(ms[1..])
  }

  // --------------------------------------------------------------- framing

  /** The map a mutation concerns. */
  datatype Area =
    | OfRequests | OfInodes | OfDentries | OfLeases | OfVersions | OfLayouts | OfChunks | OfConfig
    | OfPlacements | OfCopies | OfTasks | OfSessions | OfCurrent | OfRoots | OfReservations | OfGrants

  function EntityArea(e: MetaEntity): Area
  {
    match e
    case SessionEntity(_) => OfSessions
    case RootEntity(_) => OfRoots
    case ReservationEntity(_) => OfReservations
    case GrantEntity(_) => OfGrants
    case DentryEntity(_, _) => OfDentries
    case InodeEntity(_) => OfInodes
    case VersionEntity(_) => OfVersions
    case LayoutEntity(_) => OfLayouts
    case ChunkEntity(_) => OfChunks
    case ConfigEntity(_) => OfConfig
    case PlacementEntity(_) => OfPlacements
    case CopyEntity(_) => OfCopies
    case TaskEntity(_) => OfTasks
    case LeaseEntity(_) => OfLeases
  }

  function KeyArea(k: MetaKey): Area
  {
    match k
    case SessionAt(_, _) => OfSessions
    case CurrentSessionAt(_) => OfCurrent
    case RootAt(_) => OfRoots
    case ReservationAt(_) => OfReservations
    case GrantAt(_) => OfGrants
    case DentryAt(_) => OfDentries
    case InodeAt(_) => OfInodes
    case VersionAt(_) => OfVersions
    case LayoutAt(_) => OfLayouts
    case ChunkAt(_) => OfChunks
    case ConfigAt => OfConfig
    case PlacementAt(_) => OfPlacements
    case CopyAt(_) => OfCopies
    case TaskAt(_) => OfTasks
    case LeaseAt(_) => OfLeases
  }

  function AreaOf(m: TxnMutation): Area
  {
    match m
    case Put(e) => EntityArea(e)
    case Delete(k) => KeyArea(k)
    case RecordOutcome(_) => OfRequests
  }

  ghost predicate Spares(ms: seq<TxnMutation>, area: Area)
  {
    forall i :: 0 <= i < |ms| ==> AreaOf(ms[i]) != area
  }

  lemma {:induction false} InodesSpared(m: map<InodeId, InodeRecord>, ms: seq<TxnMutation>, n: nat)
    requires n <= |ms| && Spares(ms, OfInodes)
    ensures InodesAfter(m, ms, n) == m
  {
    if n > 0 {
      InodesSpared(m, ms, n - 1);
      assert AreaOf(ms[n - 1]) != OfInodes;
    }
  }

  lemma {:induction false} DentriesSpared(m: map<DentryKey, InodeId>, ms: seq<TxnMutation>, n: nat)
    requires n <= |ms| && Spares(ms, OfDentries)
    ensures DentriesAfter(m, ms, n) == m
  {
    if n > 0 {
      DentriesSpared(m, ms, n - 1);
      assert AreaOf(ms[n - 1]) != OfDentries;
    }
  }

  lemma {:induction false} LeasesSpared(m: map<InodeId, WriteLease>, ms: seq<TxnMutation>, n: nat)
    requires n <= |ms| && Spares(ms, OfLeases)
    ensures LeasesAfter(m, ms, n) == m
  {
    if n > 0 {
      LeasesSpared(m, ms, n - 1);
      assert AreaOf(ms[n - 1]) != OfLeases;
    }
  }

  lemma {:induction false} VersionsSpared(m: map<FileVersionId, FileVersion>, ms: seq<TxnMutation>, n: nat)
    requires n <= |ms| && Spares(ms, OfVersions)
    ensures VersionsAfter(m, ms, n) == m
  {
    if n > 0 {
      VersionsSpared(m, ms, n - 1);
      assert AreaOf(ms[n - 1]) != OfVersions;
    }
  }

  lemma {:induction false} LayoutsSpared(m: map<LayoutRootId, LayoutRoot>, ms: seq<TxnMutation>, n: nat)
    requires n <= |ms| && Spares(ms, OfLayouts)
    ensures LayoutsAfter(m, ms, n) == m
  {
    if n > 0 {
      LayoutsSpared(m, ms, n - 1);
      assert AreaOf(ms[n - 1]) != OfLayouts;
    }
  }

  lemma {:induction false} ChunksSpared(m: map<ChunkId, ChunkObject>, ms: seq<TxnMutation>, n: nat)
    requires n <= |ms| && Spares(ms, OfChunks)
    ensures ChunksAfter(m, ms, n) == m
  {
    if n > 0 {
      ChunksSpared(m, ms, n - 1);
      assert AreaOf(ms[n - 1]) != OfChunks;
    }
  }

  lemma {:induction false} ConfigSpared(m: Option<ReplicationConfig>, ms: seq<TxnMutation>, n: nat)
    requires n <= |ms| && Spares(ms, OfConfig)
    ensures ConfigAfter(m, ms, n) == m
  {
    if n > 0 {
      ConfigSpared(m, ms, n - 1);
      assert AreaOf(ms[n - 1]) != OfConfig;
    }
  }

  lemma {:induction false} PlacementsSpared(m: map<ChunkId, PlacementRecord>, ms: seq<TxnMutation>, n: nat)
    requires n <= |ms| && Spares(ms, OfPlacements)
    ensures PlacementsAfter(m, ms, n) == m
  {
    if n > 0 {
      PlacementsSpared(m, ms, n - 1);
      assert AreaOf(ms[n - 1]) != OfPlacements;
    }
  }

  lemma {:induction false} CopiesSpared(m: map<CopyId, CopyRecord>, ms: seq<TxnMutation>, n: nat)
    requires n <= |ms| && Spares(ms, OfCopies)
    ensures CopiesAfter(m, ms, n) == m
  {
    if n > 0 {
      CopiesSpared(m, ms, n - 1);
      assert AreaOf(ms[n - 1]) != OfCopies;
    }
  }

  lemma {:induction false} TasksSpared(m: map<TaskId, ReplicationTask>, ms: seq<TxnMutation>, n: nat)
    requires n <= |ms| && Spares(ms, OfTasks)
    ensures TasksAfter(m, ms, n) == m
  {
    if n > 0 {
      TasksSpared(m, ms, n - 1);
      assert AreaOf(ms[n - 1]) != OfTasks;
    }
  }

  lemma {:induction false} SessionsSpared(m: map<(NodeId, SessionId), NodeSession>, ms: seq<TxnMutation>, n: nat)
    requires n <= |ms| && Spares(ms, OfSessions)
    ensures SessionsAfter(m, ms, n) == m
  {
    if n > 0 {
      SessionsSpared(m, ms, n - 1);
      assert AreaOf(ms[n - 1]) != OfSessions;
    }
  }

  lemma {:induction false} CurrentSpared(m: map<NodeId, NodeSession>, ms: seq<TxnMutation>, n: nat)
    requires n <= |ms| && Spares(ms, OfCurrent)
    ensures CurrentAfter(m, ms, n) == m
  {
    if n > 0 {
      CurrentSpared(m, ms, n - 1);
      assert AreaOf(ms[n - 1]) != OfCurrent;
    }
  }

  lemma {:induction false} RootsSpared(m: map<string, RootRecord>, ms: seq<TxnMutation>, n: nat)
    requires n <= |ms| && Spares(ms, OfRoots)
    ensures RootsAfter(m, ms, n) == m
  {
    if n > 0 {
      RootsSpared(m, ms, n - 1);
      assert AreaOf(ms[n - 1]) != OfRoots;
    }
  }

  lemma {:induction false} ReservationsSpared(m: map<string, RootReservation>, ms: seq<TxnMutation>, n: nat)
    requires n <= |ms| && Spares(ms, OfReservations)
    ensures ReservationsAfter(m, ms, n) == m
  {
    if n > 0 {
      ReservationsSpared(m, ms, n - 1);
      assert AreaOf(ms[n - 1]) != OfReservations;
    }
  }

  lemma {:induction false} GrantsSpared(m: map<GrantKey, RootGrant>, ms: seq<TxnMutation>, n: nat)
    requires n <= |ms| && Spares(ms, OfGrants)
    ensures GrantsAfter(m, ms, n) == m
  {
    if n > 0 {
      GrantsSpared(m, ms, n - 1);
      assert AreaOf(ms[n - 1]) != OfGrants;
    }
  }

  /** The map of an area is the same in both states. */
  ghost predicate Kept(s: State, t: State, area: Area)
  {
    match area
    case OfRequests => t.requests == s.requests
    case OfInodes => t.inodes == s.inodes
    case OfDentries => t.dentries == s.dentries
    case OfLeases => t.leases == s.leases
    case OfVersions => t.versions == s.versions
    case OfLayouts => t.layouts == s.layouts
    case OfChunks => t.chunks == s.chunks
    case OfConfig => t.config == s.config
    case OfPlacements => t.placements == s.placements
    case OfCopies => t.copies == s.copies
    case OfTasks => t.tasks == s.tasks
    case OfSessions => t.sessions == s.sessions
    case OfCurrent => t.current == s.current
    case OfRoots => t.roots == s.roots
    case OfReservations => t.reservations == s.reservations
    case OfGrants => t.grants == s.grants
  }

  ghost predicate OnlyChanged(s: State, t: State, areas: set<Area>)
  {
    forall a {:trigger Kept(s, t, a)} :: a !in areas ==> Kept(s, t, a)
  }

  ghost predicate Within(ms: seq<TxnMutation>, areas: set<Area>)
  {
    forall i :: 0 <= i < |ms| ==> AreaOf(ms[i]) in areas
  }

  lemma SparedIsKept(s: State, ms: seq<TxnMutation>, area: Area)
    requires Spares(ms, area) && area != OfRequests
    ensures Kept(s, ApplyAll(s, ms), area)
  {
    var n := |ms|;
    match area
    case OfInodes => InodesSpared(s.inodes, ms, n);
    case OfDentries => DentriesSpared(s.dentries, ms, n);
    case OfLeases => LeasesSpared(s.leases, ms, n);
    case OfVersions => VersionsSpared(s.versions, ms, n);
    case OfLayouts => LayoutsSpared(s.layouts, ms, n);
    case OfChunks => ChunksSpared(s.chunks, ms, n);
    case OfConfig => ConfigSpared(s.config, ms, n);
    case OfPlacements => PlacementsSpared(s.placements, ms, n);
    case OfCopies => CopiesSpared(s.copies, ms, n);
    case OfTasks => TasksSpared(s.tasks, ms, n);
    case OfSessions => SessionsSpared(s.sessions, ms, n);
    case OfCurrent => CurrentSpared(s.current, ms, n);
    case OfRoots => RootsSpared(s.roots, ms, n);
    case OfReservations => ReservationsSpared(s.reservations, ms, n);
    case OfGrants => GrantsSpared(s.grants, ms, n);
  }

  lemma TxnFrame(s: State, ms: seq<TxnMutation>, areas: set<Area>)
    requires Within(ms, areas) && OfRequests in areas
    ensures OnlyChanged(s, ApplyAll(s, ms), areas)
  {
    forall a | a !in areas ensures Kept(s, ApplyAll(s, ms), a) {
      SparedIsKept(s, ms, a);
    }
  }

  lemma CommitFrame(s: State, txn: MetaTxn, at: nat, areas: set<Area>)
    requires Within(txn.mutations, areas) && OfRequests in areas
    ensures OnlyChanged(s, Commit(s, txn, at), areas)
  {
    if Commits(s, txn, at) {
      var s0 := s.(revision := s.revision + 1);
      TxnFrame(s0, txn.mutations, areas);
      forall a | a !in areas ensures Kept(s, Commit(s, txn, at), a) { assert Kept(s0, Commit(s, txn, at), a); }
    }
  }

  lemma {:induction false} EachHolds(s: State, cs: seq<TxnCondition>, now: nat, i: nat)
    requires AllHold(s, cs, now) && i < |cs|
    ensures Holds(s, cs[i], now)
    decreases |cs|
  {
    if i > 0 { EachHolds(s, cs[1..], now, i - 1); }
  }

  lemma StoredAt(s: State, cs: seq<TxnCondition>, now: nat, i: nat, e: MetaEntity)
    requires AllHold(s, cs, now) && i < |cs| && cs[i] == EntityEquals(e)
    ensures Stored(s, e)
  {
    EachHolds(s, cs, now, i);
  }

  lemma FreeAt(s: State, cs: seq<TxnCondition>, now: nat, i: nat, key: MetaKey)
    requires AllHold(s, cs, now) && i < |cs| && cs[i] == Missing(key)
    ensures !Present(s, key)
  {
    EachHolds(s, cs, now, i);
  }

  /** Every condition of a committing transaction holds of the state it meets. */
  lemma ConditionHolds(s: State, txn: MetaTxn, now: nat, i: nat)
    requires Commits(s, txn, now) && i < |txn.conditions|
    ensures Holds(s, txn.conditions[i], now)
  {
    EachHolds(s, txn.conditions, now, i);
  }

  // The same fact, condition by condition.

  lemma DentryFree(s: State, txn: MetaTxn, now: nat, i: nat, k: DentryKey)
    requires Commits(s, txn, now) && i < |txn.conditions| && txn.conditions[i] == Missing(DentryAt(k))
    ensures k !in s.dentries
  {
    ConditionHolds(s, txn, now, i);
  }

  lemma InodeFree(s: State, txn: MetaTxn, now: nat, i: nat, id: InodeId)
    requires Commits(s, txn, now) && i < |txn.conditions| && txn.conditions[i] == Missing(InodeAt(id))
    ensures id !in s.inodes
  {
    ConditionHolds(s, txn, now, i);
  }

  lemma LeaseFree(s: State, txn: MetaTxn, now: nat, i: nat, id: InodeId)
    requires Commits(s, txn, now) && i < |txn.conditions| && txn.conditions[i] == Missing(LeaseAt(id))
    ensures id !in s.leases
  {
    ConditionHolds(s, txn, now, i);
  }

  lemma InodePinned(s: State, txn: MetaTxn, now: nat, i: nat, r: InodeRecord)
    requires Commits(s, txn, now) && i < |txn.conditions| && txn.conditions[i] == EntityEquals(InodeEntity(r))
    ensures r.id in s.inodes && s.inodes[r.id] == r
  {
    ConditionHolds(s, txn, now, i);
  }

  lemma DentryPinned(s: State, txn: MetaTxn, now: nat, i: nat, k: DentryKey, id: InodeId)
    requires Commits(s, txn, now) && i < |txn.conditions| && txn.conditions[i] == EntityEquals(DentryEntity(k, id))
    ensures k in s.dentries && s.dentries[k] == id
  {
    ConditionHolds(s, txn, now, i);
  }

  lemma LeasePinned(s: State, txn: MetaTxn, now: nat, i: nat, l: WriteLease)
    requires Commits(s, txn, now) && i < |txn.conditions| && txn.conditions[i] == EntityEquals(LeaseEntity(l))
    ensures l.inode in s.leases && s.leases[l.inode] == l
  {
    ConditionHolds(s, txn, now, i);
  }

  lemma EmptyPinned(s: State, txn: MetaTxn, now: nat, i: nat, ns: NamespaceId, d: InodeId)
    requires Commits(s, txn, now) && i < |txn.conditions| && txn.conditions[i] == DirectoryEmpty(ns, d)
    ensures forall k :: k in s.dentries ==> !(k.ns == ns && k.parent == d)
  {
    ConditionHolds(s, txn, now, i);
  }

  lemma NotDescendantPinned(s: State, txn: MetaTxn, now: nat, i: nat, ns: NamespaceId, a: InodeId, b: InodeId)
    requires Commits(s, txn, now) && i < |txn.conditions| && txn.conditions[i] == NotDescendant(ns, a, b)
    ensures !NT.AncestorOrSame(s.dentries, a, b)
  {
    ConditionHolds(s, txn, now, i);
  }

  lemma EntityPinned(s: State, txn: MetaTxn, now: nat, i: nat, e: MetaEntity)
    requires Commits(s, txn, now) && i < |txn.conditions| && txn.conditions[i] == EntityEquals(e)
    ensures Stored(s, e)
  {
    ConditionHolds(s, txn, now, i);
  }

  lemma KeyFree(s: State, txn: MetaTxn, now: nat, i: nat, key: MetaKey)
    requires Commits(s, txn, now) && i < |txn.conditions| && txn.conditions[i] == Missing(key)
    ensures !Present(s, key)
  {
    ConditionHolds(s, txn, now, i);
  }
}
