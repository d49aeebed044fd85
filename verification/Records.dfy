/**
 The records of the metadata authority (src/dfs.rs and src/meta/store.rs).

 Identifiers that the source builds by formatting several fields into one
 string are modelled by a constructor over those fields; module `Encodings`
 proves that the formatting is injective, so nothing is lost.
 */
module Records {
  datatype Option<+T> = None | Some(value: T)

  type Byte = b: int | 0 <= b < 256

  const MAX32: nat := 0xFFFF_FFFF
  const MAX64: nat := 0xFFFF_FFFF_FFFF_FFFF

  type U32 = n: int | 0 <= n <= MAX32
  type U64 = n: int | 0 <= n <= MAX64

  /** `u32::saturating_add` */
  function SatAdd32(a: U32, b: nat): U32 { if a + b > MAX32 then MAX32 else a + b }

  /** `u64::saturating_add` */
  function SatAdd64(a: nat, b: nat): U64 { if a + b > MAX64 then MAX64 else a + b }

  /** `saturating_sub` */
  function SatSub(a: nat, b: nat): nat { if a < b then 0 else a - b }

  function Max(a: nat, b: nat): nat { if a < b then b else a }

  function Min(a: nat, b: nat): nat { if a < b then a else b }

  type NodeId = string
  type SessionId = string
  type Name = seq<Byte>
  type Digest = seq<Byte>

  /** The content digest, an opaque function of the bytes. */
  type Hash = seq<Byte> -> Digest

  datatype NamespaceId = NamespaceId(text: string)
  datatype InodeId = InodeId(text: string)
  datatype FileVersionId = FileVersionId(text: string)
  datatype LayoutRootId = LayoutRootId(text: string)
  datatype ReplicaGroupId = ReplicaGroupId(text: string)
  datatype OperationId = OperationId(text: string)

  /** `blake3-{digest}-{length}`: the identity of an immutable chunk is its content. */
  datatype ChunkId = ChunkId(digest: Digest, length: nat)

  /** `{node}:{epoch}:{device}:{chunk}` */
  datatype CopyId = CopyId(node: NodeId, epoch: nat, device: string, chunk: ChunkId)

  /** `repair:{chunk}` */
  datatype TaskId = RepairTask(chunk: ChunkId)

  const ROOT := InodeId("1")

  // ---------------------------------------------------------------- namespace

  datatype SpecialNodeKind = Fifo | Socket | BlockDevice(rdev: nat) | CharDevice(rdev: nat)

  datatype InodeKind = Regular | Directory | Symlink | Special(special: SpecialNodeKind)

  datatype InodeAttributes = InodeAttributes(
    mode: nat, uid: nat, gid: nat, nlink: U32, atime: nat, mtime: nat, ctime: nat)

  datatype InodeRecord = InodeRecord(
    ns: NamespaceId,
    id: InodeId,
    kind: InodeKind,
    attrs: InodeAttributes,
    head: Option<FileVersionId>,
    symlink: Option<seq<Byte>>,
    xattrs: map<seq<Byte>, seq<Byte>>,
    revision: U64)

  datatype DentryKey = DentryKey(ns: NamespaceId, parent: InodeId, name: Name)

  datatype CallerContext = CallerContext(uid: nat, gid: nat, groups: seq<nat>)

  datatype WriteLease = WriteLease(
    inode: InodeId, node: NodeId, session: SessionId, epoch: U64, expires: U64)

  // -------------------------------------------------------------------- files

  datatype FileVersion = FileVersion(
    id: FileVersionId, inode: InodeId, parent: Option<FileVersionId>, length: U64,
    layout: LayoutRootId, created: nat)

  datatype Extent = Extent(fileOffset: U64, length: U64, chunk: ChunkId, chunkOffset: U64)

  datatype LayoutRoot = LayoutRoot(id: LayoutRootId, fileLength: U64, extents: seq<Extent>)

  datatype ChunkObject = ChunkObject(id: ChunkId, length: U64, digest: Digest)

  /** Chunk ids are derived from content, so an id fixes length and digest. */
  predicate ContentDerived(chunk: ChunkObject)
  {
    chunk.id == ChunkId(chunk.digest, chunk.length)
  }

  // -------------------------------------------------------------- replication

  datatype LocalCopyPolicy = Required | Preferred | NotRequired

  datatype ReplicationConfig = ReplicationConfig(
    desired: nat, sync: nat, minNodes: nat, minDomains: nat, local: LocalCopyPolicy)
  {
    predicate IsValid()
    {
      && 0 < sync <= desired
      && 0 < minNodes <= desired
      && 0 < minDomains <= desired
    }
  }

  datatype Device = Device(id: string, epoch: nat, catalogRevision: nat, domain: string)

  datatype ReplicaTarget = ReplicaTarget(
    node: NodeId, nodeEpoch: nat, endpoint: string, device: Device)

  datatype ReplicaGroup = ReplicaGroup(
    id: ReplicaGroupId, epoch: nat, targets: seq<ReplicaTarget>)

  datatype ReplicaAck = ReplicaAck(
    operation: OperationId, chunk: ChunkId, placementRevision: nat, placementEpoch: nat,
    node: NodeId, nodeEpoch: nat, device: string, deviceEpoch: nat,
    catalogRevision: nat, persistedBytes: nat, digest: Digest)

  datatype ChunkReceipt = ChunkReceipt(
    operation: OperationId, chunk: ChunkObject, placementRevision: nat, placementEpoch: nat,
    group: ReplicaGroupId, acks: seq<ReplicaAck>)

  datatype CopyRole = DurableReplica | VerifiedCache | ExternalCommitted

  datatype CopyState = LegacyStaging | Ready | Corrupt | Deleting

  datatype CopyLocation =
    | OnNode(node: NodeId, nodeEpoch: nat, device: string, deviceEpoch: nat, catalogRevision: nat)
    | External(store: string, object: string, revision: string)

  datatype CopyRecord = CopyRecord(
    id: CopyId, chunk: ChunkId, role: CopyRole, location: CopyLocation, state: CopyState,
    persistedBytes: nat, digest: Digest)
  {
    predicate IsReadyDurable() { role == DurableReplica && state == Ready }
  }

  datatype PlacementHealth = Satisfied | UnderReplicated | PlacementBlocked

  datatype PlacementRecord = PlacementRecord(
    chunk: ChunkId, group: ReplicaGroupId, epoch: nat, desired: nat,
    copies: seq<CopyId>, health: PlacementHealth)

  datatype TaskState = Pending | Running | RetryWaiting | Completed | TaskBlocked

  datatype ReplicationClaim = ReplicationClaim(
    task: TaskId, operation: OperationId, worker: NodeId, workerEpoch: nat,
    workerSession: SessionId, expires: nat, fence: nat, chunk: ChunkObject,
    source: CopyId, placementRevision: nat, group: ReplicaGroup, config: ReplicationConfig)

  datatype ReplicationTask = ReplicationTask(
    id: TaskId, chunk: ChunkId, epoch: nat, desired: nat, existing: seq<CopyId>,
    state: TaskState, attempt: nat, nextRetry: nat, lastError: Option<string>,
    claim: Option<ReplicationClaim>)

  // ----------------------------------------------------------- nodes and roots

  datatype NodeSession = NodeSession(
    node: NodeId, session: SessionId, dataAddr: string, devices: seq<Device>,
    epoch: nat, expires: nat)
  {
    predicate IsLive(now: nat) { expires > now }
  }

  datatype RootRight = Lookup | Read | Write | Admin

  datatype RootRecord = RootRecord(
    root: string, epoch: nat, homeNode: NodeId, homeSession: SessionId, prepareId: string)

  datatype RootReservation = RootReservation(
    root: string, epoch: nat, homeNode: NodeId, homeSession: SessionId,
    intent: string, token: string)

  datatype RootGrant = RootGrant(
    root: string, epoch: nat, homeNode: NodeId, homeSession: SessionId,
    holderNode: NodeId, holderSession: SessionId, generation: nat,
    rights: seq<RootRight>, fence: string)

  datatype GrantKey = GrantKey(root: string, node: NodeId, session: SessionId)
}
