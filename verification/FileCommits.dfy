/**
 Committing a file version (src/meta/dfs.rs): the checks on chunk receipts and
 extents, the transaction, and its effect on the file and replication records.
 */
module FileCommits {
  import opened Records
  import opened MetaStore
  import opened NamespacePlans
  import opened Leases
  import opened FileLayouts
  import opened Replication

  // ----------------------------------------------------------- chunk receipts

  /**
   What the reads behind one receipt returned: a placement snapshot, and the
   current session of each acknowledging node.  They are separate reads, so
   nothing is assumed about them.
   */
  datatype Evidence = Evidence(
    replication: ReplicationConfig, revision: nat, groups: seq<ReplicaGroup>, sessions: map<NodeId, NodeSession>)

  function FindGroup(groups: seq<ReplicaGroup>, id: ReplicaGroupId): Option<ReplicaGroup>
  {
    if groups == [] then None else if groups[0].id == id then Some(groups[0]) else FindGroup(groups[1..], id)
  }

  function GroupFor(ev: Evidence, r: ChunkReceipt): Option<ReplicaGroup>
  {
    var g := FindGroup(ev.groups, r.group);
    if g.Some? && g.value.epoch == r.placementEpoch then g else None
  }

  predicate AckProves(ack: ReplicaAck, r: ChunkReceipt)
  {
    && ack.operation == r.operation && ack.chunk == r.chunk.id
    && ack.placementRevision == r.placementRevision && ack.placementEpoch == r.placementEpoch
    && ack.persistedBytes == r.chunk.length && ack.digest == r.chunk.digest
  }

  predicate Assigned(ack: ReplicaAck, targets: seq<ReplicaTarget>)
  {
    exists i :: 0 <= i < |targets| && targets[i].node == ack.node && targets[i].nodeEpoch == ack.nodeEpoch
      && targets[i].device.id == ack.device && targets[i].device.epoch == ack.deviceEpoch
  }

  function FindDevice(devices: seq<Device>, id: string, epoch: nat): Option<Device>
  {
    if devices == [] then None
    else if devices[0].id == id && devices[0].epoch == epoch then Some(devices[0])
    else FindDevice(devices[1..], id, epoch)
  }

  /** The device that wrote the copy, if its node still runs the same session epoch with that device. */
  function AckDevice(ack: ReplicaAck, sessions: map<NodeId, NodeSession>, now: nat): Option<Device>
  {
    if ack.node in sessions && sessions[ack.node].epoch == ack.nodeEpoch && sessions[ack.node].IsLive(now)
    then FindDevice(sessions[ack.node].devices, ack.device, ack.deviceEpoch) else None
  }

  predicate AckOk(r: ChunkReceipt, ack: ReplicaAck, group: ReplicaGroup, sessions: map<NodeId, NodeSession>, now: nat)
  {
    AckProves(ack, r) && Assigned(ack, group.targets) && AckDevice(ack, sessions, now).Some?
  }

  ghost predicate AcksOk(r: ChunkReceipt, n: nat, group: ReplicaGroup, sessions: map<NodeId, NodeSession>, now: nat)
    requires n <= |r.acks|
  {
    && (forall i :: 0 <= i < n ==> AckOk(r, r.acks[i], group, sessions, now))
    && (forall i, j :: 0 <= i < j < n ==> r.acks[i].node != r.acks[j].node)
  }

  ghost function AckNodes(acks: seq<ReplicaAck>, n: nat): set<NodeId>
    requires n <= |acks|
  {
    set i | 0 <= i < n :: acks[i].node
  }

  ghost function AckDomains(acks: seq<ReplicaAck>, n: nat, sessions: map<NodeId, NodeSession>, now: nat): set<string>
    requires n <= |acks|
  {
    set i | 0 <= i < n && AckDevice(acks[i], sessions, now).Some? :: AckDevice(acks[i], sessions, now).value.domain
  }

  /** A receipt proves its chunk durable under the replication config. */
  ghost predicate ReceiptOk(caller: NodeId, r: ChunkReceipt, cfg: ReplicationConfig, ev: Evidence, now: nat)
  {
    && r.placementRevision != 0 && r.placementEpoch != 0 && |r.acks| >= cfg.sync
    && ev.replication == cfg && r.placementRevision <= ev.revision
    && GroupFor(ev, r).Some?
    && AcksOk(r, |r.acks|, GroupFor(ev, r).value, ev.sessions, now)
    && |AckNodes(r.acks, |r.acks|)| >= cfg.minNodes
    && |AckDomains(r.acks, |r.acks|, ev.sessions, now)| >= cfg.minDomains
    && (cfg.local == Required ==> caller in AckNodes(r.acks, |r.acks|))
  }

  /** `validate_chunk_receipt` */
  method ValidateReceipt(caller: NodeId, r: ChunkReceipt, cfg: ReplicationConfig, ev: Evidence, now: nat)
    returns (copies: Option<seq<CopyRecord>>)
    ensures copies.Some? <==> ReceiptOk(caller, r, cfg, ev, now)
    ensures copies.Some? ==> copies.value == CopiesOf(r.acks, r.chunk.id)
  {
    if r.placementRevision == 0 || r.placementEpoch == 0 || |r.acks| < cfg.sync { return None; }
    if ev.replication != cfg || r.placementRevision > ev.revision { return None; }
    var group := GroupFor(ev, r);
    if group.None? { return None; }
    var nodes, domains, made := {}, {}, [];
    for i := 0 to |r.acks|
      invariant AcksOk(r, i, group.value, ev.sessions, now)
      invariant nodes == AckNodes(r.acks, i) && domains == AckDomains(r.acks, i, ev.sessions, now)
      invariant made == CopiesOf(r.acks[..i], r.chunk.id)
    {
      var ack := r.acks[i];
      AcksNext(r, i, group.value, ev.sessions, now);
      if !AckProves(ack, r) || ack.node in nodes || !Assigned(ack, group.value.targets) { return None; }
      var device := AckDevice(ack, ev.sessions, now);
      if device.None? { return None; }
      nodes := nodes + {ack.node};
      domains := domains + {device.value.domain};
      made := made + [CopyOf(ack, r.chunk.id)];
    }
    assert r.acks[..|r.acks|] == r.acks;
    if |nodes| < cfg.minNodes || |domains| < cfg.minDomains || (cfg.local == Required && caller !in nodes) {
      return None;
    }
    return Some(made);
  }

  /** One more acknowledgement: accepted or fatal. */
  lemma AcksNext(r: ChunkReceipt, i: nat, group: ReplicaGroup, sessions: map<NodeId, NodeSession>, now: nat)
    requires i < |r.acks| && AcksOk(r, i, group, sessions, now)
    ensures AcksOk(r, i + 1, group, sessions, now) <==>
      AckOk(r, r.acks[i], group, sessions, now) && r.acks[i].node !in AckNodes(r.acks, i)
    ensures AcksOk(r, |r.acks|, group, sessions, now) ==> AcksOk(r, i + 1, group, sessions, now)
    ensures AckNodes(r.acks, i + 1) == AckNodes(r.acks, i) + {r.acks[i].node}
    ensures AckDevice(r.acks[i], sessions, now).Some? ==>
      AckDomains(r.acks, i + 1, sessions, now)
      == AckDomains(r.acks, i, sessions, now) + {AckDevice(r.acks[i], sessions, now).value.domain}
    ensures CopiesOf(r.acks[..i + 1], r.chunk.id) == CopiesOf(r.acks[..i], r.chunk.id) + [CopyOf(r.acks[i], r.chunk.id)]
  {
  }

  ghost predicate ReceiptAt(caller: NodeId, operation: OperationId, rs: seq<ChunkReceipt>, i: nat,
                            cfg: ReplicationConfig, evs: seq<Evidence>, now: nat)
    requires i < |rs| && i < |evs|
  {
    rs[i].operation == operation && ReceiptOk(caller, rs[i], cfg, evs[i], now)
  }

  /** All receipts of a commit: for this operation, for distinct chunks, each valid. */
  ghost predicate ReceiptsOk(caller: NodeId, operation: OperationId, rs: seq<ChunkReceipt>, n: nat,
                             cfg: ReplicationConfig, evs: seq<Evidence>, now: nat)
    requires n <= |rs|
  {
    && n <= |evs|
    && (forall i {:trigger ReceiptAt(caller, operation, rs, i, cfg, evs, now)} ::
          0 <= i < n ==> ReceiptAt(caller, operation, rs, i, cfg, evs, now))
    && (forall i, j :: 0 <= i < j < n ==> rs[i].chunk.id != rs[j].chunk.id)
  }

  ghost function ChunkIds(rs: seq<ChunkReceipt>, n: nat): set<ChunkId>
    requires n <= |rs|
  {
    set j | 0 <= j < n :: rs[j].chunk.id
  }

  lemma ReceiptsNext(caller: NodeId, operation: OperationId, rs: seq<ChunkReceipt>, i: nat,
                     cfg: ReplicationConfig, evs: seq<Evidence>, now: nat)
    requires i < |rs| <= |evs| && ReceiptsOk(caller, operation, rs, i, cfg, evs, now)
    ensures ReceiptsOk(caller, operation, rs, i + 1, cfg, evs, now)
      <==> rs[i].operation == operation && rs[i].chunk.id !in ChunkIds(rs, i)
                                              && ReceiptOk(caller, rs[i], cfg, evs[i], now)
    ensures ReceiptsOk(caller, operation, rs, |rs|, cfg, evs, now) ==>
      ReceiptsOk(caller, operation, rs, i + 1, cfg, evs, now)
    ensures ChunkIds(rs, i + 1) == ChunkIds(rs, i) + {rs[i].chunk.id}
  {
    assert ReceiptAt(caller, operation, rs, i, cfg, evs, now)
      <==> rs[i].operation == operation && ReceiptOk(caller, rs[i], cfg, evs[i], now);
  }

  method ValidateReceipts(caller: NodeId, operation: OperationId, rs: seq<ChunkReceipt>, cfg: ReplicationConfig,
                          evs: seq<Evidence>, now: nat) returns (ok: bool)
    requires |evs| == |rs|
    ensures ok <==> ReceiptsOk(caller, operation, rs, |rs|, cfg, evs, now)
  {
    var seen: set<ChunkId> := {};
    for i := 0 to |rs|
      invariant ReceiptsOk(caller, operation, rs, i, cfg, evs, now)
      invariant seen == ChunkIds(rs, i)
    {
      ReceiptsNext(caller, operation, rs, i, cfg, evs, now);
      if rs[i].operation != operation || rs[i].chunk.id in seen { return false; }
      seen := seen + {rs[i].chunk.id};
      var copies := ValidateReceipt(caller, rs[i], cfg, evs[i], now);
      if copies.None? { return false; }
    }
    return true;
  }

  lemma ReceiptProves(caller: NodeId, r: ChunkReceipt, cfg: ReplicationConfig, ev: Evidence, now: nat)
    requires ReceiptOk(caller, r, cfg, ev, now)
    ensures Proven(r.acks, r.chunk) && |r.acks| >= cfg.sync
  {
    forall i | 0 <= i < |r.acks|
      ensures r.acks[i].persistedBytes == r.chunk.length && r.acks[i].digest == r.chunk.digest
    {
      assert AckOk(r, r.acks[i], GroupFor(ev, r).value, ev.sessions, now);
    }
  }

  // --------------------------------------------------------------- the commit

  datatype CommitRequest = CommitRequest(
    origin: Origin, inode: InodeId, lease: WriteLease, expectedRevision: nat, expectedHead: Option<FileVersionId>,
    version: FileVersion, layout: LayoutRoot, receipts: seq<ChunkReceipt>,
    full: bool, mtime: Option<nat>, ctime: Option<nat>, killPriv: bool)

  function PendingTask(chunk: ChunkId, epoch: nat, desired: nat, existing: seq<CopyId>, attempt: nat,
                       now: nat): ReplicationTask
  {
    ReplicationTask(RepairTask(chunk), chunk, epoch, desired, existing, Pending, attempt, now, None, None)
  }

  function BroughtPlacement(r: ChunkReceipt, cfg: ReplicationConfig): PlacementRecord
  {
    PlacementRecord(r.chunk.id, r.group, r.placementEpoch, cfg.desired, IdsOf(CopiesOf(r.acks, r.chunk.id)),
                    if |r.acks| >= cfg.desired then Satisfied else UnderReplicated)
  }

  function BroughtTask(r: ChunkReceipt, cfg: ReplicationConfig, now: nat): ReplicationTask
  {
    PendingTask(r.chunk.id, r.placementEpoch, cfg.desired, IdsOf(CopiesOf(r.acks, r.chunk.id)), 0, now)
  }

  /** The chunk, its copies, its placement and, if copies are owed, its repair task. */
  function ReceiptMutations(r: ChunkReceipt, cfg: ReplicationConfig, now: nat): seq<TxnMutation>
  {
    [ Put(ChunkEntity(r.chunk)) ]
    + CopyPuts(CopiesOf(r.acks, r.chunk.id))
    + [ Put(PlacementEntity(BroughtPlacement(r, cfg))) ]
    + (if |r.acks| < cfg.desired then [ Put(TaskEntity(BroughtTask(r, cfg, now))) ] else [])
  }

  function ReceiptsMutations(rs: seq<ChunkReceipt>, n: nat, cfg: ReplicationConfig, now: nat): seq<TxnMutation>
    requires n <= |rs|
  {
    if n == 0 then [] else ReceiptsMutations(rs, n - 1, cfg, now) + ReceiptMutations(rs[n - 1], cfg, now)
  }

  function KilledMode(attrs: InodeAttributes, ctime: nat): InodeAttributes
  {
    var mode := ClearedPrivileges(attrs.mode);
    if mode == attrs.mode then attrs else attrs.(mode := mode, ctime := ctime)
  }

  function CommittedInode(current: InodeRecord, req: CommitRequest): Option<InodeRecord>
  {
    if (req.full && (req.mtime.None? || req.ctime.None?)) || (req.killPriv && req.ctime.None?) then None
    else
      var attrs := if req.full then current.attrs.(mtime := req.mtime.value, ctime := req.ctime.value)
                             else current.attrs;
      Some(current.(head := Some(req.version.id), revision := SatAdd64(current.revision, 1),
                    attrs := if req.killPriv then KilledMode(attrs, req.ctime.value) else attrs))
  }

  function FileMutations(req: CommitRequest, updated: InodeRecord): seq<TxnMutation>
  {
    [ Put(LayoutEntity(req.layout)), Put(VersionEntity(req.version)), Put(InodeEntity(updated)),
      RecordOutcome(req.origin.Outcome(DfsCommitFileVersion, InodeResult(updated))) ]
  }

  function CommitConditions(req: CommitRequest, current: InodeRecord, lease: WriteLease,
                            cfg: ReplicationConfig): seq<TxnCondition>
  {
    [ RequestAbsent(req.origin.Key()),
      EntityEquals(InodeEntity(current)),
      EntityEquals(LeaseEntity(lease)),
      EntityEquals(ConfigEntity(cfg)),
      Missing(VersionAt(req.version.id)),
      Missing(LayoutAt(req.layout.id)) ]
  }

  function CommitTxn(req: CommitRequest, current: InodeRecord, updated: InodeRecord, lease: WriteLease,
                     cfg: ReplicationConfig, now: nat): MetaTxn
  {
    MetaTxn(
      req.origin.Key(), DfsCommitFileVersion,
      CommitConditions(req, current, lease, cfg),
      ReceiptsMutations(req.receipts, |req.receipts|, cfg, now) + FileMutations(req, updated))
  }

  /** `get_file_version`: a version record, then its layout. */
  function BaseLayout(versionAt: State, layoutAt: State, head: Option<FileVersionId>): Found<Option<LayoutRoot>>
  {
    if head.None? then Ok(None)
    else if head.value !in versionAt.versions then Err(NotFound)
    else if versionAt.versions[head.value].layout !in layoutAt.layouts then Err(NotFound)
    else Ok(Some(layoutAt.layouts[versionAt.versions[head.value].layout]))
  }

  predicate OneFile(req: CommitRequest)
  {
    && req.version.inode == req.inode && req.version.layout == req.layout.id
    && req.version.length == req.layout.fileLength && req.version.parent == req.expectedHead
  }

  /** The states the commit reads, in order. */
  datatype CommitReads = CommitReads(
    inodeAt: State, leaseAt: State, configAt: State, versionAt: State, layoutAt: State, receipts: seq<Evidence>)

  ghost function PlanCommit(from: CommitReads, req: CommitRequest, cfg: ReplicationConfig, now: nat): Plan
  {
    if !req.origin.Key().IsValid() then Refused(Invalid)
    else
      match GetInode(from.inodeAt, req.inode)
      case Err(why) => Refused(why)
      case Ok(current) =>
        match ValidLease(from.leaseAt, req.origin.callerId, req.inode, req.lease, now)
        case Err(why) => Refused(why)
        case Ok(lease) =>
          if current.revision < req.expectedRevision || current.head != req.expectedHead then Refused(Conflict)
          else if !OneFile(req) then Refused(Invalid)
          else if from.configAt.config.Some? && from.configAt.config.value != cfg then Refused(Conflict)
          else
            match BaseLayout(from.versionAt, from.layoutAt, req.expectedHead)
            case Err(why) => Refused(why)
            case Ok(base) =>
              if !ReceiptsOk(req.origin.callerId, req.origin.operation, req.receipts, |req.receipts|, cfg,
                             from.receipts, now)
              then Refused(Invalid)
              else if !Shaped(req.layout.extents, req.layout.fileLength)
                      || !AllSourced(req.layout.extents, req.receipts, base)
              then Refused(Invalid)
              else if CommittedInode(current, req).None? then Refused(Invalid)
              else Planned(CommitTxn(req, current, CommittedInode(current, req).value, lease, cfg, now))
  }

  // ------------------------------------------------- effect on the replication records

  /** One receipt entered. */
  function Bring(k: Stock, r: ChunkReceipt, cfg: ReplicationConfig, now: nat): Stock
  {
    var copies := CopiesOf(r.acks, r.chunk.id);
    Stock(k.chunks[r.chunk.id := r.chunk],
          k.placements[r.chunk.id := BroughtPlacement(r, cfg)],
          PutCopies(k.copies, copies, |copies|),
          if |r.acks| < cfg.desired then k.tasks[RepairTask(r.chunk.id) := BroughtTask(r, cfg, now)] else k.tasks)
  }

  function BringAll(k: Stock, rs: seq<ChunkReceipt>, n: nat, cfg: ReplicationConfig, now: nat): Stock
    requires n <= |rs|
  {
    if n == 0 then k else Bring(BringAll(k, rs, n - 1, cfg, now), rs[n - 1], cfg, now)
  }

  /** The placement a receipt enters: every acknowledged copy is listed, Ready, on its own node. */
  lemma BroughtIsOk(k: Stock, r: ChunkReceipt, cfg: ReplicationConfig, now: nat)
    requires ContentDerived(r.chunk) && Proven(r.acks, r.chunk) && |r.acks| >= cfg.sync
    requires CopiesHere(k.copies, r.chunk.id)
    ensures PlacementOk(Bring(k, r, cfg, now), cfg, r.chunk.id)
    ensures CopiesElsewhere(k.copies, Bring(k, r, cfg, now).copies, r.chunk.id)
    ensures CopiesHere(Bring(k, r, cfg, now).copies, r.chunk.id)
  {
    var copies := Bring(k, r, cfg, now).copies;
    var c := r.chunk.id;
    var ids := IdsOf(CopiesOf(r.acks, c));
    AckedCopies(k.copies, r.acks, r.chunk);
    forall i | 0 <= i < |r.acks| ensures IsReady(copies, CopyOf(r.acks[i], c).id) && CopyOf(r.acks[i], c).id in ids {
      assert ids[i] == CopyOf(r.acks[i], c).id;
    }
    AckedNodesReady(copies, r.acks, r.chunk, ids);
    ReadyAreNodes(copies, ids);
  }

  lemma BringKeepsStock(k: Stock, r: ChunkReceipt, cfg: ReplicationConfig, now: nat)
    requires StockOk(k, cfg) && ContentDerived(r.chunk) && Proven(r.acks, r.chunk) && |r.acks| >= cfg.sync
    ensures StockOk(Bring(k, r, cfg, now), cfg)
  {
    var c := r.chunk.id;
    if RepairTask(c) in k.tasks { assert TaskOk(k, cfg, RepairTask(c)); }
    BroughtIsOk(k, r, cfg, now);
    FocusKeepsStock(k, Bring(k, r, cfg, now), cfg, c);
  }

  ghost predicate AllProven(rs: seq<ChunkReceipt>, cfg: ReplicationConfig)
  {
    forall i :: 0 <= i < |rs| ==>
      ContentDerived(rs[i].chunk) && Proven(rs[i].acks, rs[i].chunk) && |rs[i].acks| >= cfg.sync
  }

  lemma {:induction false} BringAllKeepsStock(k: Stock, rs: seq<ChunkReceipt>, n: nat, cfg: ReplicationConfig, now: nat)
    requires n <= |rs| && StockOk(k, cfg) && AllProven(rs, cfg)
    ensures StockOk(BringAll(k, rs, n, cfg, now), cfg)
  {
    if n > 0 {
      BringAllKeepsStock(k, rs, n - 1, cfg, now);
      BringKeepsStock(BringAll(k, rs, n - 1, cfg, now), rs[n - 1], cfg, now);
    }
  }

  lemma ReceiptEffect(k: Stock, r: ChunkReceipt, cfg: ReplicationConfig, now: nat)
    ensures StockAfter(k, ReceiptMutations(r, cfg, now)) == Bring(k, r, cfg, now)
  {
    var a := [Put(ChunkEntity(r.chunk))];
    var b := CopyPuts(CopiesOf(r.acks, r.chunk.id));
    var c := [Put(PlacementEntity(BroughtPlacement(r, cfg)))];
    var d := [Put(TaskEntity(BroughtTask(r, cfg, now)))];
    var ka := StockAfter(k, a);
    ChunkPutEffect(k, r.chunk);
    StockAppend(k, a, b);
    CopyPutsEffect(ka, CopiesOf(r.acks, r.chunk.id));
    var kb := StockAfter(ka, b);
    StockAppend(k, a + b, c);
    PlacementPutEffect(kb, BroughtPlacement(r, cfg));
    var kc := StockAfter(kb, c);
    if |r.acks| < cfg.desired {
      StockAppend(k, a + b + c, d);
      TaskPutEffect(kc, BroughtTask(r, cfg, now));
    } else {
      assert ReceiptMutations(r, cfg, now) == a + b + c;
    }
  }

  lemma {:induction false} ReceiptsEffect(k: Stock, rs: seq<ChunkReceipt>, n: nat, cfg: ReplicationConfig, now: nat)
    requires n <= |rs|
    ensures StockAfter(k, ReceiptsMutations(rs, n, cfg, now)) == BringAll(k, rs, n, cfg, now)
  {
    if n > 0 {
      ReceiptsEffect(k, rs, n - 1, cfg, now);
      StockAppend(k, ReceiptsMutations(rs, n - 1, cfg, now), ReceiptMutations(rs[n - 1], cfg, now));
      ReceiptEffect(BringAll(k, rs, n - 1, cfg, now), rs[n - 1], cfg, now);
    }
  }

  const STOCK := {OfChunks, OfPlacements, OfCopies, OfTasks}

  lemma {:induction false} ReceiptsAreas(rs: seq<ChunkReceipt>, n: nat, cfg: ReplicationConfig, now: nat)
    requires n <= |rs|
    ensures Within(ReceiptsMutations(rs, n, cfg, now), STOCK)
  {
    if n > 0 {
      ReceiptsAreas(rs, n - 1, cfg, now);
      assert Within(ReceiptMutations(rs[n - 1], cfg, now), STOCK);
    }
  }
}
