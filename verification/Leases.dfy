/**
 Write leases and their fencing epochs (src/meta/dfs.rs): acquire and renew,
 the validation every commit and metadata sync performs, and the plain inode
 metadata updates.  Plans read earlier states, as in `NamespacePlans`.
 */
module Leases {
  import opened Records
  import opened MetaStore
  import opened NamespacePlans

  // ------------------------------------------------------------ acquire, renew

  datatype LeaseRequest = LeaseRequest(
    caller: NodeId, session: SessionId, operation: OperationId, inode: InodeId, seconds: nat)
  {
    function Key(): RequestKey { RequestKey(caller, operation.text) }
  }

  predicate Owns(lease: WriteLease, node: NodeId, session: SessionId) { lease.node == node && lease.session == session }

  predicate LeaseLive(lease: WriteLease, now: nat) { lease.expires > now }

  /** A live owner keeps its epoch and never loses time; anyone else starts a new epoch. */
  function Acquired(existing: Option<WriteLease>, req: LeaseRequest, now: nat): Found<WriteLease>
  {
    var lease := if existing.Some? then existing.value else WriteLease(req.inode, req.caller, req.session, 0, 0);
    var same := Owns(lease, req.caller, req.session);
    var live := LeaseLive(lease, now);
    if live && !same then Err(Conflict)
    else if req.seconds == 0 then Err(Invalid)
    else
      var asked := LeaseExpiry(now, req.seconds);
      Ok(WriteLease(lease.inode, req.caller, req.session,
                    if same && live then lease.epoch else SatAdd64(lease.epoch, 1),
                    if same && live then Max(lease.expires, asked) else asked))
  }

  function GetInode(s: State, id: InodeId): Found<InodeRecord>
  {
    if id in s.inodes then Ok(s.inodes[id])
    else if id == ROOT then Ok(RootInode(NamespaceId("default")))
    else Err(NotFound)
  }

  function LeaseTxn(key: RequestKey, op: StoreOperation, existing: Option<WriteLease>, lease: WriteLease): MetaTxn
  {
    MetaTxn(
      key, op,
      [ RequestAbsent(key),
        if existing.Some? then EntityEquals(LeaseEntity(existing.value)) else Missing(LeaseAt(lease.inode)) ],
      [ Put(LeaseEntity(lease)), RecordOutcome(RequestOutcome(key, op, LeaseResult(lease))) ])
  }

  function PlanAcquire(inodeAt: State, leaseAt: State, req: LeaseRequest, now: nat): Plan
  {
    if !req.Key().IsValid() || req.session == "" then Refused(Invalid)
    else
      match GetInode(inodeAt, req.inode)
      case Err(why) => Refused(why)
      case Ok(inode) =>
        var existing := if req.inode in leaseAt.leases then Some(leaseAt.leases[req.inode]) else None;
        if inode.kind != Regular then Refused(Invalid)
        else
          match Acquired(existing, req, now)
          case Err(why) => Refused(why)
          case Ok(lease) => Planned(LeaseTxn(req.Key(), DfsAcquireWriteLease, existing, lease))
  }

  /** `validate_write_lease`: the presented lease must be the stored one up to its expiry. */
  function ValidLease(leaseAt: State, caller: NodeId, inode: InodeId, shown: WriteLease, now: nat): Found<WriteLease>
  {
    if shown.inode != inode || shown.node != caller then Err(Conflict)
    else if inode !in leaseAt.leases then Err(Conflict)
    else
      var current := leaseAt.leases[inode];
      if current.inode != shown.inode || !Owns(current, shown.node, shown.session)
         || current.epoch != shown.epoch || !LeaseLive(current, now)
      then Err(Conflict)
      else Ok(current)
  }

  function Renewed(stored: WriteLease, seconds: nat, now: nat): WriteLease
  {
    stored.(expires := Max(stored.expires, LeaseExpiry(now, seconds)))
  }

  function PlanRenew(leaseAt: State, req: LeaseRequest, shown: WriteLease, now: nat): Plan
  {
    if !req.Key().IsValid() || req.session == "" then Refused(Invalid)
    else if !Owns(shown, req.caller, req.session) then Refused(Conflict)
    else
      match ValidLease(leaseAt, req.caller, shown.inode, shown, now)
      case Err(why) => Refused(why)
      case Ok(stored) =>
        if req.seconds == 0 then Refused(Invalid)
        else Planned(LeaseTxn(req.Key(), DfsRenewWriteLease, Some(stored), Renewed(stored, req.seconds, now)))
  }

  // ------------------------------------------------------- inode metadata

  /** One inode rewritten in place, optionally under a pinned lease. */
  function UpdateTxn(key: RequestKey, op: StoreOperation, current: InodeRecord, updated: InodeRecord,
                     lease: Option<WriteLease>): MetaTxn
  {
    MetaTxn(
      key, op,
      [ RequestAbsent(key), EntityEquals(InodeEntity(current)) ]
      + (if lease.Some? then [ EntityEquals(LeaseEntity(lease.value)) ] else []),
      [ Put(InodeEntity(updated)), RecordOutcome(RequestOutcome(key, op, InodeResult(updated))) ])
  }

  /** setattr and the xattr calls, with the values their policies settled on. */
  datatype MetadataRequest = MetadataRequest(
    caller: string, operation: OperationId, inode: InodeId, expectedRevision: nat,
    attrs: InodeAttributes, xattrs: map<seq<Byte>, seq<Byte>>)
  {
    function Key(): RequestKey { RequestKey(caller, operation.text) }
  }

  function WithMetadata(current: InodeRecord, attrs: InodeAttributes, xattrs: map<seq<Byte>, seq<Byte>>): InodeRecord
  {
    current.(attrs := attrs.(nlink := current.attrs.nlink), xattrs := xattrs, revision := SatAdd64(current.revision, 1))
  }

  function PlanSetMetadata(inodeAt: State, req: MetadataRequest): Plan
  {
    if !req.Key().IsValid() then Refused(Invalid)
    else
      match GetInode(inodeAt, req.inode)
      case Err(why) => Refused(why)
      case Ok(current) =>
        if current.revision != req.expectedRevision then Refused(Conflict)
        else Planned(UpdateTxn(req.Key(), DfsSetInodeMetadata, current,
                               WithMetadata(current, req.attrs, req.xattrs), None))
  }

  datatype SyncRequest = SyncRequest(
    caller: NodeId, operation: OperationId, inode: InodeId, expectedRevision: nat, expectedHead: Option<FileVersionId>,
    lease: WriteLease, full: bool, mtime: Option<nat>, ctime: Option<nat>, killPriv: bool)
  {
    function Key(): RequestKey { RequestKey(caller, operation.text) }
  }

  function WithoutBit(mode: nat, bit: nat): nat
    requires bit > 0
  {
    if (mode / bit) % 2 == 1 && mode >= bit then mode - bit else mode
  }

  /** `cleared_write_privileges`: drops setuid, and setgid from a group-executable file. */
  function ClearedPrivileges(mode: nat): nat
  {
    WithoutBit(if (mode / 8) % 2 == 1 then WithoutBit(mode, 1024) else mode, 2048)
  }

  function Synced(current: InodeRecord, mtime: nat, ctime: nat, killPriv: bool): InodeRecord
  {
    current.(attrs := current.attrs.(mtime := mtime, ctime := ctime,
                                     mode := if killPriv then ClearedPrivileges(current.attrs.mode)
                                             else current.attrs.mode),
             revision := SatAdd64(current.revision, 1))
  }

  function PlanSync(inodeAt: State, leaseAt: State, req: SyncRequest, now: nat): Plan
  {
    if !req.Key().IsValid() || !req.full then Refused(Invalid)
    else
      match GetInode(inodeAt, req.inode)
      case Err(why) => Refused(why)
      case Ok(current) =>
        match ValidLease(leaseAt, req.caller, req.inode, req.lease, now)
        case Err(why) => Refused(why)
        case Ok(stored) =>
          if current.revision < req.expectedRevision || current.head != req.expectedHead then Refused(Conflict)
          else if req.mtime.None? || req.ctime.None? then Refused(Invalid)
          else Planned(UpdateTxn(req.Key(), DfsSyncInodeMetadata, current,
                                 Synced(current, req.mtime.value, req.ctime.value, req.killPriv), Some(stored)))
  }

  // ----------------------------------------------------------------- fencing

  /** One lease record and a later one for the same inode. */
  ghost predicate Succeeds(a: WriteLease, b: WriteLease)
  {
    && a.inode == b.inode && a.epoch <= b.epoch
    && (a.epoch == b.epoch ==> Owns(b, a.node, a.session) && a.expires <= b.expires)
  }

  ghost predicate LeaseGrows(s: State, t: State, i: InodeId)
  {
    i in s.leases ==> i in t.leases && Succeeds(s.leases[i], t.leases[i])
  }

  ghost predicate LeasesGrow(s: State, t: State)
  {
    forall i {:trigger LeaseGrows(s, t, i)} :: LeaseGrows(s, t, i)
  }

  ghost predicate LeasesKeyed(s: State)
  {
    forall i :: i in s.leases ==> s.leases[i].inode == i
  }

  lemma LeasesGrowTransitive(s: State, t: State, u: State)
    requires LeasesGrow(s, t) && LeasesGrow(t, u)
    ensures LeasesGrow(s, u)
  {
    forall i ensures LeaseGrows(s, u, i) { assert LeaseGrows(s, t, i) && LeaseGrows(t, u, i); }
  }

  /** What an acquisition writes succeeds what it replaced, exactly when the epoch can still grow. */
  lemma AcquiredSucceedsExactly(was: WriteLease, req: LeaseRequest, now: nat)
    requires Acquired(Some(was), req, now).Ok?
    ensures Succeeds(was, Acquired(Some(was), req, now).value)
      <==> Owns(was, req.caller, req.session) || was.epoch < MAX64
  {
  }

  lemma LeasePut(s: State, key: RequestKey, op: StoreOperation, existing: Option<WriteLease>, lease: WriteLease,
                 at: nat)
    requires Commits(s, LeaseTxn(key, op, existing, lease), at)
    ensures existing.Some? ==> existing.value.inode in s.leases && s.leases[existing.value.inode] == existing.value
    ensures existing.None? ==> lease.inode !in s.leases
    ensures var t := Commit(s, LeaseTxn(key, op, existing, lease), at);
      t.leases == s.leases[lease.inode := lease] && OnlyChanged(s, t, {OfRequests, OfLeases})
  {
    var txn := LeaseTxn(key, op, existing, lease);
    if existing.Some? { LeasePinned(s, txn, at, 1, existing.value); } else { LeaseFree(s, txn, at, 1, lease.inode); }
    assert LeasesAfter(s.leases, txn.mutations, 1) == s.leases[lease.inode := lease];
    CommitFrame(s, txn, at, {OfRequests, OfLeases});
  }

  lemma PutGrows(s: State, t: State, lease: WriteLease)
    requires LeasesKeyed(s) && t.leases == s.leases[lease.inode := lease]
    requires lease.inode in s.leases ==> Succeeds(s.leases[lease.inode], lease)
    ensures LeasesGrow(s, t) && LeasesKeyed(t)
  {
    forall i ensures LeaseGrows(s, t, i) {}
  }

  lemma AcquireGrows(s: State, inodeAt: State, leaseAt: State, req: LeaseRequest, now: nat, at: nat)
    requires LeasesKeyed(s) && LeasesKeyed(leaseAt) && PlanAcquire(inodeAt, leaseAt, req, now).Planned?
    requires req.inode in leaseAt.leases ==> leaseAt.leases[req.inode].epoch < MAX64
    ensures var t := Commit(s, PlanAcquire(inodeAt, leaseAt, req, now).txn, at);
      LeasesGrow(s, t) && LeasesKeyed(t) && OnlyChanged(s, t, {OfRequests, OfLeases})
  {
    var txn := PlanAcquire(inodeAt, leaseAt, req, now).txn;
    if Commits(s, txn, at) {
      var existing := if req.inode in leaseAt.leases then Some(leaseAt.leases[req.inode]) else None;
      var lease := Acquired(existing, req, now).value;
      LeasePut(s, req.Key(), DfsAcquireWriteLease, existing, lease, at);
      if existing.Some? { AcquiredSucceedsExactly(existing.value, req, now); }
      PutGrows(s, Commit(s, txn, at), lease);
    } else {
      CommitFrame(s, txn, at, {OfRequests, OfLeases});
    }
  }

  lemma RenewGrows(s: State, leaseAt: State, req: LeaseRequest, shown: WriteLease, now: nat, at: nat)
    requires LeasesKeyed(s) && PlanRenew(leaseAt, req, shown, now).Planned?
    ensures var t := Commit(s, PlanRenew(leaseAt, req, shown, now).txn, at);
      LeasesGrow(s, t) && LeasesKeyed(t) && OnlyChanged(s, t, {OfRequests, OfLeases})
  {
    var txn := PlanRenew(leaseAt, req, shown, now).txn;
    if Commits(s, txn, at) {
      var stored := ValidLease(leaseAt, req.caller, shown.inode, shown, now).value;
      LeasePut(s, req.Key(), DfsRenewWriteLease, Some(stored), Renewed(stored, req.seconds, now), at);
      PutGrows(s, Commit(s, txn, at), Renewed(stored, req.seconds, now));
    } else {
      CommitFrame(s, txn, at, {OfRequests, OfLeases});
    }
  }

  /** The update of one inode, and what it found. */
  lemma UpdateEffect(s: State, key: RequestKey, op: StoreOperation, current: InodeRecord, updated: InodeRecord,
                     lease: Option<WriteLease>, at: nat)
    requires Commits(s, UpdateTxn(key, op, current, updated, lease), at)
    ensures current.id in s.inodes && s.inodes[current.id] == current
    ensures lease.Some? ==> lease.value.inode in s.leases && s.leases[lease.value.inode] == lease.value
    ensures var t := Commit(s, UpdateTxn(key, op, current, updated, lease), at);
      t.inodes == s.inodes[updated.id := updated] && OnlyChanged(s, t, {OfRequests, OfInodes})
  {
    var txn := UpdateTxn(key, op, current, updated, lease);
    InodePinned(s, txn, at, 1, current);
    if lease.Some? { LeasePinned(s, txn, at, 2, lease.value); }
    assert InodesAfter(s.inodes, txn.mutations, 1) == s.inodes[updated.id := updated];
    CommitFrame(s, txn, at, {OfRequests, OfInodes});
  }

  /** A lease accepted at planning time and pinned at commit time is the lease presented. */
  lemma PinnedLeaseIsPresented(s: State, leaseAt: State, caller: NodeId, inode: InodeId, shown: WriteLease, now: nat)
    requires ValidLease(leaseAt, caller, inode, shown, now).Ok?
    requires var stored := ValidLease(leaseAt, caller, inode, shown, now).value;
      stored.inode in s.leases && s.leases[stored.inode] == stored
    ensures inode in s.leases && s.leases[inode].epoch == shown.epoch && Owns(s.leases[inode], caller, shown.session)
  {
  }

  /** A metadata sync commits only while the epoch it presents is the current one. */
  lemma SyncIsFenced(s: State, inodeAt: State, leaseAt: State, req: SyncRequest, now: nat, at: nat)
    requires PlanSync(inodeAt, leaseAt, req, now).Planned? && Commits(s, PlanSync(inodeAt, leaseAt, req, now).txn, at)
    ensures req.inode in s.leases && s.leases[req.inode].epoch == req.lease.epoch
    ensures Owns(s.leases[req.inode], req.caller, req.lease.session)
  {
    var current := GetInode(inodeAt, req.inode).value;
    var stored := ValidLease(leaseAt, req.caller, req.inode, req.lease, now).value;
    UpdateEffect(s, req.Key(), DfsSyncInodeMetadata, current,
                 Synced(current, req.mtime.value, req.ctime.value, req.killPriv), Some(stored), at);
    PinnedLeaseIsPresented(s, leaseAt, req.caller, req.inode, req.lease, now);
  }
}
