/**
 Planning of namespace mutations (src/meta/dfs.rs).

 Each function reads one or more earlier states of the store, performs the
 checks of the corresponding service method on what it read, and returns the
 transaction the method submits.  Nothing here looks at the state the
 transaction will meet.
 */
module NamespacePlans {
  import opened Records
  import opened MetaStore
  import NT = NamespaceTree

  datatype Refusal =
    | NotFound | NotDirectory | IsDirectory | DirectoryNotEmpty | AlreadyExists | NameTooLong
    | Invalid | Conflict | PermissionDenied | NotPermitted

  datatype Plan = Planned(txn: MetaTxn) | Refused(why: Refusal)

  datatype Found<T> = Ok(value: T) | Err(why: Refusal)

  // ------------------------------------------------------------ shared parts

  function RootInode(ns: NamespaceId): InodeRecord
  {
    InodeRecord(ns, ROOT, Directory, InodeAttributes(493, 0, 0, 2, 0, 0, 0), None, None, map[], 1)
  }

  function CheckName(name: Name): Option<Refusal>
  {
    if |name| > 255 then Some(NameTooLong)
    else if name == [] || name == [46] || name == [46, 46] || 47 in name then Some(Invalid)
    else None
  }

  /** `directory_for_mutation`; the root record has been persisted before it is read. */
  function DirectoryForMutation(s: State, ns: NamespaceId, parent: InodeId): Found<InodeRecord>
  {
    if parent !in s.inodes then Err(NotFound)
    else if s.inodes[parent].kind != Directory || s.inodes[parent].ns != ns then Err(NotDirectory)
    else if s.inodes[parent].attrs.nlink == 0 then Err(NotFound)
    else Ok(s.inodes[parent])
  }

  /** `inode_from_view` */
  function InodeFromView(s: State, ns: NamespaceId, id: InodeId): Found<InodeRecord>
  {
    if id in s.inodes && s.inodes[id].ns == ns then Ok(s.inodes[id])
    else if id !in s.inodes && id == ROOT then Ok(RootInode(ns))
    else Err(NotFound)
  }

  predicate InGroup(c: CallerContext, gid: nat) { c.gid == gid || gid in c.groups }

  /** Write and search permission on a directory: both bits of the class that applies. */
  predicate MayChangeDirectory(c: CallerContext, d: InodeRecord)
  {
    || c.uid == 0
    || (var bits := if c.uid == d.attrs.uid then d.attrs.mode / 64
                    else if InGroup(c, d.attrs.gid) then d.attrs.mode / 8
                    else d.attrs.mode;
        bits % 4 == 3)
  }

  predicate StickyAllows(c: CallerContext, d: InodeRecord, victim: InodeRecord)
  {
    (d.attrs.mode / 512) % 2 == 0 || c.uid == 0 || c.uid == d.attrs.uid || c.uid == victim.attrs.uid
  }

  predicate SetGid(d: InodeRecord) { (d.attrs.mode / 1024) % 2 == 1 }

  function InheritedGid(c: CallerContext, parent: InodeRecord): nat
  {
    if SetGid(parent) then parent.attrs.gid else c.gid
  }

  function LeaseExpiry(now: nat, seconds: nat): U64 { SatAdd64(now, Min(seconds * 1000, MAX64)) }

  function AddLinks(n: U32, delta: int): U32
  {
    if delta >= 0 then SatAdd32(n, delta) else SatSub(n, -delta)
  }

  /** The new parent record of `push_parent_namespace_change`. */
  function ParentAfter(parent: InodeRecord, delta: int, now: nat): InodeRecord
  {
    parent.(attrs := parent.attrs.(nlink := AddLinks(parent.attrs.nlink, delta), mtime := now, ctime := now),
            revision := SatAdd64(parent.revision, 1))
  }

  function Touched(inode: InodeRecord, nlink: U32, now: nat): InodeRecord
  {
    inode.(attrs := inode.attrs.(nlink := nlink, ctime := now), revision := SatAdd64(inode.revision, 1))
  }

  /** Who asks, under which idempotency key, and the digest of the whole request. */
  datatype Origin = Origin(callerId: string, operation: OperationId, digest: Digest)
  {
    function Key(): RequestKey { RequestKey(callerId, operation.text) }

    function Outcome(op: StoreOperation, result: OperationResult): RequestOutcome
    {
      RequestOutcome(Key(), op, NamespaceResult(digest, result))
    }
  }

  // ------------------------------------------------- create, mkdir, mknod, symlink

  datatype NewKind =
    | NewFile(session: SessionId, leaseSeconds: nat)
    | NewDirectory(caller: CallerContext)
    | NewSpecial(special: SpecialNodeKind, caller: CallerContext)
    | NewSymlink(target: seq<Byte>, caller: CallerContext)

  datatype AddRequest = AddRequest(
    origin: Origin, ns: NamespaceId, parent: InodeId, name: Name, attrs: InodeAttributes, what: NewKind)

  function AddOperation(what: NewKind): StoreOperation
  {
    match what
    case NewFile(_, _) => DfsCreate
    case NewDirectory(_) => DfsMkdir
    case NewSpecial(_, _) => DfsMknod
    case NewSymlink(_, _) => DfsSymlink
  }

  function CheckAdd(req: AddRequest, parent: InodeRecord): Option<Refusal>
  {
    match req.what
    case NewFile(_, seconds) => if seconds == 0 then Some(Invalid) else None
    case NewDirectory(c) => if MayChangeDirectory(c, parent) then None else Some(PermissionDenied)
    case NewSpecial(kind, c) =>
      if !MayChangeDirectory(c, parent) then Some(PermissionDenied)
      else if (kind.BlockDevice? || kind.CharDevice?) && c.uid != 0 then Some(NotPermitted)
      else if (kind.BlockDevice? || kind.CharDevice?) && kind.rdev > MAX32 then Some(Invalid)
      else None
    case NewSymlink(target, c) =>
      if target == [] then Some(Invalid)
      else if |target| > 4096 then Some(NameTooLong)
      else if !MayChangeDirectory(c, parent) then Some(PermissionDenied)
      else None
  }

  function NewAttributes(req: AddRequest, parent: InodeRecord, now: nat): InodeAttributes
  {
    match req.what
    case NewFile(_, _) => req.attrs
    case NewDirectory(c) =>
      req.attrs.(uid := c.uid, gid := InheritedGid(c, parent), nlink := 2,
                 mode := if SetGid(parent) && (req.attrs.mode / 1024) % 2 == 0 then req.attrs.mode + 1024
                         else req.attrs.mode)
    case NewSpecial(_, c) =>
      req.attrs.(uid := c.uid, gid := InheritedGid(c, parent), nlink := 1, atime := now, mtime := now, ctime := now)
    case NewSymlink(_, c) => req.attrs.(uid := c.uid, gid := InheritedGid(c, parent), nlink := 1)
  }

  function NewInode(req: AddRequest, id: InodeId, parent: InodeRecord, now: nat): InodeRecord
  {
    InodeRecord(
      req.ns, id,
      match req.what
        case NewFile(_, _) => Regular
        case NewDirectory(_) => Directory
        case NewSpecial(k, _) => Special(k)
        case NewSymlink(_, _) => Symlink,
      NewAttributes(req, parent, now), None,
      if req.what.NewSymlink? then Some(req.what.target) else None,
      map[], 1)
  }

  function NewLease(req: AddRequest, id: InodeId, now: nat): WriteLease
    requires req.what.NewFile?
  {
    WriteLease(id, req.origin.callerId, req.what.session, 1, LeaseExpiry(now, req.what.leaseSeconds))
  }

  function AddKey(req: AddRequest): DentryKey { DentryKey(req.ns, req.parent, req.name) }

  function CreationResult(inode: InodeRecord, lease: Option<WriteLease>): OperationResult
  {
    if lease.Some? then InodeWithLeaseResult(inode, lease.value) else InodeResult(inode)
  }

  /** Enters one new inode, and its first lease if it is a file, under a free name. */
  function CreationMutations(outcome: RequestOutcome, key: DentryKey, parentAfter: InodeRecord,
                             inode: InodeRecord, lease: Option<WriteLease>): seq<TxnMutation>
  {
    [ Put(InodeEntity(parentAfter)),
      Put(DentryEntity(key, inode.id)),
      Put(InodeEntity(inode)),
      RecordOutcome(outcome) ]
    + (if lease.Some? then [ Put(LeaseEntity(lease.value)) ] else [])
  }

  function CreationTxn(origin: Origin, op: StoreOperation, key: DentryKey, parent: InodeRecord,
                       parentAfter: InodeRecord,
                       inode: InodeRecord, lease: Option<WriteLease>): MetaTxn
  {
    MetaTxn(
      origin.Key(), op,
      [ RequestAbsent(origin.Key()),
        Missing(DentryAt(key)),
        Missing(InodeAt(inode.id)),
        EntityEquals(InodeEntity(parent)) ]
      + (if lease.Some? then [ Missing(LeaseAt(inode.id)) ] else []),
      CreationMutations(origin.Outcome(op, CreationResult(inode, lease)), key, parentAfter, inode, lease))
  }

  function AddTxn(req: AddRequest, id: InodeId, parent: InodeRecord, now: nat): MetaTxn
  {
    CreationTxn(
      req.origin, AddOperation(req.what), AddKey(req), parent,
      ParentAfter(parent, if req.what.NewDirectory? then 1 else 0, now),
      NewInode(req, id, parent, now),
      if req.what.NewFile? then Some(NewLease(req, id, now)) else None)
  }

  function PlanAdd(parentAt: State, req: AddRequest, id: InodeId, now: nat): Plan
  {
    if !req.origin.Key().IsValid() then Refused(Invalid)
    else if CheckName(req.name).Some? then Refused(CheckName(req.name).value)
    else
      match DirectoryForMutation(parentAt, req.ns, req.parent)
      case Err(why) => Refused(why)
      case Ok(parent) =>
        if CheckAdd(req, parent).Some? then Refused(CheckAdd(req, parent).value)
        else Planned(AddTxn(req, id, parent, now))
  }

  // -------------------------------------------------------------------- link

  datatype LinkRequest = LinkRequest(
    origin: Origin, ns: NamespaceId, inode: InodeId, expectedRevision: nat, parent: InodeId, name: Name,
    caller: CallerContext)

  function LinkKey(req: LinkRequest): DentryKey { DentryKey(req.ns, req.parent, req.name) }

  function LinkTxn(req: LinkRequest, parent: InodeRecord, inode: InodeRecord, now: nat): MetaTxn
  {
    var after := Touched(inode, SatAdd32(inode.attrs.nlink, 1), now);
    MetaTxn(
      req.origin.Key(), DfsLink,
      [ RequestAbsent(req.origin.Key()),
        Missing(DentryAt(LinkKey(req))),
        EntityEquals(InodeEntity(inode)),
        EntityEquals(InodeEntity(parent)) ],
      CreationMutations(req.origin.Outcome(DfsLink, InodeResult(after)), LinkKey(req),
                        ParentAfter(parent, 0, now), after, None))
  }

  function PlanLink(parentAt: State, view: State, req: LinkRequest, now: nat): Plan
  {
    if !req.origin.Key().IsValid() then Refused(Invalid)
    else if CheckName(req.name).Some? then Refused(CheckName(req.name).value)
    else
      match DirectoryForMutation(parentAt, req.ns, req.parent)
      case Err(why) => Refused(why)
      case Ok(parent) =>
        if !MayChangeDirectory(req.caller, parent) then Refused(PermissionDenied)
        else
          match InodeFromView(view, req.ns, req.inode)
          case Err(why) => Refused(why)
          case Ok(inode) =>
            if inode.kind == Directory then Refused(NotPermitted)
            else if inode.attrs.nlink == 0 then Refused(NotFound)
            else if inode.revision != req.expectedRevision then Refused(Conflict)
            else Planned(LinkTxn(req, parent, inode, now))
  }

  // ----------------------------------------------------------- unlink, rmdir

  datatype RemoveRequest = RemoveRequest(
    origin: Origin, ns: NamespaceId, parent: InodeId, name: Name, caller: CallerContext, directory: bool)

  function RemoveKey(req: RemoveRequest): DentryKey { DentryKey(req.ns, req.parent, req.name) }

  predicate EmptyInView(view: State, ns: NamespaceId, d: InodeId)
  {
    forall k :: k in view.dentries ==> !(k.ns == ns && k.parent == d)
  }

  function RemovalMutations(outcome: RequestOutcome, key: DentryKey, after: InodeRecord,
                            parentAfter: InodeRecord): seq<TxnMutation>
  {
    [ Delete(DentryAt(key)), Put(InodeEntity(after)), Put(InodeEntity(parentAfter)), RecordOutcome(outcome) ]
  }

  function RemoveTxn(req: RemoveRequest, parent: InodeRecord, inode: InodeRecord, now: nat): MetaTxn
  {
    var op := if req.directory then DfsRmdir else DfsUnlink;
    var after := Touched(inode, if req.directory then 0 else SatSub(inode.attrs.nlink, 1), now);
    MetaTxn(
      req.origin.Key(), op,
      [ RequestAbsent(req.origin.Key()),
        EntityEquals(DentryEntity(RemoveKey(req), inode.id)),
        EntityEquals(InodeEntity(inode)),
        EntityEquals(InodeEntity(parent)) ]
      + (if req.directory then [ DirectoryEmpty(req.ns, inode.id) ] else []),
      RemovalMutations(req.origin.Outcome(op, InodeResult(after)), RemoveKey(req), after,
                       ParentAfter(parent, if req.directory then -1 else 0, now)))
  }

  function PlanRemove(parentAt: State, view: State, req: RemoveRequest, now: nat): Plan
  {
    if !req.origin.Key().IsValid() then Refused(Invalid)
    else if CheckName(req.name).Some? then Refused(CheckName(req.name).value)
    else
      match DirectoryForMutation(parentAt, req.ns, req.parent)
      case Err(why) => Refused(why)
      case Ok(parent) =>
        if !MayChangeDirectory(req.caller, parent) then Refused(PermissionDenied)
        else if RemoveKey(req) !in view.dentries then Refused(NotFound)
        else
          match InodeFromView(view, req.ns, view.dentries[RemoveKey(req)])
          case Err(why) => Refused(why)
          case Ok(inode) =>
            if req.directory && inode.kind != Directory then Refused(NotDirectory)
            else if req.directory && !EmptyInView(view, req.ns, inode.id) then Refused(DirectoryNotEmpty)
            else if !req.directory && inode.kind == Directory then Refused(IsDirectory)
            else if !StickyAllows(req.caller, parent, inode) then Refused(PermissionDenied)
            else Planned(RemoveTxn(req, parent, inode, now))
  }

  // ------------------------------------------------------------------ rename

  datatype RenameRequest = RenameRequest(
    origin: Origin, ns: NamespaceId, oldParent: InodeId, oldName: Name, newParent: InodeId, newName: Name,
    replace: bool, caller: CallerContext)

  function OldKey(req: RenameRequest): DentryKey { DentryKey(req.ns, req.oldParent, req.oldName) }

  function NewKey(req: RenameRequest): DentryKey { DentryKey(req.ns, req.newParent, req.newName) }

  function NoopTxn(req: RenameRequest, source: InodeRecord): MetaTxn
  {
    MetaTxn(
      req.origin.Key(), DfsRename,
      [ RequestAbsent(req.origin.Key()),
        EntityEquals(DentryEntity(OldKey(req), source.id)),
        EntityEquals(InodeEntity(source)) ],
      [ RecordOutcome(req.origin.Outcome(DfsRename, RenameResult(source, None))) ])
  }

  function ReplacedAfter(target: InodeRecord, now: nat): InodeRecord
  {
    Touched(target, if target.kind == Directory then 0 else SatSub(target.attrs.nlink, 1), now)
  }

  predicate ReplacesDirectory(target: Option<InodeRecord>) { target.Some? && target.value.kind == Directory }

  function OldParentAfter(req: RenameRequest, oldParent: InodeRecord, source: InodeRecord,
                          target: Option<InodeRecord>, now: nat): InodeRecord
  {
    var lost := if req.oldParent == req.newParent then ReplacesDirectory(target) else source.kind == Directory;
    ParentAfter(oldParent, if lost then -1 else 0, now)
  }

  /** The second parent is rewritten only if it is another directory. */
  function NewParentAfter(req: RenameRequest, newParent: InodeRecord, source: InodeRecord,
                          target: Option<InodeRecord>, now: nat): Option<InodeRecord>
  {
    if req.oldParent == req.newParent then None
    else
      Some(ParentAfter(newParent,
                       (if source.kind == Directory then 1 else 0) - (if ReplacesDirectory(target) then 1 else 0), now))
  }

  function RenameConditions(req: RenameRequest, oldParent: InodeRecord, newParent: InodeRecord, source: InodeRecord,
                            target: Option<InodeRecord>): seq<TxnCondition>
  {
    [ RequestAbsent(req.origin.Key()),
      EntityEquals(DentryEntity(OldKey(req), source.id)),
      EntityEquals(InodeEntity(source)),
      EntityEquals(InodeEntity(oldParent)) ]
    + (if target.Some? then
         [ EntityEquals(DentryEntity(NewKey(req), target.value.id)), EntityEquals(InodeEntity(target.value)) ]
       else [ Missing(DentryAt(NewKey(req))) ])
    + (if source.kind == Directory then [ NotDescendant(req.ns, source.id, req.newParent) ] else [])
    + (if ReplacesDirectory(target) then [ DirectoryEmpty(req.ns, target.value.id) ] else [])
    + (if req.oldParent == req.newParent then [] else [ EntityEquals(InodeEntity(newParent)) ])
  }

  /** Delete both names, rewrite the replaced inode, enter the new name, then rewrite the source and the parents. */
  function RenameMutations(outcome: RequestOutcome, oldKey: DentryKey, newKey: DentryKey, replaced: Option<InodeRecord>,
                           moved: InodeRecord, oldParentAfter: InodeRecord,
                           newParentAfter: Option<InodeRecord>): seq<TxnMutation>
  {
    [ Delete(DentryAt(oldKey)) ]
    + (if replaced.Some? then [ Delete(DentryAt(newKey)), Put(InodeEntity(replaced.value)) ] else [])
    + [ Put(DentryEntity(newKey, moved.id)), Put(InodeEntity(moved)), Put(InodeEntity(oldParentAfter)) ]
    + (if newParentAfter.Some? then [ Put(InodeEntity(newParentAfter.value)) ] else [])
    + [ RecordOutcome(outcome) ]
  }

  function RenameTxn(req: RenameRequest, oldParent: InodeRecord, newParent: InodeRecord, source: InodeRecord,
                     target: Option<InodeRecord>, now: nat): MetaTxn
  {
    var moved := Touched(source, source.attrs.nlink, now);
    var replaced := if target.Some? then Some(ReplacedAfter(target.value, now)) else None;
    MetaTxn(
      req.origin.Key(), DfsRename,
      RenameConditions(req, oldParent, newParent, source, target),
      RenameMutations(req.origin.Outcome(DfsRename, RenameResult(moved, replaced)), OldKey(req), NewKey(req), replaced,
                      moved, OldParentAfter(req, oldParent, source, target, now),
                      NewParentAfter(req, newParent, source, target, now)))
  }

  /** What the pinned view says about the source and the target, given the two parents. */
  ghost function PlanMove(view: State, req: RenameRequest, oldParent: InodeRecord, newParent: InodeRecord,
                          source: InodeRecord, now: nat): Plan
  {
    if source.kind == Directory && NT.AncestorOrSame(view.dentries, source.id, req.newParent) then Refused(Invalid)
    else if NewKey(req) !in view.dentries then Planned(RenameTxn(req, oldParent, newParent, source, None, now))
    else if !req.replace then Refused(AlreadyExists)
    else
      match InodeFromView(view, req.ns, view.dentries[NewKey(req)])
      case Err(why) => Refused(why)
      case Ok(target) =>
        if !StickyAllows(req.caller, newParent, target) then Refused(PermissionDenied)
        else if target.id == source.id then Planned(NoopTxn(req, source))
        else if source.kind == Directory && target.kind != Directory then Refused(NotDirectory)
        else if source.kind != Directory && target.kind == Directory then Refused(IsDirectory)
        else if target.kind == Directory && !EmptyInView(view, req.ns, target.id) then Refused(DirectoryNotEmpty)
        else Planned(RenameTxn(req, oldParent, newParent, source, Some(target), now))
  }

  ghost function PlanRename(oldAt: State, newAt: State, view: State, req: RenameRequest, now: nat): Plan
  {
    if !req.origin.Key().IsValid() then Refused(Invalid)
    else if CheckName(req.oldName).Some? then Refused(CheckName(req.oldName).value)
    else if CheckName(req.newName).Some? then Refused(CheckName(req.newName).value)
    else
      match DirectoryForMutation(oldAt, req.ns, req.oldParent)
      case Err(why) => Refused(why)
      case Ok(oldParent) =>
        match DirectoryForMutation(newAt, req.ns, req.newParent)
        case Err(why) => Refused(why)
        case Ok(newParent) =>
          if !MayChangeDirectory(req.caller, oldParent) then Refused(PermissionDenied)
          else if req.oldParent != req.newParent && !MayChangeDirectory(req.caller, newParent) then
            Refused(PermissionDenied)
          else if OldKey(req) !in view.dentries then Refused(NotFound)
          else
            match InodeFromView(view, req.ns, view.dentries[OldKey(req)])
            case Err(why) => Refused(why)
            case Ok(source) =>
              if !StickyAllows(req.caller, oldParent, source) then Refused(PermissionDenied)
              else if OldKey(req) == NewKey(req) then Planned(NoopTxn(req, source))
              else PlanMove(view, req, oldParent, newParent, source, now)
  }

  // -------------------------------------------------------- namespace root

  function RootTxn(ns: NamespaceId): MetaTxn
  {
    var key := RequestKey("afs-meta", "dfs-namespace-root:" + ns.text);
    MetaTxn(
      key, DfsInitializeNamespace,
      [ RequestAbsent(key), Missing(InodeAt(ROOT)) ],
      [ Put(InodeEntity(RootInode(ns))),
        RecordOutcome(RequestOutcome(key, DfsInitializeNamespace, InodeResult(RootInode(ns)))) ])
  }
}
