/**
 Every namespace event of a run is a good step, provided the saturating
 counters still have room and a created file starts with one link.
 */
module NamespaceSteps {
  import opened Records
  import opened MetaStore
  import opened NamespacePlans
  import opened NamespaceEffects
  import opened NamespaceSafety
  import opened NamespaceRefinement
  import opened InodeHistory
  import opened Leases
  import opened FileHistory
  import opened RequestLog
  import opened MetaRun

  // ---------------------------------------------------------------- file heads

  type Inodes = map<InodeId, InodeRecord>

  ghost predicate SameHeads(m: Inodes, n: Inodes)
  {
    forall i :: i in n ==> n[i].head == if i in m then m[i].head else None
  }

  lemma HeadsWrite(m: Inodes, n: Inodes, r: InodeRecord)
    requires SameHeads(m, n) && r.head == if r.id in m then m[r.id].head else None
    ensures SameHeads(m, n[r.id := r])
  {
  }

  lemma HeadsAreKept(s: State, t: State)
    requires OnlyNamespace(s, t) && SameHeads(s.inodes, t.inodes)
    ensures HeadsKept(s, t)
  {
    assert Kept(s, t, OfVersions);
  }

  lemma NamespaceFiles(s: State, t: State)
    requires FilesOk(s) && HistoryOk(s) && OnlyNamespace(s, t) && SameHeads(s.inodes, t.inodes)
    requires forall i :: i in s.inodes ==> i in t.inodes
    ensures FileStep(s, t) && t.grants == s.grants
  {
    HeadsAreKept(s, t);
    assert Kept(s, t, OfLayouts) && Kept(s, t, OfPlacements) && Kept(s, t, OfGrants);
    SameFiles(s, t);
  }

  /** What is left to show for a namespace transaction. */
  lemma NamespaceStep(s: State, t: State, cfg: ReplicationConfig)
    requires Inv(s, cfg) && OnlyNamespace(s, t) && LogStep(s, t)
    requires TreeStep(s, t) && LeaseStep(s, t) && SameHeads(s.inodes, t.inodes)
    requires forall i :: i in s.inodes ==> i in t.inodes
    ensures StepAside(s, t, cfg)
  {
    NamespaceFiles(s, t);
    StockKept(s, t, NAMESPACE, cfg);
    RootsKept(s, t, NAMESPACE);
  }

  lemma PlainStep(s: State, txn: MetaTxn, at: nat, o: RequestOutcome, cfg: ReplicationConfig)
    requires Inv(s, cfg) && Plain(txn, o)
    ensures LogStep(s, Commit(s, txn, at))
  {
    CommitGrowsLog(s, txn, at, o);
    CommitAges(s, txn, at, o);
  }

  // ----------------------------------------------------------------- new inodes

  lemma CreationPlain(o: RequestOutcome, key: DentryKey, p: InodeRecord, c: InodeRecord, lease: Option<WriteLease>)
    ensures AllPlain(CreationMutations(o, key, p, c, lease), o)
    ensures RecordOutcome(o) in CreationMutations(o, key, p, c, lease)
  {
    assert CreationMutations(o, key, p, c, lease)[3] == RecordOutcome(o);
  }

  ghost predicate AddPlanned(parentAt: State, req: AddRequest, id: InodeId, now: nat)
  {
    PlanAdd(parentAt, req, id, now).Planned? && IdsOk(parentAt) && (req.what.NewFile? ==> req.attrs.nlink == 1)
  }

  /** The parts of a creation that are read off its effect. */
  lemma AddEffect(s: State, req: AddRequest, id: InodeId, parent: InodeRecord, now: nat, at: nat)
    requires AddBy(s, req, id, parent, now, at) && LeasesKeyed(s)
    ensures var t := Commit(s, AddTxn(req, id, parent, now), at);
      && OnlyNamespace(s, t) && LeaseStep(s, t) && SameHeads(s.inodes, t.inodes)
      && (forall i :: i in s.inodes ==> i in t.inodes)
  {
    var p := ParentAfter(parent, if req.what.NewDirectory? then 1 else 0, now);
    var c := NewInode(req, id, parent, now);
    var lease := if req.what.NewFile? then Some(NewLease(req, id, now)) else None;
    CreationConditions(s, req.origin, AddOperation(req.what), AddKey(req), parent, p, c, lease, at);
    CreationEffect(s, req.origin, AddOperation(req.what), AddKey(req), parent, p, c, lease, at);
    HeadsWrite(s.inodes, s.inodes, p);
    HeadsWrite(s.inodes, s.inodes[p.id := p], c);
    var t := Commit(s, AddTxn(req, id, parent, now), at);
    if lease.Some? { PutGrows(s, t, lease.value); } else { SameLeases(s, t); }
  }

  lemma AddLogs(s: State, req: AddRequest, id: InodeId, parent: InodeRecord, now: nat, at: nat, cfg: ReplicationConfig)
    requires Inv(s, cfg)
    ensures LogStep(s, Commit(s, AddTxn(req, id, parent, now), at))
  {
    var lease := if req.what.NewFile? then Some(NewLease(req, id, now)) else None;
    var c := NewInode(req, id, parent, now);
    var o := req.origin.Outcome(AddOperation(req.what), CreationResult(c, lease));
    CreationPlain(o, AddKey(req), ParentAfter(parent, if req.what.NewDirectory? then 1 else 0, now), c, lease);
    PlainStep(s, AddTxn(req, id, parent, now), at, o, cfg);
  }

  lemma AddByStep(s: State, req: AddRequest, id: InodeId, parent: InodeRecord, cfg: ReplicationConfig, now: nat,
                  at: nat)
    requires Inv(s, cfg) && Headroom(s) && AddBy(s, req, id, parent, now, at)
    requires (req.what.NewFile? ==> req.attrs.nlink == 1)
    ensures StepAside(s, Commit(s, AddTxn(req, id, parent, now), at), cfg)
  {
    AddPre(s, req, id, parent, now, at);
    AddKeepsInv(s, req, id, parent, now, at);
    AddAges(s, req, id, parent, now, at);
    AddEffect(s, req, id, parent, now, at);
    AddLogs(s, req, id, parent, now, at, cfg);
    NamespaceStep(s, Commit(s, AddTxn(req, id, parent, now), at), cfg);
  }

  lemma AddIsPlanned(parentAt: State, req: AddRequest, id: InodeId, now: nat) returns (parent: InodeRecord)
    requires AddPlanned(parentAt, req, id, now)
    ensures PlanAdd(parentAt, req, id, now).txn == AddTxn(req, id, parent, now)
    ensures GoodParent(parent, req.ns, req.parent)
  {
    parent := parentAt.inodes[req.parent];
    assert IdOk(parentAt, req.parent);
  }

  lemma AddTxnStep(s: State, req: AddRequest, id: InodeId, parent: InodeRecord, cfg: ReplicationConfig, now: nat,
                   at: nat)
    requires Inv(s, cfg) && Headroom(s) && GoodParent(parent, req.ns, req.parent)
    requires (req.what.NewFile? ==> req.attrs.nlink == 1)
    ensures StepAside(s, Commit(s, AddTxn(req, id, parent, now), at), cfg)
  {
    if Commits(s, AddTxn(req, id, parent, now), at) {
      AddByStep(s, req, id, parent, cfg, now, at);
    } else {
      IdleStep(s, cfg);
    }
  }

  lemma AddStep(s: State, parentAt: State, req: AddRequest, id: InodeId, cfg: ReplicationConfig, now: nat, at: nat)
    requires Inv(s, cfg) && Headroom(s) && AddPlanned(parentAt, req, id, now)
    ensures StepAside(s, Commit(s, PlanAdd(parentAt, req, id, now).txn, at), cfg)
  {
    var parent := AddIsPlanned(parentAt, req, id, now);
    AddTxnStep(s, req, id, parent, cfg, now, at);
  }

  // ----------------------------------------------------------------------- link

  lemma LinkLogs(s: State, req: LinkRequest, parent: InodeRecord, inode: InodeRecord, now: nat, at: nat,
                 cfg: ReplicationConfig)
    requires Inv(s, cfg)
    ensures LogStep(s, Commit(s, LinkTxn(req, parent, inode, now), at))
  {
    var after := Touched(inode, SatAdd32(inode.attrs.nlink, 1), now);
    var o := req.origin.Outcome(DfsLink, InodeResult(after));
    CreationPlain(o, LinkKey(req), ParentAfter(parent, 0, now), after, None);
    PlainStep(s, LinkTxn(req, parent, inode, now), at, o, cfg);
  }

  lemma LinkParts(s: State, req: LinkRequest, parent: InodeRecord, inode: InodeRecord, now: nat, at: nat)
    requires LinkBy(s, req, parent, inode, now, at) && LeasesKeyed(s)
    ensures var t := Commit(s, LinkTxn(req, parent, inode, now), at);
      && OnlyNamespace(s, t) && LeaseStep(s, t) && SameHeads(s.inodes, t.inodes)
      && (forall i :: i in s.inodes ==> i in t.inodes)
  {
    LinkConditions(s, req, parent, inode, now, at);
    LinkEffect(s, req, parent, inode, now, at);
    var p := ParentAfter(parent, 0, now);
    HeadsWrite(s.inodes, s.inodes, p);
    HeadsWrite(s.inodes, s.inodes[p.id := p], Touched(inode, SatAdd32(inode.attrs.nlink, 1), now));
    SameLeases(s, Commit(s, LinkTxn(req, parent, inode, now), at));
  }

  lemma LinkByStep(s: State, req: LinkRequest, parent: InodeRecord, inode: InodeRecord, cfg: ReplicationConfig,
                   now: nat, at: nat)
    requires Inv(s, cfg) && Headroom(s) && LinkBy(s, req, parent, inode, now, at)
    ensures StepAside(s, Commit(s, LinkTxn(req, parent, inode, now), at), cfg)
  {
    LinkPre(s, req, parent, inode, now, at);
    LinkKeepsInv(s, req, parent, inode, now, at);
    LinkAges(s, req, parent, inode, now, at);
    LinkParts(s, req, parent, inode, now, at);
    LinkLogs(s, req, parent, inode, now, at, cfg);
    NamespaceStep(s, Commit(s, LinkTxn(req, parent, inode, now), at), cfg);
  }

  lemma LinkPlanned(parentAt: State, view: State, req: LinkRequest, now: nat)
    returns (parent: InodeRecord, inode: InodeRecord)
    requires IdsOk(parentAt) && PlanLink(parentAt, view, req, now).Planned?
    ensures PlanLink(parentAt, view, req, now).txn == LinkTxn(req, parent, inode, now)
    ensures GoodParent(parent, req.ns, req.parent) && inode.kind != Directory && inode.attrs.nlink > 0
  {
    parent := parentAt.inodes[req.parent];
    inode := InodeFromView(view, req.ns, req.inode).value;
    assert IdOk(parentAt, req.parent);
  }

  lemma LinkTxnStep(s: State, req: LinkRequest, parent: InodeRecord, inode: InodeRecord, cfg: ReplicationConfig,
                    now: nat, at: nat)
    requires Inv(s, cfg) && Headroom(s) && GoodParent(parent, req.ns, req.parent) && inode.kind != Directory
    requires inode.attrs.nlink > 0
    ensures StepAside(s, Commit(s, LinkTxn(req, parent, inode, now), at), cfg)
  {
    if Commits(s, LinkTxn(req, parent, inode, now), at) {
      LinkByStep(s, req, parent, inode, cfg, now, at);
    } else {
      IdleStep(s, cfg);
    }
  }

  lemma LinkStep(s: State, parentAt: State, view: State, req: LinkRequest, cfg: ReplicationConfig, now: nat, at: nat)
    requires Inv(s, cfg) && Headroom(s) && IdsOk(parentAt) && PlanLink(parentAt, view, req, now).Planned?
    ensures StepAside(s, Commit(s, PlanLink(parentAt, view, req, now).txn, at), cfg)
  {
    var parent, inode := LinkPlanned(parentAt, view, req, now);
    LinkTxnStep(s, req, parent, inode, cfg, now, at);
  }

  // --------------------------------------------------------------- unlink, rmdir

  lemma RemoveLogs(s: State, req: RemoveRequest, parent: InodeRecord, inode: InodeRecord, now: nat, at: nat,
                   cfg: ReplicationConfig)
    requires Inv(s, cfg)
    ensures LogStep(s, Commit(s, RemoveTxn(req, parent, inode, now), at))
  {
    var after := Touched(inode, if req.directory then 0 else SatSub(inode.attrs.nlink, 1), now);
    var o := req.origin.Outcome(if req.directory then DfsRmdir else DfsUnlink, InodeResult(after));
    var ms := RemovalMutations(o, RemoveKey(req), after, ParentAfter(parent, if req.directory then -1 else 0, now));
    assert ms[3] == RecordOutcome(o) && AllPlain(ms, o);
    PlainStep(s, RemoveTxn(req, parent, inode, now), at, o, cfg);
  }

  lemma RemoveParts(s: State, req: RemoveRequest, parent: InodeRecord, inode: InodeRecord, now: nat, at: nat)
    requires RemoveBy(s, req, parent, inode, now, at) && LeasesKeyed(s)
    ensures var t := Commit(s, RemoveTxn(req, parent, inode, now), at);
      && OnlyNamespace(s, t) && LeaseStep(s, t) && SameHeads(s.inodes, t.inodes)
      && (forall i :: i in s.inodes ==> i in t.inodes)
  {
    RemoveConditions(s, req, parent, inode, now, at);
    RemoveEffect(s, req, parent, inode, now, at);
    var c := Touched(inode, if req.directory then 0 else SatSub(inode.attrs.nlink, 1), now);
    HeadsWrite(s.inodes, s.inodes, c);
    HeadsWrite(s.inodes, s.inodes[c.id := c], ParentAfter(parent, if req.directory then -1 else 0, now));
    SameLeases(s, Commit(s, RemoveTxn(req, parent, inode, now), at));
  }

  lemma RemoveByStep(s: State, req: RemoveRequest, parent: InodeRecord, inode: InodeRecord, cfg: ReplicationConfig,
                     now: nat, at: nat)
    requires Inv(s, cfg) && Headroom(s) && RemoveBy(s, req, parent, inode, now, at)
    ensures StepAside(s, Commit(s, RemoveTxn(req, parent, inode, now), at), cfg)
  {
    RemoveKeepsInv(s, req, parent, inode, now, at);
    RemoveAges(s, req, parent, inode, now, at);
    RemoveParts(s, req, parent, inode, now, at);
    RemoveLogs(s, req, parent, inode, now, at, cfg);
    NamespaceStep(s, Commit(s, RemoveTxn(req, parent, inode, now), at), cfg);
  }

  /** What a planned removal is about. */
  lemma RemovePlanned(parentAt: State, view: State, req: RemoveRequest, now: nat)
    returns (parent: InodeRecord, inode: InodeRecord)
    requires IdsOk(parentAt) && PlanRemove(parentAt, view, req, now).Planned?
    ensures PlanRemove(parentAt, view, req, now).txn == RemoveTxn(req, parent, inode, now)
    ensures GoodParent(parent, req.ns, req.parent) && (inode.kind == Directory <==> req.directory)
  {
    parent := parentAt.inodes[req.parent];
    inode := InodeFromView(view, req.ns, view.dentries[RemoveKey(req)]).value;
    assert IdOk(parentAt, req.parent);
  }

  lemma UnlinkStep(s: State, parentAt: State, view: State, req: RemoveRequest, cfg: ReplicationConfig, now: nat,
                   at: nat)
    requires Inv(s, cfg) && Headroom(s) && IdsOk(parentAt) && PlanRemove(parentAt, view, req, now).Planned?
    ensures StepAside(s, Commit(s, PlanRemove(parentAt, view, req, now).txn, at), cfg)
  {
    var parent, inode := RemovePlanned(parentAt, view, req, now);
    RemoveTxnStep(s, req, parent, inode, cfg, now, at);
  }

  lemma RemoveTxnStep(s: State, req: RemoveRequest, parent: InodeRecord, inode: InodeRecord, cfg: ReplicationConfig,
                      now: nat, at: nat)
    requires Inv(s, cfg) && Headroom(s) && GoodParent(parent, req.ns, req.parent)
    requires (inode.kind == Directory <==> req.directory)
    ensures StepAside(s, Commit(s, RemoveTxn(req, parent, inode, now), at), cfg)
  {
    if Commits(s, RemoveTxn(req, parent, inode, now), at) {
      RemoveByStep(s, req, parent, inode, cfg, now, at);
    } else {
      IdleStep(s, cfg);
    }
  }

  // --------------------------------------------------------------------- rename

  lemma RenamePlain(o: RequestOutcome, from: DentryKey, to: DentryKey, r: Option<InodeRecord>, c: InodeRecord,
                    p: InodeRecord, q: Option<InodeRecord>)
    ensures var ms := RenameMutations(o, from, to, r, c, p, q); AllPlain(ms, o) && RecordOutcome(o) in ms
  {
    var ms := RenameMutations(o, from, to, r, c, p, q);
    assert ms[|ms| - 1] == RecordOutcome(o);
  }

  lemma RenameHeads(s: State, req: RenameRequest, oldParent: InodeRecord, newParent: InodeRecord, source: InodeRecord,
                    target: Option<InodeRecord>, now: nat)
    requires RenameSite(s, req, oldParent, newParent, source, target)
    ensures var n := InodesRenamed(s, req, oldParent, newParent, source, target, now);
      SameHeads(s.inodes, n) && forall i :: i in s.inodes ==> i in n
  {
  }

  lemma MoveStep(s: State, req: RenameRequest, oldParent: InodeRecord, newParent: InodeRecord, source: InodeRecord,
                 target: Option<InodeRecord>, cfg: ReplicationConfig, now: nat, at: nat)
    requires Inv(s, cfg) && Headroom(s) && RenameBy(s, req, oldParent, newParent, source, target, now, at)
    ensures StepAside(s, Commit(s, RenameTxn(req, oldParent, newParent, source, target, now), at), cfg)
  {
    var t := Commit(s, RenameTxn(req, oldParent, newParent, source, target, now), at);
    RenameFinds(s, req, oldParent, newParent, source, target, now, at);
    RenameKeepsInv(s, req, oldParent, newParent, source, target, now, at);
    RenameEffect(s, req, oldParent, newParent, source, target, now, at);
    RenameAges(s, t, req, oldParent, newParent, source, target, now);
    RenameHeads(s, req, oldParent, newParent, source, target, now);
    SameLeases(s, t);
    MoveLogs(s, req, oldParent, newParent, source, target, cfg, now, at);
    NamespaceStep(s, t, cfg);
  }

  lemma MoveLogs(s: State, req: RenameRequest, oldParent: InodeRecord, newParent: InodeRecord, source: InodeRecord,
                 target: Option<InodeRecord>, cfg: ReplicationConfig, now: nat, at: nat)
    requires Inv(s, cfg)
    ensures LogStep(s, Commit(s, RenameTxn(req, oldParent, newParent, source, target, now), at))
  {
    var moved := Touched(source, source.attrs.nlink, now);
    var replaced := if target.Some? then Some(ReplacedAfter(target.value, now)) else None;
    var o := req.origin.Outcome(DfsRename, RenameResult(moved, replaced));
    RenamePlain(o, OldKey(req), NewKey(req), replaced, moved, OldParentAfter(req, oldParent, source, target, now),
                NewParentAfter(req, newParent, source, target, now));
    PlainStep(s, RenameTxn(req, oldParent, newParent, source, target, now), at, o, cfg);
  }

  lemma NoopStep(s: State, req: RenameRequest, source: InodeRecord, cfg: ReplicationConfig, at: nat)
    requires Inv(s, cfg) && Commits(s, NoopTxn(req, source), at)
    ensures StepAside(s, Commit(s, NoopTxn(req, source), at), cfg)
  {
    var t := Commit(s, NoopTxn(req, source), at);
    var o := req.origin.Outcome(DfsRename, RenameResult(source, None));
    assert NoopTxn(req, source).mutations[0] == RecordOutcome(o);
    NoopEffect(s, req, source, at);
    SameTree(s, t);
    SameLeases(s, t);
    PlainStep(s, NoopTxn(req, source), at, o, cfg);
    NamespaceStep(s, t, cfg);
  }

  lemma MoveBy(s: State, oldAt: State, newAt: State, view: State, req: RenameRequest, now: nat, at: nat,
               oldParent: InodeRecord, newParent: InodeRecord, source: InodeRecord, target: Option<InodeRecord>)
    requires NsInv(s) && IdsOk(oldAt) && IdsOk(newAt)
    requires MovePlan(oldAt, newAt, view, req, now, oldParent, newParent, source, target)
    requires Commits(s, RenameTxn(req, oldParent, newParent, source, target, now), at)
    ensures RenameBy(s, req, oldParent, newParent, source, target, now, at)
  {
    assert IdOk(oldAt, req.oldParent) && IdOk(newAt, req.newParent);
  }

  lemma RenameStep(s: State, oldAt: State, newAt: State, view: State, req: RenameRequest, cfg: ReplicationConfig,
                   now: nat, at: nat)
    requires Inv(s, cfg) && Headroom(s) && IdsOk(oldAt) && IdsOk(newAt)
    requires PlanRename(oldAt, newAt, view, req, now).Planned?
    ensures StepAside(s, Commit(s, PlanRename(oldAt, newAt, view, req, now).txn, at), cfg)
  {
    var txn := PlanRename(oldAt, newAt, view, req, now).txn;
    RenameCases(oldAt, newAt, view, req, now);
    var source := InodeFromView(view, req.ns, view.dentries[OldKey(req)]).value;
    if !Commits(s, txn, at) {
      IdleStep(s, cfg);
    } else if txn == NoopTxn(req, source) {
      NoopStep(s, req, source, cfg, at);
    } else {
      var oldParent, newParent, target :| MovePlan(oldAt, newAt, view, req, now, oldParent, newParent, source, target);
      MoveBy(s, oldAt, newAt, view, req, now, at, oldParent, newParent, source, target);
      MoveStep(s, req, oldParent, newParent, source, target, cfg, now, at);
    }
  }

  // ---------------------------------------------------------------------- start

  lemma StartLogs(s: State, ns: NamespaceId, cfg: ReplicationConfig, at: nat)
    requires Inv(s, cfg)
    ensures LogStep(s, Commit(s, RootTxn(ns), at))
  {
    var o := RequestOutcome(RootTxn(ns).request, DfsInitializeNamespace, InodeResult(RootInode(ns)));
    assert RootTxn(ns).mutations[1] == RecordOutcome(o);
    PlainStep(s, RootTxn(ns), at, o, cfg);
  }

  lemma StartStep(s: State, ns: NamespaceId, cfg: ReplicationConfig, at: nat)
    requires Inv(s, cfg)
    ensures StepAside(s, Commit(s, RootTxn(ns), at), cfg)
  {
    if Commits(s, RootTxn(ns), at) {
      var t := Commit(s, RootTxn(ns), at);
      RootEffect(s, ns, at);
      RootKeepsInv(s, ns, at);
      SameAges(s, t);
      SameLeases(s, t);
      HeadsWrite(s.inodes, s.inodes, RootInode(ns));
      StartLogs(s, ns, cfg, at);
      NamespaceStep(s, t, cfg);
    } else {
      IdleStep(s, cfg);
    }
  }
}
