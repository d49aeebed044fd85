/**
 Optimistic planning is invisible: a namespace transaction that commits is the
 transaction its operation would have planned from the commit-time state
 itself, although its parents, view and target were read earlier, one by one.
 A rename that changes nothing pins no parent; for it this holds exactly if the
 parents still allow it.
 */
module NamespaceRefinement {
  import opened Records
  import opened MetaStore
  import opened NamespacePlans
  import opened NamespaceEffects
  import opened InodeHistory
  import NT = NamespaceTree

  lemma ParentIsCurrent(s: State, read: State, ns: NamespaceId, id: InodeId, p: InodeRecord)
    requires IdsOk(read) && DirectoryForMutation(read, ns, id) == Ok(p)
    requires p.id in s.inodes && s.inodes[p.id] == p
    ensures DirectoryForMutation(s, ns, id) == Ok(p)
  {
    assert IdOk(read, id);
  }

  lemma InodeIsCurrent(s: State, read: State, ns: NamespaceId, id: InodeId, r: InodeRecord)
    requires IdsOk(read) && InodeFromView(read, ns, id) == Ok(r)
    requires r.id in s.inodes && s.inodes[r.id] == r
    ensures r.id == id && InodeFromView(s, ns, id) == Ok(r)
  {
    if id in read.inodes { assert IdOk(read, id); }
  }

  /** create, mkdir, mknod, symlink */
  lemma AddRefines(s: State, parentAt: State, req: AddRequest, id: InodeId, now: nat, at: nat)
    requires IdsOk(parentAt) && PlanAdd(parentAt, req, id, now).Planned?
    requires Commits(s, PlanAdd(parentAt, req, id, now).txn, at)
    ensures PlanAdd(s, req, id, now) == PlanAdd(parentAt, req, id, now)
  {
    var parent := parentAt.inodes[req.parent];
    CreationConditions(s, req.origin, AddOperation(req.what), AddKey(req), parent,
      ParentAfter(parent, if req.what.NewDirectory? then 1 else 0, now), NewInode(req, id, parent, now),
      if req.what.NewFile? then Some(NewLease(req, id, now)) else None, at);
    ParentIsCurrent(s, parentAt, req.ns, req.parent, parent);
  }

  lemma LinkRefines(s: State, parentAt: State, view: State, req: LinkRequest, now: nat, at: nat)
    requires IdsOk(parentAt) && IdsOk(view) && PlanLink(parentAt, view, req, now).Planned?
    requires Commits(s, PlanLink(parentAt, view, req, now).txn, at)
    ensures PlanLink(s, s, req, now) == PlanLink(parentAt, view, req, now)
  {
    var parent := parentAt.inodes[req.parent];
    var inode := InodeFromView(view, req.ns, req.inode).value;
    LinkConditions(s, req, parent, inode, now, at);
    ParentIsCurrent(s, parentAt, req.ns, req.parent, parent);
    InodeIsCurrent(s, view, req.ns, req.inode, inode);
  }

  /** unlink, rmdir */
  lemma RemoveRefines(s: State, parentAt: State, view: State, req: RemoveRequest, now: nat, at: nat)
    requires IdsOk(parentAt) && IdsOk(view) && PlanRemove(parentAt, view, req, now).Planned?
    requires Commits(s, PlanRemove(parentAt, view, req, now).txn, at)
    ensures PlanRemove(s, s, req, now) == PlanRemove(parentAt, view, req, now)
  {
    var parent := parentAt.inodes[req.parent];
    var inode := InodeFromView(view, req.ns, view.dentries[RemoveKey(req)]).value;
    RemoveConditions(s, req, parent, inode, now, at);
    ParentIsCurrent(s, parentAt, req.ns, req.parent, parent);
    InodeIsCurrent(s, view, req.ns, view.dentries[RemoveKey(req)], inode);
  }

  /** A plan that moves something: the parents, source and target it is about. */
  ghost predicate MovePlan(oldAt: State, newAt: State, view: State, req: RenameRequest, now: nat,
                           oldParent: InodeRecord, newParent: InodeRecord, source: InodeRecord,
                           target: Option<InodeRecord>)
  {
    && DirectoryForMutation(oldAt, req.ns, req.oldParent) == Ok(oldParent)
    && DirectoryForMutation(newAt, req.ns, req.newParent) == Ok(newParent)
    && OldKey(req) in view.dentries
    && InodeFromView(view, req.ns, view.dentries[OldKey(req)]) == Ok(source)
    && OldKey(req) != NewKey(req)
    && (target.None? <==> NewKey(req) !in view.dentries)
    && (target.Some? ==>
          && InodeFromView(view, req.ns, view.dentries[NewKey(req)]) == Ok(target.value)
          && target.value.id != source.id
          && (target.value.kind == Directory <==> source.kind == Directory))
    && PlanRename(oldAt, newAt, view, req, now) == Planned(RenameTxn(req, oldParent, newParent, source, target, now))
  }

  /** A plan that finds both names bound to one inode. */
  ghost predicate NoopPlan(view: State, req: RenameRequest, source: InodeRecord)
  {
    && OldKey(req) in view.dentries
    && InodeFromView(view, req.ns, view.dentries[OldKey(req)]) == Ok(source)
    && (OldKey(req) == NewKey(req)
        || (NewKey(req) in view.dentries && InodeFromView(view, req.ns, view.dentries[NewKey(req)]).Ok?
            && InodeFromView(view, req.ns, view.dentries[NewKey(req)]).value.id == source.id))
  }

  /** Every planned rename is one of the two. */
  lemma RenameCases(oldAt: State, newAt: State, view: State, req: RenameRequest, now: nat)
    requires PlanRename(oldAt, newAt, view, req, now).Planned?
    ensures OldKey(req) in view.dentries && InodeFromView(view, req.ns, view.dentries[OldKey(req)]).Ok?
    ensures var source := InodeFromView(view, req.ns, view.dentries[OldKey(req)]).value;
      (NoopPlan(view, req, source) && PlanRename(oldAt, newAt, view, req, now) == Planned(NoopTxn(req, source)))
      || exists oldParent, newParent, target ::
        MovePlan(oldAt, newAt, view, req, now, oldParent, newParent, source, target)
  {
    var oldParent := oldAt.inodes[req.oldParent];
    var newParent := newAt.inodes[req.newParent];
    var source := InodeFromView(view, req.ns, view.dentries[OldKey(req)]).value;
    if !NoopPlan(view, req, source) {
      var target := if NewKey(req) in view.dentries
                    then Some(InodeFromView(view, req.ns, view.dentries[NewKey(req)]).value) else None;
      assert MovePlan(oldAt, newAt, view, req, now, oldParent, newParent, source, target);
    }
  }

  /** The second parent read: pinned if it is another directory, otherwise unchanged because the first one is. */
  lemma SecondParentIsCurrent(s: State, oldAt: State, newAt: State, req: RenameRequest, p: InodeRecord, q: InodeRecord)
    requires IdsOk(oldAt) && IdsOk(newAt) && Ages(oldAt, newAt) && Ages(newAt, s)
    requires DirectoryForMutation(oldAt, req.ns, req.oldParent) == Ok(p)
    requires DirectoryForMutation(newAt, req.ns, req.newParent) == Ok(q)
    requires p.id in s.inodes && s.inodes[p.id] == p
    requires req.oldParent != req.newParent ==> q.id in s.inodes && s.inodes[q.id] == q
    ensures DirectoryForMutation(s, req.ns, req.newParent) == Ok(q)
    ensures q.id == req.newParent
  {
    assert IdOk(oldAt, req.oldParent) && IdOk(newAt, req.newParent);
    if req.oldParent == req.newParent { NothingBetween(oldAt, newAt, s, p.id); }
  }

  lemma RenameRefines(s: State, oldAt: State, newAt: State, view: State, req: RenameRequest, now: nat, at: nat,
                      oldParent: InodeRecord, newParent: InodeRecord, source: InodeRecord, target: Option<InodeRecord>)
    requires IdsOk(oldAt) && IdsOk(newAt) && IdsOk(view) && Ages(oldAt, newAt) && Ages(newAt, s)
    requires MovePlan(oldAt, newAt, view, req, now, oldParent, newParent, source, target)
    requires Commits(s, RenameTxn(req, oldParent, newParent, source, target, now), at)
    ensures PlanRename(s, s, s, req, now) == PlanRename(oldAt, newAt, view, req, now)
  {
    RenamePins(s, req, oldParent, newParent, source, target, now, at);
    RenameTargetPins(s, req, oldParent, newParent, source, target, now, at);
    ParentIsCurrent(s, oldAt, req.ns, req.oldParent, oldParent);
    SecondParentIsCurrent(s, oldAt, newAt, req, oldParent, newParent);
    InodeIsCurrent(s, view, req.ns, view.dentries[OldKey(req)], source);
    if target.Some? { InodeIsCurrent(s, view, req.ns, view.dentries[NewKey(req)], target.value); }
  }

  /** The source entry and inode are pinned; losing the second name would have rewritten the inode. */
  lemma NoopNamesHeld(s: State, view: State, req: RenameRequest, source: InodeRecord)
    requires NsInv(view) && Ages(view, s) && NoopPlan(view, req, source)
    requires OldKey(req) in s.dentries && s.dentries[OldKey(req)] == source.id
    requires source.id in s.inodes && s.inodes[source.id] == source
    ensures NoopPlan(s, req, source)
    ensures NewKey(req) in s.dentries && s.dentries[NewKey(req)] == source.id
    ensures view.dentries[OldKey(req)] == source.id
    ensures NewKey(req) in view.dentries && view.dentries[NewKey(req)] == source.id
    ensures InodeFromView(s, req.ns, source.id) == InodeFromView(view, req.ns, source.id) == Ok(source)
    ensures OldKey(req) != NewKey(req) ==> source.kind != Directory
  {
    InodeIsCurrent(s, view, req.ns, view.dentries[OldKey(req)], source);
    if OldKey(req) != NewKey(req) {
      NoopNames(view, req, source);
      assert Aged(view, s, source.id);
    }
  }

  /** The checks on the parents, which a no-op rename makes when it plans but does not pin. */
  predicate ParentsAllow(s: State, req: RenameRequest, source: InodeRecord)
  {
    var p, q := DirectoryForMutation(s, req.ns, req.oldParent), DirectoryForMutation(s, req.ns, req.newParent);
    && p.Ok? && q.Ok?
    && MayChangeDirectory(req.caller, p.value) && StickyAllows(req.caller, p.value, source)
    && (req.oldParent != req.newParent ==> MayChangeDirectory(req.caller, q.value))
    && (OldKey(req) != NewKey(req) ==> StickyAllows(req.caller, q.value, source))
  }

  /** What the request itself must be for a no-op to have been planned. */
  predicate NoopRequest(req: RenameRequest)
  {
    && req.origin.Key().IsValid() && CheckName(req.oldName).None? && CheckName(req.newName).None?
    && (OldKey(req) != NewKey(req) ==> req.replace)
  }

  lemma NoopWasAsked(oldAt: State, newAt: State, view: State, req: RenameRequest, source: InodeRecord, now: nat)
    requires PlanRename(oldAt, newAt, view, req, now) == Planned(NoopTxn(req, source)) && NoopPlan(view, req, source)
    requires OldKey(req) != NewKey(req) ==> NewKey(req) in view.dentries
    ensures NoopRequest(req)
  {
  }

  lemma NoopAgain(s: State, req: RenameRequest, source: InodeRecord, now: nat)
    requires NoopRequest(req) && OldKey(req) in s.dentries && s.dentries[OldKey(req)] == source.id
    requires NewKey(req) in s.dentries && s.dentries[NewKey(req)] == source.id
    requires InodeFromView(s, req.ns, source.id) == Ok(source)
    requires (OldKey(req) != NewKey(req) ==> source.kind != Directory)
    ensures PlanRename(s, s, s, req, now) == Planned(NoopTxn(req, source)) <==> ParentsAllow(s, req, source)
  {
  }

  /** A committing no-op rename is the operation run at commit time exactly if the parents still allow it then. */
  lemma NoopRefinesExactly(s: State, oldAt: State, newAt: State, view: State, req: RenameRequest, source: InodeRecord,
                           now: nat, at: nat)
    requires NsInv(view) && Ages(view, s) && NoopPlan(view, req, source)
    requires PlanRename(oldAt, newAt, view, req, now) == Planned(NoopTxn(req, source))
    requires Commits(s, NoopTxn(req, source), at)
    ensures PlanRename(s, s, s, req, now) == Planned(NoopTxn(req, source)) <==> ParentsAllow(s, req, source)
    ensures var t := Commit(s, NoopTxn(req, source), at); t.inodes == s.inodes && t.dentries == s.dentries
  {
    NoopEffect(s, req, source, at);
    NoopNamesHeld(s, view, req, source);
    NoopWasAsked(oldAt, newAt, view, req, source, now);
    NoopAgain(s, req, source, now);
  }

  /** In a tree, two names for one inode name a file. */
  lemma NoopNames(view: State, req: RenameRequest, source: InodeRecord)
    requires NsInv(view) && NoopPlan(view, req, source) && OldKey(req) != NewKey(req)
    ensures source.id in view.inodes && view.inodes[source.id] == source && source.kind != Directory
    ensures view.dentries[OldKey(req)] == source.id && view.dentries[NewKey(req)] == source.id
  {
    assert ROOT in view.inodes;
    assert NT.EntryOk(TreeOf(view), OldKey(req)) && NT.EntryOk(TreeOf(view), NewKey(req));
    assert IdOk(view, view.dentries[OldKey(req)]) && IdOk(view, view.dentries[NewKey(req)]);
    assert NT.NamesApart(TreeOf(view), OldKey(req), NewKey(req));
  }
}
