/**
 Every committing namespace transaction is one atomic tree operation on the
 state it meets, however stale the reads it was planned from, and therefore
 keeps the tree well-formed.
 */
module NamespaceSafety {
  import opened Records
  import opened MetaStore
  import opened NamespacePlans
  import opened NamespaceEffects
  import NT = NamespaceTree

  ghost predicate GoodParent(p: InodeRecord, ns: NamespaceId, id: InodeId)
  {
    p.kind == Directory && p.ns == ns && p.attrs.nlink > 0 && p.id == id
  }

  /** The root exists once anything does, and a pinned live directory fixes the namespace. */
  lemma RootExists(s: State, p: InodeRecord)
    requires NsInv(s) && p.id in s.inodes && s.inodes[p.id] == p
    ensures ROOT in s.inodes && p.ns == s.inodes[ROOT].ns
  {
    assert ROOT in s.inodes;
    assert InNamespace(s, p.id);
  }

  /** Ids and the namespace survive when a record is written under its own id in the same namespace. */
  ghost predicate Labelled(inodes: map<InodeId, InodeRecord>, ns: NamespaceId)
  {
    forall i :: i in inodes ==> inodes[i].id == i && inodes[i].ns == ns
  }

  lemma InvLabels(s: State)
    requires NsInv(s) && ROOT in s.inodes
    ensures Labelled(s.inodes, s.inodes[ROOT].ns)
  {
    forall i | i in s.inodes ensures s.inodes[i].id == i && s.inodes[i].ns == s.inodes[ROOT].ns {
      assert IdOk(s, i) && InNamespace(s, i);
    }
  }

  lemma LabelsKept(m: map<InodeId, InodeRecord>, ns: NamespaceId, r: InodeRecord)
    requires Labelled(m, ns) && r.ns == ns
    ensures Labelled(m[r.id := r], ns)
  {
  }

  /** The invariant, from its two halves. */
  lemma InvFrom(t: State, ns: NamespaceId)
    requires ROOT in t.inodes && Labelled(t.inodes, ns) && NT.Wf(TreeOf(t))
    ensures NsInv(t)
  {
  }

  // ------------------------------------------------------------ new inodes

  ghost predicate AddBy(s: State, req: AddRequest, id: InodeId, parent: InodeRecord, now: nat, at: nat)
  {
    && NsInv(s)
    && Commits(s, AddTxn(req, id, parent, now), at)
    && GoodParent(parent, req.ns, req.parent)
  }

  /** A file starts with one link, and a new directory can still be counted by its parent. */
  predicate AddFits(req: AddRequest, parent: InodeRecord)
  {
    && (req.what.NewFile? ==> req.attrs.nlink == 1)
    && (req.what.NewDirectory? ==> parent.attrs.nlink < MAX32)
  }

  lemma AddPre(s: State, req: AddRequest, id: InodeId, parent: InodeRecord, now: nat, at: nat)
    requires AddBy(s, req, id, parent, now, at)
    ensures parent.id in s.inodes && s.inodes[parent.id] == parent
    ensures ROOT in s.inodes && NT.CanAdd(TreeOf(s), AddKey(req), id)
  {
    CreationConditions(s, req.origin, AddOperation(req.what), AddKey(req), parent,
      ParentAfter(parent, if req.what.NewDirectory? then 1 else 0, now), NewInode(req, id, parent, now),
      if req.what.NewFile? then Some(NewLease(req, id, now)) else None, at);
    RootExists(s, parent);
  }

  lemma AddNodes(m: map<InodeId, InodeRecord>, p: InodeRecord, c: InodeRecord)
    ensures NodesOf(m[p.id := p][c.id := c]) == NodesOf(m)[p.id := NodeOf(p)][c.id := NodeOf(c)]
  {
  }

  lemma AddIsAtomic(s: State, req: AddRequest, id: InodeId, parent: InodeRecord, now: nat, at: nat)
    requires AddBy(s, req, id, parent, now, at) && AddFits(req, parent)
    ensures ROOT in s.inodes && NT.CanAdd(TreeOf(s), AddKey(req), id)
    ensures var t := Commit(s, AddTxn(req, id, parent, now), at);
      && ROOT in t.inodes
      && TreeOf(t) == NT.Add(TreeOf(s), AddKey(req), id, req.what.NewDirectory?)
      && OnlyNamespace(s, t)
      && t.leases == (if req.what.NewFile? then s.leases[id := NewLease(req, id, now)] else s.leases)
  {
    AddPre(s, req, id, parent, now, at);
    var p := ParentAfter(parent, if req.what.NewDirectory? then 1 else 0, now);
    var c := NewInode(req, id, parent, now);
    var lease := if req.what.NewFile? then Some(NewLease(req, id, now)) else None;
    CreationEffect(s, req.origin, AddOperation(req.what), AddKey(req), parent, p, c, lease, at);
    AddNodes(s.inodes, p, c);
  }

  lemma AddKeepsInv(s: State, req: AddRequest, id: InodeId, parent: InodeRecord, now: nat, at: nat)
    requires AddBy(s, req, id, parent, now, at) && AddFits(req, parent)
    ensures NsInv(Commit(s, AddTxn(req, id, parent, now), at))
  {
    AddIsAtomic(s, req, id, parent, now, at);
    NT.AddKeepsWf(TreeOf(s), AddKey(req), id, req.what.NewDirectory?);
    AddKeepsLabels(s, req, id, parent, now, at);
    InvFrom(Commit(s, AddTxn(req, id, parent, now), at), req.ns);
  }

  lemma AddKeepsLabels(s: State, req: AddRequest, id: InodeId, parent: InodeRecord, now: nat, at: nat)
    requires AddBy(s, req, id, parent, now, at)
    ensures Labelled(Commit(s, AddTxn(req, id, parent, now), at).inodes, req.ns)
  {
    AddPre(s, req, id, parent, now, at);
    RootExists(s, parent);
    InvLabels(s);
    var p := ParentAfter(parent, if req.what.NewDirectory? then 1 else 0, now);
    var c := NewInode(req, id, parent, now);
    CreationEffect(s, req.origin, AddOperation(req.what), AddKey(req), parent, p, c,
                   if req.what.NewFile? then Some(NewLease(req, id, now)) else None, at);
    LabelsKept(s.inodes, req.ns, p);
    LabelsKept(s.inodes[p.id := p], req.ns, c);
  }

  // -------------------------------------------------------------------- link

  ghost predicate LinkBy(s: State, req: LinkRequest, parent: InodeRecord, inode: InodeRecord, now: nat, at: nat)
  {
    && NsInv(s)
    && Commits(s, LinkTxn(req, parent, inode, now), at)
    && GoodParent(parent, req.ns, req.parent)
    && inode.kind != Directory && inode.attrs.nlink > 0
  }

  lemma LinkPre(s: State, req: LinkRequest, parent: InodeRecord, inode: InodeRecord, now: nat, at: nat)
    requires LinkBy(s, req, parent, inode, now, at)
    ensures parent.id in s.inodes && s.inodes[parent.id] == parent
    ensures inode.id in s.inodes && s.inodes[inode.id] == inode
    ensures ROOT in s.inodes && NT.CanLink(TreeOf(s), LinkKey(req), inode.id)
  {
    LinkConditions(s, req, parent, inode, now, at);
    RootExists(s, parent);
  }

  lemma LinkNodes(m: map<InodeId, InodeRecord>, p: InodeRecord, c: InodeRecord, now: nat)
    requires p.id in m && m[p.id] == p && c.id in m && m[c.id] == c && p.id != c.id && c.attrs.nlink < MAX32
    ensures NodesOf(m[p.id := ParentAfter(p, 0, now)][c.id := Touched(c, SatAdd32(c.attrs.nlink, 1), now)])
      == NodesOf(m)[c.id := NodeOf(c).(nlink := c.attrs.nlink + 1)]
  {
  }

  lemma LinkTree(s: State, t: State, key: DentryKey, parent: InodeRecord, inode: InodeRecord, now: nat)
    requires ROOT in s.inodes && NT.CanLink(TreeOf(s), key, inode.id) && inode.attrs.nlink < MAX32
    requires parent.id in s.inodes && s.inodes[parent.id] == parent && parent.kind == Directory
    requires inode.id in s.inodes && s.inodes[inode.id] == inode && inode.kind != Directory
    requires t.inodes == s.inodes[parent.id := ParentAfter(parent, 0, now)]
                                 [inode.id := Touched(inode, SatAdd32(inode.attrs.nlink, 1), now)]
    requires t.dentries == s.dentries[key := inode.id]
    ensures ROOT in t.inodes && TreeOf(t) == NT.Link(TreeOf(s), key, inode.id)
  {
    LinkNodes(s.inodes, parent, inode, now);
    assert NodesOf(s.inodes)[inode.id] == NodeOf(inode);
  }

  lemma LinkIsAtomic(s: State, req: LinkRequest, parent: InodeRecord, inode: InodeRecord, now: nat, at: nat)
    requires LinkBy(s, req, parent, inode, now, at) && inode.attrs.nlink < MAX32
    ensures ROOT in s.inodes && NT.CanLink(TreeOf(s), LinkKey(req), inode.id)
    ensures var t := Commit(s, LinkTxn(req, parent, inode, now), at);
      && ROOT in t.inodes
      && TreeOf(t) == NT.Link(TreeOf(s), LinkKey(req), inode.id)
      && OnlyNamespace(s, t) && t.leases == s.leases
  {
    LinkPre(s, req, parent, inode, now, at);
    LinkEffect(s, req, parent, inode, now, at);
    LinkTree(s, Commit(s, LinkTxn(req, parent, inode, now), at), LinkKey(req), parent, inode, now);
  }

  lemma LinkKeepsLabels(s: State, req: LinkRequest, parent: InodeRecord, inode: InodeRecord, now: nat, at: nat)
    requires LinkBy(s, req, parent, inode, now, at)
    ensures Labelled(Commit(s, LinkTxn(req, parent, inode, now), at).inodes, req.ns)
  {
    LinkPre(s, req, parent, inode, now, at);
    RootExists(s, parent);
    RootExists(s, inode);
    InvLabels(s);
    LinkEffect(s, req, parent, inode, now, at);
    var p := ParentAfter(parent, 0, now);
    LabelsKept(s.inodes, req.ns, p);
    LabelsKept(s.inodes[p.id := p], req.ns, Touched(inode, SatAdd32(inode.attrs.nlink, 1), now));
  }

  lemma LinkKeepsInv(s: State, req: LinkRequest, parent: InodeRecord, inode: InodeRecord, now: nat, at: nat)
    requires LinkBy(s, req, parent, inode, now, at) && inode.attrs.nlink < MAX32
    ensures NsInv(Commit(s, LinkTxn(req, parent, inode, now), at))
  {
    LinkIsAtomic(s, req, parent, inode, now, at);
    NT.LinkKeepsWf(TreeOf(s), LinkKey(req), inode.id);
    LinkKeepsLabels(s, req, parent, inode, now, at);
    InvFrom(Commit(s, LinkTxn(req, parent, inode, now), at), req.ns);
  }

  // ----------------------------------------------------------- unlink, rmdir

  ghost predicate RemoveBy(s: State, req: RemoveRequest, parent: InodeRecord, inode: InodeRecord, now: nat, at: nat)
  {
    && NsInv(s)
    && Commits(s, RemoveTxn(req, parent, inode, now), at)
    && GoodParent(parent, req.ns, req.parent)
    && (inode.kind == Directory <==> req.directory)
  }

  lemma RemovePre(s: State, req: RemoveRequest, parent: InodeRecord, inode: InodeRecord, now: nat, at: nat)
    requires RemoveBy(s, req, parent, inode, now, at)
    ensures parent.id in s.inodes && s.inodes[parent.id] == parent
    ensures inode.id in s.inodes && s.inodes[inode.id] == inode
    ensures RemoveKey(req) in s.dentries && s.dentries[RemoveKey(req)] == inode.id
    ensures ROOT in s.inodes && NT.CanRemove(TreeOf(s), RemoveKey(req))
  {
    RemoveConditions(s, req, parent, inode, now, at);
    RootExists(s, parent);
    NT.NoSelfEntry(TreeOf(s), RemoveKey(req));
    assert NT.EntryOk(TreeOf(s), RemoveKey(req));
    if req.directory { EmptyDirectory(s, req.ns, inode.id); }
  }

  /** All entries lie in one namespace, so an empty directory there is empty. */
  lemma EmptyDirectory(s: State, ns: NamespaceId, d: InodeId)
    requires NsInv(s) && ROOT in s.inodes && ns == s.inodes[ROOT].ns && EmptyInView(s, ns, d)
    ensures forall l :: l in s.dentries ==> l.parent != d
  {
    forall l | l in s.dentries ensures l.parent != d { assert NT.EntryOk(TreeOf(s), l); }
  }

  lemma RemoveNodes(m: map<InodeId, InodeRecord>, p: InodeRecord, c: InodeRecord, now: nat)
    requires p.id in m && m[p.id] == p && c.id in m && m[c.id] == c && p.id != c.id
    requires c.attrs.nlink > 0 && p.attrs.nlink > 0
    ensures NodesOf(m[c.id := Touched(c, if c.kind == Directory then 0 else SatSub(c.attrs.nlink, 1), now)]
                     [p.id := ParentAfter(p, if c.kind == Directory then -1 else 0, now)])
      == NodesOf(m)[c.id := NodeOf(c).(nlink := if c.kind == Directory then 0 else c.attrs.nlink - 1)]
                   [p.id := NodeOf(p).(nlink := if c.kind == Directory then p.attrs.nlink - 1 else p.attrs.nlink)]
  {
  }

  lemma RemoveIsAtomic(s: State, req: RemoveRequest, parent: InodeRecord, inode: InodeRecord, now: nat, at: nat)
    requires RemoveBy(s, req, parent, inode, now, at)
    ensures ROOT in s.inodes && NT.CanRemove(TreeOf(s), RemoveKey(req))
    ensures var t := Commit(s, RemoveTxn(req, parent, inode, now), at);
      && ROOT in t.inodes
      && TreeOf(t) == NT.Remove(TreeOf(s), RemoveKey(req))
      && OnlyNamespace(s, t) && t.leases == s.leases
  {
    RemovePre(s, req, parent, inode, now, at);
    RemoveEffect(s, req, parent, inode, now, at);
    RemoveNodes(s.inodes, parent, inode, now);
  }

  lemma RemoveKeepsLabels(s: State, req: RemoveRequest, parent: InodeRecord, inode: InodeRecord, now: nat, at: nat)
    requires RemoveBy(s, req, parent, inode, now, at)
    ensures Labelled(Commit(s, RemoveTxn(req, parent, inode, now), at).inodes, req.ns)
  {
    RemovePre(s, req, parent, inode, now, at);
    RootExists(s, parent);
    RootExists(s, inode);
    InvLabels(s);
    RemoveEffect(s, req, parent, inode, now, at);
    var c := Touched(inode, if req.directory then 0 else SatSub(inode.attrs.nlink, 1), now);
    LabelsKept(s.inodes, req.ns, c);
    LabelsKept(s.inodes[c.id := c], req.ns, ParentAfter(parent, if req.directory then -1 else 0, now));
  }

  lemma RemoveKeepsInv(s: State, req: RemoveRequest, parent: InodeRecord, inode: InodeRecord, now: nat, at: nat)
    requires RemoveBy(s, req, parent, inode, now, at)
    ensures NsInv(Commit(s, RemoveTxn(req, parent, inode, now), at))
  {
    RemoveIsAtomic(s, req, parent, inode, now, at);
    NT.RemoveKeepsWf(TreeOf(s), RemoveKey(req));
    RemoveKeepsLabels(s, req, parent, inode, now, at);
    InvFrom(Commit(s, RemoveTxn(req, parent, inode, now), at), req.ns);
  }

  // ------------------------------------------------------------------ rename

  ghost predicate RenameBy(s: State, req: RenameRequest, oldParent: InodeRecord, newParent: InodeRecord,
                           source: InodeRecord, target: Option<InodeRecord>, now: nat, at: nat)
  {
    && NsInv(s)
    && Commits(s, RenameTxn(req, oldParent, newParent, source, target, now), at)
    && GoodParent(oldParent, req.ns, req.oldParent)
    && GoodParent(newParent, req.ns, req.newParent)
    && OldKey(req) != NewKey(req)
    && (target.Some? ==>
          target.value.id != source.id && (target.value.kind == Directory <==> source.kind == Directory))
  }

  /** A directory moved to another parent can still be counted there. */
  predicate RenameFits(req: RenameRequest, newParent: InodeRecord, source: InodeRecord, target: Option<InodeRecord>)
  {
    req.oldParent != req.newParent && source.kind == Directory && target.None? ==> newParent.attrs.nlink < MAX32
  }

  /** What a committing rename found: everything it read is still there, and the inodes involved differ. */
  ghost predicate RenameSite(s: State, req: RenameRequest, oldParent: InodeRecord, newParent: InodeRecord,
                             source: InodeRecord, target: Option<InodeRecord>)
  {
    && ROOT in s.inodes && s.inodes[ROOT].ns == req.ns && oldParent.id == req.oldParent && newParent.id == req.newParent
    && oldParent.id in s.inodes && s.inodes[oldParent.id] == oldParent
    && (req.oldParent != req.newParent ==> newParent.id in s.inodes && s.inodes[newParent.id] == newParent)
    && OldKey(req) in s.dentries && s.dentries[OldKey(req)] == source.id
    && source.id in s.inodes && s.inodes[source.id] == source
    && source.id !in {oldParent.id, newParent.id}
    && (target.None? ==> NewKey(req) !in s.dentries)
    && (target.Some? ==>
          && NewKey(req) in s.dentries && s.dentries[NewKey(req)] == target.value.id
          && target.value.id in s.inodes && s.inodes[target.value.id] == target.value
          && target.value.attrs.nlink > 0
          && target.value.id !in {oldParent.id, newParent.id, source.id})
  }

  lemma RenameFinds(s: State, req: RenameRequest, oldParent: InodeRecord, newParent: InodeRecord,
                    source: InodeRecord, target: Option<InodeRecord>, now: nat, at: nat)
    requires RenameBy(s, req, oldParent, newParent, source, target, now, at)
    ensures RenameSite(s, req, oldParent, newParent, source, target)
  {
    RenamePins(s, req, oldParent, newParent, source, target, now, at);
    RenameTargetPins(s, req, oldParent, newParent, source, target, now, at);
    RootExists(s, oldParent);
    NT.NoSelfEntry(TreeOf(s), OldKey(req));
    if source.kind == Directory {
      assert source.id != req.newParent by { SelfIsAncestor(s, source.id, req.newParent); }
    }
    if target.Some? {
      NT.NoSelfEntry(TreeOf(s), NewKey(req));
      assert NT.EntryOk(TreeOf(s), NewKey(req));
    }
  }

  lemma SelfIsAncestor(s: State, a: InodeId, b: InodeId)
    requires !NT.AncestorOrSame(s.dentries, a, b)
    ensures a != b
  {
    if a == b { assert NT.ChainFrom(s.dentries, a, b, [a]); }
  }

  /** The tree with the replaced target, if any, removed. */
  ghost function Cleared(t: NT.Tree, req: RenameRequest, target: Option<InodeRecord>): NT.Tree
    requires target.Some? ==> NT.CanRemove(t, NewKey(req))
  {
    if target.Some? then NT.Remove(t, NewKey(req)) else t
  }

  lemma RenameClears(s: State, req: RenameRequest, oldParent: InodeRecord, newParent: InodeRecord,
                     source: InodeRecord, target: Option<InodeRecord>, now: nat, at: nat)
    requires RenameBy(s, req, oldParent, newParent, source, target, now, at)
    ensures ROOT in s.inodes
    ensures target.Some? ==> NT.CanRemove(TreeOf(s), NewKey(req))
  {
    RenameFinds(s, req, oldParent, newParent, source, target, now, at);
    if target.Some? {
      assert NT.EntryOk(TreeOf(s), NewKey(req));
      RenameTargetPins(s, req, oldParent, newParent, source, target, now, at);
      if target.value.kind == Directory { EmptyDirectory(s, req.ns, target.value.id); }
    }
  }

  /** More entries, more ancestors. */
  lemma MoreAncestors(d: NT.Entries, e: NT.Entries, a: InodeId, b: InodeId)
    requires NT.AncestorOrSame(d, a, b)
    requires forall k :: k in d ==> k in e && e[k] == d[k]
    ensures NT.AncestorOrSame(e, a, b)
  {
    var p :| NT.ChainFrom(d, a, b, p);
    NT.ChainsGrow(d, e, p);
    assert NT.ChainFrom(e, a, b, p);
  }

  lemma RenameMoves(s: State, req: RenameRequest, oldParent: InodeRecord, newParent: InodeRecord,
                    source: InodeRecord, target: Option<InodeRecord>, now: nat, at: nat)
    requires RenameBy(s, req, oldParent, newParent, source, target, now, at)
    ensures ROOT in s.inodes
    ensures target.Some? ==> NT.CanRemove(TreeOf(s), NewKey(req))
    ensures NT.Wf(Cleared(TreeOf(s), req, target))
    ensures NT.CanMove(Cleared(TreeOf(s), req, target), OldKey(req), NewKey(req))
  {
    RenameFinds(s, req, oldParent, newParent, source, target, now, at);
    RenameClears(s, req, oldParent, newParent, source, target, now, at);
    RenameTargetPins(s, req, oldParent, newParent, source, target, now, at);
    var t := TreeOf(s);
    var u := Cleared(t, req, target);
    assert NT.EntryOk(t, OldKey(req));
    if target.Some? {
      NT.RemoveKeepsWf(t, NewKey(req));
      assert NT.EntryOk(u, OldKey(req));
      NT.RemoveLinks(t, NewKey(req), NewKey(req).parent);
    }
    if source.kind == Directory && NT.AncestorOrSame(u.den, source.id, req.newParent) {
      MoreAncestors(u.den, t.den, source.id, req.newParent);
    }
  }

  /** The inode map a rename leaves. */
  function InodesRenamed(s: State, req: RenameRequest, oldParent: InodeRecord, newParent: InodeRecord,
                         source: InodeRecord, target: Option<InodeRecord>, now: nat): map<InodeId, InodeRecord>
  {
    RenamedInodes(s.inodes, if target.Some? then Some(ReplacedAfter(target.value, now)) else None,
                  Touched(source, source.attrs.nlink, now),
                  OldParentAfter(req, oldParent, source, target, now),
                  NewParentAfter(req, newParent, source, target, now))
  }

  ghost predicate SameNode(m: map<InodeId, InodeRecord>, nodes: map<InodeId, NT.Node>, i: InodeId)
  {
    (i in m <==> i in nodes) && (i in m ==> NodeOf(m[i]) == nodes[i])
  }

  lemma SameNodes(m: map<InodeId, InodeRecord>, nodes: map<InodeId, NT.Node>)
    requires forall i :: SameNode(m, nodes, i)
    ensures NodesOf(m) == nodes
  {
    forall i ensures i in m <==> i in nodes
             ensures i in m ==> NodeOf(m[i]) == nodes[i] {
      assert SameNode(m, nodes, i);
    }
  }

  /** The records a rename writes, as nodes: the target loses its link, the parents trade one. */
  lemma RenameNodes(s: State, req: RenameRequest, oldParent: InodeRecord, newParent: InodeRecord,
                    source: InodeRecord, target: Option<InodeRecord>, now: nat, i: InodeId)
    requires RenameSite(s, req, oldParent, newParent, source, target)
    requires target.Some? ==> (target.value.kind == Directory <==> source.kind == Directory)
    requires target.Some? ==> NT.CanRemove(TreeOf(s), NewKey(req))
    requires NT.CanMove(Cleared(TreeOf(s), req, target), OldKey(req), NewKey(req))
    requires RenameFits(req, newParent, source, target)
    ensures var inodes := InodesRenamed(s, req, oldParent, newParent, source, target, now);
      var nodes := NT.Move(Cleared(TreeOf(s), req, target), OldKey(req), NewKey(req)).nodes;
      SameNode(inodes, nodes, i)
  {
  }

  lemma RenameTree(s: State, t: State, req: RenameRequest, oldParent: InodeRecord, newParent: InodeRecord,
                   source: InodeRecord, target: Option<InodeRecord>, now: nat)
    requires RenameSite(s, req, oldParent, newParent, source, target)
    requires target.Some? ==> (target.value.kind == Directory <==> source.kind == Directory)
    requires target.Some? ==> NT.CanRemove(TreeOf(s), NewKey(req))
    requires NT.CanMove(Cleared(TreeOf(s), req, target), OldKey(req), NewKey(req))
    requires RenameFits(req, newParent, source, target)
    requires t.inodes == InodesRenamed(s, req, oldParent, newParent, source, target, now)
    requires t.dentries == (s.dentries - {OldKey(req)})[NewKey(req) := source.id]
    ensures ROOT in t.inodes
    ensures TreeOf(t) == NT.Move(Cleared(TreeOf(s), req, target), OldKey(req), NewKey(req))
  {
    var u := NT.Move(Cleared(TreeOf(s), req, target), OldKey(req), NewKey(req));
    forall i ensures SameNode(t.inodes, u.nodes, i) {
      RenameNodes(s, req, oldParent, newParent, source, target, now, i);
    }
    SameNodes(t.inodes, u.nodes);
  }

  lemma RenameIsAtomic(s: State, req: RenameRequest, oldParent: InodeRecord, newParent: InodeRecord,
                       source: InodeRecord, target: Option<InodeRecord>, now: nat, at: nat)
    requires RenameBy(s, req, oldParent, newParent, source, target, now, at)
    requires RenameFits(req, newParent, source, target)
    ensures ROOT in s.inodes
    ensures target.Some? ==> NT.CanRemove(TreeOf(s), NewKey(req))
    ensures NT.CanMove(Cleared(TreeOf(s), req, target), OldKey(req), NewKey(req))
    ensures var t := Commit(s, RenameTxn(req, oldParent, newParent, source, target, now), at);
      && ROOT in t.inodes
      && TreeOf(t) == NT.Move(Cleared(TreeOf(s), req, target), OldKey(req), NewKey(req))
      && OnlyNamespace(s, t) && t.leases == s.leases
  {
    RenameFinds(s, req, oldParent, newParent, source, target, now, at);
    RenameMoves(s, req, oldParent, newParent, source, target, now, at);
    RenameEffect(s, req, oldParent, newParent, source, target, now, at);
    RenameTree(s, Commit(s, RenameTxn(req, oldParent, newParent, source, target, now), at),
               req, oldParent, newParent, source, target, now);
  }

  lemma RenameKeepsLabels(s: State, req: RenameRequest, oldParent: InodeRecord, newParent: InodeRecord,
                          source: InodeRecord, target: Option<InodeRecord>, now: nat)
    requires NsInv(s) && RenameSite(s, req, oldParent, newParent, source, target)
    ensures Labelled(InodesRenamed(s, req, oldParent, newParent, source, target, now), req.ns)
  {
    InvLabels(s);
    assert source.ns == req.ns && oldParent.ns == req.ns;
    assert req.oldParent != req.newParent ==> newParent.ns == req.ns;
    assert target.Some? ==> target.value.ns == req.ns;
  }

  lemma RenameKeepsInv(s: State, req: RenameRequest, oldParent: InodeRecord, newParent: InodeRecord,
                       source: InodeRecord, target: Option<InodeRecord>, now: nat, at: nat)
    requires RenameBy(s, req, oldParent, newParent, source, target, now, at)
    requires RenameFits(req, newParent, source, target)
    ensures NsInv(Commit(s, RenameTxn(req, oldParent, newParent, source, target, now), at))
  {
    RenameIsAtomic(s, req, oldParent, newParent, source, target, now, at);
    RenameMoves(s, req, oldParent, newParent, source, target, now, at);
    NT.MoveKeepsWf(Cleared(TreeOf(s), req, target), OldKey(req), NewKey(req));
    RenameFinds(s, req, oldParent, newParent, source, target, now, at);
    RenameEffect(s, req, oldParent, newParent, source, target, now, at);
    RenameKeepsLabels(s, req, oldParent, newParent, source, target, now);
    InvFrom(Commit(s, RenameTxn(req, oldParent, newParent, source, target, now), at), req.ns);
  }

  // ------------------------------------------- transactions that keep the tree

  /** Rewriting one inode without touching its kind, its links or its names. */
  lemma RewriteKeepsInv(s: State, t: State, r: InodeRecord)
    requires NsInv(s) && r.id in s.inodes && NodeOf(r) == NodeOf(s.inodes[r.id]) && r.ns == s.inodes[r.id].ns
    requires t.inodes == s.inodes[r.id := r] && t.dentries == s.dentries
    ensures NsInv(t)
  {
    assert IdOk(s, r.id);
    RootExists(s, s.inodes[r.id]);
    InvLabels(s);
    assert NodesOf(t.inodes) == NodesOf(s.inodes);
    assert TreeOf(t) == TreeOf(s);
    InvFrom(t, s.inodes[ROOT].ns);
  }

  lemma SameKeepsInv(s: State, t: State)
    requires NsInv(s) && t.inodes == s.inodes && t.dentries == s.dentries
    ensures NsInv(t)
  {
    if ROOT in s.inodes {
      InvLabels(s);
      assert TreeOf(t) == TreeOf(s);
      InvFrom(t, s.inodes[ROOT].ns);
    }
  }

  lemma RootKeepsInv(s: State, ns: NamespaceId, at: nat)
    requires NsInv(s) && Commits(s, RootTxn(ns), at)
    ensures NsInv(Commit(s, RootTxn(ns), at))
  {
    RootEffect(s, ns, at);
    var t := Commit(s, RootTxn(ns), at);
    assert NodesOf(t.inodes) == map[ROOT := NT.Node(true, 2)];
    NT.RootIsWf(ns);
    InvFrom(t, ns);
  }
}
