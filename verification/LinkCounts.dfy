/**
 Link counts are 32-bit and saturate, and `create` takes its count from the
 caller.  Exactly when a committing namespace transaction keeps every count
 right: if and only if the record it rewrites has room for one more link.
 */
module LinkCounts {
  import opened Records
  import opened MetaStore
  import opened NamespacePlans
  import opened NamespaceEffects
  import opened NamespaceSafety
  import NT = NamespaceTree

  /** Equal entries and kinds: the trees differ at most in their counts. */
  ghost predicate SameShape(t: NT.Tree, u: NT.Tree)
  {
    && t.den == u.den && t.nodes.Keys == u.nodes.Keys
    && forall i :: i in t.nodes ==> t.nodes[i].dir == u.nodes[i].dir
  }

  /** The shape fixes the counts, so a record that saturated leaves a wrong one behind. */
  lemma ShapeFixesCount(t: State, u: NT.Tree, i: InodeId)
    requires NsInv(t) && ROOT in t.inodes && SameShape(TreeOf(t), u) && i in t.inodes && NT.LinksOk(u, i)
    requires u.nodes[i].dir ==> t.inodes[i].attrs.nlink > 0 && u.nodes[i].nlink > 0
    ensures u.nodes[i].nlink == t.inodes[i].attrs.nlink <= MAX32
  {
    assert NT.LinksOk(TreeOf(t), i);
    assert NT.SubdirKeys(TreeOf(t), i) == NT.SubdirKeys(u, i);
    assert NT.NameKeys(TreeOf(t), i) == NT.NameKeys(u, i);
  }

  lemma AddShape(s: State, t: State, key: DentryKey, p: InodeRecord, c: InodeRecord, dir: bool)
    requires ROOT in s.inodes && NT.CanAdd(TreeOf(s), key, c.id) && p.id == key.parent
    requires p.ns == s.inodes[ROOT].ns && p.kind == Directory && (c.kind == Directory <==> dir) && c.id != ROOT
    requires t.inodes == s.inodes[p.id := p][c.id := c] && t.dentries == s.dentries[key := c.id]
    ensures ROOT in t.inodes && SameShape(TreeOf(t), NT.Add(TreeOf(s), key, c.id, dir))
  {
  }

  /** create, mkdir, mknod, symlink */
  lemma AddCountsExactly(s: State, req: AddRequest, id: InodeId, parent: InodeRecord, now: nat, at: nat)
    requires AddBy(s, req, id, parent, now, at)
    ensures NsInv(Commit(s, AddTxn(req, id, parent, now), at)) <==> AddFits(req, parent)
  {
    var t := Commit(s, AddTxn(req, id, parent, now), at);
    if AddFits(req, parent) { AddKeepsInv(s, req, id, parent, now, at); }
    if NsInv(t) {
      AddPre(s, req, id, parent, now, at);
      RootExists(s, parent);
      var p := ParentAfter(parent, if req.what.NewDirectory? then 1 else 0, now);
      var c := NewInode(req, id, parent, now);
      CreationEffect(s, req.origin, AddOperation(req.what), AddKey(req), parent, p, c,
                     if req.what.NewFile? then Some(NewLease(req, id, now)) else None, at);
      AddForces(s, t, AddKey(req), parent, p, c, req.what.NewDirectory?);
    }
  }

  lemma AddForces(s: State, t: State, key: DentryKey, parent: InodeRecord, p: InodeRecord, c: InodeRecord, dir: bool)
    requires NsInv(s) && NsInv(t) && ROOT in s.inodes && NT.CanAdd(TreeOf(s), key, c.id)
    requires parent.id == key.parent && s.inodes[parent.id] == parent && parent.ns == s.inodes[ROOT].ns
    requires p == parent.(attrs := p.attrs, revision := p.revision) && p.kind == Directory
    requires (c.kind == Directory <==> dir)
    requires p.attrs.nlink == SatAdd32(parent.attrs.nlink, if dir then 1 else 0)
    requires t.inodes == s.inodes[p.id := p][c.id := c] && t.dentries == s.dentries[key := c.id]
    ensures dir ==> parent.attrs.nlink < MAX32
    ensures !dir ==> c.attrs.nlink == 1
  {
    var u := NT.Add(TreeOf(s), key, c.id, dir);
    AddShape(s, t, key, p, c, dir);
    NT.AddLinks(TreeOf(s), key, c.id, dir, key.parent);
    NT.AddLinks(TreeOf(s), key, c.id, dir, c.id);
    ShapeFixesCount(t, u, key.parent);
    if !dir { ShapeFixesCount(t, u, c.id); }
  }

  lemma LinkCountsExactly(s: State, req: LinkRequest, parent: InodeRecord, inode: InodeRecord, now: nat, at: nat)
    requires LinkBy(s, req, parent, inode, now, at)
    ensures NsInv(Commit(s, LinkTxn(req, parent, inode, now), at)) <==> inode.attrs.nlink < MAX32
  {
    var t := Commit(s, LinkTxn(req, parent, inode, now), at);
    if inode.attrs.nlink < MAX32 { LinkKeepsInv(s, req, parent, inode, now, at); }
    if NsInv(t) {
      LinkPre(s, req, parent, inode, now, at);
      LinkEffect(s, req, parent, inode, now, at);
      RootExists(s, parent);
      var u := NT.Link(TreeOf(s), LinkKey(req), inode.id);
      LinkShape(s, t, LinkKey(req), parent, inode, now);
      NT.LinkLinks(TreeOf(s), LinkKey(req), inode.id, inode.id);
      ShapeFixesCount(t, u, inode.id);
    }
  }

  lemma LinkShape(s: State, t: State, key: DentryKey, parent: InodeRecord, inode: InodeRecord, now: nat)
    requires ROOT in s.inodes && NT.CanLink(TreeOf(s), key, inode.id)
    requires parent.id in s.inodes && s.inodes[parent.id] == parent
    requires inode.id in s.inodes && s.inodes[inode.id] == inode
    requires t.inodes == s.inodes[parent.id := ParentAfter(parent, 0, now)]
                                 [inode.id := Touched(inode, SatAdd32(inode.attrs.nlink, 1), now)]
    requires t.dentries == s.dentries[key := inode.id]
    ensures ROOT in t.inodes && SameShape(TreeOf(t), NT.Link(TreeOf(s), key, inode.id))
  {
  }

  lemma RenameCountsExactly(s: State, req: RenameRequest, oldParent: InodeRecord, newParent: InodeRecord,
                            source: InodeRecord, target: Option<InodeRecord>, now: nat, at: nat)
    requires RenameBy(s, req, oldParent, newParent, source, target, now, at)
    ensures NsInv(Commit(s, RenameTxn(req, oldParent, newParent, source, target, now), at))
      <==> RenameFits(req, newParent, source, target)
  {
    var t := Commit(s, RenameTxn(req, oldParent, newParent, source, target, now), at);
    if RenameFits(req, newParent, source, target) {
      RenameKeepsInv(s, req, oldParent, newParent, source, target, now, at);
    }
    if NsInv(t) && target.None? && req.oldParent != req.newParent && source.kind == Directory {
      RenameFinds(s, req, oldParent, newParent, source, target, now, at);
      RenameMoves(s, req, oldParent, newParent, source, target, now, at);
      RenameEffect(s, req, oldParent, newParent, source, target, now, at);
      RenameForces(s, t, req, oldParent, newParent, source, now);
    }
  }

  lemma RenameForces(s: State, t: State, req: RenameRequest, oldParent: InodeRecord, newParent: InodeRecord,
                     source: InodeRecord, now: nat)
    requires NsInv(s) && NsInv(t) && RenameSite(s, req, oldParent, newParent, source, None)
    requires NT.CanMove(TreeOf(s), OldKey(req), NewKey(req)) && req.oldParent != req.newParent
    requires source.kind == Directory
    requires t.inodes == InodesRenamed(s, req, oldParent, newParent, source, None, now)
    requires t.dentries == (s.dentries - {OldKey(req)})[NewKey(req) := source.id]
    ensures newParent.attrs.nlink < MAX32
  {
    var u := NT.Move(TreeOf(s), OldKey(req), NewKey(req));
    RenameShape(s, t, req, oldParent, newParent, source, now);
    NT.MoveLinks(TreeOf(s), OldKey(req), NewKey(req), req.newParent);
    ShapeFixesCount(t, u, req.newParent);
  }

  lemma RenameShape(s: State, t: State, req: RenameRequest, oldParent: InodeRecord, newParent: InodeRecord,
                    source: InodeRecord, now: nat)
    requires RenameSite(s, req, oldParent, newParent, source, None)
    requires NT.CanMove(TreeOf(s), OldKey(req), NewKey(req))
    requires t.inodes == InodesRenamed(s, req, oldParent, newParent, source, None, now)
    requires t.dentries == (s.dentries - {OldKey(req)})[NewKey(req) := source.id]
    ensures ROOT in t.inodes && SameShape(TreeOf(t), NT.Move(TreeOf(s), OldKey(req), NewKey(req)))
  {
  }
}
