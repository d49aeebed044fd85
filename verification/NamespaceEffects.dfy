/**
 What a namespace transaction does when it commits, read off its conditions and
 mutations: the exact new inode, entry and lease maps, and the abstract tree
 operation they amount to on the state it met.
 */
module NamespaceEffects {
  import opened Records
  import opened MetaStore
  import opened NamespacePlans
  import NT = NamespaceTree

  // ------------------------------------------------------------- abstraction

  function NodeOf(r: InodeRecord): NT.Node { NT.Node(r.kind == Directory, r.attrs.nlink) }

  ghost function NodesOf(inodes: map<InodeId, InodeRecord>): map<InodeId, NT.Node>
  {
    map i | i in inodes :: NodeOf(inodes[i])
  }

  ghost function TreeOf(s: State): NT.Tree
    requires ROOT in s.inodes
  {
    NT.Tree(s.inodes[ROOT].ns, NodesOf(s.inodes), s.dentries)
  }

  ghost predicate IdOk(s: State, i: InodeId)
    requires i in s.inodes
  {
    s.inodes[i].id == i
  }

  ghost predicate IdsOk(s: State)
  {
    forall i {:trigger IdOk(s, i)} :: i in s.inodes ==> IdOk(s, i)
  }

  ghost predicate InNamespace(s: State, i: InodeId)
    requires i in s.inodes && ROOT in s.inodes
  {
    s.inodes[i].ns == s.inodes[ROOT].ns
  }

  /** Before the root exists there is nothing; afterwards there is one well-formed tree in one namespace. */
  ghost predicate NsInv(s: State)
  {
    && IdsOk(s)
    && (ROOT !in s.inodes ==> s.inodes == map[] && s.dentries == map[])
    && (ROOT in s.inodes ==>
          && NT.Wf(TreeOf(s))
          && forall i {:trigger InNamespace(s, i)} :: i in s.inodes ==> InNamespace(s, i))
  }

  const NAMESPACE := {OfRequests, OfInodes, OfDentries, OfLeases}

  /** A commit that touches only the namespace maps, leases and the request log. */
  ghost predicate OnlyNamespace(s: State, t: State) { OnlyChanged(s, t, NAMESPACE) }

  ghost predicate AllNamespace(ms: seq<TxnMutation>) { Within(ms, NAMESPACE) }

  // ------------------------------------------------------------ new inodes

  lemma CreationConditions(s: State, origin: Origin, op: StoreOperation, key: DentryKey, parent: InodeRecord,
                           parentAfter: InodeRecord, inode: InodeRecord, lease: Option<WriteLease>, at: nat)
    requires Commits(s, CreationTxn(origin, op, key, parent, parentAfter, inode, lease), at)
    ensures key !in s.dentries && inode.id !in s.inodes
    ensures parent.id in s.inodes && s.inodes[parent.id] == parent
    ensures lease.Some? ==> inode.id !in s.leases
  {
    var txn := CreationTxn(origin, op, key, parent, parentAfter, inode, lease);
    DentryFree(s, txn, at, 1, key);
    InodeFree(s, txn, at, 2, inode.id);
    InodePinned(s, txn, at, 3, parent);
    if lease.Some? { LeaseFree(s, txn, at, 4, inode.id); }
  }

  lemma CreationMaps(s: State, o: RequestOutcome, key: DentryKey, p: InodeRecord, c: InodeRecord,
                     lease: Option<WriteLease>)
    requires lease.Some? ==> lease.value.inode == c.id
    ensures var ms := CreationMutations(o, key, p, c, lease);
      && InodesAfter(s.inodes, ms, |ms|) == s.inodes[p.id := p][c.id := c]
      && DentriesAfter(s.dentries, ms, |ms|) == s.dentries[key := c.id]
      && LeasesAfter(s.leases, ms, |ms|) == (if lease.Some? then s.leases[c.id := lease.value] else s.leases)
      && AllNamespace(ms)
  {
    var ms := CreationMutations(o, key, p, c, lease);
    assert InodesAfter(s.inodes, ms, 1) == s.inodes[p.id := p];
    assert InodesAfter(s.inodes, ms, 3) == s.inodes[p.id := p][c.id := c];
    assert DentriesAfter(s.dentries, ms, 1) == s.dentries;
    assert DentriesAfter(s.dentries, ms, 3) == s.dentries[key := c.id];
    assert LeasesAfter(s.leases, ms, 1) == s.leases;
    assert LeasesAfter(s.leases, ms, 3) == s.leases;
  }

  lemma CreationEffect(s: State, origin: Origin, op: StoreOperation, key: DentryKey, parent: InodeRecord,
                       parentAfter: InodeRecord, inode: InodeRecord, lease: Option<WriteLease>, at: nat)
    requires lease.Some? ==> lease.value.inode == inode.id
    requires Commits(s, CreationTxn(origin, op, key, parent, parentAfter, inode, lease), at)
    ensures var t := Commit(s, CreationTxn(origin, op, key, parent, parentAfter, inode, lease), at);
      && t.inodes == s.inodes[parentAfter.id := parentAfter][inode.id := inode]
      && t.dentries == s.dentries[key := inode.id]
      && t.leases == (if lease.Some? then s.leases[inode.id := lease.value] else s.leases)
      && OnlyNamespace(s, t)
  {
    var s0 := s.(revision := s.revision + 1);
    var o := origin.Outcome(op, CreationResult(inode, lease));
    CreationMaps(s0, o, key, parentAfter, inode, lease);
    CommitFrame(s, CreationTxn(origin, op, key, parent, parentAfter, inode, lease), at, NAMESPACE);
  }

  // --------------------------------------------------- link, unlink, rename

  lemma LinkConditions(s: State, req: LinkRequest, parent: InodeRecord, inode: InodeRecord, now: nat, at: nat)
    requires Commits(s, LinkTxn(req, parent, inode, now), at)
    ensures LinkKey(req) !in s.dentries
    ensures inode.id in s.inodes && s.inodes[inode.id] == inode
    ensures parent.id in s.inodes && s.inodes[parent.id] == parent
  {
    var txn := LinkTxn(req, parent, inode, now);
    DentryFree(s, txn, at, 1, LinkKey(req));
    InodePinned(s, txn, at, 2, inode);
    InodePinned(s, txn, at, 3, parent);
  }

  lemma LinkEffect(s: State, req: LinkRequest, parent: InodeRecord, inode: InodeRecord, now: nat, at: nat)
    requires Commits(s, LinkTxn(req, parent, inode, now), at)
    ensures var t := Commit(s, LinkTxn(req, parent, inode, now), at);
      && t.inodes == s.inodes[parent.id := ParentAfter(parent, 0, now)]
                             [inode.id := Touched(inode, SatAdd32(inode.attrs.nlink, 1), now)]
      && t.dentries == s.dentries[LinkKey(req) := inode.id]
      && t.leases == s.leases
      && OnlyNamespace(s, t)
  {
    var s0 := s.(revision := s.revision + 1);
    var after := Touched(inode, SatAdd32(inode.attrs.nlink, 1), now);
    var o := req.origin.Outcome(DfsLink, InodeResult(after));
    var p := ParentAfter(parent, 0, now);
    CreationMaps(s0, o, LinkKey(req), p, after, None);
    CommitFrame(s, LinkTxn(req, parent, inode, now), at, NAMESPACE);
  }

  lemma RemoveConditions(s: State, req: RemoveRequest, parent: InodeRecord, inode: InodeRecord, now: nat, at: nat)
    requires Commits(s, RemoveTxn(req, parent, inode, now), at)
    ensures RemoveKey(req) in s.dentries && s.dentries[RemoveKey(req)] == inode.id
    ensures inode.id in s.inodes && s.inodes[inode.id] == inode
    ensures parent.id in s.inodes && s.inodes[parent.id] == parent
    ensures req.directory ==> EmptyInView(s, req.ns, inode.id)
  {
    var txn := RemoveTxn(req, parent, inode, now);
    DentryPinned(s, txn, at, 1, RemoveKey(req), inode.id);
    InodePinned(s, txn, at, 2, inode);
    InodePinned(s, txn, at, 3, parent);
    if req.directory { EmptyPinned(s, txn, at, 4, req.ns, inode.id); }
  }

  lemma RemovalMaps(s: State, o: RequestOutcome, key: DentryKey, c: InodeRecord, p: InodeRecord)
    ensures var ms := RemovalMutations(o, key, c, p);
      && InodesAfter(s.inodes, ms, |ms|) == s.inodes[c.id := c][p.id := p]
      && DentriesAfter(s.dentries, ms, |ms|) == s.dentries - {key}
      && LeasesAfter(s.leases, ms, |ms|) == s.leases
      && AllNamespace(ms)
  {
    var ms := RemovalMutations(o, key, c, p);
    assert InodesAfter(s.inodes, ms, 2) == s.inodes[c.id := c] by { assert InodesAfter(s.inodes, ms, 1) == s.inodes; }
    assert DentriesAfter(s.dentries, ms, 2) == s.dentries - {key} by {
      assert DentriesAfter(s.dentries, ms, 1) == s.dentries - {key};
    }
    assert LeasesAfter(s.leases, ms, 2) == s.leases by { assert LeasesAfter(s.leases, ms, 1) == s.leases; }
  }

  lemma RemoveEffect(s: State, req: RemoveRequest, parent: InodeRecord, inode: InodeRecord, now: nat, at: nat)
    requires Commits(s, RemoveTxn(req, parent, inode, now), at)
    ensures var t := Commit(s, RemoveTxn(req, parent, inode, now), at);
      && t.inodes == s.inodes[inode.id := Touched(inode, if req.directory then 0 else SatSub(inode.attrs.nlink, 1),
                                                  now)]
                             [parent.id := ParentAfter(parent, if req.directory then -1 else 0, now)]
      && t.dentries == s.dentries - {RemoveKey(req)}
      && t.leases == s.leases
      && OnlyNamespace(s, t)
  {
    var s0 := s.(revision := s.revision + 1);
    var after := Touched(inode, if req.directory then 0 else SatSub(inode.attrs.nlink, 1), now);
    var o := req.origin.Outcome(if req.directory then DfsRmdir else DfsUnlink, InodeResult(after));
    var p := ParentAfter(parent, if req.directory then -1 else 0, now);
    RemovalMaps(s0, o, RemoveKey(req), after, p);
    CommitFrame(s, RemoveTxn(req, parent, inode, now), at, NAMESPACE);
  }

  lemma RenamePins(s: State, req: RenameRequest, oldParent: InodeRecord, newParent: InodeRecord, source: InodeRecord,
                   target: Option<InodeRecord>, now: nat, at: nat)
    requires Commits(s, RenameTxn(req, oldParent, newParent, source, target, now), at)
    ensures OldKey(req) in s.dentries && s.dentries[OldKey(req)] == source.id
    ensures source.id in s.inodes && s.inodes[source.id] == source
    ensures oldParent.id in s.inodes && s.inodes[oldParent.id] == oldParent
    ensures req.oldParent != req.newParent ==> newParent.id in s.inodes && s.inodes[newParent.id] == newParent
  {
    var txn := RenameTxn(req, oldParent, newParent, source, target, now);
    DentryPinned(s, txn, at, 1, OldKey(req), source.id);
    InodePinned(s, txn, at, 2, source);
    InodePinned(s, txn, at, 3, oldParent);
    if req.oldParent != req.newParent { InodePinned(s, txn, at, |txn.conditions| - 1, newParent); }
  }

  lemma RenameTargetPins(s: State, req: RenameRequest, oldParent: InodeRecord, newParent: InodeRecord,
                         source: InodeRecord,
                         target: Option<InodeRecord>, now: nat, at: nat)
    requires Commits(s, RenameTxn(req, oldParent, newParent, source, target, now), at)
    ensures target.None? ==> NewKey(req) !in s.dentries
    ensures target.Some? ==> NewKey(req) in s.dentries && s.dentries[NewKey(req)] == target.value.id
    ensures target.Some? ==> target.value.id in s.inodes && s.inodes[target.value.id] == target.value
    ensures source.kind == Directory ==> !NT.AncestorOrSame(s.dentries, source.id, req.newParent)
    ensures ReplacesDirectory(target) ==> EmptyInView(s, req.ns, target.value.id)
  {
    var txn := RenameTxn(req, oldParent, newParent, source, target, now);
    if target.Some? {
      DentryPinned(s, txn, at, 4, NewKey(req), target.value.id);
      InodePinned(s, txn, at, 5, target.value);
    } else {
      DentryFree(s, txn, at, 4, NewKey(req));
    }
    var next := if target.Some? then 6 else 5;
    if source.kind == Directory { NotDescendantPinned(s, txn, at, next, req.ns, source.id, req.newParent); }
    if ReplacesDirectory(target) {
      EmptyPinned(s, txn, at, if source.kind == Directory then next + 1 else next, req.ns, target.value.id);
    }
  }

  /** The inode map after a rename: target, source, old parent, new parent, in that order. */
  function RenamedInodes(inodes: map<InodeId, InodeRecord>, replaced: Option<InodeRecord>, moved: InodeRecord,
                         oldParent: InodeRecord, newParent: Option<InodeRecord>): map<InodeId, InodeRecord>
  {
    var a := if replaced.Some? then inodes[replaced.value.id := replaced.value] else inodes;
    var b := a[moved.id := moved][oldParent.id := oldParent];
    if newParent.Some? then b[newParent.value.id := newParent.value] else b
  }

  lemma RenameInodes(m: map<InodeId, InodeRecord>, o: RequestOutcome, from: DentryKey, to: DentryKey,
                     r: Option<InodeRecord>,
                     c: InodeRecord, p: InodeRecord, q: Option<InodeRecord>)
    ensures var ms := RenameMutations(o, from, to, r, c, p, q);
      InodesAfter(m, ms, |ms|) == RenamedInodes(m, r, c, p, q)
  {
    var ms := RenameMutations(o, from, to, r, c, p, q);
    var a := if r.Some? then m[r.value.id := r.value] else m;
    var i := if r.Some? then 3 else 1;
    assert InodesAfter(m, ms, 1) == m;
    assert InodesAfter(m, ms, i) == a;
    assert InodesAfter(m, ms, i + 2) == a[c.id := c] by { assert InodesAfter(m, ms, i + 1) == a; }
    assert InodesAfter(m, ms, i + 3) == a[c.id := c][p.id := p];
    if q.Some? { assert InodesAfter(m, ms, i + 4) == a[c.id := c][p.id := p][q.value.id := q.value]; }
  }

  lemma RenameDentries(m: map<DentryKey, InodeId>, o: RequestOutcome, from: DentryKey, to: DentryKey,
                       r: Option<InodeRecord>,
                       c: InodeRecord, p: InodeRecord, q: Option<InodeRecord>)
    ensures var ms := RenameMutations(o, from, to, r, c, p, q);
      && DentriesAfter(m, ms, |ms|) == (m - {from})[to := c.id]
  {
    var ms := RenameMutations(o, from, to, r, c, p, q);
    var i := if r.Some? then 3 else 1;
    assert DentriesAfter(m, ms, 1) == m - {from};
    assert DentriesAfter(m, ms, i) == if r.Some? then m - {from} - {to} else m - {from};
    assert DentriesAfter(m, ms, i + 1) == (m - {from})[to := c.id];
    assert DentriesAfter(m, ms, i + 3) == DentriesAfter(m, ms, i + 1);
    if q.Some? { assert DentriesAfter(m, ms, i + 4) == DentriesAfter(m, ms, i + 3); }
  }

  lemma RenameAreas(o: RequestOutcome, from: DentryKey, to: DentryKey, r: Option<InodeRecord>,
                    c: InodeRecord, p: InodeRecord, q: Option<InodeRecord>)
    ensures AllNamespace(RenameMutations(o, from, to, r, c, p, q))
    ensures Spares(RenameMutations(o, from, to, r, c, p, q), OfLeases)
  {
  }

  lemma RenameEffect(s: State, req: RenameRequest, oldParent: InodeRecord, newParent: InodeRecord, source: InodeRecord,
                     target: Option<InodeRecord>, now: nat, at: nat)
    requires Commits(s, RenameTxn(req, oldParent, newParent, source, target, now), at)
    ensures var t := Commit(s, RenameTxn(req, oldParent, newParent, source, target, now), at);
      && t.inodes == RenamedInodes(s.inodes, if target.Some? then Some(ReplacedAfter(target.value, now)) else None,
                                   Touched(source, source.attrs.nlink, now),
                                   OldParentAfter(req, oldParent, source, target, now),
                                   NewParentAfter(req, newParent, source, target, now))
      && t.dentries == (s.dentries - {OldKey(req)})[NewKey(req) := source.id]
      && t.leases == s.leases
      && OnlyNamespace(s, t)
  {
    var s0 := s.(revision := s.revision + 1);
    var c := Touched(source, source.attrs.nlink, now);
    var r := if target.Some? then Some(ReplacedAfter(target.value, now)) else None;
    var p := OldParentAfter(req, oldParent, source, target, now);
    var q := NewParentAfter(req, newParent, source, target, now);
    var o := req.origin.Outcome(DfsRename, RenameResult(c, r));
    var ms := RenameMutations(o, OldKey(req), NewKey(req), r, c, p, q);
    RenameInodes(s.inodes, o, OldKey(req), NewKey(req), r, c, p, q);
    RenameDentries(s.dentries, o, OldKey(req), NewKey(req), r, c, p, q);
    RenameAreas(o, OldKey(req), NewKey(req), r, c, p, q);
    LeasesSpared(s.leases, ms, |ms|);
    CommitFrame(s, RenameTxn(req, oldParent, newParent, source, target, now), at, NAMESPACE);
  }

  lemma NoopEffect(s: State, req: RenameRequest, source: InodeRecord, at: nat)
    requires Commits(s, NoopTxn(req, source), at)
    ensures OldKey(req) in s.dentries && s.dentries[OldKey(req)] == source.id
    ensures source.id in s.inodes && s.inodes[source.id] == source
    ensures var t := Commit(s, NoopTxn(req, source), at);
      t.inodes == s.inodes && t.dentries == s.dentries && t.leases == s.leases && OnlyNamespace(s, t)
  {
    var txn := NoopTxn(req, source);
    DentryPinned(s, txn, at, 1, OldKey(req), source.id);
    InodePinned(s, txn, at, 2, source);
    var ms := txn.mutations;
    assert ms[0].RecordOutcome? && |ms| == 1;
    InodesSpared(s.inodes, ms, 1);
    DentriesSpared(s.dentries, ms, 1);
    LeasesSpared(s.leases, ms, 1);
    CommitFrame(s, NoopTxn(req, source), at, NAMESPACE);
  }

  lemma RootEffect(s: State, ns: NamespaceId, at: nat)
    requires Commits(s, RootTxn(ns), at)
    ensures ROOT !in s.inodes
    ensures var t := Commit(s, RootTxn(ns), at);
      && t.inodes == s.inodes[ROOT := RootInode(ns)] && t.dentries == s.dentries && t.leases == s.leases
      && OnlyNamespace(s, t)
  {
    var txn := RootTxn(ns);
    InodeFree(s, txn, at, 1, ROOT);
    var ms := txn.mutations;
    assert |ms| == 2 && InodesAfter(s.inodes, ms, 1) == s.inodes[ROOT := RootInode(ns)];
    DentriesSpared(s.dentries, ms, 2);
    LeasesSpared(s.leases, ms, 2);
    CommitFrame(s, RootTxn(ns), at, NAMESPACE);
  }
}
