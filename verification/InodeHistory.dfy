/**
 How an inode record may change between two states of a run: it never goes
 away, its kind and namespace are fixed, every rewrite raises its revision, and
 gaining or losing a name is a rewrite.  So an unchanged record means an
 unchanged revision history and an unchanged set of names.
 */
module InodeHistory {
  import opened Records
  import opened MetaStore
  import opened NamespacePlans
  import opened NamespaceEffects
  import opened NamespaceSafety
  import NT = NamespaceTree

  ghost predicate SameNames(d: NT.Entries, e: NT.Entries, i: InodeId)
  {
    forall k :: (k in d && d[k] == i) <==> (k in e && e[k] == i)
  }

  ghost predicate Aged(s: State, t: State, i: InodeId)
    requires i in s.inodes
  {
    && i in t.inodes
    && t.inodes[i].kind == s.inodes[i].kind
    && t.inodes[i].ns == s.inodes[i].ns
    && (t.inodes[i] == s.inodes[i] || t.inodes[i].revision > s.inodes[i].revision)
    && (t.inodes[i] == s.inodes[i] ==> SameNames(s.dentries, t.dentries, i))
  }

  /** `t` is a later state than `s`. */
  ghost predicate Ages(s: State, t: State)
  {
    forall i {:trigger Aged(s, t, i)} :: i in s.inodes ==> Aged(s, t, i)
  }

  lemma AgesReflexive(s: State)
    ensures Ages(s, s)
  {
  }

  lemma AgesTransitive(s: State, t: State, u: State)
    requires Ages(s, t) && Ages(t, u)
    ensures Ages(s, u)
  {
    forall i | i in s.inodes ensures Aged(s, u, i) {
      assert Aged(s, t, i);
      assert Aged(t, u, i);
    }
  }

  /** Between two equal sightings of a record nothing happened to it. */
  lemma NothingBetween(s: State, t: State, u: State, i: InodeId)
    requires Ages(s, t) && Ages(t, u) && i in s.inodes && i in u.inodes && u.inodes[i] == s.inodes[i]
    ensures i in t.inodes && t.inodes[i] == s.inodes[i]
  {
    assert Aged(s, t, i);
    assert Aged(t, u, i);
  }

  /** Counters that saturate in the source still have room. */
  ghost predicate Headroom(s: State)
  {
    && (forall i :: i in s.inodes ==> s.inodes[i].attrs.nlink < MAX32 && s.inodes[i].revision < MAX64)
    && (forall i :: i in s.leases ==> s.leases[i].epoch < MAX64)
  }

  /** The general case: rewritten records have a higher revision, and only rewritten inodes change names. */
  lemma AgesBy(s: State, t: State, touched: set<InodeId>)
    requires forall i :: i in s.inodes ==> i in t.inodes
    requires forall i :: i in s.inodes && i !in touched ==> t.inodes[i] == s.inodes[i]
    requires forall i :: i in s.inodes && i in touched ==>
      && t.inodes[i].kind == s.inodes[i].kind && t.inodes[i].ns == s.inodes[i].ns
      && t.inodes[i].revision > s.inodes[i].revision
    requires forall i :: i in s.inodes && i !in touched ==> SameNames(s.dentries, t.dentries, i)
    ensures Ages(s, t)
  {
  }

  ghost predicate Newer(s: State, r: InodeRecord)
  {
    r.id in s.inodes ==>
      && r.kind == s.inodes[r.id].kind && r.ns == s.inodes[r.id].ns
      && r.revision > s.inodes[r.id].revision
  }

  lemma TwoWritesAge(s: State, t: State, a: InodeRecord, b: InodeRecord)
    requires t.inodes == s.inodes[a.id := a][b.id := b] && Newer(s, a) && Newer(s, b)
    requires forall i :: i !in {a.id, b.id} ==> SameNames(s.dentries, t.dentries, i)
    ensures Ages(s, t)
  {
    AgesBy(s, t, {a.id, b.id});
  }

  lemma NameEntered(d: NT.Entries, k: DentryKey, x: InodeId, i: InodeId)
    requires k !in d && i != x
    ensures SameNames(d, d[k := x], i)
  {
  }

  lemma NameDropped(d: NT.Entries, k: DentryKey, i: InodeId)
    requires k in d && i != d[k]
    ensures SameNames(d, d - {k}, i)
  {
  }

  lemma AddAges(s: State, req: AddRequest, id: InodeId, parent: InodeRecord, now: nat, at: nat)
    requires AddBy(s, req, id, parent, now, at) && Headroom(s)
    ensures Ages(s, Commit(s, AddTxn(req, id, parent, now), at))
  {
    var t := Commit(s, AddTxn(req, id, parent, now), at);
    var p := ParentAfter(parent, if req.what.NewDirectory? then 1 else 0, now);
    var c := NewInode(req, id, parent, now);
    var lease := if req.what.NewFile? then Some(NewLease(req, id, now)) else None;
    CreationConditions(s, req.origin, AddOperation(req.what), AddKey(req), parent, p, c, lease, at);
    CreationEffect(s, req.origin, AddOperation(req.what), AddKey(req), parent, p, c, lease, at);
    assert Newer(s, p);
    forall i | i !in {p.id, c.id} ensures SameNames(s.dentries, t.dentries, i) {
      NameEntered(s.dentries, AddKey(req), id, i);
    }
    TwoWritesAge(s, t, p, c);
  }

  lemma LinkAges(s: State, req: LinkRequest, parent: InodeRecord, inode: InodeRecord, now: nat, at: nat)
    requires LinkBy(s, req, parent, inode, now, at) && Headroom(s)
    ensures Ages(s, Commit(s, LinkTxn(req, parent, inode, now), at))
  {
    var t := Commit(s, LinkTxn(req, parent, inode, now), at);
    LinkConditions(s, req, parent, inode, now, at);
    LinkEffect(s, req, parent, inode, now, at);
    var p := ParentAfter(parent, 0, now);
    var c := Touched(inode, SatAdd32(inode.attrs.nlink, 1), now);
    assert Newer(s, p) && Newer(s, c);
    forall i | i !in {p.id, c.id} ensures SameNames(s.dentries, t.dentries, i) {
      NameEntered(s.dentries, LinkKey(req), inode.id, i);
    }
    TwoWritesAge(s, t, p, c);
  }

  lemma RemoveAges(s: State, req: RemoveRequest, parent: InodeRecord, inode: InodeRecord, now: nat, at: nat)
    requires RemoveBy(s, req, parent, inode, now, at) && Headroom(s)
    ensures Ages(s, Commit(s, RemoveTxn(req, parent, inode, now), at))
  {
    var t := Commit(s, RemoveTxn(req, parent, inode, now), at);
    RemoveConditions(s, req, parent, inode, now, at);
    RemoveEffect(s, req, parent, inode, now, at);
    var c := Touched(inode, if req.directory then 0 else SatSub(inode.attrs.nlink, 1), now);
    var p := ParentAfter(parent, if req.directory then -1 else 0, now);
    assert Newer(s, p) && Newer(s, c);
    forall i | i !in {c.id, p.id} ensures SameNames(s.dentries, t.dentries, i) {
      NameDropped(s.dentries, RemoveKey(req), i);
    }
    TwoWritesAge(s, t, c, p);
  }

  lemma RenameAged(s: State, t: State, req: RenameRequest, oldParent: InodeRecord, newParent: InodeRecord,
                   source: InodeRecord, target: Option<InodeRecord>, now: nat, i: InodeId)
    requires RenameSite(s, req, oldParent, newParent, source, target) && Headroom(s) && i in s.inodes
    requires t.inodes == InodesRenamed(s, req, oldParent, newParent, source, target, now)
    requires t.dentries == (s.dentries - {OldKey(req)})[NewKey(req) := source.id]
    ensures Aged(s, t, i)
  {
    assert s.inodes[i].revision < MAX64;
  }

  lemma RenameAges(s: State, t: State, req: RenameRequest, oldParent: InodeRecord, newParent: InodeRecord,
                   source: InodeRecord, target: Option<InodeRecord>, now: nat)
    requires RenameSite(s, req, oldParent, newParent, source, target) && Headroom(s)
    requires t.inodes == InodesRenamed(s, req, oldParent, newParent, source, target, now)
    requires t.dentries == (s.dentries - {OldKey(req)})[NewKey(req) := source.id]
    ensures Ages(s, t)
  {
    forall i | i in s.inodes ensures Aged(s, t, i) {
      RenameAged(s, t, req, oldParent, newParent, source, target, now, i);
    }
  }

  lemma RewriteAges(s: State, t: State, r: InodeRecord)
    requires r.id in s.inodes && r.kind == s.inodes[r.id].kind && r.ns == s.inodes[r.id].ns
    requires r.revision > s.inodes[r.id].revision
    requires t.inodes == s.inodes[r.id := r] && t.dentries == s.dentries
    ensures Ages(s, t)
  {
    AgesBy(s, t, {r.id});
  }

  lemma SameAges(s: State, t: State)
    requires (forall i :: i in s.inodes ==> i in t.inodes && t.inodes[i] == s.inodes[i]) && t.dentries == s.dentries
    ensures Ages(s, t)
  {
  }
}
