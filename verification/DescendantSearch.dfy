/**
 The two searches that decide whether one directory lies below another: the
 store's parent walk (src/meta/store.rs) and the view's nested depth-first
 search (src/meta/dfs.rs).  Both terminate on any set of entries, in any
 iteration order.  On a well-formed tree both answer for the first parent they
 find of the inode, which for directories, having only one, decides
 `AncestorOrSame`.
 */
module DescendantSearch {
  import opened Records
  import opened MetaStore
  import opened NamespacePlans
  import opened NamespaceEffects
  import NT = NamespaceTree

  // ------------------------------------------------------- climbing one step

  ghost predicate SingleParent(den: NT.Entries, c: InodeId)
  {
    forall k, l :: k in den && l in den && den[k] == c && den[l] == c ==> k.parent == l.parent
  }

  lemma DirectoriesHaveOneParent(t: NT.Tree, c: InodeId)
    requires NT.Wf(t) && c in t.nodes && t.nodes[c].dir
    ensures SingleParent(t.den, c)
  {
    forall k, l | k in t.den && l in t.den && t.den[k] == c && t.den[l] == c ensures k.parent == l.parent {
      assert NT.NamesApart(t, k, l);
    }
  }

  /** The ancestors of an inode other than itself are those of its parent. */
  lemma Climb(t: NT.Tree, a: InodeId, p: InodeId, c: InodeId)
    requires NT.Wf(t) && SingleParent(t.den, c) && NT.Edge(t.den, p, c) && a != c
    ensures NT.AncestorOrSame(t.den, a, c) <==> NT.AncestorOrSame(t.den, a, p)
    ensures SingleParent(t.den, p)
  {
    NT.InnerNodesAreDirs(t, [p, c], 0);
    DirectoriesHaveOneParent(t, p);
    if NT.AncestorOrSame(t.den, a, c) {
      var q :| NT.ChainFrom(t.den, a, c, q);
      assert NT.Edge(t.den, q[|q| - 2], q[|q| - 1]);
      NT.PrefixChain(t.den, q, |q| - 1);
      assert NT.ChainFrom(t.den, a, p, q[..|q| - 1]);
    }
    if NT.AncestorOrSame(t.den, a, p) {
      var q :| NT.ChainFrom(t.den, a, p, q);
      NT.AppendEdge(t.den, q, c);
      assert NT.ChainFrom(t.den, a, c, q + [c]);
    }
  }

  lemma OnlyRootAboveRoot(t: NT.Tree, a: InodeId)
    requires NT.Wf(t) && a != ROOT
    ensures !NT.AncestorOrSame(t.den, a, ROOT)
  {
    forall q | NT.ChainFrom(t.den, a, ROOT, q) ensures false {
      assert NT.Edge(t.den, q[|q| - 2], q[|q| - 1]);
      NT.NoEntryNamesRoot(t, q[|q| - 2]);
    }
  }

  /** All the inodes passed on the way up lie properly below the current one. */
  ghost predicate Below(t: NT.Tree, c: InodeId, seen: set<InodeId>)
  {
    forall x :: x in seen ==> x != c && NT.AncestorOrSame(t.den, c, x)
  }

  lemma BelowParent(t: NT.Tree, p: InodeId, c: InodeId, seen: set<InodeId>)
    requires NT.Wf(t) && NT.Edge(t.den, p, c) && Below(t, c, seen)
    ensures Below(t, p, seen + {c})
  {
    forall x | x in seen + {c} ensures x != p && NT.AncestorOrSame(t.den, p, x) {
      if x == c { assert NT.ChainFrom(t.den, c, c, [c]); }
      assert NT.AncestorOrSame(t.den, c, x);
      var q :| NT.ChainFrom(t.den, c, x, q);
      NT.JoinChains(t.den, [p], q);
      assert NT.ChainFrom(t.den, p, x, [p] + q);
      NT.NoCycle(t, [p] + q);
    }
  }

  /** One step of either walk: `c` has been passed and `p` was found to hold it. */
  lemma StepUp(t: NT.Tree, a: InodeId, p: InodeId, c: InodeId, seen: set<InodeId>)
    requires NT.Wf(t) && SingleParent(t.den, c) && a != c && Below(t, c, seen)
    requires Holder(t.den, t.ns, p, c)
    ensures NT.AncestorOrSame(t.den, a, c) <==> NT.AncestorOrSame(t.den, a, p)
    ensures SingleParent(t.den, p) && Below(t, p, seen + {c})
    ensures a == p ==> NT.AncestorOrSame(t.den, a, p)
    ensures p == ROOT && a != p ==> !NT.AncestorOrSame(t.den, a, p)
  {
    assert NT.Edge(t.den, p, c);
    Climb(t, a, p, c);
    BelowParent(t, p, c, seen);
    assert NT.ChainFrom(t.den, p, p, [p]);
    if p == ROOT && a != p { OnlyRootAboveRoot(t, a); }
  }

  /** The first step: any inode, whichever of its holders was found. */
  lemma FirstStep(t: NT.Tree, a: InodeId, p: InodeId, c: InodeId)
    requires NT.Wf(t) && Holder(t.den, t.ns, p, c)
    ensures SingleParent(t.den, p) && Below(t, p, {c})
    ensures a == p ==> NT.AncestorOrSame(t.den, a, p)
    ensures p == ROOT && a != p ==> !NT.AncestorOrSame(t.den, a, p)
  {
    assert NT.Edge(t.den, p, c);
    NT.InnerNodesAreDirs(t, [p, c], 0);
    DirectoriesHaveOneParent(t, p);
    BelowParent(t, p, c, {});
    assert {} + {c} == {c};
    assert NT.ChainFrom(t.den, p, p, [p]);
    if p == ROOT && a != p { OnlyRootAboveRoot(t, a); }
  }

  lemma AncestorsNeedNames(t: NT.Tree, a: InodeId, c: InodeId)
    requires NT.Wf(t) && a != c && NT.AncestorOrSame(t.den, a, c)
    ensures exists p :: Holder(t.den, t.ns, p, c)
  {
    var q :| NT.ChainFrom(t.den, a, c, q);
    assert NT.Edge(t.den, q[|q| - 2], q[|q| - 1]);
    var k :| k in t.den && k.parent == q[|q| - 2] && t.den[k] == c;
    assert NT.EntryOk(t, k);
    assert Holder(t.den, t.ns, k.parent, c);
  }

  lemma NothingAbove(t: NT.Tree, a: InodeId, c: InodeId)
    requires NT.Wf(t) && a != c && Unnamed(t.den, t.ns, c)
    ensures !NT.AncestorOrSame(t.den, a, c)
  {
    if NT.AncestorOrSame(t.den, a, c) { AncestorsNeedNames(t, a, c); }
  }

  // -------------------------------------------------------- the store's walk

  ghost predicate Holder(den: NT.Entries, ns: NamespaceId, p: InodeId, c: InodeId)
  {
    exists k :: k in den && k.ns == ns && k.parent == p && den[k] == c
  }

  ghost predicate Unnamed(den: NT.Entries, ns: NamespaceId, c: InodeId)
  {
    forall k :: k in den && k.ns == ns ==> den[k] != c
  }

  /** `dfs_parent_of`: the parent in some entry that names the inode, whichever the map yields first. */
  method ParentOf(den: NT.Entries, ns: NamespaceId, id: InodeId) returns (p: Option<InodeId>)
    ensures p.Some? ==> Holder(den, ns, p.value, id)
    ensures p.None? ==> Unnamed(den, ns, id)
  {
    var keys := den.Keys;
    while keys != {}
      invariant keys <= den.Keys
      invariant forall k :: k in den && k !in keys && k.ns == ns ==> den[k] != id
    {
      var k :| k in keys;
      if k.ns == ns && den[k] == id { return Some(k.parent); }
      keys := keys - {k};
    }
    return None;
  }

  // ------------------------------------------------------------ what is answered

  /** An answer for the holder `first` that was found, or for none. */
  ghost predicate Decides(den: NT.Entries, ns: NamespaceId, ancestor: InodeId, child: InodeId,
                          below: bool, first: Option<InodeId>)
  {
    if ancestor == child then below
    else if first.None? then Unnamed(den, ns, child) && !below
    else Holder(den, ns, first.value, child) && (below <==> NT.AncestorOrSame(den, ancestor, first.value))
  }

  /** For an inode with one parent every such answer is the right one. */
  lemma OneParentDecides(t: NT.Tree, a: InodeId, c: InodeId, below: bool, first: Option<InodeId>)
    requires NT.Wf(t) && SingleParent(t.den, c) && Decides(t.den, t.ns, a, c, below, first)
    ensures below <==> NT.AncestorOrSame(t.den, a, c)
  {
    if a == c {
      assert NT.ChainFrom(t.den, c, c, [c]);
    } else if first.None? {
      NothingAbove(t, a, c);
    } else {
      assert NT.Edge(t.den, first.value, c);
      Climb(t, a, first.value, c);
    }
  }

  lemma HolderIsAbove(t: NT.Tree, q: InodeId, c: InodeId)
    requires NT.Wf(t) && Holder(t.den, t.ns, q, c)
    ensures NT.AncestorOrSame(t.den, q, c) && q != c
  {
    assert NT.Edge(t.den, q, c);
    assert NT.ChainFrom(t.den, q, c, [q, c]);
    NT.NoCycle(t, [q, c]);
  }

  lemma AboveAHolder(t: NT.Tree, a: InodeId, c: InodeId) returns (q: InodeId)
    requires NT.Wf(t) && a != c && NT.AncestorOrSame(t.den, a, c)
    ensures Holder(t.den, t.ns, q, c) && NT.AncestorOrSame(t.den, a, q)
  {
    var path :| NT.ChainFrom(t.den, a, c, path);
    q := path[|path| - 2];
    assert NT.Edge(t.den, path[|path| - 2], path[|path| - 1]);
    var k :| k in t.den && k.parent == q && t.den[k] == c;
    assert NT.EntryOk(t, k);
    NT.PrefixChain(t.den, path, |path| - 1);
    assert NT.ChainFrom(t.den, a, q, path[..|path| - 1]);
  }

  lemma AboveTransitive(t: NT.Tree, a: InodeId, b: InodeId, c: InodeId)
    requires NT.AncestorOrSame(t.den, a, b) && NT.AncestorOrSame(t.den, b, c)
    ensures NT.AncestorOrSame(t.den, a, c)
  {
    var p :| NT.ChainFrom(t.den, a, b, p);
    var q :| NT.ChainFrom(t.den, b, c, q);
    if |q| == 1 {
      assert NT.ChainFrom(t.den, a, c, p);
    } else {
      NT.SuffixChain(t.den, q, 1);
      assert NT.Edge(t.den, q[0], q[0 + 1]);
      NT.JoinChains(t.den, p, q[1..]);
      assert NT.ChainFrom(t.den, a, c, p + q[1..]);
    }
  }

  /**
   Answering for the holder `p` that was found is right for every ancestor if and
   only if every holder of the inode is `p` or above it.
   */
  lemma AgreesExactly(t: NT.Tree, c: InodeId, p: InodeId)
    requires NT.Wf(t) && Holder(t.den, t.ns, p, c)
    ensures (forall a :: a != c ==> (NT.AncestorOrSame(t.den, a, p) <==> NT.AncestorOrSame(t.den, a, c)))
      <==> (forall q :: Holder(t.den, t.ns, q, c) ==> NT.AncestorOrSame(t.den, q, p))
  {
    HolderIsAbove(t, p, c);
    if forall q :: Holder(t.den, t.ns, q, c) ==> NT.AncestorOrSame(t.den, q, p) {
      forall a | a != c ensures NT.AncestorOrSame(t.den, a, p) <==> NT.AncestorOrSame(t.den, a, c) {
        if NT.AncestorOrSame(t.den, a, p) { AboveTransitive(t, a, p, c); }
        if NT.AncestorOrSame(t.den, a, c) {
          var q := AboveAHolder(t, a, c);
          AboveTransitive(t, a, q, p);
        }
      }
    }
    forall q | Holder(t.den, t.ns, q, c) ensures q != c && NT.AncestorOrSame(t.den, q, c) { HolderIsAbove(t, q, c); }
  }

  // A file with names in two sibling directories.

  const NS := NamespaceId("n")

  function At(parent: InodeId, name: Byte): DentryKey { DentryKey(NS, parent, [name]) }

  ghost function Siblings(): (t: NT.Tree)
    ensures NT.Wf(t) && t.ns == NS && t.den == map[At(ROOT, 97) := InodeId("a"), At(ROOT, 98) := InodeId("b")]
    ensures NT.LiveDir(t, InodeId("a")) && NT.LiveDir(t, InodeId("b")) && InodeId("f") !in t.nodes
  {
    var root := NT.Tree(NS, map[ROOT := NT.Node(true, 2)], map[]);
    NT.RootIsWf(NS);
    assert NT.CanAdd(root, At(ROOT, 97), InodeId("a"));
    NT.AddKeepsWf(root, At(ROOT, 97), InodeId("a"), true);
    var one := NT.Add(root, At(ROOT, 97), InodeId("a"), true);
    assert NT.CanAdd(one, At(ROOT, 98), InodeId("b"));
    NT.AddKeepsWf(one, At(ROOT, 98), InodeId("b"), true);
    NT.Add(one, At(ROOT, 98), InodeId("b"), true)
  }

  ghost function Twins(): (t: NT.Tree)
    ensures NT.Wf(t) && t.ns == NS
    ensures t.den == map[At(ROOT, 97) := InodeId("a"), At(ROOT, 98) := InodeId("b"),
                         At(InodeId("a"), 120) := InodeId("f"), At(InodeId("b"), 121) := InodeId("f")]
  {
    var t := Siblings();
    NT.AddKeepsWf(t, At(InodeId("a"), 120), InodeId("f"), false);
    var one := NT.Add(t, At(InodeId("a"), 120), InodeId("f"), false);
    NT.LinkKeepsWf(one, At(InodeId("b"), 121), InodeId("f"));
    NT.Link(one, At(InodeId("b"), 121), InodeId("f"))
  }

  /** A search that finds the first of the two names denies that the other directory is above the file. */
  lemma TwoNamesMislead(below: bool)
    requires Decides(Twins().den, NS, InodeId("b"), InodeId("f"), below, Some(InodeId("a")))
    ensures !below && NT.AncestorOrSame(Twins().den, InodeId("b"), InodeId("f"))
  {
    var t := Twins();
    var a, b, f := InodeId("a"), InodeId("b"), InodeId("f");
    assert At(b, 121) in t.den && Holder(t.den, NS, b, f);
    HolderIsAbove(t, b, f);
    assert At(ROOT, 97) in t.den && NT.Edge(t.den, ROOT, a);
    assert SingleParent(t.den, a);
    Climb(t, b, ROOT, a);
    OnlyRootAboveRoot(t, b);
  }

  /** `dfs_is_descendant_or_same`, which decides the condition `NotDescendant`. */
  method StoreWalk(den: NT.Entries, ns: NamespaceId, ancestor: InodeId, child: InodeId, ghost t: NT.Tree)
    returns (below: bool)
    ensures NT.Wf(t) && t.den == den && t.ns == ns ==> exists first :: Decides(den, ns, ancestor, child, below, first)
  {
    ghost var tree := NT.Wf(t) && t.den == den && t.ns == ns;
    ghost var first: Option<InodeId> := None;
    assert ancestor == child ==> Decides(den, ns, ancestor, child, true, first);
    if ancestor == child { return true; }
    var current := child;
    var seen: set<InodeId> := {};
    ghost var parents := set k | k in den :: k.parent;
    while current !in seen
      invariant seen <= parents + {child} && current in parents + {child}
      invariant tree ==> Climbing(t, ancestor, child, current, seen, first)
      decreases parents + {child} - seen
    {
      ghost var passed := seen;
      seen := seen + {current};
      var parent := ParentOf(den, ns, current);
      if parent.None? {
        if tree { EndsHere(t, ancestor, child, current, passed, first); }
        return false;
      }
      if tree { ClimbOn(t, ancestor, child, current, passed, first, parent.value); }
      if first.None? { first := parent; }
      assert tree && parent.value in {ancestor, ROOT} ==>
        Decides(den, ns, ancestor, child, parent.value == ancestor, first);
      if parent.value == ancestor { return true; }
      if parent.value == ROOT { return false; }
      current := parent.value;
    }
    return true;
  }

  /** The state of a walk at `current`: what is above the first parent is what is above `current`. */
  ghost predicate Climbing(t: NT.Tree, a: InodeId, child: InodeId, current: InodeId, seen: set<InodeId>,
                           first: Option<InodeId>)
  {
    && Below(t, current, seen) && a != current && a != child
    && if first.None? then current == child && seen == {}
       else Holder(t.den, t.ns, first.value, child) && SingleParent(t.den, current)
            && (NT.AncestorOrSame(t.den, a, first.value) <==> NT.AncestorOrSame(t.den, a, current))
  }

  lemma EndsHere(t: NT.Tree, a: InodeId, child: InodeId, current: InodeId, seen: set<InodeId>, first: Option<InodeId>)
    requires NT.Wf(t) && Climbing(t, a, child, current, seen, first) && Unnamed(t.den, t.ns, current)
    ensures Decides(t.den, t.ns, a, child, false, first)
  {
    NothingAbove(t, a, current);
  }

  lemma ClimbOn(t: NT.Tree, a: InodeId, child: InodeId, current: InodeId, seen: set<InodeId>, first: Option<InodeId>,
                p: InodeId)
    requires NT.Wf(t) && Climbing(t, a, child, current, seen, first) && Holder(t.den, t.ns, p, current)
    ensures var now := if first.None? then Some(p) else first;
      && (p == a ==> Decides(t.den, t.ns, a, child, true, now))
      && (p == ROOT && p != a ==> Decides(t.den, t.ns, a, child, false, now))
      && (p != a ==> Climbing(t, a, child, p, seen + {current}, now))
  {
    if first.None? {
      FirstStep(t, a, p, child);
      assert {} + {child} == {child};
    } else {
      StepUp(t, a, p, current, seen);
    }
  }

  // ------------------------------------------------------- the view's search

  /** Directories the search can be sent to. */
  function RecordIds(view: State): set<InodeId>
  {
    (set i | i in view.inodes :: view.inodes[i].id) + {ROOT}
  }

  /** The directory a search enters through an entry, if it names one. */
  function DirectoryAt(view: State, ns: NamespaceId, id: InodeId): Option<InodeId>
  {
    var found := InodeFromView(view, ns, id);
    if found.Ok? && found.value.kind == Directory then Some(found.value.id) else None
  }

  /** The entry does not name the inode sought, and a directory behind it has been searched. */
  ghost predicate Searched(view: State, ns: NamespaceId, k: DentryKey, id: InodeId, seen: set<InodeId>)
    requires k in view.dentries
  {
    var c := view.dentries[k];
    c != id && (DirectoryAt(view, ns, c).Some? ==> DirectoryAt(view, ns, c).value in seen)
  }

  ghost predicate Exhausted(view: State, ns: NamespaceId, x: InodeId, id: InodeId, seen: set<InodeId>)
  {
    forall k {:trigger Searched(view, ns, k, id, seen)} ::
      k in view.dentries && k.ns == ns && k.parent == x ==> Searched(view, ns, k, id, seen)
  }

  function EntriesIn(view: State, ns: NamespaceId, d: InodeId): set<DentryKey>
  {
    set k | k in view.dentries && k.ns == ns && k.parent == d
  }

  ghost predicate AllSearched(view: State, ns: NamespaceId, ks: set<DentryKey>, id: InodeId, seen: set<InodeId>)
    requires ks <= view.dentries.Keys
  {
    forall k {:trigger Searched(view, ns, k, id, seen)} :: k in ks ==> Searched(view, ns, k, id, seen)
  }

  ghost predicate AllExhausted(view: State, ns: NamespaceId, xs: set<InodeId>, id: InodeId, seen: set<InodeId>)
  {
    forall x {:trigger Exhausted(view, ns, x, id, seen)} :: x in xs ==> Exhausted(view, ns, x, id, seen)
  }

  lemma MoreSeen(view: State, ns: NamespaceId, ks: set<DentryKey>, xs: set<InodeId>, id: InodeId,
                 seen: set<InodeId>, more: set<InodeId>)
    requires ks <= view.dentries.Keys && seen <= more
    ensures AllSearched(view, ns, ks, id, seen) ==> AllSearched(view, ns, ks, id, more)
    ensures AllExhausted(view, ns, xs, id, seen) ==> AllExhausted(view, ns, xs, id, more)
  {
    if AllSearched(view, ns, ks, id, seen) {
      forall k | k in ks ensures Searched(view, ns, k, id, more) { assert Searched(view, ns, k, id, seen); }
    }
    if AllExhausted(view, ns, xs, id, seen) {
      forall x | x in xs ensures Exhausted(view, ns, x, id, more) {
        assert Exhausted(view, ns, x, id, seen);
        forall k | k in view.dentries && k.ns == ns && k.parent == x ensures Searched(view, ns, k, id, more) {
          assert Searched(view, ns, k, id, seen);
        }
      }
    }
  }

  /** `parent_inode_from_subtree`; `visited` is the shared set of directories after the call. */
  method ParentFromSubtree(view: State, ns: NamespaceId, d: InodeId, id: InodeId, seen: set<InodeId>)
    returns (p: Option<InodeId>, visited: set<InodeId>)
    ensures seen <= visited && d in visited
    ensures p.Some? ==> Holder(view.dentries, ns, p.value, id)
    ensures p.None? ==> AllExhausted(view, ns, visited - seen, id, visited)
    decreases RecordIds(view) + {d} - seen
  {
    visited := seen;
    if d in seen { return None, visited; }
    visited := visited + {d};
    var entries := EntriesIn(view, ns, d);
    ghost var done: set<DentryKey> := {};
    while entries != {}
      invariant entries + done == EntriesIn(view, ns, d)
      invariant seen + {d} <= visited
      invariant AllSearched(view, ns, done, id, visited)
      invariant AllExhausted(view, ns, visited - seen - {d}, id, visited)
    {
      var k :| k in entries;
      var c := view.dentries[k];
      if c == id { return Some(d), visited; }
      var sub := DirectoryAt(view, ns, c);
      if sub.Some? {
        ghost var before := visited;
        var found;
        assert sub.value in RecordIds(view);
        found, visited := ParentFromSubtree(view, ns, sub.value, id, visited);
        if found.Some? { return found, visited; }
        MoreSeen(view, ns, done, before - seen - {d}, id, before, visited);
        Grown(view, ns, seen + {d}, before, visited, id);
      }
      assert Searched(view, ns, k, id, visited);
      entries := entries - {k};
      done := done + {k};
    }
    assert Exhausted(view, ns, d, id, visited) by {
      forall k | k in view.dentries && k.ns == ns && k.parent == d ensures Searched(view, ns, k, id, visited) {
        assert k in done;
      }
    }
    return None, visited;
  }

  lemma Grown(view: State, ns: NamespaceId, base: set<InodeId>, before: set<InodeId>, after: set<InodeId>, id: InodeId)
    requires AllExhausted(view, ns, before - base, id, after) && AllExhausted(view, ns, after - before, id, after)
    ensures AllExhausted(view, ns, after - base, id, after)
  {
  }

  /** A search that started at `c` ended without finding the inode. */
  ghost predicate Cleared(view: State, ns: NamespaceId, c: InodeId, id: InodeId)
  {
    exists seen: set<InodeId> :: c in seen && AllExhausted(view, ns, seen, id, seen)
  }

  ghost predicate RootEntryDone(view: State, ns: NamespaceId, k: DentryKey, id: InodeId)
    requires k in view.dentries
  {
    var c := view.dentries[k];
    c != id && (DirectoryAt(view, ns, c).Some? ==> Cleared(view, ns, DirectoryAt(view, ns, c).value, id))
  }

  /**
   `parent_inode_from_view`.  Its outer loop inserts one fixed cursor into a
   set, so the body runs once; each child directory is searched afresh.
   */
  method ParentFromView(view: State, ns: NamespaceId, id: InodeId) returns (p: Option<InodeId>)
    ensures p.Some? ==> Holder(view.dentries, ns, p.value, id)
    ensures p.None? && NsInv(view) ==> Unnamed(view.dentries, ns, id)
  {
    if id == ROOT {
      if NsInv(view) { RootIsUnnamed(view, ns); }
      return None;
    }
    var entries := EntriesIn(view, ns, ROOT);
    ghost var done: set<DentryKey> := {};
    while entries != {}
      invariant entries + done == EntriesIn(view, ns, ROOT)
      invariant forall k :: k in done ==> RootEntryDone(view, ns, k, id)
    {
      var k :| k in entries;
      var c := view.dentries[k];
      if c == id { return Some(ROOT); }
      var sub := DirectoryAt(view, ns, c);
      if sub.Some? {
        var found, visited := ParentFromSubtree(view, ns, sub.value, id, {});
        if found.Some? { return found; }
        assert visited - {} == visited;
        assert Cleared(view, ns, sub.value, id);
      }
      entries := entries - {k};
      done := done + {k};
    }
    assert done == EntriesIn(view, ns, ROOT);
    if NsInv(view) { SearchIsComplete(view, ns, id); }
    return None;
  }

  lemma RootIsUnnamed(view: State, ns: NamespaceId)
    requires NsInv(view)
    ensures Unnamed(view.dentries, ns, ROOT)
  {
    forall k | k in view.dentries ensures view.dentries[k] != ROOT {
      assert NT.EntryOk(TreeOf(view), k);
    }
  }

  /** A step down a chain of directories stays inside an exhausted set. */
  lemma {:induction false} ChainStaysInside(view: State, ns: NamespaceId, id: InodeId, seen: set<InodeId>, d: InodeId,
                                            q: seq<InodeId>, j: nat)
    requires NsInv(view) && ROOT in view.inodes && ns == view.inodes[ROOT].ns
    requires AllExhausted(view, ns, seen, id, seen)
    requires NT.LiveDir(TreeOf(view), d) && NT.ChainFrom(view.dentries, ROOT, d, q)
    requires 1 <= j < |q| && q[1] in seen
    ensures q[j] in seen
  {
    if j > 1 {
      ChainStaysInside(view, ns, id, seen, d, q, j - 1);
      assert NT.Edge(view.dentries, q[j - 1], q[j - 1 + 1]);
      var k :| k in view.dentries && k.parent == q[j - 1] && view.dentries[k] == q[j];
      LiveDirIsEntered(view, ns, d, q, j);
      assert NT.EntryOk(TreeOf(view), k);
      assert Exhausted(view, ns, q[j - 1], id, seen);
      assert Searched(view, ns, k, id, seen);
    }
  }

  lemma LiveDirIsEntered(view: State, ns: NamespaceId, d: InodeId, q: seq<InodeId>, j: nat)
    requires NsInv(view) && ROOT in view.inodes && ns == view.inodes[ROOT].ns
    requires NT.LiveDir(TreeOf(view), d) && NT.ChainFrom(view.dentries, ROOT, d, q) && j < |q|
    ensures DirectoryAt(view, ns, q[j]) == Some(q[j])
  {
    NT.ChainNodesAreDirs(TreeOf(view), d, q, j);
    assert IdOk(view, q[j]) && InNamespace(view, q[j]);
  }

  /** Every directory of the tree is below the root, so an inode no search found has no entry. */
  lemma SearchIsComplete(view: State, ns: NamespaceId, id: InodeId)
    requires NsInv(view)
    requires forall k :: k in EntriesIn(view, ns, ROOT) ==> RootEntryDone(view, ns, k, id)
    ensures Unnamed(view.dentries, ns, id)
  {
    forall k | k in view.dentries && k.ns == ns ensures view.dentries[k] != id {
      var t := TreeOf(view);
      assert NT.EntryOk(t, k);
      if k.parent == ROOT {
        assert k in EntriesIn(view, ns, ROOT);
      } else {
        assert NT.Rooted(t, k.parent);
        var q :| NT.ChainFrom(t.den, ROOT, k.parent, q);
        HolderIsSearched(view, ns, id, k, q);
      }
    }
  }

  lemma HolderIsSearched(view: State, ns: NamespaceId, id: InodeId, k: DentryKey, q: seq<InodeId>)
    requires NsInv(view) && ROOT in view.inodes && ns == view.inodes[ROOT].ns
    requires forall k :: k in EntriesIn(view, ns, ROOT) ==> RootEntryDone(view, ns, k, id)
    requires k in view.dentries && k.ns == ns && k.parent != ROOT && NT.LiveDir(TreeOf(view), k.parent)
    requires NT.ChainFrom(view.dentries, ROOT, k.parent, q)
    ensures view.dentries[k] != id
  {
    assert NT.Edge(view.dentries, q[0], q[0 + 1]);
    var first :| first in view.dentries && first.parent == ROOT && view.dentries[first] == q[1];
    assert NT.EntryOk(TreeOf(view), first);
    assert first in EntriesIn(view, ns, ROOT);
    LiveDirIsEntered(view, ns, k.parent, q, 1);
    var seen: set<InodeId> :| q[1] in seen && AllExhausted(view, ns, seen, id, seen);
    ChainStaysInside(view, ns, id, seen, k.parent, q, |q| - 1);
    assert Exhausted(view, ns, k.parent, id, seen);
    assert Searched(view, ns, k, id, seen);
  }

  /** `directory_is_descendant_or_same`. */
  method DirectoryIsDescendantOrSame(view: State, ns: NamespaceId, ancestor: InodeId, child: InodeId)
    returns (below: bool)
    ensures NsInv(view) && ROOT in view.inodes && ns == view.inodes[ROOT].ns
      ==> exists first :: Decides(view.dentries, ns, ancestor, child, below, first)
  {
    ghost var tree := NsInv(view) && ROOT in view.inodes && ns == view.inodes[ROOT].ns;
    ghost var first: Option<InodeId> := None;
    assert ancestor == child ==> Decides(view.dentries, ns, ancestor, child, true, first);
    if ancestor == child { return true; }
    var current := child;
    var seen: set<InodeId> := {};
    ghost var parents := set k | k in view.dentries :: k.parent;
    while current !in seen
      invariant seen <= parents + {child} && current in parents + {child}
      invariant tree ==> Climbing(TreeOf(view), ancestor, child, current, seen, first)
      decreases parents + {child} - seen
    {
      ghost var passed := seen;
      seen := seen + {current};
      var parent := ParentFromView(view, ns, current);
      if parent.None? {
        if tree { EndsHere(TreeOf(view), ancestor, child, current, passed, first); }
        return false;
      }
      if tree { ClimbOn(TreeOf(view), ancestor, child, current, passed, first, parent.value); }
      if first.None? { first := parent; }
      assert tree && parent.value in {ancestor, ROOT} ==>
        Decides(view.dentries, ns, ancestor, child, parent.value == ancestor, first);
      if parent.value == ancestor { return true; }
      if parent.value == ROOT { return false; }
      current := parent.value;
    }
    return true;
  }

  // ------------------------------------------------------------ where it is called

  /** A state and an inode for which every answer of either search is the right one. */
  ghost predicate Searchable(s: State, ns: NamespaceId, child: InodeId)
  {
    NsInv(s) && ROOT in s.inodes && ns == s.inodes[ROOT].ns && SingleParent(s.dentries, child)
  }

  lemma SearchIsExact(s: State, ns: NamespaceId, a: InodeId, child: InodeId, below: bool, first: Option<InodeId>)
    requires Searchable(s, ns, child) && Decides(s.dentries, ns, a, child, below, first)
    ensures below <==> NT.AncestorOrSame(s.dentries, a, child)
  {
    OneParentDecides(TreeOf(s), a, child, below, first);
  }

  /** Inodes that are directories, or do not exist, can be searched for. */
  lemma DirectoriesAreSearchable(s: State, ns: NamespaceId, child: InodeId)
    requires NsInv(s) && ROOT in s.inodes && ns == s.inodes[ROOT].ns
    requires child in s.inodes ==> s.inodes[child].kind == Directory
    ensures Searchable(s, ns, child)
  {
    var t := TreeOf(s);
    if child in s.inodes {
      DirectoriesHaveOneParent(t, child);
    } else {
      forall k | k in s.dentries ensures s.dentries[k] != child { assert NT.EntryOk(t, k); }
    }
  }
}
