/**
 The directory tree as an abstract object: inodes with a kind and a link count,
 and directory entries.  Every namespace transaction of the metadata authority
 amounts to `Add`, `Link`, `Remove` or `Move` on this object; each keeps `Wf`.
 */
module NamespaceTree {
  import opened Records

  datatype Node = Node(dir: bool, nlink: nat)

  type Entries = map<DentryKey, InodeId>

  datatype Tree = Tree(ns: NamespaceId, nodes: map<InodeId, Node>, den: Entries)

  // ------------------------------------------------------------------- paths

  ghost predicate Edge(den: Entries, a: InodeId, b: InodeId)
  {
    exists k :: k in den && k.parent == a && den[k] == b
  }

  /** A downward chain of directory entries. */
  ghost predicate Chain(den: Entries, p: seq<InodeId>)
  {
    && |p| > 0
    && forall j :: 0 <= j < |p| - 1 ==> Edge(den, p[j], p[j + 1])
  }

  ghost predicate ChainFrom(den: Entries, a: InodeId, b: InodeId, p: seq<InodeId>)
  {
    Chain(den, p) && p[0] == a && p[|p| - 1] == b
  }

  /** `a` is an ancestor of `b`, or `b` itself. */
  ghost predicate AncestorOrSame(den: Entries, a: InodeId, b: InodeId)
  {
    exists p :: ChainFrom(den, a, b, p)
  }

  // --------------------------------------------------------------- invariant

  ghost function SubdirKeys(t: Tree, d: InodeId): set<DentryKey>
  {
    set k | k in t.den && k.parent == d && t.den[k] in t.nodes && t.nodes[t.den[k]].dir
  }

  ghost function NameKeys(t: Tree, i: InodeId): set<DentryKey>
  {
    set k | k in t.den && t.den[k] == i
  }

  ghost predicate LiveDir(t: Tree, i: InodeId)
  {
    i in t.nodes && t.nodes[i].dir && t.nodes[i].nlink > 0
  }

  /** An entry joins a live directory to a known, linked inode other than the root. */
  ghost predicate EntryOk(t: Tree, k: DentryKey)
    requires k in t.den
  {
    && k.ns == t.ns
    && LiveDir(t, k.parent)
    && t.den[k] in t.nodes
    && t.den[k] != ROOT
    && t.nodes[t.den[k]].nlink > 0
  }

  ghost predicate EntriesOk(t: Tree)
  {
    forall k {:trigger EntryOk(t, k)} :: k in t.den ==> EntryOk(t, k)
  }

  /** Only a file can have a second name. */
  ghost predicate NamesApart(t: Tree, k: DentryKey, l: DentryKey)
    requires k in t.den && l in t.den
  {
    t.den[k] == t.den[l] && t.den[k] in t.nodes && t.nodes[t.den[k]].dir ==> k == l
  }

  ghost predicate OneNamePerDir(t: Tree)
  {
    forall k, l {:trigger NamesApart(t, k, l)} :: k in t.den && l in t.den ==> NamesApart(t, k, l)
  }

  /**
   A live directory counts itself, its entry and its subdirectories; a file
   counts its names; a removed directory counts nothing.
   */
  ghost predicate LinksOk(t: Tree, i: InodeId)
    requires i in t.nodes
  {
    if !t.nodes[i].dir then t.nodes[i].nlink == |NameKeys(t, i)|
    else t.nodes[i].nlink == 0 || t.nodes[i].nlink == 2 + |SubdirKeys(t, i)|
  }

  ghost predicate AllLinksOk(t: Tree)
  {
    forall i {:trigger LinksOk(t, i)} :: i in t.nodes ==> LinksOk(t, i)
  }

  /** The parent chain of a live directory reaches the root. */
  ghost predicate Rooted(t: Tree, i: InodeId)
  {
    LiveDir(t, i) ==> AncestorOrSame(t.den, ROOT, i)
  }

  ghost predicate Connected(t: Tree)
  {
    forall i {:trigger Rooted(t, i)} :: Rooted(t, i)
  }

  ghost predicate Wf(t: Tree)
  {
    && LiveDir(t, ROOT)
    && EntriesOk(t)
    && OneNamePerDir(t)
    && AllLinksOk(t)
    && Connected(t)
  }

  lemma RootIsWf(ns: NamespaceId)
    ensures Wf(Tree(ns, map[ROOT := Node(true, 2)], map[]))
  {
    var t := Tree(ns, map[ROOT := Node(true, 2)], map[]);
    assert SubdirKeys(t, ROOT) == {};
    assert ChainFrom(t.den, ROOT, ROOT, [ROOT]);
  }

  // -------------------------------------------------------------- operations

  function LinksAfter(n: Node, delta: int): Node
    requires n.nlink + delta >= 0
  {
    n.(nlink := n.nlink + delta)
  }

  ghost predicate CanAdd(t: Tree, k: DentryKey, c: InodeId)
  {
    k.ns == t.ns && LiveDir(t, k.parent) && k !in t.den && c !in t.nodes
  }

  /** Creates inode `c` under the name `k`. */
  ghost function Add(t: Tree, k: DentryKey, c: InodeId, dir: bool): Tree
    requires CanAdd(t, k, c)
  {
    var parent := LinksAfter(t.nodes[k.parent], if dir then 1 else 0);
    t.(nodes := t.nodes[k.parent := parent][c := Node(dir, if dir then 2 else 1)],
       den := t.den[k := c])
  }

  ghost predicate CanLink(t: Tree, k: DentryKey, c: InodeId)
  {
    && k.ns == t.ns && LiveDir(t, k.parent) && k !in t.den
    && c in t.nodes && !t.nodes[c].dir && t.nodes[c].nlink > 0
  }

  /** Gives the file `c` one more name. */
  ghost function Link(t: Tree, k: DentryKey, c: InodeId): Tree
    requires CanLink(t, k, c)
  {
    t.(nodes := t.nodes[c := LinksAfter(t.nodes[c], 1)], den := t.den[k := c])
  }

  ghost predicate CanRemove(t: Tree, k: DentryKey)
  {
    && k in t.den && t.den[k] in t.nodes && LiveDir(t, k.parent) && t.den[k] != k.parent
    && t.nodes[t.den[k]].nlink > 0
    && (t.nodes[t.den[k]].dir ==> forall l :: l in t.den ==> l.parent != t.den[k])
  }

  /** Removes the name `k`; a directory must be empty and is removed for good. */
  ghost function Remove(t: Tree, k: DentryKey): Tree
    requires CanRemove(t, k)
  {
    var c := t.den[k];
    var left := if t.nodes[c].dir then 0 else t.nodes[c].nlink - 1;
    var parent := if t.nodes[c].dir then LinksAfter(t.nodes[k.parent], -1) else t.nodes[k.parent];
    t.(nodes := t.nodes[c := t.nodes[c].(nlink := left)][k.parent := parent], den := t.den - {k})
  }

  ghost predicate CanMove(t: Tree, from: DentryKey, to: DentryKey)
  {
    && from in t.den && t.den[from] in t.nodes && LiveDir(t, from.parent)
    && to.ns == t.ns && LiveDir(t, to.parent) && to !in t.den
    && (t.nodes[t.den[from]].dir ==> !AncestorOrSame(t.den, t.den[from], to.parent))
  }

  /** Moves one name to a free one; moving a directory moves its link to the new parent. */
  ghost function Move(t: Tree, from: DentryKey, to: DentryKey): Tree
    requires CanMove(t, from, to)
  {
    var c := t.den[from];
    var nodes :=
      if t.nodes[c].dir && from.parent != to.parent then
        t.nodes[from.parent := LinksAfter(t.nodes[from.parent], -1)]
               [to.parent := LinksAfter(t.nodes[to.parent], 1)]
      else t.nodes;
    t.(nodes := nodes, den := (t.den - {from})[to := c])
  }

  // ------------------------------------------------------------- path lemmas

  lemma ChainsGrow(d: Entries, e: Entries, p: seq<InodeId>)
    requires Chain(d, p)
    requires forall j, k :: 1 <= j < |p| && k in d && d[k] == p[j] ==> k in e && e[k] == d[k]
    ensures Chain(e, p)
  {
    forall j | 0 <= j < |p| - 1 ensures Edge(e, p[j], p[j + 1]) {
      assert Edge(d, p[j], p[j + 1]);
      var k :| k in d && k.parent == p[j] && d[k] == p[j + 1];
      assert k in e && e[k] == d[k];
    }
  }

  lemma AppendEdge(d: Entries, p: seq<InodeId>, b: InodeId)
    requires Chain(d, p) && Edge(d, p[|p| - 1], b)
    ensures Chain(d, p + [b])
  {
    var q := p + [b];
    forall j | 0 <= j < |q| - 1 ensures Edge(d, q[j], q[j + 1]) {
      if j < |p| - 1 { assert Edge(d, p[j], p[j + 1]); }
    }
  }

  lemma JoinChains(d: Entries, p: seq<InodeId>, q: seq<InodeId>)
    requires Chain(d, p) && Chain(d, q) && Edge(d, p[|p| - 1], q[0])
    ensures Chain(d, p + q)
  {
    var r := p + q;
    forall j | 0 <= j < |r| - 1 ensures Edge(d, r[j], r[j + 1]) {
      if j < |p| - 1 {
        assert Edge(d, p[j], p[j + 1]);
      } else if j >= |p| {
        assert Edge(d, q[j - |p|], q[j - |p| + 1]);
      }
    }
  }

  lemma SuffixChain(d: Entries, p: seq<InodeId>, j: nat)
    requires Chain(d, p) && j < |p|
    ensures Chain(d, p[j..])
  {
    var q := p[j..];
    forall i | 0 <= i < |q| - 1 ensures Edge(d, q[i], q[i + 1]) {
      assert Edge(d, p[j + i], p[j + i + 1]);
    }
  }

  lemma PrefixChain(d: Entries, p: seq<InodeId>, j: nat)
    requires Chain(d, p) && 0 < j <= |p|
    ensures Chain(d, p[..j])
  {
    var q := p[..j];
    forall i | 0 <= i < |q| - 1 ensures Edge(d, q[i], q[i + 1]) {
      assert Edge(d, p[i], p[i + 1]);
    }
  }

  /** Inner nodes of a chain are live directories. */
  lemma InnerNodesAreDirs(t: Tree, p: seq<InodeId>, j: nat)
    requires EntriesOk(t) && Chain(t.den, p) && j < |p| - 1
    ensures LiveDir(t, p[j])
  {
    assert Edge(t.den, p[j], p[j + 1]);
    var k :| k in t.den && k.parent == p[j] && t.den[k] == p[j + 1];
    assert EntryOk(t, k);
  }

  /** A node on a chain to a directory is itself a directory. */
  lemma ChainNodesAreDirs(t: Tree, i: InodeId, p: seq<InodeId>, j: nat)
    requires EntriesOk(t) && LiveDir(t, i) && ChainFrom(t.den, ROOT, i, p) && j < |p|
    ensures LiveDir(t, p[j])
  {
    if j < |p| - 1 { InnerNodesAreDirs(t, p, j); }
  }

  lemma LastIndexOf(p: seq<InodeId>, x: InodeId) returns (j: nat)
    requires x in p
    ensures j < |p| && p[j] == x && x !in p[j + 1..]
  {
    if p[|p| - 1] == x {
      j := |p| - 1;
    } else {
      j := LastIndexOf(p[..|p| - 1], x);
      assert p[j + 1..] == p[..|p| - 1][j + 1..] + [p[|p| - 1]];
    }
  }

  // ----------------------------------------------------- `Add` keeps `Wf`

  lemma AddEntry(t: Tree, k: DentryKey, c: InodeId, dir: bool, l: DentryKey)
    requires EntriesOk(t) && CanAdd(t, k, c) && LiveDir(t, ROOT) && l in Add(t, k, c, dir).den
    ensures EntryOk(Add(t, k, c, dir), l)
  {
    if l != k { assert EntryOk(t, l); }
  }

  lemma AddApart(t: Tree, k: DentryKey, c: InodeId, dir: bool, l: DentryKey, m: DentryKey)
    requires EntriesOk(t) && OneNamePerDir(t) && CanAdd(t, k, c)
    requires l in Add(t, k, c, dir).den && m in Add(t, k, c, dir).den
    ensures NamesApart(Add(t, k, c, dir), l, m)
  {
    if l != k { assert EntryOk(t, l); }
    if m != k { assert EntryOk(t, m); }
    if l != k && m != k { assert NamesApart(t, l, m); }
  }

  lemma AddKeys(t: Tree, k: DentryKey, c: InodeId, dir: bool, i: InodeId)
    requires EntriesOk(t) && CanAdd(t, k, c) && i in t.nodes
    ensures SubdirKeys(Add(t, k, c, dir), i) ==
      if i == k.parent && dir then SubdirKeys(t, i) + {k} else SubdirKeys(t, i)
    ensures NameKeys(Add(t, k, c, dir), i) == NameKeys(t, i)
  {
    forall l | l in t.den ensures t.den[l] in t.nodes { assert EntryOk(t, l); }
  }

  lemma AddNewKeys(t: Tree, k: DentryKey, c: InodeId, dir: bool)
    requires EntriesOk(t) && CanAdd(t, k, c)
    ensures SubdirKeys(Add(t, k, c, dir), c) == {}
    ensures NameKeys(Add(t, k, c, dir), c) == {k}
  {
    forall l | l in t.den ensures l.parent != c && t.den[l] != c { assert EntryOk(t, l); }
  }

  lemma AddLinks(t: Tree, k: DentryKey, c: InodeId, dir: bool, i: InodeId)
    requires EntriesOk(t) && AllLinksOk(t) && CanAdd(t, k, c) && i in Add(t, k, c, dir).nodes
    ensures LinksOk(Add(t, k, c, dir), i)
  {
    if i == c {
      AddNewKeys(t, k, c, dir);
    } else {
      assert LinksOk(t, i);
      AddKeys(t, k, c, dir, i);
    }
  }

  lemma AddRooted(t: Tree, k: DentryKey, c: InodeId, dir: bool, i: InodeId)
    requires Connected(t) && CanAdd(t, k, c)
    ensures Rooted(Add(t, k, c, dir), i)
  {
    var den := Add(t, k, c, dir).den;
    if LiveDir(Add(t, k, c, dir), i) {
      var to := if i == c then k.parent else i;
      assert Rooted(t, to);
      var p :| ChainFrom(t.den, ROOT, to, p);
      ChainsGrow(t.den, den, p);
      if i == c {
        assert den[k] == c;
        AppendEdge(den, p, c);
        assert ChainFrom(den, ROOT, c, p + [c]);
      } else {
        assert ChainFrom(den, ROOT, i, p);
      }
    }
  }

  lemma AddKeepsWf(t: Tree, k: DentryKey, c: InodeId, dir: bool)
    requires Wf(t) && CanAdd(t, k, c)
    ensures Wf(Add(t, k, c, dir))
  {
    var u := Add(t, k, c, dir);
    forall l | l in u.den ensures EntryOk(u, l) { AddEntry(t, k, c, dir, l); }
    forall l, m | l in u.den && m in u.den ensures NamesApart(u, l, m) { AddApart(t, k, c, dir, l, m); }
    forall i | i in u.nodes ensures LinksOk(u, i) { AddLinks(t, k, c, dir, i); }
    forall i ensures Rooted(u, i) { AddRooted(t, k, c, dir, i); }
  }

  // ---------------------------------------------------- `Link` keeps `Wf`

  lemma LinkKeys(t: Tree, k: DentryKey, c: InodeId, i: InodeId)
    requires CanLink(t, k, c) && i in t.nodes
    ensures SubdirKeys(Link(t, k, c), i) == SubdirKeys(t, i)
    ensures NameKeys(Link(t, k, c), i) == if i == c then NameKeys(t, i) + {k} else NameKeys(t, i)
  {
  }

  lemma LinkLinks(t: Tree, k: DentryKey, c: InodeId, i: InodeId)
    requires AllLinksOk(t) && CanLink(t, k, c) && i in t.nodes
    ensures LinksOk(Link(t, k, c), i)
  {
    assert LinksOk(t, i);
    LinkKeys(t, k, c, i);
  }

  lemma LinkRooted(t: Tree, k: DentryKey, c: InodeId, i: InodeId)
    requires Connected(t) && CanLink(t, k, c)
    ensures Rooted(Link(t, k, c), i)
  {
    if LiveDir(Link(t, k, c), i) {
      assert Rooted(t, i);
      var p :| ChainFrom(t.den, ROOT, i, p);
      ChainsGrow(t.den, Link(t, k, c).den, p);
      assert ChainFrom(Link(t, k, c).den, ROOT, i, p);
    }
  }

  lemma LinkKeepsWf(t: Tree, k: DentryKey, c: InodeId)
    requires Wf(t) && CanLink(t, k, c)
    ensures Wf(Link(t, k, c))
  {
    var u := Link(t, k, c);
    forall l | l in u.den ensures EntryOk(u, l) { if l != k { assert EntryOk(t, l); } }
    forall l, m | l in u.den && m in u.den ensures NamesApart(u, l, m) {
      if l != k && m != k { assert NamesApart(t, l, m); }
    }
    forall i | i in u.nodes ensures LinksOk(u, i) { LinkLinks(t, k, c, i); }
    forall i ensures Rooted(u, i) { LinkRooted(t, k, c, i); }
  }

  // -------------------------------------------------- `Remove` keeps `Wf`

  lemma RemoveKeys(t: Tree, k: DentryKey, i: InodeId)
    requires CanRemove(t, k) && i in t.nodes
    ensures SubdirKeys(Remove(t, k), i) ==
      if i == k.parent && t.nodes[t.den[k]].dir then SubdirKeys(t, i) - {k} else SubdirKeys(t, i)
    ensures NameKeys(Remove(t, k), i) == if i == t.den[k] then NameKeys(t, i) - {k} else NameKeys(t, i)
    ensures k in NameKeys(t, t.den[k])
    ensures t.nodes[t.den[k]].dir ==> k in SubdirKeys(t, k.parent)
  {
  }

  lemma RemoveLinks(t: Tree, k: DentryKey, i: InodeId)
    requires AllLinksOk(t) && CanRemove(t, k) && i in t.nodes
    ensures LinksOk(Remove(t, k), i)
    ensures i == k.parent ==> LiveDir(Remove(t, k), i)
  {
    assert LinksOk(t, i);
    RemoveKeys(t, k, i);
  }

  /** The parent of a removed entry stays live; a file that keeps a name keeps a link. */
  lemma RemoveEntry(t: Tree, k: DentryKey, l: DentryKey)
    requires EntriesOk(t) && OneNamePerDir(t) && AllLinksOk(t) && CanRemove(t, k) && l in t.den && l != k
    ensures EntryOk(Remove(t, k), l)
  {
    var c := t.den[k];
    assert EntryOk(t, l);
    RemoveLinks(t, k, k.parent);
    if t.den[l] == c {
      assert NamesApart(t, k, l);
      assert LinksOk(t, c);
      assert {k, l} <= NameKeys(t, c);
      assert |NameKeys(t, c) - {k, l}| == |NameKeys(t, c)| - 2;
    }
  }

  lemma RemoveRooted(t: Tree, k: DentryKey, i: InodeId)
    requires EntriesOk(t) && Connected(t) && CanRemove(t, k)
    ensures Rooted(Remove(t, k), i)
  {
    if LiveDir(Remove(t, k), i) {
      assert Rooted(t, i);
      var p :| ChainFrom(t.den, ROOT, i, p);
      LeavesChain(t, k, i, p);
      ChainsGrow(t.den, Remove(t, k).den, p);
      assert ChainFrom(Remove(t, k).den, ROOT, i, p);
    }
  }

  /** A removable node lies on no chain to another live directory. */
  lemma LeavesChain(t: Tree, k: DentryKey, i: InodeId, p: seq<InodeId>)
    requires EntriesOk(t) && CanRemove(t, k) && LiveDir(Remove(t, k), i) && ChainFrom(t.den, ROOT, i, p)
    ensures t.den[k] !in p
  {
    forall j | 0 <= j < |p| ensures p[j] != t.den[k] {
      if j < |p| - 1 {
        InnerNodesAreDirs(t, p, j);
        assert Edge(t.den, p[j], p[j + 1]);
      }
    }
  }

  lemma RemoveKeepsWf(t: Tree, k: DentryKey)
    requires Wf(t) && CanRemove(t, k)
    ensures Wf(Remove(t, k))
  {
    var u := Remove(t, k);
    RemoveLinks(t, k, k.parent);
    assert EntryOk(t, k);
    forall l | l in u.den ensures EntryOk(u, l) { RemoveEntry(t, k, l); }
    forall l, m | l in u.den && m in u.den ensures NamesApart(u, l, m) { assert NamesApart(t, l, m); }
    forall i | i in u.nodes ensures LinksOk(u, i) { RemoveLinks(t, k, i); }
    forall i ensures Rooted(u, i) { RemoveRooted(t, k, i); }
  }

  // ---------------------------------------------------- `Move` keeps `Wf`

  lemma MoveKeys(t: Tree, from: DentryKey, to: DentryKey, i: InodeId)
    requires CanMove(t, from, to) && i in t.nodes
    ensures NameKeys(Move(t, from, to), i) == if i
      == t.den[from] then NameKeys(t, i) - {from} + {to} else NameKeys(t, i)
    ensures SubdirKeys(Move(t, from, to), i) ==
      if t.nodes[t.den[from]].dir && i == to.parent then SubdirKeys(t, i) - {from} + {to} else SubdirKeys(t, i) - {from}
    ensures from in NameKeys(t, i) <==> i == t.den[from]
    ensures from in SubdirKeys(t, i) <==> i == from.parent && t.nodes[t.den[from]].dir
  {
  }

  lemma MoveCounts(t: Tree, from: DentryKey, to: DentryKey, i: InodeId)
    requires CanMove(t, from, to) && i in t.nodes
    ensures |NameKeys(Move(t, from, to), i)| == |NameKeys(t, i)|
    ensures |SubdirKeys(Move(t, from, to), i)| == |SubdirKeys(t, i)|
      + (if t.nodes[t.den[from]].dir && i == to.parent then 1 else 0)
      - (if t.nodes[t.den[from]].dir && i == from.parent then 1 else 0)
  {
    MoveKeys(t, from, to, i);
    assert to !in NameKeys(t, i) && to !in SubdirKeys(t, i);
  }

  lemma MoveLinks(t: Tree, from: DentryKey, to: DentryKey, i: InodeId)
    requires AllLinksOk(t) && CanMove(t, from, to) && i in t.nodes
    ensures LinksOk(Move(t, from, to), i)
    ensures LiveDir(Move(t, from, to), i) <==> LiveDir(t, i)
  {
    assert LinksOk(t, i);
    MoveCounts(t, from, to, i);
  }

  lemma NotOnChainTo(den: Entries, c: InodeId, b: InodeId, q: seq<InodeId>)
    requires ChainFrom(den, ROOT, b, q) && !AncestorOrSame(den, c, b)
    ensures c !in q
  {
    if c in q {
      var m :| 0 <= m < |q| && q[m] == c;
      SuffixChain(den, q, m);
      assert ChainFrom(den, c, b, q[m..]);
    }
  }

  /** A chain that does not enter the moved node survives the move. */
  lemma MoveKeepsChain(t: Tree, from: DentryKey, to: DentryKey, p: seq<InodeId>)
    requires CanMove(t, from, to) && Chain(t.den, p)
    requires t.den[from] !in p[1..]
    ensures Chain(Move(t, from, to).den, p)
  {
    forall j, k | 1 <= j < |p| && k in t.den && t.den[k] == p[j]
      ensures k in Move(t, from, to).den && Move(t, from, to).den[k] == t.den[k]
    {
      assert p[j] == p[1..][j - 1];
    }
    ChainsGrow(t.den, Move(t, from, to).den, p);
  }

  /** The chain to `i` after a move, rerouted through the new parent if it ran through the moved directory. */
  lemma MoveRooted(t: Tree, from: DentryKey, to: DentryKey, i: InodeId)
    requires EntriesOk(t) && Connected(t) && CanMove(t, from, to) && LiveDir(t, i)
    ensures AncestorOrSame(Move(t, from, to).den, ROOT, i)
  {
    var den := Move(t, from, to).den;
    var c := t.den[from];
    assert Rooted(t, i);
    var p :| ChainFrom(t.den, ROOT, i, p);
    if c !in p {
      MoveKeepsChain(t, from, to, p);
      assert ChainFrom(den, ROOT, i, p);
    } else {
      var j := LastIndexOf(p, c);
      assert Rooted(t, to.parent);
      var q :| ChainFrom(t.den, ROOT, to.parent, q);
      ChainNodesAreDirs(t, i, p, j);
      NotOnChainTo(t.den, c, to.parent, q);
      MoveKeepsChain(t, from, to, q);
      SuffixChain(t.den, p, j);
      assert p[j..][1..] == p[j + 1..];
      MoveKeepsChain(t, from, to, p[j..]);
      assert den[to] == c;
      JoinChains(den, q, p[j..]);
      assert ChainFrom(den, ROOT, i, q + p[j..]);
    }
  }

  lemma MoveEntry(t: Tree, from: DentryKey, to: DentryKey, l: DentryKey)
    requires EntriesOk(t) && AllLinksOk(t) && CanMove(t, from, to) && l in Move(t, from, to).den
    ensures EntryOk(Move(t, from, to), l)
  {
    var was := if l == to then from else l;
    assert EntryOk(t, was);
    MoveLinks(t, from, to, l.parent);
    if t.nodes[t.den[was]].dir {
      MoveLinks(t, from, to, t.den[was]);
    }
  }

  lemma MoveApart(t: Tree, from: DentryKey, to: DentryKey, l: DentryKey, m: DentryKey)
    requires OneNamePerDir(t) && CanMove(t, from, to)
    requires l in Move(t, from, to).den && m in Move(t, from, to).den
    ensures NamesApart(Move(t, from, to), l, m)
  {
    assert NamesApart(t, if l == to then from else l, if m == to then from else m);
  }

  lemma MoveKeepsWf(t: Tree, from: DentryKey, to: DentryKey)
    requires Wf(t) && CanMove(t, from, to)
    ensures Wf(Move(t, from, to))
  {
    var u := Move(t, from, to);
    MoveLinks(t, from, to, ROOT);
    forall l | l in u.den ensures EntryOk(u, l) { MoveEntry(t, from, to, l); }
    forall l, m | l in u.den && m in u.den ensures NamesApart(u, l, m) { MoveApart(t, from, to, l, m); }
    forall i | i in u.nodes ensures LinksOk(u, i) { MoveLinks(t, from, to, i); }
    forall i ensures Rooted(u, i) {
      if LiveDir(u, i) {
        MoveLinks(t, from, to, i);
        MoveRooted(t, from, to, i);
      }
    }
  }

  // ----------------------------------------------------------- consequences

  lemma UniqueParent(t: Tree, a: InodeId, b: InodeId, c: InodeId)
    requires OneNamePerDir(t) && Edge(t.den, a, c) && Edge(t.den, b, c) && LiveDir(t, c)
    ensures a == b
  {
    var k :| k in t.den && k.parent == a && t.den[k] == c;
    var l :| l in t.den && l.parent == b && t.den[l] == c;
    assert NamesApart(t, k, l);
  }

  lemma {:induction false} CycleSwallowsChain(t: Tree, c: seq<InodeId>, p: seq<InodeId>)
    requires EntriesOk(t) && OneNamePerDir(t)
    requires Chain(t.den, c) && |c| > 1 && c[0] == c[|c| - 1]
    requires Chain(t.den, p) && p[|p| - 1] in c && LiveDir(t, p[|p| - 1])
    ensures p[0] in c
    decreases |p|
  {
    if |p| > 1 {
      var last := p[|p| - 1];
      var x :| 0 <= x < |c| && c[x] == last;
      var y := if x == 0 then |c| - 1 else x;
      assert Edge(t.den, p[|p| - 2], p[|p| - 1]) && Edge(t.den, c[y - 1], c[y]);
      UniqueParent(t, p[|p| - 2], c[y - 1], last);
      InnerNodesAreDirs(t, p, |p| - 2);
      PrefixChain(t.den, p, |p| - 1);
      CycleSwallowsChain(t, c, p[..|p| - 1]);
    }
  }

  lemma NoEntryNamesRoot(t: Tree, a: InodeId)
    requires EntriesOk(t)
    ensures !Edge(t.den, a, ROOT)
  {
    forall k | k in t.den ensures t.den[k] != ROOT { assert EntryOk(t, k); }
  }

  /** A well-formed tree has no cycle of entries. */
  lemma NoCycle(t: Tree, c: seq<InodeId>)
    requires Wf(t) && Chain(t.den, c) && |c| > 1
    ensures c[0] != c[|c| - 1]
  {
    if c[0] == c[|c| - 1] {
      InnerNodesAreDirs(t, c, 0);
      assert Rooted(t, c[0]);
      var p :| ChainFrom(t.den, ROOT, c[0], p);
      CycleSwallowsChain(t, c, p);
      var x :| 0 <= x < |c| && c[x] == ROOT;
      var y := if x == 0 then |c| - 1 else x;
      assert Edge(t.den, c[y - 1], c[y]);
      NoEntryNamesRoot(t, c[y - 1]);
    }
  }

  lemma NoSelfEntry(t: Tree, k: DentryKey)
    requires Wf(t) && k in t.den
    ensures t.den[k] != k.parent
  {
    if t.den[k] == k.parent {
      assert Edge(t.den, k.parent, t.den[k]);
      NoCycle(t, [k.parent, k.parent]);
    }
  }

  /** Every live directory but the root has exactly one entry. */
  lemma LiveDirHasOneName(t: Tree, i: InodeId)
    requires Wf(t) && LiveDir(t, i) && i != ROOT
    ensures exists k :: NameKeys(t, i) == {k}
  {
    assert Rooted(t, i);
    var p :| ChainFrom(t.den, ROOT, i, p);
    assert Edge(t.den, p[|p| - 2], p[|p| - 1]);
    var k :| k in t.den && k.parent == p[|p| - 2] && t.den[k] == i;
    forall l | l in NameKeys(t, i) ensures l == k { assert NamesApart(t, k, l); }
    assert NameKeys(t, i) == {k};
  }

  /** A removed directory has no entry, and no entry lies below it. */
  lemma RemovedDirIsGone(t: Tree, i: InodeId, k: DentryKey)
    requires Wf(t) && i in t.nodes && t.nodes[i].dir && t.nodes[i].nlink == 0 && k in t.den
    ensures k.parent != i && t.den[k] != i
  {
    assert EntryOk(t, k);
  }
}
