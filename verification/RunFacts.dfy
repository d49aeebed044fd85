/**
 What the invariant and the relation between states mean, spelled out: the
 tree and its counts, versions, layouts and placements, and the laws of
 sequences of states in which claims and reservations come from new requests.
 */
module RunFacts {
  import opened Records
  import opened MetaStore
  import opened NamespacePlans
  import opened NamespaceEffects
  import opened NamespaceRefinement
  import opened InodeHistory
  import opened FileLayouts
  import opened ReadRanges
  import opened Replication
  import opened FileHistory
  import opened RepairClaims
  import opened OwnerRoots
  import opened RequestLog
  import opened RootSafety
  import opened DescendantSearch
  import opened MetaRun
  import NT = NamespaceTree

  // ----------------------------------------------------------------- namespace

  predicate IsLiveDir(s: State, i: InodeId)
  {
    i in s.inodes && s.inodes[i].kind == Directory && s.inodes[i].attrs.nlink > 0
  }

  ghost function NamesOf(s: State, i: InodeId): set<DentryKey> { set k | k in s.dentries && s.dentries[k] == i }

  ghost function SubdirsOf(s: State, i: InodeId): set<DentryKey>
  {
    set k | k in s.dentries && k.parent == i && s.dentries[k] in s.inodes && s.inodes[s.dentries[k]].kind == Directory
  }

  /** The directories form a tree below inode 1. */
  ghost predicate IsTree(s: State)
  {
    && (forall k :: k in s.dentries ==> s.dentries[k] != ROOT && s.dentries[k] in s.inodes && IsLiveDir(s, k.parent))
    && (forall i :: IsLiveDir(s, i) && i != ROOT ==> |NamesOf(s, i)| == 1)
    && (forall i :: IsLiveDir(s, i) ==> NT.AncestorOrSame(s.dentries, ROOT, i))
    && (forall i :: i in s.inodes && s.inodes[i].kind == Directory && !IsLiveDir(s, i) ==> NamesOf(s, i) == {})
  }

  /** Link counts are exact. */
  ghost predicate CountsLinks(s: State)
  {
    forall i :: i in s.inodes ==>
      if s.inodes[i].kind != Directory then s.inodes[i].attrs.nlink == |NamesOf(s, i)|
      else s.inodes[i].attrs.nlink == 0 || s.inodes[i].attrs.nlink == 2 + |SubdirsOf(s, i)|
  }

  lemma InvIsTree(s: State)
    requires NsInv(s)
    ensures IsTree(s)
  {
    if ROOT in s.inodes {
      var t := TreeOf(s);
      forall k | k in s.dentries ensures s.dentries[k] != ROOT && s.dentries[k] in s.inodes && IsLiveDir(s, k.parent) {
        assert NT.EntryOk(t, k);
      }
      forall i | IsLiveDir(s, i)
        ensures NT.AncestorOrSame(s.dentries, ROOT, i) && (i != ROOT ==> |NamesOf(s, i)| == 1)
      {
        assert NT.Rooted(t, i);
        assert NamesOf(s, i) == NT.NameKeys(t, i);
        if i != ROOT { NT.LiveDirHasOneName(t, i); }
      }
      forall i | i in s.inodes && s.inodes[i].kind == Directory && !IsLiveDir(s, i) ensures NamesOf(s, i) == {} {
        forall k | k in s.dentries ensures s.dentries[k] != i { NT.RemovedDirIsGone(t, i, k); }
      }
    }
  }

  lemma InvCountsLinks(s: State)
    requires NsInv(s)
    ensures CountsLinks(s)
  {
    if ROOT in s.inodes {
      var t := TreeOf(s);
      forall i | i in s.inodes ensures
        if s.inodes[i].kind != Directory then s.inodes[i].attrs.nlink == |NamesOf(s, i)|
        else s.inodes[i].attrs.nlink == 0 || s.inodes[i].attrs.nlink == 2 + |SubdirsOf(s, i)| {
        assert NT.LinksOk(t, i);
        assert NamesOf(s, i) == NT.NameKeys(t, i) && SubdirsOf(s, i) == NT.SubdirKeys(t, i);
      }
    }
  }

  // ------------------------------------------------------------------- searches

  /** A parent that was a live directory in one state of a run can be searched for in any other. */
  lemma ParentIsSearchable(newAt: State, s: State, ns: NamespaceId, parent: InodeId)
    requires NsInv(s) && ROOT in s.inodes && s.inodes[ROOT].ns == ns
    requires DirectoryForMutation(newAt, ns, parent).Ok? && (Ages(newAt, s) || Ages(s, newAt))
    ensures Searchable(s, ns, parent)
  {
    if parent in s.inodes {
      if Ages(newAt, s) { assert Aged(newAt, s, parent); } else { assert Aged(s, newAt, parent); }
    }
    DirectoriesAreSearchable(s, ns, parent);
  }

  lemma EntryFixesNamespace(s: State, key: DentryKey)
    requires NsInv(s) && key in s.dentries
    ensures ROOT in s.inodes && s.inodes[ROOT].ns == key.ns
  {
    assert NT.EntryOk(TreeOf(s), key);
  }

  lemma InodeFixesNamespace(newAt: State, s: State, i: InodeId)
    requires NsInv(s) && i in newAt.inodes && Ages(newAt, s)
    ensures ROOT in s.inodes && s.inodes[ROOT].ns == newAt.inodes[i].ns
  {
    assert Aged(newAt, s, i);
    assert InNamespace(s, i);
  }

  // ------------------------------------------------------------ optimistic plans

  /** The same operation, with every read taken from one state. */
  function ReadingFrom(e: TreeEvent, s: State): TreeEvent
  {
    match e
    case StartNamespace(_) => e
    case Add(_, req, id) => Add(s, req, id)
    case MakeLink(_, _, req) => MakeLink(s, s, req)
    case Unlink(_, _, req) => Unlink(s, s, req)
    case Rename(_, _, _, req) => Rename(s, s, s, req)
  }

  /** A rename that found both names bound to one inode pins no parent. */
  ghost predicate IsNoop(e: TreeEvent)
  {
    && e.Rename? && OldKey(e.rename) in e.view.dentries
    && InodeFromView(e.view, e.rename.ns, e.view.dentries[OldKey(e.rename)]).Ok?
    && NoopPlan(e.view, e.rename, InodeFromView(e.view, e.rename.ns, e.view.dentries[OldKey(e.rename)]).value)
  }

  /** The inode that a no-op rename leaves where it is. */
  ghost function NoopSource(e: TreeEvent): InodeRecord
    requires IsNoop(e)
  {
    InodeFromView(e.view, e.rename.ns, e.view.dentries[OldKey(e.rename)]).value
  }

  lemma MoveRefines(s: State, oldAt: State, newAt: State, view: State, req: RenameRequest, now: nat, at: nat)
    requires IdsOk(oldAt) && IdsOk(newAt) && IdsOk(view) && Ages(oldAt, newAt) && Ages(newAt, s)
    requires PlanRename(oldAt, newAt, view, req, now).Planned?
    requires Commits(s, PlanRename(oldAt, newAt, view, req, now).txn, at)
    requires !IsNoop(Rename(oldAt, newAt, view, req))
    ensures PlanRename(s, s, s, req, now) == PlanRename(oldAt, newAt, view, req, now)
  {
    RenameCases(oldAt, newAt, view, req, now);
    var source := InodeFromView(view, req.ns, view.dentries[OldKey(req)]).value;
    var oldParent, newParent, target :| MovePlan(oldAt, newAt, view, req, now, oldParent, newParent, source, target);
    RenameRefines(s, oldAt, newAt, view, req, now, at, oldParent, newParent, source, target);
  }

  // ------------------------------------------------------------------- versions

  /** The history of an inode, followed back from its head. */
  lemma HistoryFound(s: State, i: InodeId) returns (hist: seq<FileVersionId>)
    requires HistoryOk(s) && i in s.inodes
    ensures IsHistory(s.versions, i, s.inodes[i].head, hist)
  {
    assert Chronicled(s, i);
    hist :| IsHistory(s.versions, i, s.inodes[i].head, hist);
  }

  lemma HistoryGrows(s: State, t: State, i: InodeId, hs: seq<FileVersionId>, ht: seq<FileVersionId>)
    requires FilesGrow(s, t) && i in s.inodes && i in t.inodes
    requires IsHistory(s.versions, i, s.inodes[i].head, hs) && IsHistory(t.versions, i, t.inodes[i].head, ht)
    ensures hs <= ht
  {
    HistoryIsPrefix(s.versions, t.versions, i, hs, ht, |hs|);
  }

  lemma HeadReachesAll(s: State, i: InodeId, hist: seq<FileVersionId>, n: nat)
    requires i in s.inodes && IsHistory(s.versions, i, s.inodes[i].head, hist) && n <= |hist|
    ensures StepsBack(s.versions, s.inodes[i].head, n) == Last(hist[..|hist| - n])
  {
    HeadWalksHistory(s.versions, i, s.inodes[i].head, hist, |hist|, n);
    assert hist[..|hist|] == hist;
  }

  // ------------------------------------------------------- layouts and placements

  /** Every extent of a stored layout lies inside a recorded chunk that is placed on enough nodes. */
  lemma ExtentIsBacked(s: State, cfg: ReplicationConfig, l: LayoutRootId, i: nat)
    requires FilesOk(s) && StockOk(StockOf(s), cfg) && l in s.layouts && i < |s.layouts[l].extents|
    ensures Shaped(s.layouts[l].extents, s.layouts[l].fileLength)
    ensures var c := s.layouts[l].extents[i].chunk;
      && c in s.chunks && s.chunks[c].id == c && ChunkEnd(s.layouts[l].extents[i]) <= s.chunks[c].length
      && c in s.placements && |Nodes(s.placements[c].copies)| >= cfg.sync
      && !Exceeds(s.layouts[l], s.chunks[c], s.layouts[l].extents[i])
  {
    assert LayoutOk(s, l);
    var e := s.layouts[l].extents[i];
    assert ExtentOk(StockOf(s), e);
    assert PlacementOk(StockOf(s), cfg, e.chunk);
    assert ChunkOk(StockOf(s), e.chunk);
    ShapedNeverExceeds(s.layouts[l], s.chunks[e.chunk], i);
  }

  /** For a stored layout and a recorded chunk, the read intervals are always computed. */
  lemma IntervalsNeverFail(s: State, cfg: ReplicationConfig, l: LayoutRootId, c: ChunkId)
    requires FilesOk(s) && StockOk(StockOf(s), cfg) && l in s.layouts && c in s.chunks
    ensures forall i :: 0 <= i < |s.layouts[l].extents| ==> !Exceeds(s.layouts[l], s.chunks[c], s.layouts[l].extents[i])
  {
    assert LayoutOk(s, l) && ChunkOk(StockOf(s), c);
    forall i | 0 <= i < |s.layouts[l].extents| ensures !Exceeds(s.layouts[l], s.chunks[c], s.layouts[l].extents[i]) {
      assert ExtentOk(StockOf(s), s.layouts[l].extents[i]);
      ShapedNeverExceeds(s.layouts[l], s.chunks[c], i);
    }
  }

  /** The copies of a placement that are Ready, by node. */
  lemma PlacementIsAccounted(s: State, cfg: ReplicationConfig, c: ChunkId)
    requires StockOk(StockOf(s), cfg) && c in s.placements
    ensures var p := s.placements[c];
      && (forall i :: 0 <= i < |p.copies| ==>
            p.copies[i] in s.copies && Matches(s.copies[p.copies[i]], c) && s.copies[p.copies[i]].location.OnNode?
            && s.copies[p.copies[i]].location.node == p.copies[i].node)
      && (p.health == Satisfied ==> |ReadyNodes(s.copies, p.copies)| >= p.desired == cfg.desired)
      && (p.health != Satisfied ==> RepairTask(c) in s.tasks && s.tasks[RepairTask(c)].state != Completed)
  {
    assert PlacementOk(StockOf(s), cfg, c);
    var p := s.placements[c];
    forall i | 0 <= i < |p.copies| ensures
      p.copies[i] in s.copies && Matches(s.copies[p.copies[i]], c) && s.copies[p.copies[i]].location.OnNode?
      && s.copies[p.copies[i]].location.node == p.copies[i].node {
      assert CopyOk(StockOf(s).copies, p.copies[i]);
    }
  }

  // --------------------------------------------------------- sequences of states

  ghost predicate LogAt(h: seq<State>, k: nat)
    requires k + 1 < |h|
  {
    LogGrows(h[k], h[k + 1]) && ClaimsFresh(h[k], h[k + 1]) && ReservationsFresh(h[k], h[k + 1])
  }

  ghost predicate LogsGrow(h: seq<State>)
  {
    forall k {:trigger LogAt(h, k)} :: 0 <= k < |h| - 1 ==> LogAt(h, k)
  }

  lemma {:induction false} KeyStays(h: seq<State>, i: nat, j: nat, key: RequestKey)
    requires LogsGrow(h) && i <= j < |h| && key in h[i].requests
    ensures key in h[j].requests
  {
    if i < j {
      KeyStays(h, i, j - 1, key);
      assert LogAt(h, j - 1);
    }
  }

  /** Once the request of a claim is in the log, a claim that is absent stays absent. */
  lemma {:induction false} ClaimStaysGone(h: seq<State>, j: nat, k: nat, id: TaskId, c: ReplicationClaim)
    requires LogsGrow(h) && j <= k < |h| && ClaimKey(c) in h[j].requests && !Claims(h[j], id, c)
    ensures !Claims(h[k], id, c)
  {
    if j < k {
      ClaimStaysGone(h, j, k - 1, id, c);
      KeyStays(h, j, k - 1, ClaimKey(c));
      assert LogAt(h, k - 1);
      assert ClaimFresh(h[k - 1], h[k], id);
    }
  }

  ghost predicate Reserves(s: State, r: RootReservation) { r.root in s.reservations && s.reservations[r.root] == r }

  lemma {:induction false} ReservationStaysGone(h: seq<State>, j: nat, k: nat, r: RootReservation, request: string)
    requires LogsGrow(h) && j <= k < |h| && Logged(h[j], r, request) && !Reserves(h[j], r)
    ensures !Reserves(h[k], r)
  {
    if j < k {
      ReservationStaysGone(h, j, k - 1, r, request);
      KeyStays(h, j, k - 1, CallerKey(r.homeNode, r.homeSession, request));
      assert LogAt(h, k - 1);
      if Reserves(h[k], r) { ReservationNeedsNewRequest(h[k - 1], h[k], r, request); }
    }
  }

  lemma ReservationNeedsNewRequest(s: State, t: State, r: RootReservation, request: string)
    requires ReservationsFresh(s, t) && Logged(s, r, request) && Reserves(t, r)
    ensures Reserves(s, r)
  {
    assert ReservationFresh(s, t, r.root);
    if !Reserves(s, r) {
      var other :| Logged(t, r, other) && CallerKey(r.homeNode, r.homeSession, other) !in s.requests;
      TokenFixesRequest(r.root, r.homeSession, r.intent, request, other);
    }
  }

  // --------------------------------------------------------------------- rights

  ghost predicate TakesEffect(s: State, e: OwnerEvent, at: nat)
  {
    PlanOwner(e).Planned? && Commits(s, PlanOwner(e).txn, at)
  }

  /** The rights an owner event is after for a holder: what it asks for, or everything for the home session. */
  ghost function Asked(e: OwnerEvent, g: GrantKey): set<RootRight>
    requires PlanOwner(e).Planned?
  {
    match e
    case AcquireAccess(r, _, _, i) =>
      if GrantKey(r.roots[i.root].root, i.node, i.session) == g then RightsIn(i.rights) else {}
    case Activate(r, _, x, _) =>
      var y := r.reservations[x.root];
      if GrantKey(y.root, y.homeNode, y.homeSession) == g then RightsIn(ALL_RIGHTS) else {}
    case Recover(r, _, i) =>
      if GrantKey(r.roots[i.root].root, r.roots[i.root].homeNode, i.session) == g then RightsIn(ALL_RIGHTS) else {}
    case _ => {}
  }

  ghost function AddedRights(s: State, e: OwnerEvent, at: nat, g: GrantKey): set<RootRight>
  {
    if TakesEffect(s, e, at) then Asked(e, g) else {}
  }

  ghost predicate HasAccess(s: State, g: GrantKey, a: Access) { g in s.grants && AccessOf(s.grants[g]) == a }

  lemma AllRightsAbsorb(rights: seq<RootRight>)
    ensures RightsIn(rights) + RightsIn(ALL_RIGHTS) == RightsIn(ALL_RIGHTS)
  {
    forall r: RootRight ensures r in RightsIn(ALL_RIGHTS) {
      match r
      case Lookup => assert ALL_RIGHTS[0] == r;
      case Read => assert ALL_RIGHTS[1] == r;
      case Write => assert ALL_RIGHTS[2] == r;
      case Admin => assert ALL_RIGHTS[3] == r;
    }
  }

  lemma ReserveAddsNone(s: State, i: ReserveInput, at: nat)
    ensures Commit(s, ReserveTxn(i), at).grants == s.grants
  {
    CommitFrame(s, ReserveTxn(i), at, {OfRequests, OfReservations});
    assert Kept(s, Commit(s, ReserveTxn(i), at), OfGrants);
  }

  lemma AbortAddsNone(s: State, request: string, r: RootReservation, root: string, session: SessionId, at: nat)
    ensures Commit(s, AbortTxn(request, r, root, session), at).grants == s.grants
  {
    CommitFrame(s, AbortTxn(request, r, root, session), at, {OfRequests, OfReservations});
    assert Kept(s, Commit(s, AbortTxn(request, r, root, session), at), OfGrants);
  }

  lemma ActivateAddsAll(s: State, request: string, r: RootReservation, prepareId: string, at: nat, g: GrantKey,
                        a: Access)
    requires Commits(s, ActivateTxn(request, r, prepareId), at)
    requires HasAccess(s, g, a) && HasAccess(Commit(s, ActivateTxn(request, r, prepareId), at), g, a)
    ensures RightsIn(Commit(s, ActivateTxn(request, r, prepareId), at).grants[g].rights)
      == RightsIn(s.grants[g].rights)
         + if GrantKey(r.root, r.homeNode, r.homeSession) == g then RightsIn(ALL_RIGHTS) else {}
  {
    ActivateEffect(s, request, r, prepareId, at);
    AllRightsAbsorb(s.grants[g].rights);
  }

  lemma RecoverAddsAll(s: State, request: string, root: RootRecord, generation: nat, at: nat, g: GrantKey, a: Access)
    requires Commits(s, RecoverTxn(request, root, generation), at)
    requires HasAccess(s, g, a) && HasAccess(Commit(s, RecoverTxn(request, root, generation), at), g, a)
    ensures RightsIn(Commit(s, RecoverTxn(request, root, generation), at).grants[g].rights)
      == RightsIn(s.grants[g].rights)
         + if GrantKey(root.root, root.homeNode, root.homeSession) == g then RightsIn(ALL_RIGHTS) else {}
  {
    RecoverEffect(s, request, root, generation, at);
    AllRightsAbsorb(s.grants[g].rights);
  }

  lemma GainedWithinAccess(s: State, t: State, holder: GrantKey, asked: seq<RootRight>, g: GrantKey, a: Access)
    requires holder in t.grants && t.grants == s.grants[holder := t.grants[holder]]
    requires RightsAt(t, holder, AccessOf(t.grants[holder]))
      == RightsAt(s, holder, AccessOf(t.grants[holder])) + RightsIn(asked)
    requires HasAccess(s, g, a) && HasAccess(t, g, a)
    ensures RightsIn(t.grants[g].rights) == RightsIn(s.grants[g].rights) + if holder == g then RightsIn(asked) else {}
  {
  }

  lemma AcquireAddsAsked(s: State, rootAt: State, homeAt: State, holderAt: State, i: AcquireInput, at: nat, g: GrantKey,
                         a: Access)
    requires RevisionsOk(s) && RevisionsOk(holderAt) && RevisionsAge(holderAt, s)
    requires PlanAcquireRoot(rootAt, homeAt, holderAt, i).Planned?
    requires Commits(s, PlanAcquireRoot(rootAt, homeAt, holderAt, i).txn, at)
    requires HasAccess(s, g, a) && HasAccess(Commit(s, PlanAcquireRoot(rootAt, homeAt, holderAt, i).txn, at), g, a)
    ensures RightsIn(Commit(s, PlanAcquireRoot(rootAt, homeAt, holderAt, i).txn, at).grants[g].rights)
      == RightsIn(s.grants[g].rights)
         + if GrantKey(rootAt.roots[i.root].root, i.node, i.session) == g then RightsIn(i.rights) else {}
  {
    AcquireAddsRights(s, rootAt, homeAt, holderAt, i, at);
    GainedWithinAccess(s, Commit(s, PlanAcquireRoot(rootAt, homeAt, holderAt, i).txn, at),
                       GrantKey(rootAt.roots[i.root].root, i.node, i.session), i.rights, g, a);
  }

  /** The step adds exactly the rights of its event. */
  ghost predicate Adds(s: State, e: OwnerEvent, at: nat, g: GrantKey)
  {
    var t := Submit(s, PlanOwner(e), at);
    && g in s.grants && g in t.grants
    && RightsIn(t.grants[g].rights) == RightsIn(s.grants[g].rights) + AddedRights(s, e, at, g)
  }

  lemma AddsTo(s: State, e: OwnerEvent, at: nat, g: GrantKey, t: State)
    requires TakesEffect(s, e, at) && t == Commit(s, PlanOwner(e).txn, at) && g in s.grants && g in t.grants
    requires RightsIn(t.grants[g].rights) == RightsIn(s.grants[g].rights) + Asked(e, g)
    ensures Adds(s, e, at, g)
  {
  }

  lemma RecoverAdds(s: State, rootAt: State, grantAt: State, i: RecoverInput, at: nat, g: GrantKey, a: Access)
    requires PlanRecover(rootAt, grantAt, i).Planned? && Commits(s, PlanRecover(rootAt, grantAt, i).txn, at)
    requires HasAccess(s, g, a) && HasAccess(Commit(s, PlanRecover(rootAt, grantAt, i).txn, at), g, a)
    ensures Adds(s, Recover(rootAt, grantAt, i), at, g)
  {
    var was := rootAt.roots[i.root];
    var home := GrantKey(was.root, was.homeNode, was.homeSession);
    RecoverAddsAll(s, i.request, was.(homeSession := i.session),
                   if home in grantAt.grants then SatAdd64(grantAt.grants[home].generation, 1) else 1, at, g, a);
  }

  lemma ActivateAdds(s: State, r: State, q: string, x: RootReservation, p: string, at: nat, g: GrantKey, a: Access)
    requires PlanActivate(r, q, x, p).Planned? && Commits(s, PlanActivate(r, q, x, p).txn, at)
    requires HasAccess(s, g, a) && HasAccess(Commit(s, PlanActivate(r, q, x, p).txn, at), g, a)
    ensures Adds(s, Activate(r, q, x, p), at, g)
  {
    ActivateAddsAll(s, q, r.reservations[x.root], p, at, g, a);
  }

  lemma ReserveAdds(s: State, r: State, i: ReserveInput, at: nat, g: GrantKey)
    requires g in s.grants && PlanReserve(r, i).Planned? && Commits(s, PlanReserve(r, i).txn, at)
    ensures Adds(s, Reserve(r, i), at, g)
  {
    ReserveAddsNone(s, i, at);
  }

  lemma AbortAdds(s: State, r: State, i: AbortInput, at: nat, g: GrantKey)
    requires g in s.grants && PlanAbort(r, i).Planned? && Commits(s, PlanAbort(r, i).txn, at)
    ensures Adds(s, Abort(r, i), at, g)
  {
    AbortAddsNone(s, i.request, r.reservations[i.root], i.root, i.session, at);
  }

  lemma AcquireAdds(s: State, r: State, h: State, x: State, i: AcquireInput, at: nat, g: GrantKey, a: Access)
    requires RevisionsOk(s) && RevisionsOk(x) && RevisionsAge(x, s)
    requires PlanAcquireRoot(r, h, x, i).Planned? && Commits(s, PlanAcquireRoot(r, h, x, i).txn, at)
    requires HasAccess(s, g, a) && HasAccess(Commit(s, PlanAcquireRoot(r, h, x, i).txn, at), g, a)
    ensures Adds(s, AcquireAccess(r, h, x, i), at, g)
  {
    AcquireAddsAsked(s, r, h, x, i, at, g, a);
    AskedByAcquire(r, h, x, i, g);
    AddsTo(s, AcquireAccess(r, h, x, i), at, g, Commit(s, PlanAcquireRoot(r, h, x, i).txn, at));
  }

  lemma AskedByAcquire(r: State, h: State, x: State, i: AcquireInput, g: GrantKey)
    requires PlanAcquireRoot(r, h, x, i).Planned?
    ensures var e := AcquireAccess(r, h, x, i);
      && PlanOwner(e) == PlanAcquireRoot(r, h, x, i)
      && Asked(e, g) == if GrantKey(r.roots[i.root].root, i.node, i.session) == g then RightsIn(i.rights) else {}
  {
  }

  lemma NothingAdds(s: State, e: OwnerEvent, at: nat, g: GrantKey)
    requires g in s.grants && (PlanOwner(e).Refused? || !Commits(s, PlanOwner(e).txn, at))
    ensures Adds(s, e, at, g)
  {
  }

  /** Within one access, every step of the protocol does. */
  lemma OwnerAddsRights(s: State, e: OwnerEvent, at: nat, g: GrantKey, a: Access)
    requires RevisionsOk(s) && (e.AcquireAccess? ==> RevisionsOk(e.holderAt) && RevisionsAge(e.holderAt, s))
    requires HasAccess(s, g, a) && HasAccess(Submit(s, PlanOwner(e), at), g, a)
    ensures Adds(s, e, at, g)
  {
    if PlanOwner(e).Refused? || !Commits(s, PlanOwner(e).txn, at) {
      NothingAdds(s, e, at, g);
    } else {
      match e
      case Reserve(r, i) => ReserveAdds(s, r, i, at, g);
      case Abort(r, i) => AbortAdds(s, r, i, at, g);
      case Activate(r, q, x, p) => ActivateAdds(s, r, q, x, p, at, g, a);
      case Recover(r, x, i) => RecoverAdds(s, r, x, i, at, g, a);
      case AcquireAccess(r, h, x, i) => AcquireAdds(s, r, h, x, i, at, g, a);
    }
  }
}
