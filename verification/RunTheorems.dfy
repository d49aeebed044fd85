/**
 What holds in every run of the metadata authority.
 */
module RunTheorems {
  import opened Records
  import opened MetaStore
  import opened NamespacePlans
  import opened NamespaceEffects
  import opened NamespaceRefinement
  import opened InodeHistory
  import opened Leases
  import opened FileLayouts
  import opened Replication
  import opened FileCommits
  import opened FileHistory
  import opened FileSteps
  import opened RepairPlans
  import opened RepairSafety
  import opened RepairClaims
  import opened ReportSafety
  import opened OwnerRoots
  import opened RootSafety
  import opened RequestLog
  import opened DescendantSearch
  import opened MetaRun
  import opened RunSteps
  import opened RunFacts
  import NT = NamespaceTree

  // ---------------------------------------------------------------------- runs

  /** An event with the clock readings of its planning and of its commit. */
  datatype Step = Step(event: Event, now: nat, at: nat)

  ghost predicate Seen(h: seq<State>, k: nat, x: State)
    requires k < |h|
  {
    exists i :: 0 <= i <= k && h[i] == x
  }

  /** Step `k`: everything it read was a state of the run, and it is applied to the state it meets. */
  ghost predicate Moves(h: seq<State>, es: seq<Step>, cfg: ReplicationConfig, k: nat)
    requires k < |es| && |h| == |es| + 1
  {
    var e := es[k].event;
    && (forall j :: 0 <= j < |ReadsOf(e)| ==> Seen(h, k, ReadsOf(e)[j]))
    && Honest(e) && Headroom(h[k]) && es[k].now <= es[k].at
    && h[k + 1] == Next(h[k], e, cfg, es[k].now, es[k].at)
  }

  ghost predicate Run(h: seq<State>, es: seq<Step>, cfg: ReplicationConfig)
  {
    && |h| == |es| + 1 && h[0] == EMPTY
    && forall k {:trigger Moves(h, es, cfg, k)} :: 0 <= k < |es| ==> Moves(h, es, cfg, k)
  }

  /** Any event that read states of the run may come next, so runs of every length and kind exist. */
  lemma RunsGoOn(h: seq<State>, es: seq<Step>, cfg: ReplicationConfig, step: Step)
    requires Run(h, es, cfg) && Honest(step.event) && Headroom(h[|es|]) && step.now <= step.at
    requires forall j :: 0 <= j < |ReadsOf(step.event)| ==> ReadsOf(step.event)[j] in h
    ensures Run(h + [Next(h[|es|], step.event, cfg, step.now, step.at)], es + [step], cfg)
  {
    var h', es' := h + [Next(h[|es|], step.event, cfg, step.now, step.at)], es + [step];
    forall k | 0 <= k < |es'| ensures Moves(h', es', cfg, k) {
      if k < |es| {
        assert Moves(h, es, cfg, k);
        OldMove(h, es, h', es', cfg, k);
      } else {
        NewMove(h, es, cfg, step);
      }
    }
  }

  lemma OldMove(h: seq<State>, es: seq<Step>, h': seq<State>, es': seq<Step>, cfg: ReplicationConfig, k: nat)
    requires |h| == |es| + 1 && |h'| == |es'| + 1 && h <= h' && es <= es' && k < |es| && Moves(h, es, cfg, k)
    ensures Moves(h', es', cfg, k)
  {
    var xs := ReadsOf(es[k].event);
    forall j | 0 <= j < |xs| ensures Seen(h', k, xs[j]) { StillSeen(h, h', k, xs[j]); }
  }

  lemma NewMove(h: seq<State>, es: seq<Step>, cfg: ReplicationConfig, step: Step)
    requires |h| == |es| + 1 && Honest(step.event) && Headroom(h[|es|]) && step.now <= step.at
    requires forall j :: 0 <= j < |ReadsOf(step.event)| ==> ReadsOf(step.event)[j] in h
    ensures Moves(h + [Next(h[|es|], step.event, cfg, step.now, step.at)], es + [step], cfg, |es|)
  {
    var h' := h + [Next(h[|es|], step.event, cfg, step.now, step.at)];
    var xs := ReadsOf(step.event);
    forall j | 0 <= j < |xs| ensures Seen(h', |es|, xs[j]) { StateWasSeen(h, h', |es|, xs[j]); }
  }

  lemma StillSeen(h: seq<State>, h': seq<State>, k: nat, x: State)
    requires k < |h| && h <= h' && Seen(h, k, x)
    ensures Seen(h', k, x)
  {
    var i :| 0 <= i <= k && h[i] == x;
    assert h'[i] == x;
  }

  lemma StateWasSeen(h: seq<State>, h': seq<State>, n: nat, x: State)
    requires |h| == n + 1 && h <= h' && x in h
    ensures Seen(h', n, x)
  {
    var i :| 0 <= i < |h| && h[i] == x;
    assert h'[i] == x;
  }

  ghost predicate InvAt(h: seq<State>, cfg: ReplicationConfig, k: nat)
    requires k < |h|
  {
    Inv(h[k], cfg)
  }

  ghost predicate LaterAt(h: seq<State>, i: nat, j: nat)
    requires i < |h| && j < |h|
  {
    Later(h[i], h[j])
  }

  /** What each single step adds: claims and reservations come only from new requests. */
  ghost predicate FreshAt(h: seq<State>, k: nat)
    requires k + 1 < |h|
  {
    ClaimsFresh(h[k], h[k + 1]) && ReservationsFresh(h[k], h[k + 1])
  }

  lemma EmptyInv(s: State, cfg: ReplicationConfig)
    requires s == EMPTY
    ensures Inv(s, cfg)
  {
  }

  ghost predicate GoodUpTo(h: seq<State>, cfg: ReplicationConfig, n: nat)
    requires n < |h|
  {
    && (forall j {:trigger InvAt(h, cfg, j)} :: 0 <= j <= n ==> InvAt(h, cfg, j))
    && (forall i, j {:trigger LaterAt(h, i, j)} :: 0 <= i <= j <= n ==> LaterAt(h, i, j))
    && (forall k {:trigger FreshAt(h, k)} :: 0 <= k < n ==> FreshAt(h, k))
  }

  lemma StepReads(h: seq<State>, es: seq<Step>, cfg: ReplicationConfig, k: nat)
    requires |h| == |es| + 1 && k < |es| && GoodUpTo(h, cfg, k) && Moves(h, es, cfg, k)
    requires forall i :: 0 <= i <= k ==> Headroom(h[i])
    ensures AllRead(ReadsOf(es[k].event), h[k], cfg)
  {
    var xs := ReadsOf(es[k].event);
    forall j | 0 <= j < |xs| ensures WasRead(xs[j], h[k], cfg) {
      assert Seen(h, k, xs[j]);
      var i :| 0 <= i <= k && h[i] == xs[j];
      assert InvAt(h, cfg, i) && LaterAt(h, i, k);
    }
  }

  lemma StepExtends(h: seq<State>, es: seq<Step>, cfg: ReplicationConfig, k: nat)
    requires |h| == |es| + 1 && k < |es| && GoodUpTo(h, cfg, k) && Moves(h, es, cfg, k)
    requires forall i :: 0 <= i <= k ==> Headroom(h[i])
    ensures InvAt(h, cfg, k + 1) && LaterAt(h, k, k + 1) && LaterAt(h, k + 1, k + 1) && FreshAt(h, k)
  {
    assert InvAt(h, cfg, k);
    StepReads(h, es, cfg, k);
    EventStep(h[k], es[k].event, cfg, es[k].now, es[k].at);
    GoodStepKeeps(h[k], h[k + 1], cfg);
    LaterReflexive(h[k + 1], cfg);
  }

  lemma StartIsGood(h: seq<State>, cfg: ReplicationConfig)
    requires |h| > 0 && Inv(h[0], cfg) && Later(h[0], h[0])
    ensures GoodUpTo(h, cfg, 0)
  {
    assert InvAt(h, cfg, 0) && LaterAt(h, 0, 0);
  }

  lemma GoodExtends(h: seq<State>, cfg: ReplicationConfig, n: nat)
    requires n + 1 < |h| && GoodUpTo(h, cfg, n)
    requires InvAt(h, cfg, n + 1) && LaterAt(h, n, n + 1) && LaterAt(h, n + 1, n + 1) && FreshAt(h, n)
    ensures GoodUpTo(h, cfg, n + 1)
  {
    var m := n + 1;
    forall i | 0 <= i <= n ensures LaterAt(h, i, m) {
      assert LaterAt(h, i, n);
      LaterTransitive(h[i], h[n], h[m]);
    }
  }

  lemma RoomSoFar(h: seq<State>, es: seq<Step>, cfg: ReplicationConfig, k: nat)
    requires Run(h, es, cfg) && k < |es|
    ensures forall i :: 0 <= i <= k ==> Headroom(h[i])
  {
    forall i | 0 <= i <= k ensures Headroom(h[i]) { assert Moves(h, es, cfg, i); }
  }

  lemma RunExtends(h: seq<State>, es: seq<Step>, cfg: ReplicationConfig, k: nat)
    requires Run(h, es, cfg) && k < |es| && GoodUpTo(h, cfg, k)
    ensures GoodUpTo(h, cfg, k + 1)
  {
    RoomSoFar(h, es, cfg, k);
    assert Moves(h, es, cfg, k);
    StepExtends(h, es, cfg, k);
    GoodExtends(h, cfg, k);
  }

  lemma RunStarts(h: seq<State>, es: seq<Step>, cfg: ReplicationConfig)
    requires Run(h, es, cfg)
    ensures GoodUpTo(h, cfg, 0)
  {
    EmptyInv(h[0], cfg);
    LaterReflexive(h[0], cfg);
    StartIsGood(h, cfg);
  }

  /** Every state of every run satisfies the invariant, and later states extend earlier ones. */
  lemma {:induction false} RunIsGood(h: seq<State>, es: seq<Step>, cfg: ReplicationConfig, n: nat)
    requires Run(h, es, cfg) && n <= |es|
    ensures GoodUpTo(h, cfg, n)
  {
    if n == 0 {
      RunStarts(h, es, cfg);
    } else {
      RunIsGood(h, es, cfg, n - 1);
      RunExtends(h, es, cfg, n - 1);
    }
  }

  lemma StateIsGood(h: seq<State>, es: seq<Step>, cfg: ReplicationConfig, k: nat)
    requires Run(h, es, cfg) && k < |h|
    ensures Inv(h[k], cfg)
  {
    RunIsGood(h, es, cfg, |es|);
    assert InvAt(h, cfg, k);
  }

  lemma StatesAreLater(h: seq<State>, es: seq<Step>, cfg: ReplicationConfig, i: nat, j: nat)
    requires Run(h, es, cfg) && i <= j < |h|
    ensures Later(h[i], h[j])
  {
    RunIsGood(h, es, cfg, |es|);
    assert LaterAt(h, i, j);
  }

  lemma RunLogs(h: seq<State>, es: seq<Step>, cfg: ReplicationConfig)
    requires Run(h, es, cfg)
    ensures LogsGrow(h)
  {
    RunIsGood(h, es, cfg, |es|);
    GoodLogs(h, cfg, |es|);
  }

  lemma GoodLogs(h: seq<State>, cfg: ReplicationConfig, n: nat)
    requires |h| == n + 1 && GoodUpTo(h, cfg, n)
    ensures LogsGrow(h)
  {
    forall k | 0 <= k < |h| - 1 ensures LogAt(h, k) { assert FreshAt(h, k) && LaterAt(h, k, k + 1); }
  }

  // ------------------------------------------------------------------ namespace

  /** In every state of every run the directories form a tree and the link counts are exact. */
  lemma NamespaceIsATree(h: seq<State>, es: seq<Step>, cfg: ReplicationConfig, k: nat)
    requires Run(h, es, cfg) && k < |h|
    ensures IsTree(h[k]) && CountsLinks(h[k])
  {
    StateIsGood(h, es, cfg, k);
    InvIsTree(h[k]);
    InvCountsLinks(h[k]);
  }

  /** The reads of a rename come in order: old parent, then new parent. */
  ghost predicate InOrder(h: seq<State>, k: nat, e: TreeEvent)
    requires k < |h|
  {
    e.Rename? ==> exists i, j :: 0 <= i <= j <= k && h[i] == e.oldAt && h[j] == e.newAt
  }

  ghost predicate TreeReadsOk(e: TreeEvent, s: State)
  {
    && (forall i :: 0 <= i < |TreeReads(e)| ==> NsInv(TreeReads(e)[i]) && Ages(TreeReads(e)[i], s))
    && (e.Rename? ==> Ages(e.oldAt, e.newAt))
  }

  /**
   The plan that committed is the plan the commit-time state would have given.
   For a rename that changes nothing, which pins no parent, this holds exactly
   if the parents still allow it at commit time.
   */
  lemma TreeEventRefines(s: State, e: TreeEvent, now: nat, at: nat)
    requires TreeReadsOk(e, s) && PlanTree(e, now).Planned? && Commits(s, PlanTree(e, now).txn, at)
    ensures !IsNoop(e) ==> PlanTree(ReadingFrom(e, s), now) == PlanTree(e, now)
    ensures IsNoop(e) ==>
      (PlanTree(ReadingFrom(e, s), now) == PlanTree(e, now) <==> ParentsAllow(s, e.rename, NoopSource(e)))
  {
    match e
    case StartNamespace(_) =>
    case Add(p, req, id) =>
      assert NsInv(TreeReads(e)[0]);
      AddRefines(s, p, req, id, now, at);
    case MakeLink(p, v, req) =>
      assert NsInv(TreeReads(e)[0]) && NsInv(TreeReads(e)[1]);
      LinkRefines(s, p, v, req, now, at);
    case Unlink(p, v, req) =>
      assert NsInv(TreeReads(e)[0]) && NsInv(TreeReads(e)[1]);
      RemoveRefines(s, p, v, req, now, at);
    case Rename(o, n, v, req) =>
      assert NsInv(TreeReads(e)[0]) && NsInv(TreeReads(e)[1]) && NsInv(TreeReads(e)[2]) && Ages(TreeReads(e)[1], s);
      assert Ages(TreeReads(e)[2], s);
      if IsNoop(e) { RenameNoopRefines(s, o, n, v, req, now, at); } else { MoveRefines(s, o, n, v, req, now, at); }
  }

  lemma RenameNoopRefines(s: State, oldAt: State, newAt: State, view: State, req: RenameRequest, now: nat, at: nat)
    requires NsInv(view) && Ages(view, s) && IsNoop(Rename(oldAt, newAt, view, req))
    requires PlanRename(oldAt, newAt, view, req, now).Planned?
    requires Commits(s, PlanRename(oldAt, newAt, view, req, now).txn, at)
    ensures PlanRename(s, s, s, req, now) == PlanRename(oldAt, newAt, view, req, now)
      <==> ParentsAllow(s, req, NoopSource(Rename(oldAt, newAt, view, req)))
  {
    RenameCases(oldAt, newAt, view, req, now);
    NoopRefinesExactly(s, oldAt, newAt, view, req, NoopSource(Rename(oldAt, newAt, view, req)), now, at);
  }

  /** Optimistic refinement over runs. */
  lemma CommittedPlansAreCurrent(h: seq<State>, es: seq<Step>, cfg: ReplicationConfig, k: nat, e: TreeEvent)
    requires Run(h, es, cfg) && k < |es| && es[k].event == OnTree(e) && InOrder(h, k, e)
    requires PlanTree(e, es[k].now).Planned? && Commits(h[k], PlanTree(e, es[k].now).txn, es[k].at)
    ensures !IsNoop(e) ==> PlanTree(ReadingFrom(e, h[k]), es[k].now) == PlanTree(e, es[k].now)
    ensures IsNoop(e)
      ==> (PlanTree(ReadingFrom(e, h[k]), es[k].now) == PlanTree(e, es[k].now)
           <==> ParentsAllow(h[k], e.rename, NoopSource(e)))
  {
    TreeReadsWere(h, es, cfg, k, e);
    TreeEventRefines(h[k], e, es[k].now, es[k].at);
  }

  lemma TreeReadsWere(h: seq<State>, es: seq<Step>, cfg: ReplicationConfig, k: nat, e: TreeEvent)
    requires Run(h, es, cfg) && k < |es| && es[k].event == OnTree(e) && InOrder(h, k, e)
    ensures TreeReadsOk(e, h[k])
  {
    StepSaw(h, es, cfg, k, e);
    RunIsGood(h, es, cfg, |es|);
    SeenAreOk(h, cfg, |es|, k, e);
  }

  lemma StepSaw(h: seq<State>, es: seq<Step>, cfg: ReplicationConfig, k: nat, e: TreeEvent)
    requires Run(h, es, cfg) && k < |es| && es[k].event == OnTree(e)
    ensures forall j :: 0 <= j < |TreeReads(e)| ==> Seen(h, k, TreeReads(e)[j])
  {
    assert Moves(h, es, cfg, k);
    assert ReadsOf(es[k].event) == TreeReads(e);
  }

  lemma SeenAreOk(h: seq<State>, cfg: ReplicationConfig, n: nat, k: nat, e: TreeEvent)
    requires n < |h| && k <= n && GoodUpTo(h, cfg, n) && InOrder(h, k, e)
    requires forall j :: 0 <= j < |TreeReads(e)| ==> Seen(h, k, TreeReads(e)[j])
    ensures TreeReadsOk(e, h[k])
  {
    forall j | 0 <= j < |TreeReads(e)| ensures NsInv(TreeReads(e)[j]) && Ages(TreeReads(e)[j], h[k]) {
      assert Seen(h, k, TreeReads(e)[j]);
      var i :| 0 <= i <= k && h[i] == TreeReads(e)[j];
      assert InvAt(h, cfg, i) && LaterAt(h, i, k);
    }
    if e.Rename? {
      var i, j :| 0 <= i <= j <= k && h[i] == e.oldAt && h[j] == e.newAt;
      assert LaterAt(h, i, j);
    }
  }

  /** The rename found its new parent and its source, so that the searches are made. */
  ghost predicate Searches(e: TreeEvent)
  {
    && e.Rename? && DirectoryForMutation(e.newAt, e.rename.ns, e.rename.newParent).Ok?
    && OldKey(e.rename) in e.view.dentries
  }

  lemma SearchableFrom(h: seq<State>, cfg: ReplicationConfig, n: nat, k: nat, e: TreeEvent)
    requires n < |h| && k <= n && GoodUpTo(h, cfg, n) && Searches(e)
    requires forall j :: 0 <= j < |TreeReads(e)| ==> Seen(h, k, TreeReads(e)[j])
    ensures Searchable(e.view, e.rename.ns, e.rename.newParent) && Searchable(h[k], e.rename.ns, e.rename.newParent)
  {
    assert Seen(h, k, TreeReads(e)[1]) && Seen(h, k, TreeReads(e)[2]);
    var i :| 0 <= i <= k && h[i] == e.newAt;
    var j :| 0 <= j <= k && h[j] == e.view;
    assert InvAt(h, cfg, j) && InvAt(h, cfg, k) && LaterAt(h, i, k);
    EntryFixesNamespace(e.view, OldKey(e.rename));
    InodeFixesNamespace(e.newAt, h[k], e.rename.newParent);
    if i <= j { assert LaterAt(h, i, j); } else { assert LaterAt(h, j, i); }
    ParentIsSearchable(e.newAt, e.view, e.rename.ns, e.rename.newParent);
    ParentIsSearchable(e.newAt, h[k], e.rename.ns, e.rename.newParent);
  }

  /** Where a rename searches, in the view and at commit, every answer of either search is the right one. */
  lemma RenamesAreSearchable(h: seq<State>, es: seq<Step>, cfg: ReplicationConfig, k: nat, e: TreeEvent)
    requires Run(h, es, cfg) && k < |es| && es[k].event == OnTree(e) && Searches(e)
    ensures Searchable(e.view, e.rename.ns, e.rename.newParent) && Searchable(h[k], e.rename.ns, e.rename.newParent)
  {
    StepSaw(h, es, cfg, k, e);
    RunIsGood(h, es, cfg, |es|);
    SearchableFrom(h, cfg, |es|, k, e);
  }

  /** Any answers the two searches may give, in the view and in the store, are what plan and condition take them for. */
  ghost predicate SearchesAgree(view: State, s: State, ns: NamespaceId, parent: InodeId, at: nat)
  {
    forall a, below, first ::
      && (Decides(view.dentries, ns, a, parent, below, first) ==>
            (below <==> NT.AncestorOrSame(view.dentries, a, parent)))
      && (Decides(s.dentries, ns, a, parent, below, first) ==> (Holds(s, NotDescendant(ns, a, parent), at) <==> !below))
  }

  lemma SearchableAgrees(view: State, s: State, ns: NamespaceId, parent: InodeId, at: nat)
    requires Searchable(view, ns, parent) && Searchable(s, ns, parent)
    ensures SearchesAgree(view, s, ns, parent, at)
  {
    forall a, below, first | Decides(view.dentries, ns, a, parent, below, first)
      ensures below <==> NT.AncestorOrSame(view.dentries, a, parent)
    {
      SearchIsExact(view, ns, a, parent, below, first);
    }
    forall a, below, first | Decides(s.dentries, ns, a, parent, below, first)
      ensures Holds(s, NotDescendant(ns, a, parent), at) <==> !below
    {
      SearchIsExact(s, ns, a, parent, below, first);
    }
  }

  /** In every run the searches for a rename answer what its plan and its condition take them for. */
  lemma SearchesDecideRenames(h: seq<State>, es: seq<Step>, cfg: ReplicationConfig, k: nat, e: TreeEvent)
    requires Run(h, es, cfg) && k < |es| && es[k].event == OnTree(e) && Searches(e)
    ensures SearchesAgree(e.view, h[k], e.rename.ns, e.rename.newParent, es[k].at)
  {
    RenamesAreSearchable(h, es, cfg, k, e);
    SearchableAgrees(e.view, h[k], e.rename.ns, e.rename.newParent, es[k].at);
  }

  // --------------------------------------------------------------------- leases

  /** One owner per epoch, epochs never fall, and expiry never falls within an epoch. */
  lemma LeasesAreFencedByEpoch(h: seq<State>, es: seq<Step>, cfg: ReplicationConfig, i: nat, j: nat, x: InodeId)
    requires Run(h, es, cfg) && i <= j < |h| && x in h[i].leases
    ensures x in h[j].leases && h[i].leases[x].epoch <= h[j].leases[x].epoch
    ensures h[i].leases[x].epoch == h[j].leases[x].epoch ==>
      && Owns(h[j].leases[x], h[i].leases[x].node, h[i].leases[x].session)
      && h[i].leases[x].expires <= h[j].leases[x].expires
  {
    StatesAreLater(h, es, cfg, i, j);
    assert LeaseGrows(h[i], h[j], x);
  }

  /** A version commit that presents a superseded epoch never takes effect, whenever it was planned. */
  lemma SupersededCommitFails(h: seq<State>, es: seq<Step>, cfg: ReplicationConfig, i: nat, k: nat, from: CommitReads,
                              req: CommitRequest)
    requires Run(h, es, cfg) && i <= k < |es| && es[k].event == OnFiles(CommitVersion(from, req))
    requires req.inode in h[i].leases && h[i].leases[req.inode].epoch > req.lease.epoch
    requires PlanCommit(from, req, cfg, es[k].now).Planned?
    ensures !Commits(h[k], PlanCommit(from, req, cfg, es[k].now).txn, es[k].at)
  {
    LeasesAreFencedByEpoch(h, es, cfg, i, k, req.inode);
    if Commits(h[k], PlanCommit(from, req, cfg, es[k].now).txn, es[k].at) {
      CommitIsFenced(h[k], from, req, cfg, es[k].now, es[k].at);
    }
  }

  lemma SupersededSyncFails(h: seq<State>, es: seq<Step>, cfg: ReplicationConfig, i: nat, k: nat,
                            inodeAt: State, leaseAt: State, req: SyncRequest)
    requires Run(h, es, cfg) && i <= k < |es| && es[k].event == OnFiles(SyncMetadata(inodeAt, leaseAt, req))
    requires req.inode in h[i].leases && h[i].leases[req.inode].epoch > req.lease.epoch
    requires PlanSync(inodeAt, leaseAt, req, es[k].now).Planned?
    ensures !Commits(h[k], PlanSync(inodeAt, leaseAt, req, es[k].now).txn, es[k].at)
  {
    LeasesAreFencedByEpoch(h, es, cfg, i, k, req.inode);
    if Commits(h[k], PlanSync(inodeAt, leaseAt, req, es[k].now).txn, es[k].at) {
      SyncIsFenced(h[k], inodeAt, leaseAt, req, es[k].now, es[k].at);
    }
  }

  // ---------------------------------------------------------------------- files

  /** Following parents from the head visits exactly the versions of the inode, newest first, and then ends. */
  lemma HistoryIsLinear(h: seq<State>, es: seq<Step>, cfg: ReplicationConfig, k: nat, x: InodeId)
    returns (hist: seq<FileVersionId>)
    requires Run(h, es, cfg) && k < |h| && x in h[k].inodes
    ensures forall v :: v in h[k].versions && h[k].versions[v].inode == x <==> v in hist
    ensures forall n :: 0 <= n <= |hist| ==>
      StepsBack(h[k].versions, h[k].inodes[x].head, n) == Last(hist[..|hist| - n])
    ensures IsHistory(h[k].versions, x, h[k].inodes[x].head, hist)
  {
    StateIsGood(h, es, cfg, k);
    hist := HistoryFound(h[k], x);
    HistoryMeans(h[k], x, hist);
  }

  lemma HistoryMeans(s: State, x: InodeId, hist: seq<FileVersionId>)
    requires x in s.inodes && IsHistory(s.versions, x, s.inodes[x].head, hist)
    ensures forall v :: v in s.versions && s.versions[v].inode == x <==> v in hist
    ensures forall n :: 0 <= n <= |hist| ==> StepsBack(s.versions, s.inodes[x].head, n) == Last(hist[..|hist| - n])
  {
    forall v | v in hist ensures v in s.versions && s.versions[v].inode == x {
      var a :| 0 <= a < |hist| && hist[a] == v;
      assert Linked(s.versions, x, hist, a);
    }
    forall n | 0 <= n <= |hist| ensures StepsBack(s.versions, s.inodes[x].head, n) == Last(hist[..|hist| - n]) {
      HeadReachesAll(s, x, hist, n);
    }
  }

  /**
   Inodes, versions and layouts are never lost, the latter two never change, and a revision fixes
   the inode record.
   */
  lemma FilesAreImmutable(h: seq<State>, es: seq<Step>, cfg: ReplicationConfig, i: nat, j: nat)
    requires Run(h, es, cfg) && i <= j < |h|
    ensures forall v :: v in h[i].versions ==> v in h[j].versions && h[j].versions[v] == h[i].versions[v]
    ensures forall l :: l in h[i].layouts ==> l in h[j].layouts && h[j].layouts[l] == h[i].layouts[l]
    ensures forall x :: x in h[i].inodes ==>
      x in h[j].inodes && (h[i].inodes[x] == h[j].inodes[x] || h[i].inodes[x].revision < h[j].inodes[x].revision)
  {
    StatesAreLater(h, es, cfg, i, j);
    forall x | x in h[i].inodes
      ensures x in h[j].inodes
      ensures (h[i].inodes[x] == h[j].inodes[x] || h[i].inodes[x].revision < h[j].inodes[x].revision) {
      assert Aged(h[i], h[j], x);
    }
  }

  /** Histories only grow, at the end. */
  lemma HistoriesGrow(h: seq<State>, es: seq<Step>, cfg: ReplicationConfig, i: nat, j: nat, x: InodeId,
                      hi: seq<FileVersionId>, hj: seq<FileVersionId>)
    requires Run(h, es, cfg) && i <= j < |h| && x in h[i].inodes && x in h[j].inodes
    requires IsHistory(h[i].versions, x, h[i].inodes[x].head, hi)
    requires IsHistory(h[j].versions, x, h[j].inodes[x].head, hj)
    ensures hi <= hj
  {
    StatesAreLater(h, es, cfg, i, j);
    HistoryGrows(h[i], h[j], x, hi, hj);
  }

  /** Every extent of every stored layout lies in a recorded chunk that is placed on enough distinct nodes. */
  lemma StoredLayoutsAreBacked(h: seq<State>, es: seq<Step>, cfg: ReplicationConfig, k: nat, l: LayoutRootId, i: nat)
    requires Run(h, es, cfg) && k < |h| && l in h[k].layouts && i < |h[k].layouts[l].extents|
    ensures Shaped(h[k].layouts[l].extents, h[k].layouts[l].fileLength)
    ensures var c := h[k].layouts[l].extents[i].chunk;
      && c in h[k].chunks && h[k].chunks[c].id == c && ChunkEnd(h[k].layouts[l].extents[i]) <= h[k].chunks[c].length
      && c in h[k].placements && |Nodes(h[k].placements[c].copies)| >= cfg.sync
  {
    StateIsGood(h, es, cfg, k);
    ExtentIsBacked(h[k], cfg, l, i);
  }

  /** The read intervals of a stored layout and a recorded chunk are always computed. */
  lemma StoredLayoutsAreReadable(h: seq<State>, es: seq<Step>, cfg: ReplicationConfig, k: nat, l: LayoutRootId,
                                 c: ChunkId)
    requires Run(h, es, cfg) && k < |h| && l in h[k].layouts && c in h[k].chunks
    ensures forall i :: 0 <= i < |h[k].layouts[l].extents| ==>
      !ReadRanges.Exceeds(h[k].layouts[l], h[k].chunks[c], h[k].layouts[l].extents[i])
  {
    StateIsGood(h, es, cfg, k);
    IntervalsNeverFail(h[k], cfg, l, c);
  }

  // --------------------------------------------------------------------- repair

  /** A Satisfied placement has its copies; any other placement has an open task. */
  lemma RepairDebtIsKept(h: seq<State>, es: seq<Step>, cfg: ReplicationConfig, k: nat, c: ChunkId)
    requires Run(h, es, cfg) && k < |h| && c in h[k].placements
    ensures var s := h[k]; var p := s.placements[c];
      && (forall i :: 0 <= i < |p.copies| ==>
            p.copies[i] in s.copies && Matches(s.copies[p.copies[i]], c) && s.copies[p.copies[i]].location.OnNode?
            && s.copies[p.copies[i]].location.node == p.copies[i].node)
      && (p.health == Satisfied ==> |ReadyNodes(s.copies, p.copies)| >= p.desired == cfg.desired)
      && (p.health != Satisfied ==> RepairTask(c) in s.tasks && s.tasks[RepairTask(c)].state != Completed)
  {
    StateIsGood(h, es, cfg, k);
    PlacementIsAccounted(h[k], cfg, c);
  }

  /** A claim that has gone never comes back. */
  lemma ClaimsHaveNoAba(h: seq<State>, es: seq<Step>, cfg: ReplicationConfig, i: nat, j: nat, k: nat, id: TaskId,
                        c: ReplicationClaim)
    requires Run(h, es, cfg) && i <= j <= k < |h| && Claims(h[i], id, c) && !Claims(h[j], id, c)
    ensures !Claims(h[k], id, c)
  {
    StateIsGood(h, es, cfg, i);
    RunLogs(h, es, cfg);
    KeyStays(h, i, j, ClaimKey(c));
    ClaimStaysGone(h, j, k, id, c);
  }

  // ---------------------------------------------------------------- owner roots

  /** Never both reserved and active; an active root keeps its home node and epoch. */
  lemma RootsAreExclusive(h: seq<State>, es: seq<Step>, cfg: ReplicationConfig, i: nat, j: nat, r: string)
    requires Run(h, es, cfg) && i <= j < |h| && r in h[i].roots
    ensures r !in h[i].reservations
    ensures r in h[j].roots && h[j].roots[r].homeNode == h[i].roots[r].homeNode
    ensures h[j].roots[r].epoch == h[i].roots[r].epoch
  {
    StateIsGood(h, es, cfg, i);
    StatesAreLater(h, es, cfg, i, j);
    assert RootOk(h[i], r) && RootStays(h[i], h[j], r);
  }

  /** A reservation that was activated or aborted never comes back, so it is consumed at most once. */
  lemma ReservationsAreConsumedOnce(h: seq<State>, es: seq<Step>, cfg: ReplicationConfig, i: nat, j: nat, k: nat,
                                    r: RootReservation)
    requires Run(h, es, cfg) && i <= j <= k < |h| && Reserves(h[i], r) && !Reserves(h[j], r)
    ensures !Reserves(h[k], r)
  {
    StateIsGood(h, es, cfg, i);
    RunLogs(h, es, cfg);
    ReservationIsGone(h, i, j, k, r);
  }

  lemma ReservationIsGone(h: seq<State>, i: nat, j: nat, k: nat, r: RootReservation)
    requires LogsGrow(h) && i <= j <= k < |h| && RootsOk(h[i]) && Reserves(h[i], r) && !Reserves(h[j], r)
    ensures !Reserves(h[k], r)
  {
    assert ReservationOk(h[i], r.root);
    var request :| Logged(h[i], r, request);
    KeyStays(h, i, j, CallerKey(r.homeNode, r.homeSession, request));
    ReservationStaysGone(h, j, k, r, request);
  }

  /** The rights one step committed for a holder. */
  ghost function StepAdds(h: seq<State>, es: seq<Step>, k: nat, g: GrantKey): set<RootRight>
    requires k < |es| <= |h|
  {
    if es[k].event.OnRoots? then AddedRights(h[k], es[k].event.owner, es[k].at, g) else {}
  }

  /** The union of some of the sets in a row. */
  ghost function UnionOf(sets: seq<set<RootRight>>, i: nat, j: nat): set<RootRight>
    requires i <= j <= |sets|
    decreases j - i
  {
    if i == j then {} else UnionOf(sets, i, j - 1) + sets[j - 1]
  }

  ghost function AllAdds(h: seq<State>, es: seq<Step>, g: GrantKey): (adds: seq<set<RootRight>>)
    requires |es| <= |h|
    ensures |adds| == |es| && forall k :: 0 <= k < |es| ==> adds[k] == StepAdds(h, es, k, g)
  {
    seq(|es|, k requires 0 <= k < |es| => StepAdds(h, es, k, g))
  }

  /** The rights committed for a holder between two states of the run. */
  ghost function Gained(h: seq<State>, es: seq<Step>, i: nat, j: nat, g: GrantKey): set<RootRight>
    requires i <= j <= |es| <= |h|
  {
    UnionOf(AllAdds(h, es, g), i, j)
  }

  /** Facts about one step that the accumulation of rights needs. */
  ghost predicate RightsStep(h: seq<State>, es: seq<Step>, k: nat, g: GrantKey, a: Access)
    requires k < |es| && |h| == |es| + 1
  {
    HasAccess(h[k], g, a) && HasAccess(h[k + 1], g, a) ==>
      RightsAt(h[k + 1], g, a) == RightsAt(h[k], g, a) + StepAdds(h, es, k, g)
  }

  lemma OwnerStepFacts(h: seq<State>, es: seq<Step>, cfg: ReplicationConfig, k: nat, e: OwnerEvent)
    requires Run(h, es, cfg) && k < |es| && es[k].event == OnRoots(e)
    ensures h[k + 1] == Submit(h[k], PlanOwner(e), es[k].at)
    ensures forall j :: 0 <= j < |OwnerReads(e)| ==> Seen(h, k, OwnerReads(e)[j])
  {
    assert Moves(h, es, cfg, k);
    assert ReadsOf(es[k].event) == OwnerReads(e);
  }

  lemma SeenRevisions(h: seq<State>, cfg: ReplicationConfig, n: nat, k: nat, x: State)
    requires n < |h| && k <= n && GoodUpTo(h, cfg, n) && Seen(h, k, x)
    ensures RevisionsOk(x) && RevisionsAge(x, h[k]) && RevisionsOk(h[k])
  {
    var i :| 0 <= i <= k && h[i] == x;
    assert InvAt(h, cfg, i) && LaterAt(h, i, k) && InvAt(h, cfg, k);
  }

  lemma OwnerStepRights(h: seq<State>, es: seq<Step>, cfg: ReplicationConfig, k: nat, e: OwnerEvent, g: GrantKey,
                        a: Access)
    requires Run(h, es, cfg) && k < |es| && es[k].event == OnRoots(e)
    requires HasAccess(h[k], g, a) && HasAccess(h[k + 1], g, a)
    ensures Adds(h[k], e, es[k].at, g) && h[k + 1] == Submit(h[k], PlanOwner(e), es[k].at)
  {
    OwnerStepFacts(h, es, cfg, k, e);
    RunIsGood(h, es, cfg, |es|);
    OwnerRightsFrom(h, cfg, |es|, k, e, es[k].at, g, a);
  }

  lemma OwnerRightsFrom(h: seq<State>, cfg: ReplicationConfig, n: nat, k: nat, e: OwnerEvent, at: nat, g: GrantKey,
                        a: Access)
    requires n + 1 == |h| && k < n && GoodUpTo(h, cfg, n) && h[k + 1] == Submit(h[k], PlanOwner(e), at)
    requires forall j :: 0 <= j < |OwnerReads(e)| ==> Seen(h, k, OwnerReads(e)[j])
    requires HasAccess(h[k], g, a) && HasAccess(h[k + 1], g, a)
    ensures Adds(h[k], e, at, g)
  {
    assert InvAt(h, cfg, k);
    if e.AcquireAccess? {
      assert Seen(h, k, OwnerReads(e)[2]);
      SeenRevisions(h, cfg, n, k, e.holderAt);
    }
    OwnerAddsRights(h[k], e, at, g, a);
  }

  /** Events outside the owner-root protocol leave every grant alone. */
  lemma OtherStepsKeepGrants(h: seq<State>, es: seq<Step>, cfg: ReplicationConfig, k: nat)
    requires Run(h, es, cfg) && k < |es| && !es[k].event.OnRoots?
    ensures h[k + 1].grants == h[k].grants
  {
    RunIsGood(h, es, cfg, k);
    RoomSoFar(h, es, cfg, k);
    assert Moves(h, es, cfg, k);
    StepGrants(h, es, cfg, k);
  }

  lemma StepGrants(h: seq<State>, es: seq<Step>, cfg: ReplicationConfig, k: nat)
    requires |h| == |es| + 1 && k < |es| && GoodUpTo(h, cfg, k) && Moves(h, es, cfg, k) && !es[k].event.OnRoots?
    requires forall i :: 0 <= i <= k ==> Headroom(h[i])
    ensures h[k + 1].grants == h[k].grants
  {
    assert InvAt(h, cfg, k);
    StepReads(h, es, cfg, k);
    EventStep(h[k], es[k].event, cfg, es[k].now, es[k].at);
  }

  lemma RightsStepHolds(h: seq<State>, es: seq<Step>, cfg: ReplicationConfig, k: nat, g: GrantKey, a: Access)
    requires Run(h, es, cfg) && k < |es|
    ensures RightsStep(h, es, k, g, a)
  {
    if es[k].event.OnRoots? {
      if HasAccess(h[k], g, a) && HasAccess(h[k + 1], g, a) {
        OwnerStepRights(h, es, cfg, k, es[k].event.owner, g, a);
      }
    } else {
      OtherStepsKeepGrants(h, es, cfg, k);
    }
  }

  lemma {:induction false} SumOfAdds(rights: seq<set<RootRight>>, adds: seq<set<RootRight>>, i: nat, j: nat)
    requires i <= j <= |adds| < |rights| && forall k :: i <= k < j ==> rights[k + 1] == rights[k] + adds[k]
    ensures rights[j] == rights[i] + UnionOf(adds, i, j)
  {
    if i < j { SumOfAdds(rights, adds, i, j - 1); }
  }

  ghost function AllRights(h: seq<State>, g: GrantKey, a: Access): (rights: seq<set<RootRight>>)
    ensures |rights| == |h| && forall k :: 0 <= k < |h| ==> rights[k] == RightsAt(h[k], g, a)
  {
    seq(|h|, k requires 0 <= k < |h| => RightsAt(h[k], g, a))
  }

  lemma RightsSum(h: seq<State>, es: seq<Step>, i: nat, j: nat, g: GrantKey, a: Access)
    requires |h| == |es| + 1 && i <= j <= |es|
    requires forall k {:trigger RightsStep(h, es, k, g, a)} :: i <= k < j ==> RightsStep(h, es, k, g, a)
    requires forall k :: i <= k <= j ==> HasAccess(h[k], g, a)
    ensures RightsAt(h[j], g, a) == RightsAt(h[i], g, a) + Gained(h, es, i, j, g)
  {
    var rights, adds := AllRights(h, g, a), AllAdds(h, es, g);
    forall k | i <= k < j ensures rights[k + 1] == rights[k] + adds[k] { assert RightsStep(h, es, k, g, a); }
    SumOfAdds(rights, adds, i, j);
  }

  /**
   While a holder's access (epoch, home session and generation) stays the same,
   racing acquisitions end with the union of all rights committed for it.
   */
  lemma RightsAccumulate(h: seq<State>, es: seq<Step>, cfg: ReplicationConfig, i: nat, j: nat, g: GrantKey, a: Access)
    requires Run(h, es, cfg) && i <= j <= |es| && forall k :: i <= k <= j ==> HasAccess(h[k], g, a)
    ensures RightsAt(h[j], g, a) == RightsAt(h[i], g, a) + Gained(h, es, i, j, g)
  {
    forall k | i <= k < j ensures RightsStep(h, es, k, g, a) { RightsStepHolds(h, es, cfg, k, g, a); }
    RightsSum(h, es, i, j, g, a);
  }

  // --------------------------------------------------------------- repair claims

  lemma RepairStepFacts(h: seq<State>, es: seq<Step>, cfg: ReplicationConfig, k: nat, e: RepairEvent)
    requires Run(h, es, cfg) && k < |es| && es[k].event == OnRepair(e)
    ensures h[k + 1] == Submit(h[k], PlanRepair(e, cfg, es[k].now), es[k].at) && es[k].now <= es[k].at
    ensures forall j :: 0 <= j < |RepairReads(e)| ==> Seen(h, k, RepairReads(e)[j])
  {
    assert Moves(h, es, cfg, k);
    assert ReadsOf(es[k].event) == RepairReads(e);
  }

  lemma SeenStock(h: seq<State>, cfg: ReplicationConfig, n: nat, k: nat, x: State)
    requires n < |h| && k <= n && GoodUpTo(h, cfg, n) && Seen(h, k, x)
    ensures StockOk(StockOf(x), cfg)
  {
    var i :| 0 <= i <= k && h[i] == x;
    assert InvAt(h, cfg, i);
  }

  lemma LiveClaimFrom(h: seq<State>, cfg: ReplicationConfig, n: nat, k: nat, from: ClaimReads, w: Worker, seconds: nat,
                      now: nat, at: nat,
                      id: TaskId, c: ReplicationClaim)
    requires n + 1 == |h| && k < n && GoodUpTo(h, cfg, n) && now <= at
    requires h[k + 1] == Submit(h[k], PlanClaim(from, w, cfg, seconds, now), at)
    requires forall j :: 0 <= j < 10 ==> Seen(h, k, RepairReads(ClaimRepair(from, w, seconds))[j])
    requires Claims(h[k], id, c) && c.expires > at && c.worker in h[k].current && Backs(h[k].current[c.worker], c, at)
    ensures Claims(h[k + 1], id, c)
  {
    ClaimSeen(h, cfg, n, k, from, w, seconds);
    if PlanClaim(from, w, cfg, seconds, now).Planned? {
      LiveClaimIsKept(h[k], from, w, cfg, seconds, now, at, id, c);
    }
  }

  lemma ClaimSeen(h: seq<State>, cfg: ReplicationConfig, n: nat, k: nat, from: ClaimReads, w: Worker, seconds: nat)
    requires n < |h| && k <= n && GoodUpTo(h, cfg, n)
    requires forall j :: 0 <= j < 10 ==> Seen(h, k, RepairReads(ClaimRepair(from, w, seconds))[j])
    ensures ClaimReadsOk(from, cfg) && StockOk(StockOf(from.taskAt), cfg) && StockOk(StockOf(h[k]), cfg)
    ensures RevisionsOk(from.workerAt) && RevisionsAge(from.workerAt, h[k])
  {
    var xs := RepairReads(ClaimRepair(from, w, seconds));
    SeenRevisions(h, cfg, n, k, xs[4]);
    SeenStocks(h, cfg, n, k, xs);
    ClaimStocks(from, w, seconds, cfg, xs);
    assert Seen(h, k, h[k]);
    SeenStock(h, cfg, n, k, h[k]);
  }

  lemma ClaimStocks(from: ClaimReads, w: Worker, seconds: nat, cfg: ReplicationConfig, xs: seq<State>)
    requires xs == RepairReads(ClaimRepair(from, w, seconds)) && forall j :: 0 <= j < |xs| ==>
      StockOk(StockOf(xs[j]), cfg)
    ensures ClaimReadsOk(from, cfg) && StockOk(StockOf(from.taskAt), cfg)
  {
    assert StockOk(StockOf(xs[2]), cfg) && StockOk(StockOf(xs[3]), cfg) && StockOk(StockOf(xs[5]), cfg);
    assert StockOk(StockOf(xs[6]), cfg) && StockOk(StockOf(xs[9]), cfg);
  }

  lemma SeenStocks(h: seq<State>, cfg: ReplicationConfig, n: nat, k: nat, xs: seq<State>)
    requires n < |h| && k <= n && GoodUpTo(h, cfg, n) && forall j :: 0 <= j < |xs| ==> Seen(h, k, xs[j])
    ensures forall j :: 0 <= j < |xs| ==> StockOk(StockOf(xs[j]), cfg)
  {
    forall j | 0 <= j < |xs| ensures StockOk(StockOf(xs[j]), cfg) { SeenStock(h, cfg, n, k, xs[j]); }
  }

  /** No claim request replaces an unexpired claim whose worker is current and live. */
  lemma ClaimRequestsKeepLiveClaims(h: seq<State>, es: seq<Step>, cfg: ReplicationConfig, k: nat, from: ClaimReads,
                                    w: Worker, seconds: nat, id: TaskId, c: ReplicationClaim)
    requires Run(h, es, cfg) && k < |es| && es[k].event == OnRepair(ClaimRepair(from, w, seconds))
    requires Claims(h[k], id, c) && c.expires > es[k].at && c.worker in h[k].current
    requires Backs(h[k].current[c.worker], c, es[k].at)
    ensures Claims(h[k + 1], id, c)
  {
    RepairStepFacts(h, es, cfg, k, ClaimRepair(from, w, seconds));
    RunIsGood(h, es, cfg, |es|);
    LiveClaimFrom(h, cfg, |es|, k, from, w, seconds, es[k].now, es[k].at, id, c);
  }

  lemma ReportFrom(h: seq<State>, cfg: ReplicationConfig, n: nat, k: nat, from: ReportReads, w: Worker,
                   claim: ReplicationClaim,
                   report: Report, now: nat, at: nat)
    requires n + 1 == |h| && k < n && GoodUpTo(h, cfg, n)
    requires forall j :: 0 <= j < 6 ==> Seen(h, k, RepairReads(ReportRepair(from, w, claim, report))[j])
    requires PlanReport(from, w, claim, report, cfg, now).Planned?
    requires Commits(h[k], PlanReport(from, w, claim, report, cfg, now).txn, at)
    ensures Claims(h[k], claim.task, claim) && h[k].tasks[claim.task].state == Running
  {
    var xs := RepairReads(ReportRepair(from, w, claim, report));
    SeenStock(h, cfg, n, k, xs[1]);
    SeenStock(h, cfg, n, k, xs[2]);
    SeenStock(h, cfg, n, k, xs[4]);
    ReportNeedsItsClaim(h[k], from, w, claim, report, cfg, now, at);
  }

  /** A report takes effect only while its exact claim is running; a superseded worker cannot finish a task. */
  lemma ReportsNeedTheirClaim(h: seq<State>, es: seq<Step>, cfg: ReplicationConfig, k: nat, from: ReportReads,
                              w: Worker,
                              claim: ReplicationClaim, report: Report)
    requires Run(h, es, cfg) && k < |es| && es[k].event == OnRepair(ReportRepair(from, w, claim, report))
    requires PlanReport(from, w, claim, report, cfg, es[k].now).Planned?
    requires Commits(h[k], PlanReport(from, w, claim, report, cfg, es[k].now).txn, es[k].at)
    ensures Claims(h[k], claim.task, claim) && h[k].tasks[claim.task].state == Running
  {
    RepairStepFacts(h, es, cfg, k, ReportRepair(from, w, claim, report));
    RunIsGood(h, es, cfg, |es|);
    ReportFrom(h, cfg, |es|, k, from, w, claim, report, es[k].now, es[k].at);
  }

  // --------------------------------------------------------------- exactly once

  lemma SecondUseIsIdle(h: seq<State>, i: nat, j: nat, a: MetaTxn, b: MetaTxn, at: nat, bt: nat)
    requires LogsGrow(h) && i < j < |h| && a.request == b.request && Commits(h[i], a, at)
    requires h[i + 1] == Commit(h[i], a, at)
    ensures Commit(h[j], b, bt) == h[j]
  {
    CommitRecords(h[i], a, at);
    KeyStays(h, i + 1, j, a.request);
  }

  /** Of all the events that use one request key, at most one changes the state. */
  lemma RequestsTakeEffectOnce(h: seq<State>, es: seq<Step>, cfg: ReplicationConfig, i: nat, j: nat, a: MetaTxn,
                               b: MetaTxn)
    requires Run(h, es, cfg) && i < j < |es| && a.request == b.request
    requires PlanOf(es[i].event, cfg, es[i].now) == Planned(a) && PlanOf(es[j].event, cfg, es[j].now) == Planned(b)
    requires Commits(h[i], a, es[i].at)
    ensures h[j + 1] == h[j]
  {
    StepCommits(h, es, cfg, i, a);
    StepCommits(h, es, cfg, j, b);
    RunLogs(h, es, cfg);
    SecondUseIsIdle(h, i, j, a, b, es[i].at, es[j].at);
  }

  lemma StepCommits(h: seq<State>, es: seq<Step>, cfg: ReplicationConfig, k: nat, txn: MetaTxn)
    requires Run(h, es, cfg) && k < |es| && PlanOf(es[k].event, cfg, es[k].now) == Planned(txn)
    ensures h[k + 1] == Commit(h[k], txn, es[k].at)
  {
    assert Moves(h, es, cfg, k);
  }

  lemma LogsGrowBetween(h: seq<State>, es: seq<Step>, cfg: ReplicationConfig, i: nat, j: nat)
    requires Run(h, es, cfg) && i <= j < |h|
    ensures LogGrows(h[i], h[j])
  {
    StatesAreLater(h, es, cfg, i, j);
  }

  /** The identical request is answered as the first time; any other request under its key is an error. */
  ghost predicate AnsweredAlike(s: State, a: MetaTxn, at: nat, digest: Digest, result: OperationResult,
                                later: State, b: MetaTxn, retryDigest: Digest, bt: nat)
  {
    && Reply(s, a, digest, at) == Ok(Inner(result))
    && Reply(later, b, retryDigest, bt)
       == if b.operation == a.operation && retryDigest == digest then Ok(Inner(result)) else Err(Invalid)
  }

  /** A digest-bound request took effect on the way from `s` to `t`. */
  ghost predicate TookEffect(s: State, t: State, a: MetaTxn, at: nat, digest: Digest, result: OperationResult)
  {
    && Commits(s, a, at) && t == Commit(s, a, at)
    && Plain(a, RequestOutcome(a.request, a.operation, result)) && BoundTo(result, a.operation, digest)
  }

  lemma AnsweredFrom(s: State, t: State, later: State, a: MetaTxn, at: nat, digest: Digest, result: OperationResult,
                     b: MetaTxn, retryDigest: Digest, bt: nat)
    requires TookEffect(s, t, a, at, digest, result) && LogGrows(t, later) && a.request == b.request && IsValidTxn(b)
    ensures AnsweredAlike(s, a, at, digest, result, later, b, retryDigest, bt)
  {
    ExactlyOnce(s, a, at, digest, result, later, b, retryDigest, bt);
  }

  /** Whatever request took effect from `s` to `t`, `later` answers every use of its key accordingly. */
  ghost predicate AnswersRetries(s: State, t: State, later: State)
  {
    forall a, at: nat, digest, result, b: MetaTxn, retryDigest, bt: nat
      {:trigger TookEffect(s, t, a, at, digest, result),
       AnsweredAlike(s, a, at, digest, result, later, b, retryDigest, bt)} ::
      TookEffect(s, t, a, at, digest, result) && a.request == b.request && IsValidTxn(b)
      ==> AnsweredAlike(s, a, at, digest, result, later, b, retryDigest, bt)
  }

  lemma LogAnswersRetries(s: State, t: State, later: State)
    requires LogGrows(t, later)
    ensures AnswersRetries(s, t, later)
  {
    forall a, at: nat, digest, result, b: MetaTxn, retryDigest, bt: nat
      | TookEffect(s, t, a, at, digest, result) && a.request == b.request && IsValidTxn(b)
      ensures AnsweredAlike(s, a, at, digest, result, later, b, retryDigest, bt)
    {
      AnsweredFrom(s, t, later, a, at, digest, result, b, retryDigest, bt);
    }
  }

  /** Retries of a digest-bound request that took effect at step `i`, anywhere later in the run. */
  lemma RetriesAreAnswered(h: seq<State>, es: seq<Step>, cfg: ReplicationConfig, i: nat, j: nat)
    requires Run(h, es, cfg) && i < j < |h|
    ensures AnswersRetries(h[i], h[i + 1], h[j])
  {
    LogsGrowBetween(h, es, cfg, i + 1, j);
    LogAnswersRetries(h[i], h[i + 1], h[j]);
  }
}
