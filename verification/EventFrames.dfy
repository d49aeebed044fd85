/**
 Which kinds of record each event of a run may change.  Only version commits
 write versions, and only claim requests install claims.
 */
module EventFrames {
  import opened Records
  import opened MetaStore
  import opened NamespacePlans
  import opened NamespaceEffects
  import opened Replication
  import opened FileCommits
  import opened FileHistory
  import opened FileSteps
  import opened RepairSafety
  import opened RepairClaims
  import opened ReportSafety
  import opened RootSafety
  import opened MetaRun
  import opened RunSteps

  const METADATA := {OfRequests, OfInodes, OfLeases, OfConfig}

  ghost predicate Stays(plan: Plan, areas: set<Area>) { plan.Planned? ==> Within(plan.txn.mutations, areas) }

  lemma SubmitFrame(s: State, plan: Plan, at: nat, areas: set<Area>)
    requires Stays(plan, areas) && OfRequests in areas
    ensures OnlyChanged(s, Submit(s, plan, at), areas)
  {
    if plan.Planned? {
      CommitFrame(s, plan.txn, at, areas);
    } else {
      forall a | a !in areas ensures Kept(s, s, a) { match a case _ => }
    }
  }

  // ------------------------------------------------------------------- namespace

  lemma AddStays(parentAt: State, req: AddRequest, id: InodeId, now: nat)
    ensures Stays(PlanAdd(parentAt, req, id, now), NAMESPACE)
  {
  }

  lemma LinkStays(parentAt: State, view: State, req: LinkRequest, now: nat)
    ensures Stays(PlanLink(parentAt, view, req, now), NAMESPACE)
  {
  }

  lemma RemoveStays(parentAt: State, view: State, req: RemoveRequest, now: nat)
    ensures Stays(PlanRemove(parentAt, view, req, now), NAMESPACE)
  {
  }

  lemma MoveStays(req: RenameRequest, oldParent: InodeRecord, newParent: InodeRecord, source: InodeRecord,
                  target: Option<InodeRecord>, now: nat)
    ensures Within(RenameTxn(req, oldParent, newParent, source, target, now).mutations, NAMESPACE)
  {
    var moved := Touched(source, source.attrs.nlink, now);
    var replaced := if target.Some? then Some(ReplacedAfter(target.value, now)) else None;
    RenameAreas(req.origin.Outcome(DfsRename, RenameResult(moved, replaced)), OldKey(req), NewKey(req), replaced, moved,
                OldParentAfter(req, oldParent, source, target,
                               now), NewParentAfter(req, newParent, source, target, now));
  }

  lemma RenameStays(oldAt: State, newAt: State, view: State, req: RenameRequest, now: nat)
    ensures Stays(PlanRename(oldAt, newAt, view, req, now), NAMESPACE)
  {
    if PlanRename(oldAt, newAt, view, req, now).Planned? {
      var oldParent := DirectoryForMutation(oldAt, req.ns, req.oldParent).value;
      var newParent := DirectoryForMutation(newAt, req.ns, req.newParent).value;
      var source := InodeFromView(view, req.ns, view.dentries[OldKey(req)]).value;
      MoveStays(req, oldParent, newParent, source, None, now);
      if NewKey(req) in view.dentries && InodeFromView(view, req.ns, view.dentries[NewKey(req)]).Ok? {
        MoveStays(req, oldParent, newParent, source,
                  Some(InodeFromView(view, req.ns, view.dentries[NewKey(req)]).value), now);
      }
    }
  }

  lemma TreeFrame(s: State, e: TreeEvent, now: nat, at: nat)
    ensures OnlyChanged(s, Submit(s, PlanTree(e, now), at), NAMESPACE)
  {
    match e
    case StartNamespace(ns) => SubmitFrame(s, PlanTree(e, now), at, NAMESPACE);
    case Add(p, req, id) => AddStays(p, req, id, now); SubmitFrame(s, PlanTree(e, now), at, NAMESPACE);
    case MakeLink(p, v, req) => LinkStays(p, v, req, now); SubmitFrame(s, PlanTree(e, now), at, NAMESPACE);
    case Unlink(p, v, req) => RemoveStays(p, v, req, now); SubmitFrame(s, PlanTree(e, now), at, NAMESPACE);
    case Rename(o, n, v, req) => RenameStays(o, n, v, req, now); SubmitFrame(s, PlanTree(e, now), at, NAMESPACE);
  }

  // ------------------------------------------------------------- files and roots

  lemma MetadataStays(e: FileEvent, cfg: ReplicationConfig, now: nat)
    requires !e.CommitVersion?
    ensures Stays(PlanFile(e, cfg, now), METADATA)
  {
  }

  lemma OwnerStays(e: OwnerEvent)
    ensures Stays(PlanOwner(e), ROOTS)
  {
  }

  // ---------------------------------------------------------------------- repair

  lemma RepairFrame(s: State, e: RepairEvent, cfg: ReplicationConfig, now: nat, at: nat)
    requires Inv(s, cfg) && AllRead(RepairReads(e), s, cfg)
    ensures OnlyChanged(s, Submit(s, PlanRepair(e, cfg, now), at), REPAIR)
    ensures !e.ClaimRepair? ==> Claimless(s.tasks, Submit(s, PlanRepair(e, cfg, now), at).tasks)
  {
    if PlanRepair(e, cfg, now).Refused? {
      SubmitFrame(s, PlanRepair(e, cfg, now), at, REPAIR);
    } else {
      match e
      case ClaimRepair(f, w, seconds) =>
        ClaimReadsAre(f, w, seconds, s, cfg);
        PlanClaimKeeps(s, f, w, cfg, seconds, now, at);
      case ReportRepair(f, w, claim, report) =>
        ReportReadsAre(f, w, claim, report, s, cfg);
        PlanReportKeeps(s, f, w, claim, report, cfg, now, at);
      case ReportCorruption(f, w, c) =>
        CorruptionReadsAre(f, w, c, s, cfg);
        PlanCorruptionKeeps(s, f, w, c, cfg, now, at);
    }
  }

  // --------------------------------------------------------------------- commits

  /** What a version commit writes and what it leaves. */
  lemma CommitWritesOne(s: State, from: CommitReads, req: CommitRequest, cfg: ReplicationConfig, now: nat, at: nat)
    requires PlanCommit(from, req, cfg, now).Planned?
    ensures var t := Commit(s, PlanCommit(from, req, cfg, now).txn, at);
      && Claimless(s.tasks, t.tasks)
      && (if Commits(s, PlanCommit(from, req, cfg, now).txn, at)
          then t.versions == s.versions[req.version.id := req.version]
               && t.layouts == s.layouts[req.layout.id := req.layout]
          else t == s)
  {
    var current, updated, lease, base := CommitIsPlanned(from, req, cfg, now);
    if Commits(s, PlanCommit(from, req, cfg, now).txn, at) {
      CommitWrites(s, req, current, updated, lease, cfg, now, at);
      CommitBrings(s, req, current, updated, lease, cfg, now, at);
      BringAllClaimless(StockOf(s), req.receipts, |req.receipts|, cfg, now);
    }
  }

  // ------------------------------------------------------------------- all events

  predicate InstallsClaim(e: Event) { e.OnRepair? && e.repair.ClaimRepair? }

  predicate CommitsVersion(e: Event) { e.OnFiles? && e.file.CommitVersion? }

  /** No claim is installed and no version or layout written. */
  ghost predicate Quiet(s: State, t: State)
  {
    Claimless(s.tasks, t.tasks) && t.versions == s.versions && t.layouts == s.layouts
  }

  lemma FrameIsQuiet(s: State, t: State, areas: set<Area>)
    requires OnlyChanged(s, t, areas) && OfTasks !in areas && OfVersions !in areas && OfLayouts !in areas
    ensures Quiet(s, t)
  {
    assert Kept(s, t, OfTasks) && Kept(s, t, OfVersions) && Kept(s, t, OfLayouts);
  }

  lemma RegisterIsQuiet(s: State, request: RequestKey, lease: SessionLease, at: nat)
    ensures Quiet(s, RegisterSession(s, request, lease, at))
  {
    SameIsQuiet(s, RegisterSession(s, request, lease, at));
  }

  lemma SameIsQuiet(s: State, t: State)
    requires t.tasks == s.tasks && t.versions == s.versions && t.layouts == s.layouts
    ensures Quiet(s, t)
  {
  }

  lemma TreeIsQuiet(s: State, x: TreeEvent, now: nat, at: nat)
    ensures Quiet(s, Submit(s, PlanTree(x, now), at))
  {
    TreeFrame(s, x, now, at);
    FrameIsQuiet(s, Submit(s, PlanTree(x, now), at), NAMESPACE);
  }

  lemma MetadataIsQuiet(s: State, x: FileEvent, cfg: ReplicationConfig, now: nat, at: nat)
    requires !x.CommitVersion?
    ensures Quiet(s, Submit(s, PlanFile(x, cfg, now), at))
  {
    MetadataStays(x, cfg, now);
    SubmitFrame(s, PlanFile(x, cfg, now), at, METADATA);
    FrameIsQuiet(s, Submit(s, PlanFile(x, cfg, now), at), METADATA);
  }

  lemma OwnerIsQuiet(s: State, x: OwnerEvent, at: nat)
    ensures Quiet(s, Submit(s, PlanOwner(x), at))
  {
    OwnerStays(x);
    SubmitFrame(s, PlanOwner(x), at, ROOTS);
    FrameIsQuiet(s, Submit(s, PlanOwner(x), at), ROOTS);
  }

  lemma RepairWritesNoVersion(s: State, x: RepairEvent, cfg: ReplicationConfig, now: nat, at: nat)
    requires Inv(s, cfg) && AllRead(RepairReads(x), s, cfg)
    ensures var t := Submit(s, PlanRepair(x, cfg, now), at);
      && t.versions == s.versions && t.layouts == s.layouts && (!x.ClaimRepair? ==> Claimless(s.tasks, t.tasks))
  {
    var t := Submit(s, PlanRepair(x, cfg, now), at);
    RepairFrame(s, x, cfg, now, at);
    VersionsKept(s, t, REPAIR);
  }

  lemma VersionsKept(s: State, t: State, areas: set<Area>)
    requires OnlyChanged(s, t, areas) && OfVersions !in areas && OfLayouts !in areas
    ensures t.versions == s.versions && t.layouts == s.layouts
  {
    assert Kept(s, t, OfVersions) && Kept(s, t, OfLayouts);
  }
}
