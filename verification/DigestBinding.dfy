/**
 Operations whose outcome is bound to a digest of the whole request: every
 transaction that such an event of a run submits is valid and records a result
 that answers only the identical request.
 */
module DigestBinding {
  import opened Records
  import opened MetaStore
  import opened NamespacePlans
  import opened NamespaceRefinement
  import opened FileCommits
  import opened FileSteps
  import opened RepairPlans
  import opened RequestLog
  import opened MetaRun
  import opened NamespaceSteps
  import opened RunSteps
  import opened RunTheorems

  /** The transaction binds its outcome to the digest of the whole request. */
  ghost predicate DigestBound(txn: MetaTxn, digest: Digest)
  {
    exists result ::
      Plain(txn, RequestOutcome(txn.request, txn.operation, result)) && BoundTo(result, txn.operation, digest)
  }

  lemma AddIsDigestBound(req: AddRequest, id: InodeId, parent: InodeRecord, now: nat)
    ensures DigestBound(AddTxn(req, id, parent, now), req.origin.digest)
  {
    var lease := if req.what.NewFile? then Some(NewLease(req, id, now)) else None;
    var c := NewInode(req, id, parent, now);
    CreationPlain(req.origin.Outcome(AddOperation(req.what), CreationResult(c, lease)), AddKey(req),
                  ParentAfter(parent, if req.what.NewDirectory? then 1 else 0, now), c, lease);
    assert Plain(AddTxn(req, id, parent, now), req.origin.Outcome(AddOperation(req.what), CreationResult(c, lease)));
  }

  lemma LinkIsDigestBound(req: LinkRequest, parent: InodeRecord, inode: InodeRecord, now: nat)
    ensures DigestBound(LinkTxn(req, parent, inode, now), req.origin.digest)
  {
    var after := Touched(inode, SatAdd32(inode.attrs.nlink, 1), now);
    var o := req.origin.Outcome(DfsLink, InodeResult(after));
    CreationPlain(o, LinkKey(req), ParentAfter(parent, 0, now), after, None);
    assert Plain(LinkTxn(req, parent, inode, now), o);
  }

  lemma RemoveIsDigestBound(req: RemoveRequest, parent: InodeRecord, inode: InodeRecord, now: nat)
    ensures DigestBound(RemoveTxn(req, parent, inode, now), req.origin.digest)
  {
    var after := Touched(inode, if req.directory then 0 else SatSub(inode.attrs.nlink, 1), now);
    var o := req.origin.Outcome(if req.directory then DfsRmdir else DfsUnlink, InodeResult(after));
    var ms := RemovalMutations(o, RemoveKey(req), after, ParentAfter(parent, if req.directory then -1 else 0, now));
    assert ms[3] == RecordOutcome(o) && AllPlain(ms, o);
    assert Plain(RemoveTxn(req, parent, inode, now), o);
  }

  lemma RenameIsDigestBound(req: RenameRequest, oldParent: InodeRecord, newParent: InodeRecord, source: InodeRecord,
                            target: Option<InodeRecord>, now: nat)
    ensures DigestBound(RenameTxn(req, oldParent, newParent, source, target, now), req.origin.digest)
  {
    var moved := Touched(source, source.attrs.nlink, now);
    var replaced := if target.Some? then Some(ReplacedAfter(target.value, now)) else None;
    var o := req.origin.Outcome(DfsRename, RenameResult(moved, replaced));
    RenamePlain(o, OldKey(req), NewKey(req), replaced, moved, OldParentAfter(req, oldParent, source, target, now),
                NewParentAfter(req, newParent, source, target, now));
    assert Plain(RenameTxn(req, oldParent, newParent, source, target, now), o);
  }

  lemma CommitIsDigestBound(req: CommitRequest, current: InodeRecord, updated: InodeRecord, lease: WriteLease,
                            cfg: ReplicationConfig, now: nat)
    ensures DigestBound(CommitTxn(req, current, updated, lease, cfg, now), req.origin.digest)
  {
    CommitPlain(req, current, updated, lease, cfg, now);
    assert Plain(CommitTxn(req, current, updated, lease, cfg, now),
                 req.origin.Outcome(DfsCommitFileVersion, InodeResult(updated)));
  }

  lemma NoopIsDigestBound(req: RenameRequest, source: InodeRecord)
    ensures DigestBound(NoopTxn(req, source), req.origin.digest)
  {
    var o := req.origin.Outcome(DfsRename, RenameResult(source, None));
    assert NoopTxn(req, source).mutations[0] == RecordOutcome(o);
    assert Plain(NoopTxn(req, source), o);
  }

  // ------------------------------------------------------------------ valid transactions

  lemma {:induction false} RecordedIsValid(ms: seq<TxnMutation>, o: RequestOutcome)
    requires RecordOutcome(o) in ms
    ensures RecordsOutcome(ms, o.request, o.operation)
  {
    if ms[0] != RecordOutcome(o) { RecordedIsValid(ms[1..], o); }
  }

  /** A valid transaction that binds its outcome to the digest. */
  ghost predicate Answerable(txn: MetaTxn, digest: Digest) { DigestBound(txn, digest) && IsValidTxn(txn) }

  lemma BoundIsAnswerable(txn: MetaTxn, digest: Digest)
    requires DigestBound(txn, digest) && ChecksFirst(txn)
    ensures Answerable(txn, digest)
  {
    var result :| Plain(txn, RequestOutcome(txn.request, txn.operation, result))
      && BoundTo(result, txn.operation, digest);
    RecordedIsValid(txn.mutations, RequestOutcome(txn.request, txn.operation, result));
  }

  // --------------------------------------------------------------------------- events

  /** The digest that an event's outcome is bound to, if it is. */
  function DigestOf(e: Event): Option<Digest>
  {
    match e
    case OnTree(Add(_, req, _)) => Some(req.origin.digest)
    case OnTree(MakeLink(_, _, req)) => Some(req.origin.digest)
    case OnTree(Unlink(_, _, req)) => Some(req.origin.digest)
    case OnTree(Rename(_, _, _, req)) => Some(req.origin.digest)
    case OnFiles(CommitVersion(_, req)) => Some(req.origin.digest)
    case OnRepair(x) => Some(x.worker.digest)
    case _ => None
  }

  lemma AddIsAnswerable(p: State, req: AddRequest, id: InodeId, now: nat)
    requires PlanAdd(p, req, id, now).Planned?
    ensures Answerable(PlanAdd(p, req, id, now).txn, req.origin.digest)
  {
    var parent := DirectoryForMutation(p, req.ns, req.parent).value;
    AddIsDigestBound(req, id, parent, now);
    BoundIsAnswerable(AddTxn(req, id, parent, now), req.origin.digest);
  }

  lemma LinkIsAnswerable(p: State, v: State, req: LinkRequest, now: nat)
    requires PlanLink(p, v, req, now).Planned?
    ensures Answerable(PlanLink(p, v, req, now).txn, req.origin.digest)
  {
    var parent := DirectoryForMutation(p, req.ns, req.parent).value;
    var inode := InodeFromView(v, req.ns, req.inode).value;
    LinkIsDigestBound(req, parent, inode, now);
    BoundIsAnswerable(LinkTxn(req, parent, inode, now), req.origin.digest);
  }

  lemma RemoveIsAnswerable(p: State, v: State, req: RemoveRequest, now: nat)
    requires PlanRemove(p, v, req, now).Planned?
    ensures Answerable(PlanRemove(p, v, req, now).txn, req.origin.digest)
  {
    var parent := DirectoryForMutation(p, req.ns, req.parent).value;
    var inode := InodeFromView(v, req.ns, v.dentries[RemoveKey(req)]).value;
    RemoveIsDigestBound(req, parent, inode, now);
    BoundIsAnswerable(RemoveTxn(req, parent, inode, now), req.origin.digest);
  }

  lemma RenameIsAnswerable(o: State, n: State, v: State, req: RenameRequest, now: nat)
    requires PlanRename(o, n, v, req, now).Planned?
    ensures Answerable(PlanRename(o, n, v, req, now).txn, req.origin.digest)
  {
    RenameCases(o, n, v, req, now);
    var source := InodeFromView(v, req.ns, v.dentries[OldKey(req)]).value;
    if NoopPlan(v, req, source) {
      NoopIsDigestBound(req, source);
      BoundIsAnswerable(NoopTxn(req, source), req.origin.digest);
    } else {
      var oldParent, newParent, target :| MovePlan(o, n, v, req, now, oldParent, newParent, source, target);
      RenameIsDigestBound(req, oldParent, newParent, source, target, now);
      BoundIsAnswerable(RenameTxn(req, oldParent, newParent, source, target, now), req.origin.digest);
    }
  }

  lemma CommitIsAnswerable(from: CommitReads, req: CommitRequest, cfg: ReplicationConfig, now: nat)
    requires PlanCommit(from, req, cfg, now).Planned?
    ensures Answerable(PlanCommit(from, req, cfg, now).txn, req.origin.digest)
  {
    var current, updated, lease, base := CommitIsPlanned(from, req, cfg, now);
    CommitIsDigestBound(req, current, updated, lease, cfg, now);
    BoundIsAnswerable(CommitTxn(req, current, updated, lease, cfg, now), req.origin.digest);
  }

  lemma ClaimIsAnswerable(from: ClaimReads, w: Worker, cfg: ReplicationConfig, seconds: nat, now: nat)
    requires PlanClaim(from, w, cfg, seconds, now).Planned?
    ensures Answerable(PlanClaim(from, w, cfg, seconds, now).txn, w.digest)
  {
    var o := PlanClaimPlain(from, w, cfg, seconds, now);
    BoundIsAnswerable(PlanClaim(from, w, cfg, seconds, now).txn, w.digest);
  }

  lemma ReportIsAnswerable(from: ReportReads, w: Worker, claim: ReplicationClaim, report: Report,
                           cfg: ReplicationConfig, now: nat)
    requires PlanReport(from, w, claim, report, cfg, now).Planned?
    ensures Answerable(PlanReport(from, w, claim, report, cfg, now).txn, w.digest)
  {
    var o := PlanReportPlain(from, w, claim, report, cfg, now);
    BoundIsAnswerable(PlanReport(from, w, claim, report, cfg, now).txn, w.digest);
  }

  lemma CorruptionIsAnswerable(from: CorruptionReads, w: Worker, c: Corruption, cfg: ReplicationConfig, now: nat)
    requires PlanCorruption(from, w, c, cfg, now).Planned?
    ensures Answerable(PlanCorruption(from, w, c, cfg, now).txn, w.digest)
  {
    var id := RepairTask(c.chunk);
    CorruptionPlain(w, CurrentSession(from.callerAt, w, now).value, from.chunkAt.chunks[c.chunk],
                    from.placementAt.placements[c.chunk], ObservedTask(from.taskAt, id),
                    if id in from.taskAt.tasks then from.taskAt.tasks[id].attempt else 0,
                    from.observed, from.live, c, cfg, now);
    BoundIsAnswerable(PlanCorruption(from, w, c, cfg, now).txn, w.digest);
  }

  /** Every event with a digest submits a valid transaction that binds its outcome to it. */
  lemma EventsAreAnswerable(e: Event, cfg: ReplicationConfig, now: nat)
    requires PlanOf(e, cfg, now).Planned? && DigestOf(e).Some?
    ensures Answerable(PlanOf(e, cfg, now).txn, DigestOf(e).value)
  {
    match e
    case OnTree(Add(p, req, id)) => AddIsAnswerable(p, req, id, now);
    case OnTree(MakeLink(p, v, req)) => LinkIsAnswerable(p, v, req, now);
    case OnTree(Unlink(p, v, req)) => RemoveIsAnswerable(p, v, req, now);
    case OnTree(Rename(o, n, v, req)) => RenameIsAnswerable(o, n, v, req, now);
    case OnFiles(CommitVersion(from, req)) => CommitIsAnswerable(from, req, cfg, now);
    case OnRepair(ClaimRepair(from, w, seconds)) => ClaimIsAnswerable(from, w, cfg, seconds, now);
    case OnRepair(ReportRepair(from, w, claim, report)) => ReportIsAnswerable(from, w, claim, report, cfg, now);
    case OnRepair(ReportCorruption(from, w, c)) => CorruptionIsAnswerable(from, w, c, cfg, now);
  }

  // -------------------------------------------------------------------- repeated requests

  /** Two requests under one key, the first of which took effect: what the second is answered. */
  ghost predicate SecondAnswer(s: State, a: MetaTxn, digest: Digest, at: nat, later: State, b: MetaTxn, again: Digest,
                               bt: nat)
  {
    && Reply(s, a, digest, at).Ok? && Commit(later, b, bt) == later
    && Reply(later, b, again, bt)
       == if b.operation == a.operation && again == digest then Reply(s, a, digest, at) else Err(Invalid)
  }

  lemma SecondIsAnswered(s: State, a: MetaTxn, digest: Digest, at: nat, later: State, b: MetaTxn, again: Digest,
                         bt: nat)
    requires Answerable(a, digest) && Answerable(b, again) && a.request == b.request
    requires Commits(s, a, at) && LogGrows(Commit(s, a, at), later)
    ensures SecondAnswer(s, a, digest, at, later, b, again, bt)
  {
    var result :| Plain(a, RequestOutcome(a.request, a.operation, result)) && BoundTo(result, a.operation, digest);
    ExactlyOnce(s, a, at, digest, result, later, b, again, bt);
  }

  /**
   Whatever two events with digests use one request key in a run, if the first
   took effect then the second changes nothing; it is answered like the first if
   operation and digest are the same, and refused otherwise.
   */
  lemma RepeatedRequestsAreAnswered(h: seq<State>, es: seq<Step>, cfg: ReplicationConfig, i: nat, j: nat, a: MetaTxn,
                                    b: MetaTxn)
    requires Run(h, es, cfg) && i < j < |es| && DigestOf(es[i].event).Some? && DigestOf(es[j].event).Some?
    requires PlanOf(es[i].event, cfg, es[i].now) == Planned(a) && PlanOf(es[j].event, cfg, es[j].now) == Planned(b)
    requires a.request == b.request && Commits(h[i], a, es[i].at)
    ensures h[j + 1] == h[j]
    ensures SecondAnswer(h[i], a, DigestOf(es[i].event).value, es[i].at, h[j], b, DigestOf(es[j].event).value, es[j].at)
  {
    EventsAreAnswerable(es[i].event, cfg, es[i].now);
    EventsAreAnswerable(es[j].event, cfg, es[j].now);
    StepCommits(h, es, cfg, i, a);
    StepCommits(h, es, cfg, j, b);
    LogsGrowBetween(h, es, cfg, i + 1, j);
    SecondIsAnswered(h[i], a, DigestOf(es[i].event).value, es[i].at, h[j], b, DigestOf(es[j].event).value, es[j].at);
  }
}
