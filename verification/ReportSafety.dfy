/**
 Reports on a repair claim and reports of a corrupt chunk keep the replication
 bookkeeping, and a report takes effect only while its exact claim is running.
 */
module ReportSafety {
  import opened Records
  import opened MetaStore
  import opened Replication
  import opened RepairPlans
  import opened RepairSafety

  // -------------------------------------------------------------------- reports

  lemma ReportPins(s: State, w: Worker, task: ReplicationTask, p: PlacementRecord, chunk: ChunkObject,
                   source: CopyRecord,
                   cfg: ReplicationConfig, more: seq<TxnCondition>, at: nat)
    requires AllHold(s, ReportConditions(w, task, p, chunk, source, cfg, more), at)
    ensures task.id in s.tasks && s.tasks[task.id] == task
    ensures p.chunk in s.placements && s.placements[p.chunk] == p
    ensures source.id in s.copies && s.copies[source.id] == source
    ensures s.config == Some(cfg)
  {
    var cs := ReportConditions(w, task, p, chunk, source, cfg, more);
    StoredAt(s, cs, at, 1, TaskEntity(task));
    StoredAt(s, cs, at, 2, PlacementEntity(p));
    StoredAt(s, cs, at, 4, CopyEntity(source));
    StoredAt(s, cs, at, 5, ConfigEntity(cfg));
  }

  lemma ReportEffect(k: Stock, puts: seq<TxnMutation>, task: ReplicationTask, o: RequestOutcome)
    ensures StockAfter(k, puts + [Put(TaskEntity(task)), RecordOutcome(o)])
      == StockAfter(k, puts).(tasks := StockAfter(k, puts).tasks[task.id := task])
  {
    StockAppend(k, puts, [Put(TaskEntity(task)), RecordOutcome(o)]);
    TailEffect(StockAfter(k, puts), task, o);
  }

  lemma CopyAndPlacement(k: Stock, copy: CopyRecord, p: PlacementRecord)
    ensures StockAfter(k, [Put(CopyEntity(copy)), Put(PlacementEntity(p))])
      == k.(copies := k.copies[copy.id := copy], placements := k.placements[p.chunk := p])
  {
    assert [Put(CopyEntity(copy)), Put(PlacementEntity(p))] == [Put(CopyEntity(copy))] + [Put(PlacementEntity(p))];
    StockAppend(k, [Put(CopyEntity(copy))], [Put(PlacementEntity(p))]);
    OneMutation(k, Put(CopyEntity(copy)));
    PlacementPutEffect(k.(copies := k.copies[copy.id := copy]), p);
  }

  lemma CopiesAndPlacement(k: Stock, copies: seq<CopyRecord>, p: PlacementRecord)
    ensures StockAfter(k, CopyPuts(copies) + [Put(PlacementEntity(p))])
      == k.(copies := PutCopies(k.copies, copies, |copies|), placements := k.placements[p.chunk := p])
  {
    StockAppend(k, CopyPuts(copies), [Put(PlacementEntity(p))]);
    CopyPutsEffect(k, copies);
    PlacementPutEffect(k.(copies := PutCopies(k.copies, copies, |copies|)), p);
  }

  /** The reads of a report, each from a state with the bookkeeping in order. */
  ghost predicate ReportReadsOk(from: ReportReads, cfg: ReplicationConfig)
  {
    StockOk(StockOf(from.taskAt), cfg) && StockOk(StockOf(from.placementAt), cfg) && StockOk(StockOf(from.copyAt), cfg)
  }

  /** What a standing report is about. */
  lemma ReportSubject(from: ReportReads, w: Worker, claim: ReplicationClaim, cfg: ReplicationConfig, now: nat)
    requires ReportReadsOk(from, cfg) && ReportStands(from, w, claim, cfg, now)
    ensures var task := from.taskAt.tasks[claim.task]; var p := from.placementAt.placements[claim.chunk.id];
      && task.id == claim.task == RepairTask(claim.chunk.id) && task.chunk == claim.chunk.id
      && task.state == Running && task.claim == Some(claim)
      && p.chunk == claim.chunk.id && ContentDerived(claim.chunk) && claim.config.desired == cfg.desired
      && from.copyAt.copies[claim.source].id == claim.source
  {
    assert TaskOk(StockOf(from.taskAt), cfg, claim.task);
    assert PlacementOk(StockOf(from.placementAt), cfg, claim.chunk.id);
    assert CopyOk(StockOf(from.copyAt).copies, claim.source);
  }

  /** A report commits only if the stored task is running exactly its claim. */
  lemma ReportNeedsItsClaim(s: State, from: ReportReads, w: Worker, claim: ReplicationClaim, report: Report,
                            cfg: ReplicationConfig, now: nat, at: nat)
    requires ReportReadsOk(from, cfg) && PlanReport(from, w, claim, report, cfg, now).Planned?
    requires Commits(s, PlanReport(from, w, claim, report, cfg, now).txn, at)
    ensures claim.task in s.tasks && s.tasks[claim.task].state == Running && s.tasks[claim.task].claim == Some(claim)
    ensures s.config == Some(cfg)
  {
    ReportSubject(from, w, claim, cfg, now);
    var task := from.taskAt.tasks[claim.task];
    var p := from.placementAt.placements[claim.chunk.id];
    var source := from.copyAt.copies[claim.source];
    var more := if report.Repaired? then AckConditions(report.acks, from.sessions) else [];
    ReportPins(s, w, task, p, claim.chunk, source, cfg, more, at);
  }

  lemma SourceInvalidStock(k: Stock, p: PlacementRecord, source: CopyRecord, cfg: ReplicationConfig,
                           health: PlacementHealth,
                           after: ReplicationTask, o: RequestOutcome)
    requires StockOk(k, cfg) && health != Satisfied && OpenTaskFor(cfg, after, p.chunk) && source.chunk == p.chunk
    requires p.chunk in k.placements && k.placements[p.chunk] == p && source.id in k.copies
    requires k.copies[source.id] == source
    ensures var l := StockAfter(k,
                                [Put(CopyEntity(source.(state := Corrupt))), Put(PlacementEntity(p.(health := health)))]
                                   + [Put(TaskEntity(after)), RecordOutcome(o)]);
      StockOk(l, cfg) && l.tasks == k.tasks[after.id := after]
  {
    var puts := [Put(CopyEntity(source.(state := Corrupt))), Put(PlacementEntity(p.(health := health)))];
    ReportEffect(k, puts, after, o);
    CopyAndPlacement(k, source.(state := Corrupt), p.(health := health));
    assert CopyOk(k.copies, source.id);
    UnsatisfiedKeepsStock(k, cfg, p, k.copies[source.id := source.(state := Corrupt)], health, after);
  }

  lemma SourceInvalidKeeps(s: State, w: Worker, task: ReplicationTask, p: PlacementRecord, chunk: ChunkObject,
                           source: CopyRecord, cfg: ReplicationConfig, health: PlacementHealth, after: ReplicationTask,
                           at: nat)
    requires StockOk(StockOf(s), cfg) && health != Satisfied && OpenTaskFor(cfg, after, p.chunk) && after.claim.None?
    requires MatchesChunk(source, chunk) && chunk.id == p.chunk
    ensures var t := Commit(s, ReportTxn(w, ReportConditions(w, task, p, chunk, source, cfg, []),
                                         [Put(CopyEntity(source.(state := Corrupt))),
                                          Put(PlacementEntity(p.(health := health)))], after), at);
      StockOk(StockOf(t), cfg) && OnlyChanged(s, t, REPAIR) && Claimless(s.tasks, t.tasks)
  {
    var puts := [Put(CopyEntity(source.(state := Corrupt))), Put(PlacementEntity(p.(health := health)))];
    var conditions := ReportConditions(w, task, p, chunk, source, cfg, []);
    var txn := ReportTxn(w, conditions, puts, after);
    CommitFrame(s, txn, at, REPAIR);
    if Commits(s, txn, at) {
      ReportPins(s, w, task, p, chunk, source, cfg, [], at);
      CommitStock(s, txn, at);
      var o := RequestOutcome(w.Key(), DfsReportReplicationTask, NamespaceResult(w.digest, TaskResult(after)));
      SourceInvalidStock(StockOf(s), p, source, cfg, health, after, o);
    }
  }

  lemma FailedKeeps(s: State, w: Worker, conditions: seq<TxnCondition>, after: ReplicationTask, c: ChunkId,
                    cfg: ReplicationConfig, at: nat)
    requires StockOk(StockOf(s), cfg) && OpenTaskFor(cfg, after, c) && after.claim.None?
    ensures var t := Commit(s, ReportTxn(w, conditions, [], after), at);
      StockOk(StockOf(t), cfg) && OnlyChanged(s, t, REPAIR) && Claimless(s.tasks, t.tasks)
  {
    var txn := ReportTxn(w, conditions, [], after);
    CommitFrame(s, txn, at, REPAIR);
    if Commits(s, txn, at) {
      CommitStock(s, txn, at);
      var o := RequestOutcome(w.Key(), DfsReportReplicationTask, NamespaceResult(w.digest, TaskResult(after)));
      assert txn.mutations == [Put(TaskEntity(after)), RecordOutcome(o)];
      TailEffect(StockOf(s), after, o);
      TaskPutKeepsStock(StockOf(s), cfg, after, c);
    }
  }

  lemma RepairProves(claim: ReplicationClaim, acks: seq<ReplicaAck>, sessions: map<NodeId, NodeSession>, now: nat)
    requires RepairProven(claim, acks, sessions, now)
    ensures Proven(acks, claim.chunk)
  {
    forall i | 0 <= i < |acks|
      ensures acks[i].persistedBytes == claim.chunk.length && acks[i].digest == claim.chunk.digest
    {
      assert RepairAckOk(claim, acks[i], sessions, now);
    }
  }

  lemma RepairedKeeps(s: State, w: Worker, task: ReplicationTask, p: PlacementRecord, claim: ReplicationClaim,
                      source: CopyRecord,
                      acks: seq<ReplicaAck>, more: seq<TxnCondition>, cfg: ReplicationConfig, at: nat)
    requires StockOk(StockOf(s), cfg) && ContentDerived(claim.chunk) && claim.config.desired == cfg.desired
    requires p.chunk == claim.chunk.id
    requires Proven(acks, claim.chunk) && |acks| >= cfg.desired
    requires task.id == RepairTask(claim.chunk.id) && task.chunk == claim.chunk.id
    ensures var copies := CopiesOf(acks, claim.chunk.id); var ids := Extended(p.copies, IdsOf(copies));
      var t := Commit(s, ReportTxn(w, ReportConditions(w, task, p, claim.chunk, source, cfg, more),
                                   CopyPuts(copies) + [Put(PlacementEntity(RepairedPlacement(p, claim, ids)))],
                                   Finished(task, claim, ids)), at);
      StockOk(StockOf(t), cfg) && OnlyChanged(s, t, REPAIR) && Claimless(s.tasks, t.tasks)
  {
    var copies := CopiesOf(acks, claim.chunk.id);
    var ids := Extended(p.copies, IdsOf(copies));
    var q := RepairedPlacement(p, claim, ids);
    var puts := CopyPuts(copies) + [Put(PlacementEntity(q))];
    var after := Finished(task, claim, ids);
    var txn := ReportTxn(w, ReportConditions(w, task, p, claim.chunk, source, cfg, more), puts, after);
    CommitFrame(s, txn, at, REPAIR);
    if Commits(s, txn, at) {
      ReportPins(s, w, task, p, claim.chunk, source, cfg, more, at);
      CommitStock(s, txn, at);
      var o := RequestOutcome(w.Key(), DfsReportReplicationTask, NamespaceResult(w.digest, TaskResult(after)));
      ReportEffect(StockOf(s), puts, after, o);
      CopiesAndPlacement(StockOf(s), copies, q);
      RepairedKeepsStock(StockOf(s), cfg, claim, acks, after);
    }
  }

  lemma PlanReportKeeps(s: State, from: ReportReads, w: Worker, claim: ReplicationClaim, report: Report,
                        cfg: ReplicationConfig, now: nat, at: nat)
    requires StockOk(StockOf(s), cfg) && ReportReadsOk(from, cfg)
    requires PlanReport(from, w, claim, report, cfg, now).Planned?
    ensures var t := Commit(s, PlanReport(from, w, claim, report, cfg, now).txn, at);
      StockOk(StockOf(t), cfg) && OnlyChanged(s, t, REPAIR) && Claimless(s.tasks, t.tasks)
  {
    ReportSubject(from, w, claim, cfg, now);
    var task := from.taskAt.tasks[claim.task];
    var p := from.placementAt.placements[claim.chunk.id];
    var source := from.copyAt.copies[claim.source];
    match report
    case SourceInvalid =>
      var blocked := from.live == 0;
      SourceInvalidKeeps(s, w, task, p, claim.chunk, source, cfg, if blocked then PlacementBlocked else UnderReplicated,
        Released(task, if blocked then TaskBlocked else RetryWaiting, "source copy failed local verification",
                 now), at);
    case Failed(error) =>
      FailedKeeps(s, w, ReportConditions(w, task, p, claim.chunk, source, cfg, []),
                  Released(task, RetryWaiting, error, now), claim.chunk.id, cfg, at);
    case Repaired(acks) =>
      RepairProves(claim, acks, from.sessions, now);
      RepairedKeeps(s, w, task, p, claim, source, acks, AckConditions(acks, from.sessions), cfg, at);
  }

  // ----------------------------------------------------------------- corruption

  lemma CorruptionPins(s: State, w: Worker, session: NodeSession, chunk: ChunkObject, p: PlacementRecord,
                       cfg: ReplicationConfig, cond: TxnCondition, copies: seq<CopyRecord>, at: nat)
    requires AllHold(s, CorruptionConditions(w, session, chunk, p, cfg, cond, copies), at)
    ensures p.chunk in s.placements && s.placements[p.chunk] == p
    ensures forall i :: 0 <= i < |copies| ==> copies[i].id in s.copies && s.copies[copies[i].id] == copies[i]
  {
    var cs := CorruptionConditions(w, session, chunk, p, cfg, cond, copies);
    StoredAt(s, cs, at, 4, PlacementEntity(p));
    forall i | 0 <= i < |copies| ensures copies[i].id in s.copies && s.copies[copies[i].id] == copies[i] {
      StoredAt(s, cs, at, 7 + i, CopyEntity(copies[i]));
    }
  }

  /** The copies a report marks are stored copies of its chunk. */
  lemma MarkedAreStored(s: State, cfg: ReplicationConfig, copies: seq<CopyRecord>, chunk: ChunkObject, node: NodeId,
                        c: Corruption)
    requires StockOk(StockOf(s), cfg)
    requires forall i :: 0 <= i < |copies| ==> copies[i].id in s.copies && s.copies[copies[i].id] == copies[i]
    ensures MarkedFrom(s.copies, Marked(copies, |copies|, chunk, node, c), chunk.id)
  {
    var changed := Marked(copies, |copies|, chunk, node, c);
    forall i | 0 <= i < |changed| ensures changed[i].id in s.copies && changed[i].id.chunk == chunk.id
                                  ensures changed[i] == s.copies[changed[i].id].(state := Corrupt) {
      MarkedAre(copies, |copies|, chunk, node, c, changed[i]);
      var j :| 0 <= j < |copies| && Invalidated(copies[j], chunk, node, c)
        && changed[i] == copies[j].(state := Corrupt);
      assert CopyOk(StockOf(s).copies, copies[j].id);
    }
  }

  lemma CorruptionEffect(k: Stock, changed: seq<CopyRecord>, p: PlacementRecord, task: ReplicationTask,
                         o: RequestOutcome)
    ensures StockAfter(k, CopyPuts(changed) + [Put(PlacementEntity(p)), Put(TaskEntity(task)), RecordOutcome(o)])
      == Stock(k.chunks, k.placements[p.chunk := p], PutCopies(k.copies, changed, |changed|), k.tasks[task.id := task])
  {
    StockAppend(k, CopyPuts(changed), [Put(PlacementEntity(p)), Put(TaskEntity(task)), RecordOutcome(o)]);
    CopyPutsEffect(k, changed);
    PlacementAndTask(k.(copies := PutCopies(k.copies, changed, |changed|)), p, task, o);
  }

  ghost predicate AllStored(copies: map<CopyId, CopyRecord>, observed: seq<CopyRecord>)
  {
    forall i :: 0 <= i < |observed| ==> observed[i].id in copies && copies[observed[i].id] == observed[i]
  }

  /** A committing corruption report that marks copies. */
  lemma CorruptionMarks(s: State, w: Worker, conditions: seq<TxnCondition>, changed: seq<CopyRecord>,
                        p: PlacementRecord,
                        health: PlacementHealth, task: ReplicationTask, cfg: ReplicationConfig, at: nat)
    requires StockOk(StockOf(s), cfg) && health != Satisfied && OpenTaskFor(cfg, task, p.chunk)
    requires p.chunk in s.placements && s.placements[p.chunk] == p && MarkedFrom(s.copies, changed, p.chunk)
    requires Commits(s, CorruptionTxn(w, conditions, changed, p.(health := health), task), at)
    ensures var t := Commit(s, CorruptionTxn(w, conditions, changed, p.(health := health), task), at);
      && StockOk(StockOf(t), cfg) && t.copies == PutCopies(s.copies, changed, |changed|)
      && t.tasks == s.tasks[task.id := task]
  {
    CommitStock(s, CorruptionTxn(w, conditions, changed, p.(health := health), task), at);
    CorruptionEffect(StockOf(s), changed, p.(health := health), task, CorruptionOutcome(w));
    MarkingRestates(s.copies, changed, p.chunk);
    UnsatisfiedKeepsStock(StockOf(s), cfg, p, PutCopies(s.copies, changed, |changed|), health, task);
  }

  lemma CorruptionAreas(w: Worker, conditions: seq<TxnCondition>, changed: seq<CopyRecord>, p: PlacementRecord,
                        task: ReplicationTask)
    ensures Within(CorruptionTxn(w, conditions, changed, p, task).mutations, REPAIR)
  {
  }

  /** What a corruption report owes on commit. */
  ghost predicate CorruptionDone(s: State, txn: MetaTxn, at: nat, p: PlacementRecord, observed: seq<CopyRecord>,
                                 changed: seq<CopyRecord>, cfg: ReplicationConfig)
  {
    var t := Commit(s, txn, at);
    && StockOk(StockOf(t), cfg) && OnlyChanged(s, t, REPAIR) && Claimless(s.tasks, t.tasks)
    && (Commits(s, txn, at) ==>
          && AllStored(s.copies, observed) && p.chunk in s.placements && s.placements[p.chunk] == p
          && MarkedFrom(s.copies, changed, p.chunk)
          && t.copies == PutCopies(s.copies, changed, |changed|))
  }

  lemma MarkingDone(s: State, w: Worker, session: NodeSession, chunk: ChunkObject, p: PlacementRecord,
                    cond: TxnCondition,
                    observed: seq<CopyRecord>, c: Corruption, cfg: ReplicationConfig, health: PlacementHealth,
                    task: ReplicationTask, at: nat)
    requires StockOk(StockOf(s), cfg) && chunk.id == p.chunk && health != Satisfied && OpenTaskFor(cfg, task, p.chunk)
    requires task.claim.None?
    ensures var changed := Marked(observed, |observed|, chunk, w.node, c);
      var txn := CorruptionTxn(w, CorruptionConditions(w, session, chunk, p, cfg, cond, observed), changed,
                               p.(health := health), task);
      CorruptionDone(s, txn, at, p, observed, changed, cfg)
  {
    var changed := Marked(observed, |observed|, chunk, w.node, c);
    var conditions := CorruptionConditions(w, session, chunk, p, cfg, cond, observed);
    var txn := CorruptionTxn(w, conditions, changed, p.(health := health), task);
    CorruptionAreas(w, conditions, changed, p.(health := health), task);
    CommitFrame(s, txn, at, REPAIR);
    if Commits(s, txn, at) {
      CorruptionPins(s, w, session, chunk, p, cfg, cond, observed, at);
      MarkedAreStored(s, cfg, observed, chunk, w.node, c);
      CorruptionMarks(s, w, conditions, changed, p, health, task, cfg, at);
    }
  }

  /** A report about copies that are already superseded only leaves its outcome. */
  lemma AcknowledgedDone(s: State, w: Worker, session: NodeSession, chunk: ChunkObject, p: PlacementRecord,
                         cond: TxnCondition,
                         observed: seq<CopyRecord>, cfg: ReplicationConfig, at: nat)
    requires StockOk(StockOf(s), cfg)
    ensures var txn := MetaTxn(w.Key(), DfsReportChunkCorruption,
                               CorruptionConditions(w, session, chunk, p, cfg, cond, observed),
                               [RecordOutcome(CorruptionOutcome(w))]);
      CorruptionDone(s, txn, at, p, observed, [], cfg)
  {
    var txn := MetaTxn(w.Key(), DfsReportChunkCorruption,
                       CorruptionConditions(w, session, chunk, p, cfg, cond, observed),
                       [RecordOutcome(CorruptionOutcome(w))]);
    CommitFrame(s, txn, at, REPAIR);
    if Commits(s, txn, at) {
      CorruptionPins(s, w, session, chunk, p, cfg, cond, observed, at);
      CommitStock(s, txn, at);
      StockSpared(StockOf(s), txn.mutations);
    }
  }

  /** A corruption report, planned from records of one chunk, committing on a state in order. */
  lemma CorruptionKeeps(s: State, w: Worker, session: NodeSession, chunk: ChunkObject, p: PlacementRecord,
                        cond: TxnCondition,
                        attempt: nat, observed: seq<CopyRecord>, live: nat, c: Corruption, cfg: ReplicationConfig,
                        now: nat, at: nat)
    requires StockOk(StockOf(s), cfg) && chunk.id == c.chunk == p.chunk
    requires CorruptionPlan(w, session, chunk, p, cond, attempt, observed, live, c, cfg, now).Planned?
    ensures CorruptionDone(s, CorruptionPlan(w, session, chunk, p, cond, attempt, observed, live, c, cfg, now).txn, at,
                           p, observed, Marked(observed, |observed|, chunk, w.node, c), cfg)
  {
    MarkingDone(s, w, session, chunk, p, cond, observed, c, cfg,
                if live == 0 then PlacementBlocked else UnderReplicated,
                CorruptionTask(p, c.chunk, live == 0, attempt, now), at);
    AcknowledgedDone(s, w, session, chunk, p, cond, observed, cfg, at);
  }

  ghost predicate CorruptionReadsOk(from: CorruptionReads, cfg: ReplicationConfig)
  {
    StockOk(StockOf(from.chunkAt), cfg) && StockOk(StockOf(from.placementAt), cfg)
  }

  lemma PlanCorruptionKeeps(s: State, from: CorruptionReads, w: Worker, c: Corruption, cfg: ReplicationConfig, now: nat,
                            at: nat)
    requires StockOk(StockOf(s), cfg) && CorruptionReadsOk(from, cfg) && PlanCorruption(from, w, c, cfg, now).Planned?
    ensures var t := Commit(s, PlanCorruption(from, w, c, cfg, now).txn, at);
      StockOk(StockOf(t), cfg) && OnlyChanged(s, t, REPAIR) && Claimless(s.tasks, t.tasks)
  {
    assert ChunkOk(StockOf(from.chunkAt), c.chunk);
    assert PlacementOk(StockOf(from.placementAt), cfg, c.chunk);
    var id := RepairTask(c.chunk);
    CorruptionKeeps(s, w, CurrentSession(from.callerAt, w, now).value, from.chunkAt.chunks[c.chunk],
                    from.placementAt.placements[c.chunk], ObservedTask(from.taskAt, id),
                    if id in from.taskAt.tasks then from.taskAt.tasks[id].attempt else 0,
                    from.observed, from.live, c, cfg, now, at);
  }

  /**
   A committing corruption report marks exactly the listed copies that were
   Ready on the reported device and acknowledged below the reported catalog
   revision; every other copy keeps its record.
   */
  lemma CorruptionMarksExactly(s: State, w: Worker, session: NodeSession, chunk: ChunkObject, p: PlacementRecord,
                               cond: TxnCondition,
                               attempt: nat, observed: seq<CopyRecord>, live: nat, c: Corruption,
                               cfg: ReplicationConfig,
                               now: nat, at: nat, id: CopyId)
    requires StockOk(StockOf(s), cfg) && chunk.id == c.chunk == p.chunk && id in s.copies
    requires CorruptionPlan(w, session, chunk, p, cond, attempt, observed, live, c, cfg, now).Planned?
    requires Commits(s, CorruptionPlan(w, session, chunk, p, cond, attempt, observed, live, c, cfg, now).txn, at)
    ensures c.chunk in s.placements
    ensures var t := Commit(s, CorruptionPlan(w, session, chunk, p, cond, attempt, observed, live, c, cfg, now).txn,
                            at);
      && id in t.copies
      && t.copies[id] == if id in s.placements[c.chunk].copies && Invalidated(s.copies[id], chunk, w.node, c)
                         then s.copies[id].(state := Corrupt) else s.copies[id]
  {
    var changed := Marked(observed, |observed|, chunk, w.node, c);
    CorruptionKeeps(s, w, session, chunk, p, cond, attempt, observed, live, c, cfg, now, at);
    MarkedExactly(s.copies, observed, p, chunk, w.node, c, id);
    PutMarked(s.copies, changed, |changed|, c.chunk, id);
  }

  lemma MarkedExactly(copies: map<CopyId, CopyRecord>, observed: seq<CopyRecord>, p: PlacementRecord,
                      chunk: ChunkObject,
                      node: NodeId, c: Corruption, id: CopyId)
    requires ObservedAsListed(p, observed) && id in copies && AllStored(copies, observed)
    ensures var changed := Marked(observed, |observed|, chunk, node, c);
      IsMarked(changed, |changed|, id) <==> id in p.copies && Invalidated(copies[id], chunk, node, c)
  {
    var changed := Marked(observed, |observed|, chunk, node, c);
    if IsMarked(changed, |changed|, id) {
      var i :| 0 <= i < |changed| && changed[i].id == id;
      MarkedAre(observed, |observed|, chunk, node, c, changed[i]);
      var j :| 0 <= j < |observed| && Invalidated(observed[j], chunk, node, c)
        && changed[i] == observed[j].(state := Corrupt);
      assert p.copies[j] == id;
    }
    if id in p.copies && Invalidated(copies[id], chunk, node, c) {
      var j :| 0 <= j < |p.copies| && p.copies[j] == id;
      assert observed[j] == copies[id];
      MarkedAre(observed, |observed|, chunk, node, c, observed[j].(state := Corrupt));
      var i :| 0 <= i < |changed| && changed[i] == observed[j].(state := Corrupt);
      assert changed[i].id == id;
    }
  }
}
