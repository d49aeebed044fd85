/**
 Claims, reports and corruption reports keep the replication bookkeeping.
 */
module RepairSafety {
  import opened Records
  import opened MetaStore
  import opened Ordering
  import opened Replication
  import opened RepairPlans

  // ---------------------------------------------------------- on the records

  /** A task record fit to be stored for the chunk: open, and any claim in it is its own. */
  ghost predicate OpenTaskFor(cfg: ReplicationConfig, task: ReplicationTask, c: ChunkId)
  {
    task.id == RepairTask(c) && task.chunk == c && task.state != Completed && ClaimOk(cfg, task)
  }

  lemma TaskPutKeepsStock(k: Stock, cfg: ReplicationConfig, task: ReplicationTask, c: ChunkId)
    requires StockOk(k, cfg) && OpenTaskFor(cfg, task, c)
    ensures StockOk(k.(tasks := k.tasks[task.id := task]), cfg)
  {
    var l := k.(tasks := k.tasks[task.id := task]);
    if c in k.chunks { assert ChunkOk(k, c); }
    if c in k.placements { assert PlacementOk(k, cfg, c); }
    forall id | id in l.copies && id.chunk == c ensures CopyOk(l.copies, id) { assert CopyOk(k.copies, id); }
    FocusKeepsStock(k, l, cfg, c);
  }

  /** Copies of one chunk may change state, and no copy disappears. */
  ghost predicate Restated(m: map<CopyId, CopyRecord>, n: map<CopyId, CopyRecord>, c: ChunkId)
  {
    && CopiesElsewhere(m, n, c)
    && (forall id :: id in m <==> id in n)
    && (forall id :: id in m ==> n[id] == m[id].(state := n[id].state))
  }

  /** An unsatisfied placement needs no Ready copies, only an open task. */
  lemma UnsatisfiedKeepsStock(k: Stock, cfg: ReplicationConfig, p: PlacementRecord, copies: map<CopyId, CopyRecord>,
                              health: PlacementHealth, task: ReplicationTask)
    requires StockOk(k, cfg) && p.chunk in k.placements && k.placements[p.chunk] == p
    requires health != Satisfied && OpenTaskFor(cfg, task, p.chunk) && Restated(k.copies, copies, p.chunk)
    ensures StockOk(Stock(k.chunks, k.placements[p.chunk := p.(health := health)], copies, k.tasks[task.id := task]),
                    cfg)
  {
    var c := p.chunk;
    var l := Stock(k.chunks, k.placements[c := p.(health := health)], copies, k.tasks[task.id := task]);
    assert PlacementOk(k, cfg, c) && ChunkOk(k, c);
    forall id | id in l.copies && id.chunk == c ensures CopyOk(l.copies, id) { assert CopyOk(k.copies, id); }
    FocusKeepsStock(k, l, cfg, c);
  }

  lemma {:induction false} ExtendedHolds(ids: seq<CopyId>, more: seq<CopyId>, x: CopyId)
    ensures x in Extended(ids, more) <==> x in ids || x in more
    decreases |more|
  {
    if more != [] {
      var next := if more[0] in ids then ids else ids + [more[0]];
      ExtendedHolds(next, more[1..], x);
      assert x in more <==> x == more[0] || x in more[1..];
    }
  }

  /** The placement a full report writes. */
  lemma RepairedIsOk(k: Stock, cfg: ReplicationConfig, claim: ReplicationClaim, acks: seq<ReplicaAck>,
                     task: ReplicationTask)
    requires StockOk(k, cfg) && ContentDerived(claim.chunk) && claim.chunk.id in k.placements
    requires claim.config.desired == cfg.desired
    requires Proven(acks, claim.chunk) && |acks| >= cfg.desired
    ensures var c := claim.chunk.id; var copies := CopiesOf(acks, c); var p := k.placements[c];
      var q := RepairedPlacement(p, claim, Extended(p.copies, IdsOf(copies)));
      var l := Stock(k.chunks, k.placements[c := q], PutCopies(k.copies, copies, |copies|), k.tasks[task.id := task]);
      PlacementOk(l, cfg, c) && CopiesElsewhere(k.copies, l.copies, c) && CopiesHere(l.copies, c)
  {
    var c := claim.chunk.id;
    var copies := CopiesOf(acks, c);
    var p := k.placements[c];
    var ids := Extended(p.copies, IdsOf(copies));
    var after := PutCopies(k.copies, copies, |copies|);
    assert PlacementOk(k, cfg, c);
    forall id | id in k.copies && id.chunk == c ensures CopyOk(k.copies, id) {}
    AckedCopies(k.copies, acks, claim.chunk);
    forall i | 0 <= i < |ids| ensures ids[i] in after && ids[i].chunk == c {
      ExtendedIsListed(k, p, acks, claim.chunk, ids[i]);
    }
    forall i | 0 <= i < |acks| ensures IsReady(after, CopyOf(acks[i], c).id) && CopyOf(acks[i], c).id in ids {
      assert IdsOf(copies)[i] == CopyOf(acks[i], c).id;
      ExtendedHolds(p.copies, IdsOf(copies), CopyOf(acks[i], c).id);
    }
    AckedNodesReady(after, acks, claim.chunk, ids);
    ExtendedNodes(p.copies, IdsOf(copies));
  }

  lemma ExtendedNodes(ids: seq<CopyId>, more: seq<CopyId>)
    ensures |Nodes(ids)| <= |Nodes(Extended(ids, more))|
  {
    forall x | x in Nodes(ids) ensures x in Nodes(Extended(ids, more)) {
      var i :| 0 <= i < |ids| && ids[i].node == x;
      ExtendedHolds(ids, more, ids[i]);
      var j :| 0 <= j < |Extended(ids, more)| && Extended(ids, more)[j] == ids[i];
    }
    Larger(Nodes(ids), Nodes(Extended(ids, more)));
  }

  lemma {:induction false} ExtendedIsListed(k: Stock, p: PlacementRecord, acks: seq<ReplicaAck>, chunk: ChunkObject,
                                            x: CopyId)
    requires ListOk(k.copies, p) && p.chunk == chunk.id && Proven(acks, chunk)
    requires x in Extended(p.copies, IdsOf(CopiesOf(acks, chunk.id)))
    ensures x in PutCopies(k.copies, CopiesOf(acks, chunk.id), |acks|) && x.chunk == chunk.id
  {
    var ids := IdsOf(CopiesOf(acks, chunk.id));
    ExtendedHolds(p.copies, ids, x);
    if x in ids {
      var i :| 0 <= i < |ids| && ids[i] == x;
      PutCopiesAt(k.copies, acks, chunk, |acks|, i);
    } else {
      PutCopiesGrow(k.copies, CopiesOf(acks, chunk.id), |acks|);
    }
  }

  lemma RepairedKeepsStock(k: Stock, cfg: ReplicationConfig, claim: ReplicationClaim, acks: seq<ReplicaAck>,
                           task: ReplicationTask)
    requires StockOk(k, cfg) && ContentDerived(claim.chunk) && claim.chunk.id in k.placements
    requires claim.config.desired == cfg.desired
    requires Proven(acks, claim.chunk) && |acks| >= cfg.desired
    requires task.id == RepairTask(claim.chunk.id) && task.chunk == claim.chunk.id && task.claim == None
    ensures var c := claim.chunk.id; var copies := CopiesOf(acks, c); var p := k.placements[c];
      var q := RepairedPlacement(p, claim, Extended(p.copies, IdsOf(copies)));
      StockOk(Stock(k.chunks, k.placements[c := q], PutCopies(k.copies, copies, |copies|), k.tasks[task.id := task]),
              cfg)
  {
    var c := claim.chunk.id;
    var copies := CopiesOf(acks, c);
    var p := k.placements[c];
    var q := RepairedPlacement(p, claim, Extended(p.copies, IdsOf(copies)));
    RepairedIsOk(k, cfg, claim, acks, task);
    assert PlacementOk(k, cfg, c) && ChunkOk(k, c);
    FocusKeepsStock(k,
                    Stock(k.chunks, k.placements[c := q], PutCopies(k.copies, copies, |copies|),
                          k.tasks[task.id := task]),
                    cfg, c);
  }

  // ------------------------------------------------------------- marked copies

  /** Exactly the invalidated copies of the list are marked. */
  lemma {:induction false} MarkedAre(copies: seq<CopyRecord>, n: nat, chunk: ChunkObject, node: NodeId, c: Corruption,
                                     x: CopyRecord)
    requires n <= |copies|
    ensures x in Marked(copies, n, chunk, node, c) <==>
      exists i :: 0 <= i < n && Invalidated(copies[i], chunk, node, c) && x == copies[i].(state := Corrupt)
  {
    if n > 0 {
      MarkedAre(copies, n - 1, chunk, node, c, x);
    }
  }

  /** Copies read from the map, to be written back as Corrupt. */
  ghost predicate MarkedFrom(m: map<CopyId, CopyRecord>, changed: seq<CopyRecord>, c: ChunkId)
  {
    forall i :: 0 <= i < |changed| ==>
      changed[i].id in m && changed[i].id.chunk == c && changed[i] == m[changed[i].id].(state := Corrupt)
  }

  ghost predicate IsMarked(changed: seq<CopyRecord>, n: nat, id: CopyId)
    requires n <= |changed|
  {
    exists i :: 0 <= i < n && changed[i].id == id
  }

  lemma {:induction false} PutMarked(m: map<CopyId, CopyRecord>, changed: seq<CopyRecord>, n: nat, c: ChunkId,
                                     id: CopyId)
    requires n <= |changed| && MarkedFrom(m, changed, c)
    ensures id in PutCopies(m, changed, n) <==> id in m
    ensures id in m ==>
      PutCopies(m, changed, n)[id] == if IsMarked(changed, n, id) then m[id].(state := Corrupt) else m[id]
    ensures IsMarked(changed, n, id) ==> id.chunk == c
  {
    if n > 0 {
      PutMarked(m, changed, n - 1, c, id);
      assert IsMarked(changed, n, id) <==> IsMarked(changed, n - 1, id) || changed[n - 1].id == id;
    }
  }

  lemma {:induction false} MarkingRestates(m: map<CopyId, CopyRecord>, changed: seq<CopyRecord>, c: ChunkId)
    requires MarkedFrom(m, changed, c)
    ensures Restated(m, PutCopies(m, changed, |changed|), c)
  {
    var n := PutCopies(m, changed, |changed|);
    forall id ensures (id in m <==> id in n) && (id in m ==> n[id] == m[id].(state := n[id].state))
              ensures id.chunk != c && id in m ==> n[id] == m[id] {
      PutMarked(m, changed, |changed|, c, id);
    }
  }

  // ---------------------------------------------------------- transactions

  lemma CommitStock(s: State, txn: MetaTxn, at: nat)
    requires Commits(s, txn, at)
    ensures StockOf(Commit(s, txn, at)) == StockAfter(StockOf(s), txn.mutations)
  {
  }

  lemma TailEffect(k: Stock, task: ReplicationTask, o: RequestOutcome)
    ensures StockAfter(k, [Put(TaskEntity(task)), RecordOutcome(o)]) == k.(tasks := k.tasks[task.id := task])
  {
    var tail := [RecordOutcome(o)];
    assert [Put(TaskEntity(task)), RecordOutcome(o)] == [Put(TaskEntity(task))] + tail;
    StockAppend(k, [Put(TaskEntity(task))], tail);
    TaskPutEffect(k, task);
    StockSpared(k.(tasks := k.tasks[task.id := task]), tail);
  }

  lemma PlacementAndTask(k: Stock, p: PlacementRecord, task: ReplicationTask, o: RequestOutcome)
    ensures StockAfter(k, [Put(PlacementEntity(p)), Put(TaskEntity(task)), RecordOutcome(o)])
      == k.(placements := k.placements[p.chunk := p], tasks := k.tasks[task.id := task])
  {
    var tail := [Put(TaskEntity(task)), RecordOutcome(o)];
    assert [Put(PlacementEntity(p)), Put(TaskEntity(task)), RecordOutcome(o)] == [Put(PlacementEntity(p))] + tail;
    StockAppend(k, [Put(PlacementEntity(p))], tail);
    PlacementPutEffect(k, p);
    TailEffect(k.(placements := k.placements[p.chunk := p]), task, o);
  }

  /** Each task is as before, or has no claim. */
  ghost predicate Claimless(before: map<TaskId, ReplicationTask>, after: map<TaskId, ReplicationTask>)
  {
    forall t :: t in after ==> (t in before && after[t] == before[t]) || after[t].claim.None?
  }

  const REPAIR := {OfRequests, OfPlacements, OfCopies, OfTasks}

  /** A candidate is an open task for its chunk, and only a running one has a claim. */
  lemma CandidateIsOpen(placementsAt: State, tasksAt: State, choice: Choice, now: nat, cfg: ReplicationConfig)
    requires StockOk(StockOf(placementsAt), cfg) && StockOk(StockOf(tasksAt), cfg)
    requires Candidate(placementsAt.placements, tasksAt.tasks, choice, now).Some?
    ensures var task := Candidate(placementsAt.placements, tasksAt.tasks, choice, now).value;
      OpenTaskFor(cfg, task, task.chunk)
  {
    match choice
    case OpenTask(t) => assert TaskOk(StockOf(tasksAt), cfg, t);
    case Debt(c) =>
      assert PlacementOk(StockOf(placementsAt), cfg, c);
      if RepairTask(c) in tasksAt.tasks { assert TaskOk(StockOf(tasksAt), cfg, RepairTask(c)); }
  }

  lemma ClaimPins(s: State, w: Worker, cond: TxnCondition, p: PlacementRecord, more: seq<TxnCondition>,
                  retired: seq<TxnCondition>, at: nat)
    requires AllHold(s, ClaimConditions(w, cond, p, more, retired), at)
    ensures Holds(s, cond, at) && p.chunk in s.placements && s.placements[p.chunk] == p
    ensures forall i :: 0 <= i < |more| ==> Holds(s, more[i], at)
    ensures forall i :: 0 <= i < |retired| ==> Holds(s, retired[i], at)
  {
    var cs := ClaimConditions(w, cond, p, more, retired);
    EachHolds(s, cs, at, 1);
    assert Holds(s, EntityEquals(PlacementEntity(p)), at) by { EachHolds(s, cs, at, 2); }
    forall i | 0 <= i < |more| ensures Holds(s, more[i], at) {
      assert cs[4 + i] == more[i];
      EachHolds(s, cs, at, 4 + i);
    }
    forall i | 0 <= i < |retired| ensures Holds(s, retired[i], at) {
      assert cs[4 + |more| + i] == retired[i];
      EachHolds(s, cs, at, 4 + |more| + i);
    }
  }

  /** Recording debt without a claim. */
  lemma DebtKeeps(s: State, w: Worker, cond: TxnCondition, p: PlacementRecord, health: PlacementHealth,
                  task: ReplicationTask,
                  more: seq<TxnCondition>, retired: seq<TxnCondition>, cfg: ReplicationConfig, at: nat)
    requires StockOk(StockOf(s), cfg) && health != Satisfied && OpenTaskFor(cfg, task, p.chunk) && task.claim.None?
    ensures var txn := DebtTxn(w, cond, p, health, task, more, retired); var t := Commit(s, txn, at);
      && StockOk(StockOf(t), cfg) && OnlyChanged(s, t, REPAIR)
      && (Commits(s, txn, at) ==> t.tasks == s.tasks[task.id := task])
  {
    var txn := DebtTxn(w, cond, p, health, task, more, retired);
    CommitFrame(s, txn, at, REPAIR);
    if Commits(s, txn, at) {
      ClaimPins(s, w, cond, p, more, retired, at);
      CommitStock(s, txn, at);
      PlacementAndTask(StockOf(s), p.(health := health), task, ClaimOutcome(w, None));
      UnsatisfiedKeepsStock(StockOf(s), cfg, p, s.copies, health, task);
    }
  }

  lemma ClaimKeeps(s: State, w: Worker, cond: TxnCondition, p: PlacementRecord, chunk: ChunkObject, source: CopyRecord,
                   cfg: ReplicationConfig, task: ReplicationTask, claim: ReplicationClaim, retired: seq<TxnCondition>,
                   at: nat)
    requires StockOk(StockOf(s), cfg) && OpenTaskFor(cfg, ClaimedTask(task, claim), task.chunk)
    ensures var txn := ClaimTxn(w, cond, p, chunk, source, cfg, task, claim, retired); var t := Commit(s, txn, at);
      && StockOk(StockOf(t), cfg) && OnlyChanged(s, t, REPAIR)
      && (Commits(s, txn, at) ==> t.tasks == s.tasks[task.id := ClaimedTask(task, claim)])
  {
    var txn := ClaimTxn(w, cond, p, chunk, source, cfg, task, claim, retired);
    CommitFrame(s, txn, at, REPAIR);
    if Commits(s, txn, at) {
      CommitStock(s, txn, at);
      TailEffect(StockOf(s), ClaimedTask(task, claim), ClaimOutcome(w, Some(claim)));
      TaskPutKeepsStock(StockOf(s), cfg, ClaimedTask(task, claim), task.chunk);
    }
  }

  /** Every state a claim reads satisfies the bookkeeping under one config. */
  ghost predicate ClaimReadsOk(from: ClaimReads, cfg: ReplicationConfig)
  {
    && StockOk(StockOf(from.placementsAt), cfg) && StockOk(StockOf(from.tasksAt), cfg)
    && StockOk(StockOf(from.placementAt), cfg) && StockOk(StockOf(from.chunkAt), cfg)
  }

  lemma PlanClaimKeeps(s: State, from: ClaimReads, w: Worker, cfg: ReplicationConfig, leaseSeconds: nat, now: nat,
                       at: nat)
    requires StockOk(StockOf(s), cfg) && ClaimReadsOk(from, cfg)
    requires PlanClaim(from, w, cfg, leaseSeconds, now).Planned?
    ensures var t := Commit(s, PlanClaim(from, w, cfg, leaseSeconds, now).txn, at);
      StockOk(StockOf(t), cfg) && OnlyChanged(s, t, REPAIR)
  {
    CandidateIsOpen(from.placementsAt, from.tasksAt, from.choice, now, cfg);
    var task := Candidate(from.placementsAt.placements, from.tasksAt.tasks, from.choice, now).value;
    var retired := RetiredConditions(from.workerAt, task, now).value;
    var session := CurrentSession(from.callerAt, w, now).value;
    var p := from.placementAt.placements[task.chunk];
    assert PlacementOk(StockOf(from.placementAt), cfg, task.chunk);
    PlanClaimForKeeps(s, from, w, session, task, p, retired, cfg, leaseSeconds, now, at);
  }

  lemma PlanClaimForKeeps(s: State, from: ClaimReads, w: Worker, session: NodeSession, task: ReplicationTask,
                          p: PlacementRecord,
                          retired: seq<TxnCondition>, cfg: ReplicationConfig, leaseSeconds: nat, now: nat, at: nat)
    requires StockOk(StockOf(s), cfg) && StockOk(StockOf(from.chunkAt), cfg)
    requires OpenTaskFor(cfg, task, task.chunk) && p.chunk == task.chunk
    requires PlanClaimFor(from, w, session, task, p, retired, cfg, leaseSeconds, now).Planned?
    ensures var t := Commit(s, PlanClaimFor(from, w, session, task, p, retired, cfg, leaseSeconds, now).txn, at);
      StockOk(StockOf(t), cfg) && OnlyChanged(s, t, REPAIR)
  {
    if from.live == 0 {
      var cond := TaskCondition(from.taskAt, task, true).value;
      DebtKeeps(s, w, cond, p, PlacementBlocked, BlockedTask(task, now), [], retired, cfg, at);
    } else {
      match Select(from, w, session, task, cfg, now)
      case Ok(None) =>
        var cond := TaskCondition(from.taskAt, task, p.health != UnderReplicated).value;
        DebtKeeps(s, w, cond, p, UnderReplicated, task, [EntityEquals(ConfigEntity(cfg))], retired, cfg, at);
      case Ok(Some(x)) =>
        var cond := TaskCondition(from.taskAt, task, true).value;
        var claim := NewClaim(w, task, x.chunk, x.source.id, x.group, from.sessionsRevision, cfg, leaseSeconds, now);
        assert ChunkOk(StockOf(from.chunkAt), task.chunk);
        ClaimKeeps(s, w, cond, x.placement, x.chunk, x.source, cfg, task, claim, retired, at);
    }
  }
}
