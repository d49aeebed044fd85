/**
 Repair claims have no ABA: a claim is installed only by a request the log has
 not seen, an unexpired claim of a live worker is not replaced by another
 claim, and a claim once gone never comes back.
 */
module RepairClaims {
  import opened Records
  import opened MetaStore
  import opened NamespacePlans
  import opened Replication
  import opened RepairPlans
  import opened RepairSafety
  import opened FileCommits
  import opened RequestLog

  /** The request that installed a claim. */
  function ClaimKey(c: ReplicationClaim): RequestKey { RequestKey(c.worker, c.operation.text) }

  ghost predicate Claims(s: State, id: TaskId, c: ReplicationClaim) { id in s.tasks && s.tasks[id].claim == Some(c) }

  /** A claim that was not there before comes from a new request. */
  ghost predicate ClaimFresh(s: State, t: State, id: TaskId)
  {
    id in t.tasks && t.tasks[id].claim.Some? && !Claims(s, id, t.tasks[id].claim.value) ==>
      ClaimKey(t.tasks[id].claim.value) !in s.requests && ClaimKey(t.tasks[id].claim.value) in t.requests
  }

  ghost predicate ClaimsFresh(s: State, t: State)
  {
    forall id {:trigger ClaimFresh(s, t, id)} :: ClaimFresh(s, t, id)
  }

  ghost predicate ClaimsLogged(s: State)
  {
    forall id :: id in s.tasks && s.tasks[id].claim.Some? ==> ClaimKey(s.tasks[id].claim.value) in s.requests
  }

  lemma ClaimlessIsFresh(s: State, t: State)
    requires Claimless(s.tasks, t.tasks)
    ensures ClaimsFresh(s, t)
  {
    forall id ensures ClaimFresh(s, t, id) {}
  }

  lemma FreshKeepsLogged(s: State, t: State)
    requires ClaimsLogged(s) && ClaimsFresh(s, t) && LogGrows(s, t)
    ensures ClaimsLogged(t)
  {
    forall id | id in t.tasks && t.tasks[id].claim.Some? ensures ClaimKey(t.tasks[id].claim.value) in t.requests {
      assert ClaimFresh(s, t, id);
    }
  }

  lemma {:induction false} BringAllClaimless(k: Stock, rs: seq<ChunkReceipt>, n: nat, cfg: ReplicationConfig, now: nat)
    requires n <= |rs|
    ensures Claimless(k.tasks, BringAll(k, rs, n, cfg, now).tasks)
  {
    if n > 0 { BringAllClaimless(k, rs, n - 1, cfg, now); }
  }

  lemma ClaimPlain(w: Worker, cond: TxnCondition, p: PlacementRecord, chunk: ChunkObject, source: CopyRecord,
                   cfg: ReplicationConfig, task: ReplicationTask, claim: ReplicationClaim, retired: seq<TxnCondition>)
    ensures Plain(ClaimTxn(w, cond, p, chunk, source, cfg, task, claim, retired), ClaimOutcome(w, Some(claim)))
  {
    var txn := ClaimTxn(w, cond, p, chunk, source, cfg, task, claim, retired);
    assert txn.mutations[1] == RecordOutcome(ClaimOutcome(w, Some(claim)));
  }

  lemma DebtPlain(w: Worker, cond: TxnCondition, p: PlacementRecord, health: PlacementHealth, task: ReplicationTask,
                  more: seq<TxnCondition>, retired: seq<TxnCondition>)
    ensures Plain(DebtTxn(w, cond, p, health, task, more, retired), ClaimOutcome(w, None))
  {
    assert DebtTxn(w, cond, p, health, task, more, retired).mutations[2] == RecordOutcome(ClaimOutcome(w, None));
  }

  /** What a committing claim transaction does to the tasks. */
  ghost predicate ClaimStep(s: State, t: State, w: Worker, task: ReplicationTask)
  {
    || Claimless(s.tasks, t.tasks)
    || (exists claim: ReplicationClaim ::
            ClaimKey(claim) == w.Key() && t.tasks == s.tasks[task.id := ClaimedTask(task, claim)])
  }

  lemma StepIsFresh(s: State, t: State, w: Worker, task: ReplicationTask)
    requires ClaimStep(s, t, w, task) && w.Key() !in s.requests && w.Key() in t.requests
    ensures ClaimsFresh(s, t)
  {
    if Claimless(s.tasks, t.tasks) {
      ClaimlessIsFresh(s, t);
    } else {
      var claim: ReplicationClaim :| ClaimKey(claim) == w.Key()
        && t.tasks == s.tasks[task.id := ClaimedTask(task, claim)];
      forall id ensures ClaimFresh(s, t, id) {}
    }
  }

  /** Everything the claim machine owes on one commit. */
  ghost predicate ClaimDone(s: State, txn: MetaTxn, at: nat, w: Worker, task: ReplicationTask, cond: TxnCondition,
                            retired: seq<TxnCondition>)
  {
    Commits(s, txn, at) ==>
      && Holds(s, cond, at) && (forall i :: 0 <= i < |retired| ==> Holds(s, retired[i], at))
      && w.Key() !in s.requests && w.Key() in Commit(s, txn, at).requests
      && ClaimStep(s, Commit(s, txn, at), w, task)
      && (exists x: ReplicationTask :: x.id == task.id && Commit(s, txn, at).tasks == s.tasks[x.id := x])
  }

  lemma DebtDone(s: State, w: Worker, cond: TxnCondition, p: PlacementRecord, health: PlacementHealth,
                 task: ReplicationTask,
                 after: ReplicationTask, more: seq<TxnCondition>, retired: seq<TxnCondition>, cfg: ReplicationConfig,
                 at: nat)
    requires StockOk(StockOf(s), cfg) && health != Satisfied && OpenTaskFor(cfg, after, p.chunk) && after.claim.None?
    requires after.id == task.id
    ensures ClaimDone(s, DebtTxn(w, cond, p, health, after, more, retired), at, w, task, cond, retired)
  {
    var txn := DebtTxn(w, cond, p, health, after, more, retired);
    if Commits(s, txn, at) {
      ClaimPins(s, w, cond, p, more, retired, at);
      DebtPlain(w, cond, p, health, after, more, retired);
      CommitLogs(s, txn, at, ClaimOutcome(w, None));
      DebtKeeps(s, w, cond, p, health, after, more, retired, cfg, at);
    }
  }

  lemma ClaimingDone(s: State, w: Worker, cond: TxnCondition, p: PlacementRecord, chunk: ChunkObject,
                     source: CopyRecord,
                     cfg: ReplicationConfig, task: ReplicationTask, claim: ReplicationClaim, retired: seq<TxnCondition>,
                     at: nat)
    requires StockOk(StockOf(s), cfg) && OpenTaskFor(cfg, ClaimedTask(task, claim), task.chunk)
    requires ClaimKey(claim) == w.Key()
    ensures ClaimDone(s, ClaimTxn(w, cond, p, chunk, source, cfg, task, claim, retired), at, w, task, cond, retired)
  {
    var txn := ClaimTxn(w, cond, p, chunk, source, cfg, task, claim, retired);
    if Commits(s, txn, at) {
      ClaimPins(s, w, cond, p,
                [EntityEquals(ChunkEntity(chunk)), EntityEquals(CopyEntity(source)), EntityEquals(ConfigEntity(cfg))],
                retired, at);
      ClaimPlain(w, cond, p, chunk, source, cfg, task, claim, retired);
      CommitLogs(s, txn, at, ClaimOutcome(w, Some(claim)));
      ClaimKeeps(s, w, cond, p, chunk, source, cfg, task, claim, retired, at);
      assert ClaimedTask(task, claim).id == task.id;
    }
  }

  /** The condition that pins the task of a planned claim. */
  function PinOf(from: ClaimReads, task: ReplicationTask, p: PlacementRecord, selected: bool): Found<TxnCondition>
  {
    TaskCondition(from.taskAt, task, from.live == 0 || selected || p.health != UnderReplicated)
  }

  lemma PlanClaimForDone(s: State, from: ClaimReads, w: Worker, session: NodeSession, task: ReplicationTask,
                         p: PlacementRecord,
                         retired: seq<TxnCondition>, cfg: ReplicationConfig, leaseSeconds: nat, now: nat, at: nat)
    requires StockOk(StockOf(s), cfg) && StockOk(StockOf(from.chunkAt), cfg)
    requires OpenTaskFor(cfg, task, task.chunk) && p.chunk == task.chunk
    requires PlanClaimFor(from, w, session, task, p, retired, cfg, leaseSeconds, now).Planned?
    ensures var found := Select(from, w, session, task, cfg, now);
      var selected := from.live > 0 && found.Ok? && found.value.Some?;
      && PinOf(from, task, p, selected).Ok?
      && ClaimDone(s, PlanClaimFor(from, w, session, task, p, retired, cfg, leaseSeconds, now).txn, at, w, task,
                   PinOf(from, task, p, selected).value, retired)
  {
    if from.live == 0 {
      var cond := TaskCondition(from.taskAt, task, true).value;
      DebtDone(s, w, cond, p, PlacementBlocked, task, BlockedTask(task, now), [], retired, cfg, at);
    } else {
      match Select(from, w, session, task, cfg, now)
      case Ok(None) =>
        var cond := TaskCondition(from.taskAt, task, p.health != UnderReplicated).value;
        DebtDone(s, w, cond, p, UnderReplicated, task, task, [EntityEquals(ConfigEntity(cfg))], retired, cfg, at);
      case Ok(Some(x)) =>
        var cond := TaskCondition(from.taskAt, task, true).value;
        var claim := NewClaim(w, task, x.chunk, x.source.id, x.group, from.sessionsRevision, cfg, leaseSeconds, now);
        assert ChunkOk(StockOf(from.chunkAt), task.chunk);
        ClaimingDone(s, w, cond, x.placement, x.chunk, x.source, cfg, task, claim, retired, at);
    }
  }

  lemma PlanClaimFresh(s: State, from: ClaimReads, w: Worker, cfg: ReplicationConfig, leaseSeconds: nat, now: nat,
                       at: nat)
    requires StockOk(StockOf(s), cfg) && ClaimReadsOk(from, cfg)
    requires PlanClaim(from, w, cfg, leaseSeconds, now).Planned?
    ensures ClaimsFresh(s, Commit(s, PlanClaim(from, w, cfg, leaseSeconds, now).txn, at))
  {
    CandidateIsOpen(from.placementsAt, from.tasksAt, from.choice, now, cfg);
    var task := Candidate(from.placementsAt.placements, from.tasksAt.tasks, from.choice, now).value;
    var retired := RetiredConditions(from.workerAt, task, now).value;
    var session := CurrentSession(from.callerAt, w, now).value;
    var p := from.placementAt.placements[task.chunk];
    assert PlacementOk(StockOf(from.placementAt), cfg, task.chunk);
    PlanClaimForDone(s, from, w, session, task, p, retired, cfg, leaseSeconds, now, at);
    var txn := PlanClaim(from, w, cfg, leaseSeconds, now).txn;
    if Commits(s, txn, at) {
      StepIsFresh(s, Commit(s, txn, at), w, task);
    } else {
      ClaimlessIsFresh(s, s);
    }
  }

  // --------------------------------------------------------------- live workers

  /** The evidence that a worker had retired fails if its session backs the claim at commit time. */
  lemma RetiredMeansGone(s: State, workerAt: State, task: ReplicationTask, now: nat, at: nat)
    requires RetiredConditions(workerAt, task, now).Ok?
    requires forall i :: 0 <= i < |RetiredConditions(workerAt, task, now).value| ==>
      Holds(s, RetiredConditions(workerAt, task, now).value[i], at)
    requires RevisionsOk(workerAt) && RevisionsAge(workerAt, s) && now <= at
    requires task.claim.Some? && task.claim.value.expires > now
    ensures var c := task.claim.value; !(c.worker in s.current && Backs(s.current[c.worker], c, at))
  {
    var retired := RetiredConditions(workerAt, task, now).value;
    assert Holds(s, retired[0], at);
    assert SessionAges(workerAt, s, task.claim.value.worker);
  }

  /** The stored task a plan pinned, if it has a claim, is the candidate itself. */
  lemma PinnedIsCandidate(s: State, taskAt: State, task: ReplicationTask, same: bool, cfg: ReplicationConfig, at: nat)
    requires StockOk(StockOf(s), cfg) && TaskCondition(taskAt, task, same).Ok?
    requires Holds(s, TaskCondition(taskAt, task, same).value, at)
    requires task.id in s.tasks && s.tasks[task.id].claim.Some?
    requires task.id in taskAt.tasks ==> taskAt.tasks[task.id].id == task.id
    ensures s.tasks[task.id] == task
  {
    assert TaskOk(StockOf(s), cfg, task.id);
  }

  lemma BackedClaimSurvives(s: State, txn: MetaTxn, at: nat, w: Worker, task: ReplicationTask, taskAt: State,
                            same: bool,
                            workerAt: State, now: nat, cfg: ReplicationConfig, id: TaskId, c: ReplicationClaim)
    requires StockOk(StockOf(s), cfg) && TaskCondition(taskAt, task, same).Ok?
    requires RetiredConditions(workerAt, task, now).Ok?
    requires ClaimDone(s, txn, at, w, task, TaskCondition(taskAt, task, same).value,
                       RetiredConditions(workerAt, task, now).value)
    requires task.id in taskAt.tasks ==> taskAt.tasks[task.id].id == task.id
    requires RevisionsOk(workerAt) && RevisionsAge(workerAt, s) && now <= at
    requires Claims(s, id, c) && c.expires > at && c.worker in s.current && Backs(s.current[c.worker], c, at)
    ensures var t := Commit(s, txn, at); id in t.tasks && t.tasks[id] == s.tasks[id]
  {
    if Commits(s, txn, at) && id == task.id {
      PinnedIsCandidate(s, taskAt, task, same, cfg, at);
      RetiredMeansGone(s, workerAt, task, now, at);
    }
  }

  /** An unexpired claim whose worker is current and live survives every other claim request. */
  lemma LiveClaimIsKept(s: State, from: ClaimReads, w: Worker, cfg: ReplicationConfig, leaseSeconds: nat, now: nat,
                        at: nat,
                        id: TaskId, c: ReplicationClaim)
    requires StockOk(StockOf(s), cfg) && ClaimReadsOk(from, cfg) && StockOk(StockOf(from.taskAt), cfg)
    requires RevisionsOk(from.workerAt) && RevisionsAge(from.workerAt, s) && now <= at
    requires PlanClaim(from, w, cfg, leaseSeconds, now).Planned?
    requires Claims(s, id, c) && c.expires > at && c.worker in s.current && Backs(s.current[c.worker], c, at)
    ensures var t := Commit(s, PlanClaim(from, w, cfg, leaseSeconds, now).txn, at);
      id in t.tasks && t.tasks[id] == s.tasks[id]
  {
    CandidateIsOpen(from.placementsAt, from.tasksAt, from.choice, now, cfg);
    var task := Candidate(from.placementsAt.placements, from.tasksAt.tasks, from.choice, now).value;
    var retired := RetiredConditions(from.workerAt, task, now).value;
    var session := CurrentSession(from.callerAt, w, now).value;
    var p := from.placementAt.placements[task.chunk];
    assert PlacementOk(StockOf(from.placementAt), cfg, task.chunk);
    PlanClaimForDone(s, from, w, session, task, p, retired, cfg, leaseSeconds, now, at);
    if task.id in from.taskAt.tasks { assert TaskOk(StockOf(from.taskAt), cfg, task.id); }
    var found := Select(from, w, session, task, cfg, now);
    var selected := from.live > 0 && found.Ok? && found.value.Some?;
    BackedClaimSurvives(s, PlanClaim(from, w, cfg, leaseSeconds, now).txn, at, w, task, from.taskAt,
                        from.live == 0 || selected || p.health != UnderReplicated, from.workerAt, now, cfg, id, c);
  }
}
