/**
 The replication-repair state machine (src/meta/dfs.rs): claiming a repair
 task, reporting on a claim, and reporting a corrupt chunk.  Each plan reads
 earlier states one record at a time and returns the transaction it submits.

 Which nodes are alive decides some branches.  Those decisions rest on several
 separate session reads, so they enter as plain values (`live`, `sessions`,
 `group`) about which nothing is assumed.
 */
module RepairPlans {
  import opened Records
  import opened MetaStore
  import opened NamespacePlans
  import opened Replication
  import opened FileCommits

  // ------------------------------------------------------------- who may serve

  predicate DeviceServes(d: Device, at: CopyLocation, epoch: nat)
    requires at.OnNode?
  {
    d.id == at.device && d.epoch == at.deviceEpoch && (epoch == at.nodeEpoch || d.catalogRevision >= at.catalogRevision)
  }

  /** `serving_read_copy`: a later process may serve a copy only from a catalog that covers it. */
  predicate Serves(copy: CopyRecord, session: NodeSession, now: nat)
  {
    && copy.location.OnNode? && copy.IsReadyDurable()
    && copy.location.node == session.node
    && copy.location.nodeEpoch != 0 && session.epoch >= copy.location.nodeEpoch
    && session.IsLive(now)
    && exists i :: 0 <= i < |session.devices| && DeviceServes(session.devices[i], copy.location, session.epoch)
  }

  function ServingCopy(copy: CopyRecord, session: NodeSession, now: nat): Option<CopyRecord>
  {
    if Serves(copy, session, now) then Some(copy.(location := copy.location.(nodeEpoch := session.epoch))) else None
  }

  predicate MatchesChunk(copy: CopyRecord, chunk: ChunkObject)
  {
    copy.chunk == chunk.id && copy.persistedBytes == chunk.length && copy.digest == chunk.digest
  }

  datatype Worker = Worker(node: NodeId, epoch: nat, session: SessionId, operation: OperationId, digest: Digest)
  {
    function Key(): RequestKey { RequestKey(node, operation.text) }

    predicate IsValid() { Key().IsValid() && session != "" && epoch != 0 }
  }

  /** `current_session` */
  function CurrentSession(s: State, w: Worker, now: nat): Found<NodeSession>
  {
    if w.node in s.current && s.current[w.node].IsLive(now)
       && s.current[w.node].epoch == w.epoch && s.current[w.node].session == w.session
    then Ok(s.current[w.node]) else Err(Conflict)
  }

  // ----------------------------------------------------------------- candidates

  /** A stored open task, or debt a placement shows that no open task covers. */
  datatype Choice = OpenTask(task: TaskId) | Debt(chunk: ChunkId)

  predicate Covered(tasks: map<TaskId, ReplicationTask>, c: ChunkId)
  {
    exists t :: t in tasks && tasks[t].state != Completed && tasks[t].chunk == c
  }

  function Reactivated(done: ReplicationTask, p: PlacementRecord, now: nat): ReplicationTask
  {
    done.(chunk := p.chunk, epoch := p.epoch, desired := p.desired, existing := p.copies, state := Pending,
          nextRetry := now, lastError := None, claim := None)
  }

  function Candidate(placements: map<ChunkId, PlacementRecord>, tasks: map<TaskId, ReplicationTask>, choice: Choice,
                     now: nat)
    : Option<ReplicationTask>
  {
    match choice
    case OpenTask(t) => if t in tasks && tasks[t].state != Completed then Some(tasks[t]) else None
    case Debt(c) =>
      if c !in placements || Covered(tasks, placements[c].chunk) then None
      else
        var p := placements[c];
        var id := RepairTask(p.chunk);
        if id in tasks then Some(Reactivated(tasks[id], p, now))
        else Some(PendingTask(p.chunk, p.epoch, p.desired, p.copies, 0, now))
  }

  predicate Claimable(task: ReplicationTask, now: nat)
  {
    match task.state
    case Pending => true
    case Running => true
    case RetryWaiting => task.nextRetry <= now
    case TaskBlocked => task.nextRetry <= now
    case Completed => false
  }

  /** The stored session still backs the claim. */
  predicate Backs(session: NodeSession, claim: ReplicationClaim, now: nat)
  {
    session.session == claim.workerSession && session.epoch == claim.workerEpoch && session.IsLive(now)
  }

  /** What must stay true for an unexpired claim to count as abandoned; an error if its worker is alive. */
  function RetiredConditions(workerAt: State, task: ReplicationTask, now: nat): Found<seq<TxnCondition>>
  {
    if task.claim.None? || task.claim.value.expires <= now then Ok([])
    else
      var claim := task.claim.value;
      var pointer := CurrentSessionAt(claim.worker);
      if claim.worker !in workerAt.current then Ok([Missing(pointer)])
      else if Backs(workerAt.current[claim.worker], claim, now) then Err(Conflict)
      else
        Ok([ RevisionEquals(pointer, if pointer in workerAt.modRev then workerAt.modRev[pointer] else 0),
             EntityEquals(SessionEntity(workerAt.current[claim.worker])) ])
  }

  predicate ReactivatesCompleted(task: ReplicationTask, current: ReplicationTask)
  {
    current.id == task.id && current.chunk == task.chunk && current.state == Completed && task.state == Pending
  }

  /** The stored task must still be the one the candidate was made from. */
  function TaskCondition(taskAt: State, task: ReplicationTask, sameAllowed: bool): Found<TxnCondition>
  {
    if task.id !in taskAt.tasks then Ok(Missing(TaskAt(task.id)))
    else
      var current := taskAt.tasks[task.id];
      if (sameAllowed && current == task) || ReactivatesCompleted(task, current)
      then Ok(EntityEquals(TaskEntity(current))) else Err(Conflict)
  }

  // ---------------------------------------------------------------------- claim

  function ClaimConditions(w: Worker, task: TxnCondition, placement: PlacementRecord,
                           more: seq<TxnCondition>, retired: seq<TxnCondition>): seq<TxnCondition>
  {
    [ RequestAbsent(w.Key()), task, EntityEquals(PlacementEntity(placement)), NodeSessionCurrent(w.node, w.session) ]
    + more + retired
  }

  function ClaimOutcome(w: Worker, claim: Option<ReplicationClaim>): RequestOutcome
  {
    RequestOutcome(w.Key(), DfsClaimReplicationTask, ClaimResult(w.digest, claim))
  }

  /** Repair debt recorded without a claim: the placement's health and the task change together. */
  function DebtTxn(w: Worker, cond: TxnCondition, placement: PlacementRecord, health: PlacementHealth,
                   task: ReplicationTask,
                   more: seq<TxnCondition>, retired: seq<TxnCondition>): MetaTxn
  {
    MetaTxn(w.Key(), DfsClaimReplicationTask, ClaimConditions(w, cond, placement, more, retired),
            [ Put(PlacementEntity(placement.(health := health))), Put(TaskEntity(task)),
              RecordOutcome(ClaimOutcome(w, None)) ])
  }

  function BlockedTask(task: ReplicationTask, now: nat): ReplicationTask
  {
    task.(state := TaskBlocked, claim := None, nextRetry := SatAdd64(now, 5000), lastError := Some("no live source"))
  }

  /** The first copy of the placement that the caller itself can serve. */
  function FindSource(copyAt: State, ids: seq<CopyId>, chunk: ChunkObject, session: NodeSession,
                      now: nat): Found<Option<CopyRecord>>
  {
    if ids == [] then Ok(None)
    else if ids[0] !in copyAt.copies then Err(NotFound)
    else if MatchesChunk(copyAt.copies[ids[0]], chunk) && Serves(copyAt.copies[ids[0]], session, now)
    then Ok(Some(copyAt.copies[ids[0]]))
    else FindSource(copyAt, ids[1..], chunk, session, now)
  }

  function RepairConfig(cfg: ReplicationConfig): ReplicationConfig { cfg.(sync := cfg.desired, local := Required) }

  datatype ClaimReads = ClaimReads(
    callerAt: State, configAt: State, placementsAt: State, tasksAt: State, workerAt: State, placementAt: State,
    chunkAt: State, buildAt: State, copyAt: State, taskAt: State,
    choice: Choice, live: nat, group: Option<ReplicaGroup>, sessionsRevision: nat)

  function NextAttempt(n: nat): nat { Min(n + 1, MAX32) }

  function NewClaim(w: Worker, task: ReplicationTask, chunk: ChunkObject, source: CopyId, group: ReplicaGroup,
                    revision: nat, cfg: ReplicationConfig, leaseSeconds: nat, now: nat): ReplicationClaim
  {
    ReplicationClaim(task.id, w.operation, w.node, w.epoch, w.session,
                     SatAdd64(now, Max(1, Min(leaseSeconds, 120)) * 1000), NextAttempt(task.attempt),
                     chunk, source, revision, group, RepairConfig(cfg))
  }

  function ClaimedTask(task: ReplicationTask, claim: ReplicationClaim): ReplicationTask
  {
    task.(state := Running, attempt := NextAttempt(task.attempt), claim := Some(claim), lastError := None,
          nextRetry := claim.expires)
  }

  function ClaimTxn(w: Worker, cond: TxnCondition, placement: PlacementRecord, chunk: ChunkObject, source: CopyRecord,
                    cfg: ReplicationConfig, task: ReplicationTask, claim: ReplicationClaim,
                    retired: seq<TxnCondition>): MetaTxn
  {
    MetaTxn(w.Key(), DfsClaimReplicationTask,
            ClaimConditions(w, cond, placement,
                            [ EntityEquals(ChunkEntity(chunk)), EntityEquals(CopyEntity(source)),
                              EntityEquals(ConfigEntity(cfg)) ],
                            retired),
            [ Put(TaskEntity(ClaimedTask(task, claim))), RecordOutcome(ClaimOutcome(w, Some(claim))) ])
  }

  /** `build_replication_claim`: the placement, chunk and source a claim is built from, or nothing. */
  datatype Selection = Selection(chunk: ChunkObject, placement: PlacementRecord, source: CopyRecord,
                                 group: ReplicaGroup)

  function Select(from: ClaimReads, w: Worker, session: NodeSession, task: ReplicationTask, cfg: ReplicationConfig,
                  now: nat)
    : Found<Option<Selection>>
  {
    if task.chunk !in from.chunkAt.chunks then Err(NotFound)
    else if task.chunk !in from.buildAt.placements then Ok(None)
    else
      var chunk := from.chunkAt.chunks[task.chunk];
      var placement := from.buildAt.placements[task.chunk];
      if placement.epoch != task.epoch then Ok(None)
      else
        match FindSource(from.copyAt, placement.copies, chunk, session, now)
        case Err(why) => Err(why)
        case Ok(source) =>
          if source.None? || from.group.None? then Ok(None)
          else if |from.group.value.targets| < cfg.desired || |from.group.value.targets| == 0
               || from.group.value.targets[0].node != w.node || from.group.value.targets[0].nodeEpoch != w.epoch
          then Err(Conflict)
          else Ok(Some(Selection(chunk, placement, source.value, from.group.value)))
  }

  /** `claim_replication_task`, for the candidate it settles on; a refusal passes to the next candidate. */
  function PlanClaim(from: ClaimReads, w: Worker, cfg: ReplicationConfig, leaseSeconds: nat, now: nat): Plan
  {
    var session := CurrentSession(from.callerAt, w, now);
    var candidate := Candidate(from.placementsAt.placements, from.tasksAt.tasks, from.choice, now);
    if !w.IsValid() then Refused(Invalid)
    else if session.Err? then Refused(session.why)
    else if session.value.devices == [] then Refused(Conflict)
    else if from.configAt.config.Some? && from.configAt.config.value != cfg then Refused(Conflict)
    else if candidate.None? || !Claimable(candidate.value, now) then Refused(NotFound)
    else
      match RetiredConditions(from.workerAt, candidate.value, now)
      case Err(why) => Refused(why)
      case Ok(retired) =>
        if candidate.value.chunk !in from.placementAt.placements then Refused(NotFound)
        else PlanClaimFor(from, w, session.value, candidate.value, from.placementAt.placements[candidate.value.chunk],
                          retired, cfg, leaseSeconds, now)
  }

  function PlanClaimFor(from: ClaimReads, w: Worker, session: NodeSession, task: ReplicationTask,
                        placement: PlacementRecord,
                        retired: seq<TxnCondition>, cfg: ReplicationConfig, leaseSeconds: nat, now: nat): Plan
  {
    if from.live == 0 then
      if task.state == TaskBlocked && placement.health == PlacementBlocked then Refused(NotFound)
      else
        match TaskCondition(from.taskAt, task, true)
        case Err(why) => Refused(why)
        case Ok(cond) => Planned(DebtTxn(w, cond, placement, PlacementBlocked, BlockedTask(task, now), [], retired))
    else
      match Select(from, w, session, task, cfg, now)
      case Err(why) => Refused(why)
      case Ok(None) =>
        if task.state != Pending then Refused(NotFound)
        else
          (match TaskCondition(from.taskAt, task, placement.health != UnderReplicated)
           case Err(why) => Refused(why)
           case Ok(cond) => Planned(DebtTxn(w, cond, placement, UnderReplicated, task,
                                            [EntityEquals(ConfigEntity(cfg))], retired)))
      case Ok(Some(x)) =>
        match TaskCondition(from.taskAt, task, true)
        case Err(why) => Refused(why)
        case Ok(cond) =>
          Planned(ClaimTxn(w, cond, x.placement, x.chunk, x.source, cfg, task,
                           NewClaim(w, task, x.chunk, x.source.id, x.group, from.sessionsRevision, cfg, leaseSeconds,
                                    now), retired))
  }

  // --------------------------------------------------------------------- report

  datatype Report = SourceInvalid | Failed(error: string) | Repaired(acks: seq<ReplicaAck>)

  datatype ReportReads = ReportReads(
    callerAt: State, taskAt: State, placementAt: State, chunkAt: State, copyAt: State, configAt: State,
    live: nat, sessions: map<NodeId, NodeSession>)

  function FindTarget(targets: seq<ReplicaTarget>, ack: ReplicaAck): Option<ReplicaTarget>
  {
    if targets == [] then None
    else if targets[0].node == ack.node && targets[0].nodeEpoch == ack.nodeEpoch
         && targets[0].device.id == ack.device && targets[0].device.epoch == ack.deviceEpoch then Some(targets[0])
    else FindTarget(targets[1..], ack)
  }

  predicate RepairAckOk(claim: ReplicationClaim, ack: ReplicaAck, sessions: map<NodeId, NodeSession>, now: nat)
  {
    && ack.operation == claim.operation && ack.chunk == claim.chunk.id
    && ack.placementRevision == claim.placementRevision && ack.placementEpoch == claim.group.epoch
    && ack.persistedBytes == claim.chunk.length && ack.digest == claim.chunk.digest
    && FindTarget(claim.group.targets, ack).Some?
    && AckDevice(ack, sessions, now).Some?
    && ack.catalogRevision >= FindTarget(claim.group.targets, ack).value.device.catalogRevision
  }

  ghost predicate RepairAcksOk(claim: ReplicationClaim, acks: seq<ReplicaAck>, n: nat,
                               sessions: map<NodeId, NodeSession>, now: nat)
    requires n <= |acks|
  {
    && (forall i :: 0 <= i < n ==> RepairAckOk(claim, acks[i], sessions, now))
    && (forall i, j :: 0 <= i < j < n ==> acks[i].node != acks[j].node)
  }

  ghost predicate RepairProven(claim: ReplicationClaim, acks: seq<ReplicaAck>, sessions: map<NodeId, NodeSession>,
                               now: nat)
  {
    && |acks| >= claim.config.desired
    && RepairAcksOk(claim, acks, |acks|, sessions, now)
    && |AckNodes(acks, |acks|)| >= claim.config.minNodes
    && |AckDomains(acks, |acks|, sessions, now)| >= claim.config.minDomains
    && claim.worker in AckNodes(acks, |acks|)
  }

  lemma RepairAcksNext(claim: ReplicationClaim, acks: seq<ReplicaAck>, i: nat, sessions: map<NodeId, NodeSession>,
                       now: nat)
    requires i < |acks| && RepairAcksOk(claim, acks, i, sessions, now)
    ensures RepairAcksOk(claim, acks, i + 1, sessions, now) <==>
      RepairAckOk(claim, acks[i], sessions, now) && acks[i].node !in AckNodes(acks, i)
    ensures RepairAcksOk(claim, acks, |acks|, sessions, now) ==> RepairAcksOk(claim, acks, i + 1, sessions, now)
    ensures AckNodes(acks, i + 1) == AckNodes(acks, i) + {acks[i].node}
    ensures AckDevice(acks[i], sessions, now).Some? ==>
      AckDomains(acks, i + 1, sessions, now)
      == AckDomains(acks, i, sessions, now) + {AckDevice(acks[i], sessions, now).value.domain}
    ensures CopiesOf(acks[..i + 1], claim.chunk.id)
      == CopiesOf(acks[..i], claim.chunk.id) + [CopyOf(acks[i], claim.chunk.id)]
  {
  }

  /** `validate_repair_acks` */
  method ValidateRepairAcks(claim: ReplicationClaim, acks: seq<ReplicaAck>, sessions: map<NodeId, NodeSession>,
                            now: nat)
    returns (copies: Option<seq<CopyRecord>>)
    ensures copies.Some? <==> RepairProven(claim, acks, sessions, now)
    ensures copies.Some? ==> copies.value == CopiesOf(acks, claim.chunk.id)
  {
    if |acks| < claim.config.desired { return None; }
    var nodes, domains, made := {}, {}, [];
    for i := 0 to |acks|
      invariant RepairAcksOk(claim, acks, i, sessions, now)
      invariant nodes == AckNodes(acks, i) && domains == AckDomains(acks, i, sessions, now)
      invariant made == CopiesOf(acks[..i], claim.chunk.id)
    {
      RepairAcksNext(claim, acks, i, sessions, now);
      if acks[i].node in nodes || !RepairAckOk(claim, acks[i], sessions, now) { return None; }
      nodes := nodes + {acks[i].node};
      domains := domains + {AckDevice(acks[i], sessions, now).value.domain};
      made := made + [CopyOf(acks[i], claim.chunk.id)];
    }
    assert acks[..|acks|] == acks;
    if |nodes| < claim.config.minNodes || |domains| < claim.config.minDomains || claim.worker !in nodes { return None; }
    return Some(made);
  }

  /** The placement's list with the accepted copies appended once each. */
  function Extended(ids: seq<CopyId>, more: seq<CopyId>): seq<CopyId>
    decreases |more|
  {
    if more == [] then ids
    else Extended(if more[0] in ids then ids else ids + [more[0]], more[1..])
  }

  function Backoff(attempt: nat): nat
  {
    1000 * (match Min(attempt, 6)
            case 0 => 1 case 1 => 2 case 2 => 4 case 3 => 8 case 4 => 16 case 5 => 32 case _ => 64)
  }

  function AckConditions(acks: seq<ReplicaAck>, sessions: map<NodeId, NodeSession>): seq<TxnCondition>
    requires forall i :: 0 <= i < |acks| ==> acks[i].node in sessions
  {
    seq(|acks|, i requires 0 <= i < |acks| => NodeSessionCurrent(acks[i].node, sessions[acks[i].node].session))
  }

  function ReportConditions(w: Worker, task: ReplicationTask, placement: PlacementRecord, chunk: ChunkObject,
                            source: CopyRecord,
                            cfg: ReplicationConfig, more: seq<TxnCondition>): seq<TxnCondition>
  {
    [ RequestAbsent(w.Key()), EntityEquals(TaskEntity(task)), EntityEquals(PlacementEntity(placement)),
      EntityEquals(ChunkEntity(chunk)), EntityEquals(CopyEntity(source)), EntityEquals(ConfigEntity(cfg)),
      NodeSessionCurrent(w.node, w.session) ]
    + more
  }

  function ReportTxn(w: Worker, conditions: seq<TxnCondition>, puts: seq<TxnMutation>, task: ReplicationTask): MetaTxn
  {
    MetaTxn(w.Key(), DfsReportReplicationTask, conditions,
            puts + [ Put(TaskEntity(task)),
                     RecordOutcome(RequestOutcome(w.Key(), DfsReportReplicationTask,
                                                  NamespaceResult(w.digest, TaskResult(task)))) ])
  }

  /** The claim ends without a repair. */
  function Released(task: ReplicationTask, state: TaskState, error: string, now: nat): ReplicationTask
  {
    task.(state := state, claim := None, lastError := Some(error), nextRetry := SatAdd64(now, Backoff(task.attempt)))
  }

  function Finished(task: ReplicationTask, claim: ReplicationClaim, ids: seq<CopyId>): ReplicationTask
  {
    task.(state := Completed, epoch := claim.group.epoch, desired := claim.config.desired, existing := ids,
          claim := None, lastError := None, nextRetry := 0)
  }

  function RepairedPlacement(placement: PlacementRecord, claim: ReplicationClaim, ids: seq<CopyId>): PlacementRecord
  {
    PlacementRecord(placement.chunk, claim.group.id, claim.group.epoch, claim.config.desired, ids, Satisfied)
  }

  /** Everything a report reads is there, and the claim it names is the one running. */
  predicate ReportStands(from: ReportReads, w: Worker, claim: ReplicationClaim, cfg: ReplicationConfig, now: nat)
  {
    && w.IsValid() && CurrentSession(from.callerAt, w, now).Ok?
    && claim.task in from.taskAt.tasks
    && from.taskAt.tasks[claim.task].state == Running && from.taskAt.tasks[claim.task].claim == Some(claim)
    && claim.worker == w.node && claim.workerEpoch == w.epoch && claim.workerSession == w.session
    && claim.chunk.id in from.placementAt.placements
    && claim.chunk.id in from.chunkAt.chunks && from.chunkAt.chunks[claim.chunk.id] == claim.chunk
    && claim.source in from.copyAt.copies
    && (from.configAt.config.Some? ==> from.configAt.config.value == cfg)
  }

  ghost function PlanReport(from: ReportReads, w: Worker, claim: ReplicationClaim, report: Report,
                            cfg: ReplicationConfig, now: nat): Plan
  {
    if !ReportStands(from, w, claim, cfg, now) then Refused(Conflict)
    else
      var task := from.taskAt.tasks[claim.task];
      var placement := from.placementAt.placements[claim.chunk.id];
      var source := from.copyAt.copies[claim.source];
      match report
      case SourceInvalid =>
        if !source.location.OnNode? || source.location.node != w.node || !MatchesChunk(source, claim.chunk)
           || !Serves(source, CurrentSession(from.callerAt, w, now).value, now)
        then Refused(PermissionDenied)
        else
          Planned(ReportTxn(w, ReportConditions(w, task, placement, claim.chunk, source, cfg, []),
            [ Put(CopyEntity(source.(state := Corrupt))),
              Put(PlacementEntity(placement.(health := if from.live == 0 then PlacementBlocked
                                                       else UnderReplicated))) ],
            Released(task, if from.live == 0 then TaskBlocked else RetryWaiting,
                     "source copy failed local verification", now)))
      case Failed(error) =>
        Planned(ReportTxn(w, ReportConditions(w, task, placement, claim.chunk, source, cfg, []), [],
                          Released(task, RetryWaiting, error, now)))
      case Repaired(acks) =>
        if !RepairProven(claim, acks, from.sessions, now) then Refused(Invalid)
        else
          var copies := CopiesOf(acks, claim.chunk.id);
          var ids := Extended(placement.copies, IdsOf(copies));
          if |ids| < claim.config.desired then Refused(Invalid)
          else
            Planned(ReportTxn(w,
                              ReportConditions(w, task, placement, claim.chunk, source, cfg,
                                               AckConditions(acks, from.sessions)),
                              CopyPuts(copies) + [ Put(PlacementEntity(RepairedPlacement(placement, claim, ids))) ],
                              Finished(task, claim, ids)))
  }

  // ----------------------------------------------------------------- corruption

  datatype Corruption = Corruption(chunk: ChunkId, device: string, deviceEpoch: nat, catalogRevision: nat)

  /** A durable copy of the chunk that the reporting node holds on the reported device. */
  predicate OnDevice(copy: CopyRecord, chunk: ChunkObject, node: NodeId, c: Corruption)
  {
    && MatchesChunk(copy, chunk) && copy.role == DurableReplica && copy.location.OnNode?
    && copy.location.node == node && copy.location.device == c.device && copy.location.deviceEpoch == c.deviceEpoch
  }

  /** Such a copy, Ready, and acknowledged before the quarantine. */
  predicate Invalidated(copy: CopyRecord, chunk: ChunkObject, node: NodeId, c: Corruption)
  {
    OnDevice(copy, chunk, node, c) && copy.state == Ready && copy.location.catalogRevision < c.catalogRevision
  }

  predicate Supersedes(copy: CopyRecord, chunk: ChunkObject, node: NodeId, c: Corruption)
  {
    OnDevice(copy, chunk, node, c) && (copy.location.catalogRevision >= c.catalogRevision || copy.state == Corrupt)
  }

  function Marked(copies: seq<CopyRecord>, n: nat, chunk: ChunkObject, node: NodeId, c: Corruption): seq<CopyRecord>
    requires n <= |copies|
  {
    if n == 0 then []
    else
      Marked(copies, n - 1, chunk, node, c)
      + (if Invalidated(copies[n - 1], chunk, node, c) then [copies[n - 1].(state := Corrupt)] else [])
  }

  /** The observation loop of `report_chunk_corruption`. */
  method Observe(copies: seq<CopyRecord>, chunk: ChunkObject, node: NodeId, c: Corruption)
    returns (seen: bool, superseded: bool, changed: seq<CopyRecord>)
    ensures seen <==> exists i :: 0 <= i < |copies| && OnDevice(copies[i], chunk, node, c)
    ensures superseded <==> exists i :: 0 <= i < |copies| && Supersedes(copies[i], chunk, node, c)
    ensures changed == Marked(copies, |copies|, chunk, node, c)
  {
    seen, superseded, changed := false, false, [];
    for i := 0 to |copies|
      invariant seen <==> exists j :: 0 <= j < i && OnDevice(copies[j], chunk, node, c)
      invariant superseded <==> exists j :: 0 <= j < i && Supersedes(copies[j], chunk, node, c)
      invariant changed == Marked(copies, i, chunk, node, c)
    {
      var copy := copies[i];
      if OnDevice(copy, chunk, node, c) {
        seen := true;
        if copy.location.catalogRevision >= c.catalogRevision || copy.state == Corrupt { superseded := true; }
        if copy.state == Ready && copy.location.catalogRevision < c.catalogRevision {
          changed := changed + [copy.(state := Corrupt)];
        }
      }
    }
  }

  datatype CorruptionReads = CorruptionReads(
    callerAt: State, chunkAt: State, placementAt: State, configAt: State, taskAt: State,
    observed: seq<CopyRecord>, live: nat)

  predicate OwnsDevice(session: NodeSession, c: Corruption)
  {
    exists i ::
      0 <= i < |session.devices| && session.devices[i].id == c.device && session.devices[i].epoch == c.deviceEpoch
  }

  function CopyPins(copies: seq<CopyRecord>): seq<TxnCondition>
  {
    seq(|copies|, i requires 0 <= i < |copies| => EntityEquals(CopyEntity(copies[i])))
  }

  function CorruptionConditions(w: Worker, session: NodeSession, chunk: ChunkObject, placement: PlacementRecord,
                                cfg: ReplicationConfig, task: TxnCondition, copies: seq<CopyRecord>): seq<TxnCondition>
  {
    [ RequestAbsent(w.Key()), EntityEquals(SessionEntity(session)), NodeSessionCurrent(w.node, w.session),
      EntityEquals(ChunkEntity(chunk)), EntityEquals(PlacementEntity(placement)), EntityEquals(ConfigEntity(cfg)),
      task ]
    + CopyPins(copies)
  }

  function CorruptionTask(placement: PlacementRecord, chunk: ChunkId, blocked: bool, attempt: nat,
                          now: nat): ReplicationTask
  {
    ReplicationTask(RepairTask(chunk), chunk, placement.epoch, placement.desired, placement.copies,
                    if blocked then TaskBlocked else Pending, attempt,
                    if blocked then SatAdd64(now, 5000) else now, Some("corruption reported"), None)
  }

  function CorruptionOutcome(w: Worker): RequestOutcome
  {
    RequestOutcome(w.Key(), DfsReportChunkCorruption, NamespaceResult(w.digest, EmptyResult))
  }

  function CorruptionTxn(w: Worker, conditions: seq<TxnCondition>, changed: seq<CopyRecord>, placement: PlacementRecord,
                         task: ReplicationTask): MetaTxn
  {
    MetaTxn(w.Key(), DfsReportChunkCorruption, conditions,
            CopyPuts(changed) + [ Put(PlacementEntity(placement)), Put(TaskEntity(task)),
                                  RecordOutcome(CorruptionOutcome(w)) ])
  }

  /** Each observed copy was read under the id the placement lists. */
  predicate ObservedAsListed(placement: PlacementRecord, observed: seq<CopyRecord>)
  {
    |observed| == |placement.copies| && forall i :: 0 <= i < |observed| ==> observed[i].id == placement.copies[i]
  }

  /** The report, once everything it is about has been read. */
  function CorruptionPlan(w: Worker, session: NodeSession, chunk: ChunkObject, placement: PlacementRecord,
                          task: TxnCondition,
                          attempt: nat, observed: seq<CopyRecord>, live: nat, c: Corruption, cfg: ReplicationConfig,
                          now: nat): Plan
  {
    var changed := Marked(observed, |observed|, chunk, w.node, c);
    var conditions := CorruptionConditions(w, session, chunk, placement, cfg, task, observed);
    if !ObservedAsListed(placement, observed) then Refused(NotFound)
    else if !exists i :: 0 <= i < |observed| && OnDevice(observed[i], chunk, w.node, c) then Refused(PermissionDenied)
    else if changed != [] then
      Planned(CorruptionTxn(w, conditions, changed,
                            placement.(health := if live == 0 then PlacementBlocked else UnderReplicated),
                            CorruptionTask(placement, c.chunk, live == 0, attempt, now)))
    else if !exists i :: 0 <= i < |observed| && Supersedes(observed[i], chunk, w.node, c) then Refused(Invalid)
    else Planned(MetaTxn(w.Key(), DfsReportChunkCorruption, conditions, [ RecordOutcome(CorruptionOutcome(w)) ]))
  }

  function ObservedTask(taskAt: State, id: TaskId): TxnCondition
  {
    if id in taskAt.tasks then EntityEquals(TaskEntity(taskAt.tasks[id])) else Missing(TaskAt(id))
  }

  function PlanCorruption(from: CorruptionReads, w: Worker, c: Corruption, cfg: ReplicationConfig, now: nat): Plan
  {
    var session := CurrentSession(from.callerAt, w, now);
    if !w.IsValid() || c.device == "" || c.deviceEpoch == 0 || c.catalogRevision == 0 then Refused(Invalid)
    else if session.Err? then Refused(session.why)
    else if !OwnsDevice(session.value, c) then Refused(PermissionDenied)
    else if c.chunk !in from.chunkAt.chunks || c.chunk !in from.placementAt.placements then Refused(NotFound)
    else if from.configAt.config.Some? && from.configAt.config.value != cfg then Refused(Conflict)
    else
      var id := RepairTask(c.chunk);
      CorruptionPlan(w, session.value, from.chunkAt.chunks[c.chunk], from.placementAt.placements[c.chunk],
                     ObservedTask(from.taskAt, id),
                     if id in from.taskAt.tasks then from.taskAt.tasks[id].attempt else 0,
                     from.observed, from.live, c, cfg, now)
  }
}
