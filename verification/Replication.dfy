/**
 The replication records of the metadata authority (src/meta/dfs.rs): chunks,
 placements, copies and repair tasks.  `StockOk` is the bookkeeping that every
 commit, claim and report keeps.
 */
module Replication {
  import opened Records
  import opened MetaStore
  import opened Ordering

  datatype Stock = Stock(
    chunks: map<ChunkId, ChunkObject>,
    placements: map<ChunkId, PlacementRecord>,
    copies: map<CopyId, CopyRecord>,
    tasks: map<TaskId, ReplicationTask>)

  function StockOf(s: State): Stock { Stock(s.chunks, s.placements, s.copies, s.tasks) }

  // --------------------------------------------------------------- invariant

  predicate Matches(copy: CopyRecord, chunk: ChunkId)
  {
    copy.chunk == chunk && copy.persistedBytes == chunk.length && copy.digest == chunk.digest
  }

  /** A copy record is a durable replica of the chunk its id names, on the node its id names. */
  ghost predicate CopyOk(copies: map<CopyId, CopyRecord>, id: CopyId)
    requires id in copies
  {
    var x := copies[id];
    x.id == id && Matches(x, id.chunk) && x.role == DurableReplica && x.location.OnNode? && x.location.node == id.node
  }

  ghost function NodesUpTo(ids: seq<CopyId>, n: nat): set<NodeId>
    requires n <= |ids|
  {
    set i | 0 <= i < n :: ids[i].node
  }

  ghost function Nodes(ids: seq<CopyId>): set<NodeId> { NodesUpTo(ids, |ids|) }

  ghost predicate IsReady(copies: map<CopyId, CopyRecord>, id: CopyId) { id in copies && copies[id].state == Ready }

  /** The distinct nodes that hold a Ready copy. */
  ghost function ReadyNodes(copies: map<CopyId, CopyRecord>, ids: seq<CopyId>): set<NodeId>
  {
    set i | 0 <= i < |ids| && IsReady(copies, ids[i]) :: ids[i].node
  }

  ghost predicate ListOk(copies: map<CopyId, CopyRecord>, p: PlacementRecord)
  {
    forall i :: 0 <= i < |p.copies| ==> p.copies[i] in copies && p.copies[i].chunk == p.chunk
  }

  /** An open repair task. */
  ghost predicate Owed(k: Stock, c: ChunkId)
  {
    RepairTask(c) in k.tasks && k.tasks[RepairTask(c)].state != Completed
  }

  ghost predicate PlacementOk(k: Stock, cfg: ReplicationConfig, c: ChunkId)
    requires c in k.placements
  {
    var p := k.placements[c];
    && p.chunk == c && p.desired == cfg.desired
    && c in k.chunks
    && ListOk(k.copies, p)
    && |Nodes(p.copies)| >= cfg.sync
    && (p.health == Satisfied ==> |ReadyNodes(k.copies, p.copies)| >= p.desired)
    && (p.health != Satisfied ==> Owed(k, c))
  }

  ghost predicate ClaimOk(cfg: ReplicationConfig, t: ReplicationTask)
  {
    t.claim.Some? ==>
      var c := t.claim.value;
      && t.state == Running && c.task == t.id && c.chunk.id == t.chunk && ContentDerived(c.chunk)
      && c.config.desired == cfg.desired
  }

  ghost predicate TaskOk(k: Stock, cfg: ReplicationConfig, t: TaskId)
    requires t in k.tasks
  {
    k.tasks[t].id == t == RepairTask(k.tasks[t].chunk) && ClaimOk(cfg, k.tasks[t])
  }

  ghost predicate ChunkOk(k: Stock, c: ChunkId)
    requires c in k.chunks
  {
    k.chunks[c].id == c && ContentDerived(k.chunks[c])
  }

  ghost predicate StockOk(k: Stock, cfg: ReplicationConfig)
  {
    && (forall c {:trigger ChunkOk(k, c)} :: c in k.chunks ==> ChunkOk(k, c))
    && (forall id {:trigger CopyOk(k.copies, id)} :: id in k.copies ==> CopyOk(k.copies, id))
    && (forall c {:trigger PlacementOk(k, cfg, c)} :: c in k.placements ==> PlacementOk(k, cfg, c))
    && (forall t {:trigger TaskOk(k, cfg, t)} :: t in k.tasks ==> TaskOk(k, cfg, t))
  }

  // ------------------------------------------------------- one chunk at a time

  ghost predicate CopiesElsewhere(k: map<CopyId, CopyRecord>, l: map<CopyId, CopyRecord>, c: ChunkId)
  {
    forall id: CopyId :: id.chunk != c ==> (id in k <==> id in l) && (id in k ==> k[id] == l[id])
  }

  /** Only the records of one chunk change. */
  ghost predicate SameElsewhere(k: Stock, l: Stock, c: ChunkId)
  {
    && (forall d :: d != c ==> (d in k.chunks <==> d in l.chunks) && (d in k.chunks ==> k.chunks[d] == l.chunks[d]))
    && (forall d :: d != c ==>
          (d in k.placements <==> d in l.placements) && (d in k.placements ==> k.placements[d] == l.placements[d]))
    && (forall t :: t != RepairTask(c) ==>
          (t in k.tasks <==> t in l.tasks) && (t in k.tasks ==> k.tasks[t] == l.tasks[t]))
    && CopiesElsewhere(k.copies, l.copies, c)
  }

  lemma ElsewherePlacement(k: Stock, l: Stock, cfg: ReplicationConfig, c: ChunkId, d: ChunkId)
    requires SameElsewhere(k, l, c) && d != c && d in k.placements && PlacementOk(k, cfg, d)
    ensures PlacementOk(l, cfg, d)
  {
    var p := k.placements[d];
    assert forall i :: 0 <= i < |p.copies| ==> (IsReady(k.copies, p.copies[i]) <==> IsReady(l.copies, p.copies[i]));
    assert ReadyNodes(k.copies, p.copies) == ReadyNodes(l.copies, p.copies);
  }

  ghost predicate CopiesHere(copies: map<CopyId, CopyRecord>, c: ChunkId)
  {
    forall id {:trigger CopyOk(copies, id)} :: id in copies && id.chunk == c ==> CopyOk(copies, id)
  }

  /** So it is enough to look at the records of that chunk. */
  lemma FocusKeepsStock(k: Stock, l: Stock, cfg: ReplicationConfig, c: ChunkId)
    requires StockOk(k, cfg) && SameElsewhere(k, l, c)
    requires c in l.chunks ==> ChunkOk(l, c)
    requires CopiesHere(l.copies, c)
    requires c in l.placements ==> PlacementOk(l, cfg, c)
    requires RepairTask(c) in l.tasks ==> TaskOk(l, cfg, RepairTask(c))
    ensures StockOk(l, cfg)
  {
    forall d | d in l.chunks ensures ChunkOk(l, d) { if d != c { assert ChunkOk(k, d); } }
    forall id | id in l.copies ensures CopyOk(l.copies, id) { if id.chunk != c { assert CopyOk(k.copies, id); } }
    forall d | d in l.placements ensures PlacementOk(l, cfg, d) {
      if d != c { assert PlacementOk(k, cfg, d); ElsewherePlacement(k, l, cfg, c, d); }
    }
    forall t | t in l.tasks ensures TaskOk(l, cfg, t) {
      if t != RepairTask(c) { assert TaskOk(k, cfg, t); }
    }
  }

  // ------------------------------------------------------- acknowledged copies

  /** The copy record an acknowledgement proves. */
  function CopyOf(ack: ReplicaAck, chunk: ChunkId): CopyRecord
  {
    CopyRecord(CopyId(ack.node, ack.nodeEpoch, ack.device, chunk), chunk, DurableReplica,
               OnNode(ack.node, ack.nodeEpoch, ack.device, ack.deviceEpoch, ack.catalogRevision),
               Ready, ack.persistedBytes, ack.digest)
  }

  function CopiesOf(acks: seq<ReplicaAck>, chunk: ChunkId): seq<CopyRecord>
  {
    seq(|acks|, i requires 0 <= i < |acks| => CopyOf(acks[i], chunk))
  }

  function IdsOf(copies: seq<CopyRecord>): seq<CopyId>
  {
    seq(|copies|, i requires 0 <= i < |copies| => copies[i].id)
  }

  /** Acknowledgements by distinct nodes that all prove this chunk. */
  ghost predicate Proven(acks: seq<ReplicaAck>, chunk: ChunkObject)
  {
    && (forall i :: 0 <= i < |acks| ==> acks[i].persistedBytes == chunk.length && acks[i].digest == chunk.digest)
    && (forall i, j :: 0 <= i < j < |acks| ==> acks[i].node != acks[j].node)
  }

  function PutCopies(m: map<CopyId, CopyRecord>, copies: seq<CopyRecord>, n: nat): map<CopyId, CopyRecord>
    requires n <= |copies|
  {
    if n == 0 then m else PutCopies(m, copies, n - 1)[copies[n - 1].id := copies[n - 1]]
  }

  lemma {:induction false} PutCopiesElsewhere(m: map<CopyId, CopyRecord>, copies: seq<CopyRecord>, n: nat, id: CopyId)
    requires n <= |copies| && forall i :: 0 <= i < n ==> copies[i].id != id
    ensures id in PutCopies(m, copies, n) <==> id in m
    ensures id in m ==> PutCopies(m, copies, n)[id] == m[id]
  {
    if n > 0 { PutCopiesElsewhere(m, copies, n - 1, id); }
  }

  lemma {:induction false} PutCopiesAt(m: map<CopyId, CopyRecord>, acks: seq<ReplicaAck>, chunk: ChunkObject, n: nat,
                                       i: nat)
    requires i < n <= |acks| && Proven(acks, chunk)
    ensures CopyOf(acks[i], chunk.id).id in PutCopies(m, CopiesOf(acks, chunk.id), n)
    ensures PutCopies(m, CopiesOf(acks, chunk.id), n)[CopyOf(acks[i], chunk.id).id] == CopyOf(acks[i], chunk.id)
  {
    if i < n - 1 { PutCopiesAt(m, acks, chunk, n - 1, i); }
  }

  lemma {:induction false} PutCopiesOk(m: map<CopyId, CopyRecord>, acks: seq<ReplicaAck>, chunk: ChunkObject, n: nat)
    requires n <= |acks| && Proven(acks, chunk) && ContentDerived(chunk) && CopiesHere(m, chunk.id)
    ensures CopiesHere(PutCopies(m, CopiesOf(acks, chunk.id), n), chunk.id)
  {
    if n > 0 {
      PutCopiesOk(m, acks, chunk, n - 1);
      var before := PutCopies(m, CopiesOf(acks, chunk.id), n - 1);
      var after := PutCopies(m, CopiesOf(acks, chunk.id), n);
      forall id | id in after && id.chunk == chunk.id ensures CopyOk(after, id) {
        if id != CopyOf(acks[n - 1], chunk.id).id { assert CopyOk(before, id); }
      }
    }
  }

  /** The acknowledged copies are all there, and Ready. */
  lemma AckedCopies(m: map<CopyId, CopyRecord>, acks: seq<ReplicaAck>, chunk: ChunkObject)
    requires Proven(acks, chunk) && ContentDerived(chunk) && CopiesHere(m, chunk.id)
    ensures var copies := CopiesOf(acks, chunk.id); var after := PutCopies(m, copies, |copies|);
      && CopiesElsewhere(m, after, chunk.id)
      && CopiesHere(after, chunk.id)
      && (forall i :: 0 <= i < |acks| ==> IsReady(after, CopyOf(acks[i], chunk.id).id))
      && (forall id :: id in m ==> id in after)
  {
    var copies := CopiesOf(acks, chunk.id);
    var after := PutCopies(m, copies, |copies|);
    forall id: CopyId | id.chunk != chunk.id ensures (id in m <==> id in after) && (id in m ==> m[id] == after[id]) {
      PutCopiesElsewhere(m, copies, |copies|, id);
    }
    forall i | 0 <= i < |acks| ensures IsReady(after, CopyOf(acks[i], chunk.id).id) {
      PutCopiesAt(m, acks, chunk, |acks|, i);
    }
    PutCopiesOk(m, acks, chunk, |acks|);
    PutCopiesGrow(m, copies, |copies|);
  }

  lemma {:induction false} PutCopiesGrow(m: map<CopyId, CopyRecord>, copies: seq<CopyRecord>, n: nat)
    requires n <= |copies|
    ensures forall id :: id in m ==> id in PutCopies(m, copies, n)
  {
    if n > 0 { PutCopiesGrow(m, copies, n - 1); }
  }

  /** Distinct nodes make a set as large as the list. */
  lemma {:induction false} DistinctNodes(ids: seq<CopyId>, n: nat)
    requires n <= |ids| && forall i, j :: 0 <= i < j < |ids| ==> ids[i].node != ids[j].node
    ensures |NodesUpTo(ids, n)| == n
  {
    if n > 0 {
      DistinctNodes(ids, n - 1);
      assert NodesUpTo(ids, n) == NodesUpTo(ids, n - 1) + {ids[n - 1].node};
    }
  }

  /** Any list that includes all acknowledged copies has that many Ready nodes. */
  lemma AckedNodesReady(after: map<CopyId, CopyRecord>, acks: seq<ReplicaAck>, chunk: ChunkObject, listed: seq<CopyId>)
    requires Proven(acks, chunk)
    requires forall i :: 0 <= i < |acks| ==>
      IsReady(after, CopyOf(acks[i], chunk.id).id) && CopyOf(acks[i], chunk.id).id in listed
    ensures |ReadyNodes(after, listed)| >= |acks|
  {
    var ids := IdsOf(CopiesOf(acks, chunk.id));
    DistinctNodes(ids, |ids|);
    var nodes := NodesUpTo(ids, |ids|);
    forall x | x in nodes ensures x in ReadyNodes(after, listed) {
      var i :| 0 <= i < |ids| && ids[i].node == x;
      assert IsReady(after, CopyOf(acks[i], chunk.id).id);
      var j :| 0 <= j < |listed| && listed[j] == ids[i];
      assert IsReady(after, listed[j]);
    }
    Larger(nodes, ReadyNodes(after, listed));
  }

  lemma ReadyAreNodes(copies: map<CopyId, CopyRecord>, ids: seq<CopyId>)
    ensures |ReadyNodes(copies, ids)| <= |Nodes(ids)|
  {
    Larger(ReadyNodes(copies, ids), Nodes(ids));
  }

  // ------------------------------------------------------- effect of mutations

  function StockAfter(k: Stock, ms: seq<TxnMutation>): Stock
  {
    Stock(ChunksAfter(k.chunks, ms, |ms|), PlacementsAfter(k.placements, ms, |ms|),
          CopiesAfter(k.copies, ms, |ms|), TasksAfter(k.tasks, ms, |ms|))
  }

  lemma {:induction false} StockPrefix(k: Stock, a: seq<TxnMutation>, b: seq<TxnMutation>, n: nat)
    requires n <= |a|
    ensures ChunksAfter(k.chunks, a + b, n) == ChunksAfter(k.chunks, a, n)
    ensures PlacementsAfter(k.placements, a + b, n) == PlacementsAfter(k.placements, a, n)
    ensures CopiesAfter(k.copies, a + b, n) == CopiesAfter(k.copies, a, n)
    ensures TasksAfter(k.tasks, a + b, n) == TasksAfter(k.tasks, a, n)
  {
    if n > 0 {
      StockPrefix(k, a, b, n - 1);
      assert (a + b)[n - 1] == a[n - 1];
    }
  }

  lemma {:induction false} StockSuffix(k: Stock, a: seq<TxnMutation>, b: seq<TxnMutation>, n: nat)
    requires n <= |b|
    ensures ChunksAfter(k.chunks, a + b, |a| + n) == ChunksAfter(StockAfter(k, a).chunks, b, n)
    ensures PlacementsAfter(k.placements, a + b, |a| + n) == PlacementsAfter(StockAfter(k, a).placements, b, n)
    ensures CopiesAfter(k.copies, a + b, |a| + n) == CopiesAfter(StockAfter(k, a).copies, b, n)
    ensures TasksAfter(k.tasks, a + b, |a| + n) == TasksAfter(StockAfter(k, a).tasks, b, n)
  {
    if n > 0 {
      StockSuffix(k, a, b, n - 1);
      assert (a + b)[|a| + n - 1] == b[n - 1];
    } else {
      StockPrefix(k, a, b, |a|);
    }
  }

  lemma StockAppend(k: Stock, a: seq<TxnMutation>, b: seq<TxnMutation>)
    ensures StockAfter(k, a + b) == StockAfter(StockAfter(k, a), b)
  {
    StockSuffix(k, a, b, |b|);
  }

  ghost predicate SparesStock(ms: seq<TxnMutation>)
  {
    Spares(ms, OfChunks) && Spares(ms, OfPlacements) && Spares(ms, OfCopies) && Spares(ms, OfTasks)
  }

  lemma StockSpared(k: Stock, ms: seq<TxnMutation>)
    requires SparesStock(ms)
    ensures StockAfter(k, ms) == k
  {
    ChunksSpared(k.chunks, ms, |ms|);
    PlacementsSpared(k.placements, ms, |ms|);
    CopiesSpared(k.copies, ms, |ms|);
    TasksSpared(k.tasks, ms, |ms|);
  }

  function CopyPuts(copies: seq<CopyRecord>): seq<TxnMutation>
  {
    seq(|copies|, i requires 0 <= i < |copies| => Put(CopyEntity(copies[i])))
  }

  lemma {:induction false} CopyPutsAfter(m: map<CopyId, CopyRecord>, copies: seq<CopyRecord>, n: nat)
    requires n <= |copies|
    ensures CopiesAfter(m, CopyPuts(copies), n) == PutCopies(m, copies, n)
  {
    if n > 0 {
      CopyPutsAfter(m, copies, n - 1);
      assert CopyPuts(copies)[n - 1] == Put(CopyEntity(copies[n - 1]));
    }
  }

  lemma CopyPutsEffect(k: Stock, copies: seq<CopyRecord>)
    ensures StockAfter(k, CopyPuts(copies)) == k.(copies := PutCopies(k.copies, copies, |copies|))
  {
    var ms := CopyPuts(copies);
    CopyPutsAfter(k.copies, copies, |copies|);
    ChunksSpared(k.chunks, ms, |ms|);
    PlacementsSpared(k.placements, ms, |ms|);
    TasksSpared(k.tasks, ms, |ms|);
  }

  lemma OneMutation(k: Stock, m: TxnMutation)
    ensures StockAfter(k, [m]) == Stock(ChunksAfter(k.chunks, [m], 1), PlacementsAfter(k.placements, [m], 1),
                                        CopiesAfter(k.copies, [m], 1), TasksAfter(k.tasks, [m], 1))
  {
  }

  lemma ChunkPutEffect(k: Stock, chunk: ChunkObject)
    ensures StockAfter(k, [Put(ChunkEntity(chunk))]) == k.(chunks := k.chunks[chunk.id := chunk])
  {
    OneMutation(k, Put(ChunkEntity(chunk)));
  }

  lemma PlacementPutEffect(k: Stock, p: PlacementRecord)
    ensures StockAfter(k, [Put(PlacementEntity(p))]) == k.(placements := k.placements[p.chunk := p])
  {
    OneMutation(k, Put(PlacementEntity(p)));
  }

  lemma TaskPutEffect(k: Stock, t: ReplicationTask)
    ensures StockAfter(k, [Put(TaskEntity(t))]) == k.(tasks := k.tasks[t.id := t])
  {
    OneMutation(k, Put(TaskEntity(t)));
  }
}
