/**
 What the local chunk store and the metadata authority promise together: a copy
 acknowledged by the store is served after any crash, and a corruption report
 made from a quarantined record marks the copies from before the quarantine and
 none from after it.
 */
module StoreAndMeta {
  import opened Records
  import opened MetaStore
  import opened Replication
  import opened RepairPlans
  import opened ReportSafety
  import opened ChunkDisk
  import opened ChunkPromises
  import opened ChunkStore

  /** The stored copy that an acknowledgement of `chunk` at `revision` gave rise to. */
  ghost predicate CopyOfAck(copy: CopyRecord, store: LocalChunkStore, chunk: ChunkObject, revision: nat)
  {
    && copy.location.OnNode? && copy.location.node == store.node && copy.location.nodeEpoch != 0
    && copy.location.device == store.device && copy.location.deviceEpoch == store.deviceEpoch
    && copy.location.catalogRevision == revision
    && copy.role == DurableReplica && MatchesChunk(copy, chunk)
  }

  /** A session of the store's node, not older than the copy's, that advertises at least this catalog revision. */
  ghost predicate Advertises(session: NodeSession, store: LocalChunkStore, revision: nat)
  {
    && session.node == store.node
    && exists i :: 0 <= i < |session.devices|
                   && session.devices[i].id == store.device && session.devices[i].epoch == store.deviceEpoch
                   && session.devices[i].catalogRevision >= revision
  }

  /**
   Once a store has reopened, an acknowledged Ready copy is accepted for reading
   under any later live session of its node that advertises the reopened
   catalog, and the file it is served from holds the chunk's bytes.
   */
  lemma AckedCopyStillServes(store: LocalChunkStore, a: Acked, copy: CopyRecord, session: NodeSession, now: nat)
    requires store.Valid() && a in store.acks && CopyOfAck(copy, store, a.chunk, a.revision) && copy.state == Ready
    requires Advertises(session, store, store.revision) && session.IsLive(now)
    requires session.epoch >= copy.location.nodeEpoch
    ensures Serves(copy, session, now) && store.Durably(a.chunk)
    ensures ServingCopy(copy, session, now) == Some(copy.(location := copy.location.(nodeEpoch := session.epoch)))
  {
    store.AckedIsRecorded(a);
    var i :| 0 <= i < |session.devices| && session.devices[i].id == store.device
             && session.devices[i].epoch == store.deviceEpoch && session.devices[i].catalogRevision >= store.revision;
    assert DeviceServes(session.devices[i], copy.location, session.epoch);
  }

  /**
   A committing report of a quarantined record: of the listed copies made from
   this store's acknowledgements, it marks the Ready ones below the quarantine's
   revision.  If the earlier of the two events was firm before the later one,
   these are exactly the copies acknowledged before the quarantine.
   */
  lemma ReportSeparatesCopies(store: LocalChunkStore, s: State, w: Worker, session: NodeSession, chunk: ChunkObject,
                              p: PlacementRecord, cond: TxnCondition, attempt: nat, observed: seq<CopyRecord>,
                              live: nat, c: Corruption, cfg: ReplicationConfig, now: nat, at: nat, id: CopyId, k: nat)
    returns (q: nat)
    requires store.Valid() && c.chunk in store.records && store.records[c.chunk].state == Quarantined
    requires c == Corruption(c.chunk, store.device, store.deviceEpoch, store.records[c.chunk].revision)
    requires w.node == store.node
    requires StockOk(StockOf(s), cfg) && chunk.id == c.chunk == p.chunk && id in s.copies
    requires CorruptionPlan(w, session, chunk, p, cond, attempt, observed, live, c, cfg, now).Planned?
    requires Commits(s, CorruptionPlan(w, session, chunk, p, cond, attempt, observed, live, c, cfg, now).txn, at)
    requires k < |store.log| && store.log[k].AckEvent? && store.log[k].chunk == c.chunk
    requires CopyOfAck(s.copies[id], store, chunk, store.log[k].revision)
    ensures q < |store.log| && IsQuarantine(store.log[q], c.chunk, c.catalogRevision)
    ensures c.chunk in s.placements
    ensures var plan := CorruptionPlan(w, session, chunk, p, cond, attempt, observed, live, c, cfg, now);
      var t := Commit(s, plan.txn, at);
      && id in t.copies
      && t.copies[id] == if id in s.placements[c.chunk].copies && s.copies[id].state == Ready && IsBefore(store, k, q)
                         then s.copies[id].(state := Corrupt) else s.copies[id]
  {
    q := store.QuarantineRevisionSeparates(c.chunk);
    CorruptionMarksExactly(s, w, session, chunk, p, cond, attempt, observed, live, c, cfg, now, at, id);
  }

  /** Acknowledgement `k` came before quarantine `q`, as far as the revisions tell. */
  ghost predicate IsBefore(store: LocalChunkStore, k: nat, q: nat)
    requires k < |store.log| && q < |store.log|
    reads store
  {
    if store.FirmBetween(k, q) || store.FirmBetween(q, k) then k < q else store.log[k].revision < store.log[q].revision
  }
}
