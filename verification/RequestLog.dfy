/**
 The request log and the revisions of the store (src/meta/store.rs): what any
 well-formed transaction does to them, whatever else it does.  Every plan of
 the authority is `Plain`: it records one outcome, under its own request key,
 and deletes nothing but directory entries and reservations.
 */
module RequestLog {
  import opened Records
  import opened MetaStore
  import opened NamespacePlans

  predicate PlainMutation(m: TxnMutation, o: RequestOutcome)
  {
    match m
    case Put(_) => true
    case Delete(k) => k.DentryAt? || k.ReservationAt?
    case RecordOutcome(x) => x == o
  }

  ghost predicate AllPlain(ms: seq<TxnMutation>, o: RequestOutcome)
  {
    forall i {:trigger PlainMutation(ms[i], o)} :: 0 <= i < |ms| ==> PlainMutation(ms[i], o)
  }

  ghost predicate Plain(txn: MetaTxn, o: RequestOutcome)
  {
    && AllPlain(txn.mutations, o) && RecordOutcome(o) in txn.mutations
    && o.request == txn.request && o.operation == txn.operation
  }

  /** The first condition is that the request has no outcome yet. */
  predicate ChecksFirst(txn: MetaTxn)
  {
    txn.request.IsValid() && |txn.conditions| > 0 && txn.conditions[0] == RequestAbsent(txn.request)
  }

  // ------------------------------------------------------------------- the log

  lemma {:induction false} LogAfter(m: map<RequestKey, RequestOutcome>, ms: seq<TxnMutation>, n: nat, o: RequestOutcome)
    requires n <= |ms| && AllPlain(ms, o)
    ensures RequestsAfter(m, ms, n) == if RecordOutcome(o) in ms[..n] then m[o.request := o] else m
  {
    if n > 0 {
      LogAfter(m, ms, n - 1, o);
      assert PlainMutation(ms[n - 1], o);
      assert ms[..n] == ms[..n - 1] + [ms[n - 1]];
    }
  }

  lemma {:induction false} FirstIsSole(ms: seq<TxnMutation>, o: RequestOutcome)
    requires AllPlain(ms, o) && RecordOutcome(o) in ms
    ensures FirstOutcome(ms) == Some(o)
  {
    assert PlainMutation(ms[0], o);
    if !ms[0].RecordOutcome? {
      var rest := ms[1..];
      assert RecordOutcome(o) in rest;
      forall i | 0 <= i < |rest| ensures PlainMutation(rest[i], o) { assert PlainMutation(ms[i + 1], o); }
      FirstIsSole(rest, o);
    }
  }

  /** A commit adds its own outcome to the log, and returns it. */
  lemma CommitLogs(s: State, txn: MetaTxn, at: nat, o: RequestOutcome)
    requires Plain(txn, o) && Commits(s, txn, at)
    ensures txn.request !in s.requests
    ensures Commit(s, txn, at).requests == s.requests[txn.request := o]
    ensures OutcomeOf(s, txn, at) == Committed(o)
  {
    LogAfter(s.requests, txn.mutations, |txn.mutations|, o);
    assert txn.mutations[..|txn.mutations|] == txn.mutations;
    FirstIsSole(txn.mutations, o);
  }

  lemma {:induction false} RecordsSome(ms: seq<TxnMutation>, request: RequestKey, op: StoreOperation)
    requires RecordsOutcome(ms, request, op)
    ensures exists i :: 0 <= i < |ms| && ms[i].RecordOutcome? && ms[i].outcome.request == request
    decreases |ms|
  {
    if !(ms[0].RecordOutcome? && ms[0].outcome.request == request) {
      RecordsSome(ms[1..], request, op);
      var i :| 0 <= i < |ms[1..]| && ms[1..][i].RecordOutcome? && ms[1..][i].outcome.request == request;
      assert ms[i + 1] == ms[1..][i];
    }
  }

  lemma {:induction false} KeyRecorded(m: map<RequestKey, RequestOutcome>, ms: seq<TxnMutation>, n: nat, i: nat)
    requires i < n <= |ms| && ms[i].RecordOutcome?
    ensures ms[i].outcome.request in RequestsAfter(m, ms, n)
  {
    if i < n - 1 { KeyRecorded(m, ms, n - 1, i); }
  }

  /** Whatever else it does, a commit leaves its request key in the log. */
  lemma CommitRecords(s: State, txn: MetaTxn, at: nat)
    requires Commits(s, txn, at)
    ensures txn.request in Commit(s, txn, at).requests
  {
    RecordsSome(txn.mutations, txn.request, txn.operation);
    var i :| 0 <= i < |txn.mutations| && txn.mutations[i].RecordOutcome?
      && txn.mutations[i].outcome.request == txn.request;
    KeyRecorded(s.requests, txn.mutations, |txn.mutations|, i);
  }

  ghost predicate LogGrows(s: State, t: State)
  {
    forall k :: k in s.requests ==> k in t.requests && t.requests[k] == s.requests[k]
  }

  lemma LogGrowsTransitive(s: State, t: State, u: State)
    requires LogGrows(s, t) && LogGrows(t, u)
    ensures LogGrows(s, u)
  {
  }

  lemma CommitGrowsLog(s: State, txn: MetaTxn, at: nat, o: RequestOutcome)
    requires Plain(txn, o)
    ensures LogGrows(s, Commit(s, txn, at))
  {
    if Commits(s, txn, at) { CommitLogs(s, txn, at, o); }
  }

  // -------------------------------------------------------------- exactly once

  /** The result carries this digest of the whole request it answers. */
  predicate BoundTo(r: OperationResult, op: StoreOperation, digest: Digest)
  {
    if op == DfsClaimReplicationTask then r.ClaimResult? && r.claimDigest == digest
    else r.NamespaceResult? && r.digest == digest
  }

  function Inner(r: OperationResult): OperationResult { if r.NamespaceResult? then r.result else r }

  /** `namespace_result_inner` and its like for claims: a recorded outcome answers only the identical request. */
  function ReadBack(o: RequestOutcome, op: StoreOperation, digest: Digest): Found<OperationResult>
  {
    if o.operation == op && BoundTo(o.result, op, digest) then Ok(Inner(o.result)) else Err(Invalid)
  }

  /** What a digest-bound operation answers after submitting its transaction. */
  ghost function Reply(s: State, txn: MetaTxn, digest: Digest, at: nat): Found<OperationResult>
  {
    match OutcomeOf(s, txn, at)
    case Committed(o) => ReadBack(o, txn.operation, digest)
    case ConditionFailed(Some(o)) => ReadBack(o, txn.operation, digest)
    case ConditionFailed(None) => Err(Conflict)
    case ContractViolation => Err(Invalid)
  }

  /**
   Once a digest-bound transaction has committed, no transaction under the same
   request key changes the state again; the identical request gets the same
   answer as the first time, and any other request is rejected.
   */
  lemma ExactlyOnce(s: State, txn: MetaTxn, at: nat, digest: Digest, result: OperationResult,
                    later: State, retry: MetaTxn, retryDigest: Digest, retryAt: nat)
    requires Plain(txn, RequestOutcome(txn.request, txn.operation, result)) && BoundTo(result, txn.operation, digest)
    requires Commits(s, txn, at) && LogGrows(Commit(s, txn, at), later)
    requires retry.request == txn.request && IsValidTxn(retry)
    ensures Commit(later, retry, retryAt) == later
    ensures Reply(s, txn, digest, at) == Ok(Inner(result))
    ensures Reply(later, retry, retryDigest, retryAt)
      == if retry.operation == txn.operation && retryDigest == digest then Ok(Inner(result)) else Err(Invalid)
  {
    CommitLogs(s, txn, at, RequestOutcome(txn.request, txn.operation, result));
    assert txn.request in Commit(s, txn, at).requests;
  }

  // ------------------------------------------------------------------ revisions

  /** Revisions never exceed the store's, and sessions and grants always have one. */
  ghost predicate RevisionsOk(s: State)
  {
    && (forall k :: k in s.modRev ==> s.modRev[k] <= s.revision)
    && (forall n :: n in s.current ==> CurrentSessionAt(n) in s.modRev && s.current[n].node == n)
    && (forall g :: g in s.grants ==> GrantAt(g) in s.modRev)
  }

  /** A grant key with an unchanged revision has an unchanged grant. */
  ghost predicate GrantAges(s: State, t: State, g: GrantKey)
  {
    g in s.grants ==>
      && g in t.grants && GrantAt(g) in s.modRev && GrantAt(g) in t.modRev
      && s.modRev[GrantAt(g)] <= t.modRev[GrantAt(g)]
      && (s.modRev[GrantAt(g)] == t.modRev[GrantAt(g)] ==> s.grants[g] == t.grants[g])
  }

  ghost predicate SessionAges(s: State, t: State, n: NodeId)
  {
    n in s.current ==>
      && n in t.current && CurrentSessionAt(n) in s.modRev && CurrentSessionAt(n) in t.modRev
      && s.modRev[CurrentSessionAt(n)] <= t.modRev[CurrentSessionAt(n)]
      && (s.modRev[CurrentSessionAt(n)] == t.modRev[CurrentSessionAt(n)] ==> s.current[n] == t.current[n])
  }

  ghost predicate RevisionsAge(s: State, t: State)
  {
    && s.revision <= t.revision
    && (forall g {:trigger GrantAges(s, t, g)} :: GrantAges(s, t, g))
    && (forall n {:trigger SessionAges(s, t, n)} :: SessionAges(s, t, n))
  }

  lemma RevisionsAgeTransitive(s: State, t: State, u: State)
    requires RevisionsAge(s, t) && RevisionsAge(t, u)
    ensures RevisionsAge(s, u)
  {
    forall g ensures GrantAges(s, u, g) { assert GrantAges(s, t, g) && GrantAges(t, u, g); }
    forall n ensures SessionAges(s, u, n) { assert SessionAges(s, t, n) && SessionAges(t, u, n); }
  }

  /** Every key is stamped with the new revision or untouched. */
  lemma {:induction false} Stamped(m: map<MetaKey, nat>, ms: seq<TxnMutation>, n: nat, rev: nat, o: RequestOutcome,
                                   k: MetaKey)
    requires n <= |ms| && AllPlain(ms, o)
    ensures var a := ModRevAfter(m, ms, n, rev);
      && (k in a ==> a[k] == rev || (k in m && a[k] == m[k]))
      && (k.CurrentSessionAt? ==> (k in a <==> k in m) && (k in m ==> a[k] == m[k]))
  {
    if n > 0 {
      Stamped(m, ms, n - 1, rev, o, k);
      assert PlainMutation(ms[n - 1], o);
    }
  }

  lemma {:induction false} GrantStamped(m: map<MetaKey, nat>, grants: map<GrantKey, RootGrant>, ms: seq<TxnMutation>,
                                        n: nat,
                                        rev: nat, o: RequestOutcome, g: GrantKey)
    requires n <= |ms| && AllPlain(ms, o)
    ensures var a := ModRevAfter(m, ms, n, rev); var b := GrantsAfter(grants, ms, n);
      || (GrantAt(g) in a && a[GrantAt(g)] == rev && g in b)
      || ((GrantAt(g) in a <==> GrantAt(g) in m) && (GrantAt(g) in m ==> a[GrantAt(g)] == m[GrantAt(g)])
          && (g in b <==> g in grants) && (g in grants ==> b[g] == grants[g]))
  {
    if n > 0 {
      GrantStamped(m, grants, ms, n - 1, rev, o, g);
      assert PlainMutation(ms[n - 1], o);
    }
  }

  lemma {:induction false} CurrentPlain(m: map<NodeId, NodeSession>, ms: seq<TxnMutation>, n: nat, o: RequestOutcome)
    requires n <= |ms| && AllPlain(ms, o)
    ensures CurrentAfter(m, ms, n) == m
  {
    if n > 0 {
      CurrentPlain(m, ms, n - 1, o);
      assert PlainMutation(ms[n - 1], o);
    }
  }

  lemma CommitAges(s: State, txn: MetaTxn, at: nat, o: RequestOutcome)
    requires Plain(txn, o) && RevisionsOk(s)
    ensures RevisionsAge(s, Commit(s, txn, at)) && RevisionsOk(Commit(s, txn, at))
    ensures Commit(s, txn, at).current == s.current
  {
    if Commits(s, txn, at) {
      var t := Commit(s, txn, at);
      var ms, n := txn.mutations, |txn.mutations|;
      CurrentPlain(s.current, ms, n, o);
      forall k ensures k in t.modRev ==> t.modRev[k] <= t.revision
               ensures k.CurrentSessionAt? ==>
                 (k in t.modRev <==> k in s.modRev) && (k in s.modRev ==> t.modRev[k] == s.modRev[k]) {
        Stamped(s.modRev, ms, n, t.revision, o, k);
      }
      forall g ensures GrantAges(s, t, g) && (g in t.grants ==> GrantAt(g) in t.modRev) {
        GrantStamped(s.modRev, s.grants, ms, n, t.revision, o, g);
      }
    }
  }
}
