/**
 What every step of the owner-root protocol keeps, and how rights accumulate.
 */
module RootSafety {
  import opened Records
  import opened MetaStore
  import opened OwnerRoots
  import opened RequestLog

  const ROOTS := {OfRequests, OfRoots, OfReservations, OfGrants}

  /** The three things each step owes. */
  ghost predicate RootStep(s: State, t: State)
  {
    RootsOk(t) && RootsStay(s, t) && ReservationsFresh(s, t)
  }

  /** Steps that leave roots and reservations alone. */
  lemma OtherStep(s: State, t: State)
    requires RootsOk(s) && LogGrows(s, t) && t.roots == s.roots && t.reservations == s.reservations
    ensures RootStep(s, t)
  {
    forall r | r in t.roots ensures RootOk(t, r) { assert RootOk(s, r); }
    forall r | r in t.reservations ensures ReservationOk(t, r) { StillLogged(s, t, r); }
  }

  lemma StillLogged(s: State, t: State, r: string)
    requires RootsOk(s) && LogGrows(s, t) && r in s.reservations && r in t.reservations
    requires t.reservations[r] == s.reservations[r]
    ensures ReservationOk(t, r)
  {
    assert ReservationOk(s, r);
    var request :| Logged(s, s.reservations[r], request);
    assert Logged(t, t.reservations[r], request);
  }

  // ------------------------------------------------------------------- reserve

  lemma ReserveEffect(s: State, i: ReserveInput, at: nat)
    requires Commits(s, ReserveTxn(i), at)
    ensures i.root !in s.roots && i.root !in s.reservations
    ensures CallerKey(i.node, i.session, i.request) !in s.requests
    ensures var t := Commit(s, ReserveTxn(i), at);
      && t.reservations == s.reservations[i.root := NewReservation(i)]
      && CallerKey(i.node, i.session, i.request) in t.requests && LogGrows(s, t)
      && OnlyChanged(s, t, {OfRequests, OfReservations})
  {
    var txn := ReserveTxn(i);
    KeyFree(s, txn, at, 2, RootAt(i.root));
    KeyFree(s, txn, at, 3, ReservationAt(i.root));
    assert ReservationsAfter(s.reservations, txn.mutations, 1) == s.reservations[i.root := NewReservation(i)];
    CommitLogs(s, txn, at, RequestOutcome(txn.request, ReserveRoot, ReservationResult(NewReservation(i))));
    CommitFrame(s, txn, at, {OfRequests, OfReservations});
  }

  lemma ReserveKeeps(s: State, i: ReserveInput, at: nat)
    requires RootsOk(s) && Commits(s, ReserveTxn(i), at)
    ensures RootStep(s, Commit(s, ReserveTxn(i), at))
  {
    ReserveEffect(s, i, at);
    var t := Commit(s, ReserveTxn(i), at);
    assert Kept(s, t, OfRoots);
    assert Logged(t, NewReservation(i), i.request);
    forall r | r in t.roots ensures RootOk(t, r) { assert RootOk(s, r); }
    forall r | r in t.reservations ensures ReservationOk(t, r) { if r != i.root { StillLogged(s, t, r); } }
  }

  // ---------------------------------------------------------- activate and abort

  lemma ActivateMaps(s: State, root: RootRecord, g: RootGrant, o: RequestOutcome)
    ensures var ms := [Put(RootEntity(root)), Put(GrantEntity(g)), Delete(ReservationAt(root.root)), RecordOutcome(o)];
      && RootsAfter(s.roots, ms, |ms|) == s.roots[root.root := root]
      && ReservationsAfter(s.reservations, ms, |ms|) == s.reservations - {root.root}
      && GrantsAfter(s.grants, ms, |ms|) == s.grants[GrantKeyOf(g) := g]
      && Within(ms, ROOTS) && AllPlain(ms, o) && RecordOutcome(o) in ms
  {
    var ms := [Put(RootEntity(root)), Put(GrantEntity(g)), Delete(ReservationAt(root.root)), RecordOutcome(o)];
    assert RootsAfter(s.roots, ms, 2) == s.roots[root.root := root] by {
      assert RootsAfter(s.roots, ms, 1) == s.roots[root.root := root];
    }
    assert ReservationsAfter(s.reservations, ms, 2) == s.reservations by {
      assert ReservationsAfter(s.reservations, ms, 1) == s.reservations;
    }
    assert GrantsAfter(s.grants, ms, 2) == s.grants[GrantKeyOf(g) := g] by {
      assert GrantsAfter(s.grants, ms, 1) == s.grants;
    }
    assert ms[3] == RecordOutcome(o);
  }

  lemma ActivateEffect(s: State, request: string, r: RootReservation, prepareId: string, at: nat)
    requires Commits(s, ActivateTxn(request, r, prepareId), at)
    ensures r.root !in s.roots && r.root in s.reservations && s.reservations[r.root] == r
    ensures var t := Commit(s, ActivateTxn(request, r, prepareId), at); var root := ActivatedRoot(r, prepareId);
      && t.roots == s.roots[r.root := root]
      && t.reservations == s.reservations - {r.root}
      && t.grants == s.grants[GrantKeyOf(HomeGrant(root, 1)) := HomeGrant(root, 1)]
      && LogGrows(s, t) && OnlyChanged(s, t, ROOTS)
  {
    var txn := ActivateTxn(request, r, prepareId);
    var g := HomeGrant(ActivatedRoot(r, prepareId), 1);
    var o := RequestOutcome(txn.request, ActivateRoot, GrantResult(g));
    KeyFree(s, txn, at, 2, RootAt(r.root));
    EntityPinned(s, txn, at, 3, ReservationEntity(r));
    ActivateMaps(s, ActivatedRoot(r, prepareId), g, o);
    CommitGrowsLog(s, txn, at, o);
    CommitFrame(s, txn, at, ROOTS);
  }

  lemma ActivateKeeps(s: State, request: string, r: RootReservation, prepareId: string, at: nat)
    requires RootsOk(s) && Commits(s, ActivateTxn(request, r, prepareId), at)
    ensures RootStep(s, Commit(s, ActivateTxn(request, r, prepareId), at))
  {
    ActivateEffect(s, request, r, prepareId, at);
    var t := Commit(s, ActivateTxn(request, r, prepareId), at);
    forall x | x in t.roots ensures RootOk(t, x) { if x in s.roots { assert RootOk(s, x); } }
    forall x | x in t.reservations ensures ReservationOk(t, x) { StillLogged(s, t, x); }
  }

  lemma AbortEffect(s: State, request: string, r: RootReservation, root: string, session: SessionId, at: nat)
    requires Commits(s, AbortTxn(request, r, root, session), at)
    ensures r.root in s.reservations && s.reservations[r.root] == r
    ensures var t := Commit(s, AbortTxn(request, r, root, session), at);
      && t.reservations == s.reservations - {root}
      && LogGrows(s, t) && OnlyChanged(s, t, {OfRequests, OfReservations})
  {
    var txn := AbortTxn(request, r, root, session);
    EntityPinned(s, txn, at, 1, ReservationEntity(r));
    assert ReservationsAfter(s.reservations, txn.mutations, 1) == s.reservations - {root};
    CommitLogs(s, txn, at, RequestOutcome(txn.request, AbortRoot, EmptyResult));
    CommitFrame(s, txn, at, {OfRequests, OfReservations});
  }

  lemma AbortKeeps(s: State, request: string, r: RootReservation, root: string, session: SessionId, at: nat)
    requires RootsOk(s) && Commits(s, AbortTxn(request, r, root, session), at)
    ensures RootStep(s, Commit(s, AbortTxn(request, r, root, session), at))
  {
    AbortEffect(s, request, r, root, session, at);
    var t := Commit(s, AbortTxn(request, r, root, session), at);
    assert Kept(s, t, OfRoots);
    forall x | x in t.roots ensures RootOk(t, x) { assert RootOk(s, x); }
    forall x | x in t.reservations ensures ReservationOk(t, x) { StillLogged(s, t, x); }
  }

  // --------------------------------------------------------- acquire and recover

  lemma AcquireEffect(s: State, i: AcquireInput, grant: RootGrant, holder: TxnCondition, at: nat)
    requires Commits(s, AcquireTxn(i, grant, holder), at)
    ensures Holds(s, holder, at) && grant.root in s.roots && s.roots[grant.root].epoch == grant.epoch
    ensures var t := Commit(s, AcquireTxn(i, grant, holder), at);
      && t.grants == s.grants[GrantKeyOf(grant) := grant]
      && LogGrows(s, t) && OnlyChanged(s, t, {OfRequests, OfGrants})
  {
    var txn := AcquireTxn(i, grant, holder);
    ConditionHolds(s, txn, at, 2);
    ConditionHolds(s, txn, at, 3);
    assert GrantsAfter(s.grants, txn.mutations, 1) == s.grants[GrantKeyOf(grant) := grant];
    CommitLogs(s, txn, at, RequestOutcome(txn.request, AcquireRoot, GrantResult(grant)));
    CommitFrame(s, txn, at, {OfRequests, OfGrants});
  }

  lemma RecoverEffect(s: State, request: string, root: RootRecord, generation: nat, at: nat)
    requires Commits(s, RecoverTxn(request, root, generation), at)
    ensures root.root in s.roots && s.roots[root.root].epoch == root.epoch
    ensures var t := Commit(s, RecoverTxn(request, root, generation), at); var g := HomeGrant(root, generation);
      && t.roots == s.roots[root.root := root]
      && t.grants == s.grants[GrantKeyOf(g) := g]
      && LogGrows(s, t) && OnlyChanged(s, t, {OfRequests, OfRoots, OfGrants})
  {
    var txn := RecoverTxn(request, root, generation);
    var g := HomeGrant(root, generation);
    ConditionHolds(s, txn, at, 2);
    var ms := txn.mutations;
    assert RootsAfter(s.roots, ms, 2) == s.roots[root.root := root] by {
      assert RootsAfter(s.roots, ms, 1) == s.roots[root.root := root];
    }
    assert GrantsAfter(s.grants, ms, 2) == s.grants[GrantKeyOf(g) := g] by {
      assert GrantsAfter(s.grants, ms, 1) == s.grants;
    }
    CommitLogs(s, txn, at, RequestOutcome(txn.request, RecoverRoot, GrantResult(g)));
    CommitFrame(s, txn, at, {OfRequests, OfRoots, OfGrants});
  }

  /** Recovery rewrites only the home session: the rest of the record was fixed when it was read. */
  lemma RecoverKeeps(s: State, rootAt: State, grantAt: State, i: RecoverInput, at: nat)
    requires RootsOk(s) && RootsOk(rootAt) && RootsStay(rootAt, s)
    requires PlanRecover(rootAt, grantAt, i).Planned? && Commits(s, PlanRecover(rootAt, grantAt, i).txn, at)
    ensures RootStep(s, Commit(s, PlanRecover(rootAt, grantAt, i).txn, at))
  {
    var was := rootAt.roots[i.root];
    var home := GrantKey(was.root, was.homeNode, was.homeSession);
    var generation := if home in grantAt.grants then SatAdd64(grantAt.grants[home].generation, 1) else 1;
    var root := was.(homeSession := i.session);
    RecoverEffect(s, i.request, root, generation, at);
    var t := Commit(s, RecoverTxn(i.request, root, generation), at);
    assert RootOk(rootAt, i.root) && RootStays(rootAt, s, i.root);
    assert Kept(s, t, OfReservations);
    RecoverRecords(s, t, root);
  }

  lemma RecoverRecords(s: State, t: State, root: RootRecord)
    requires RootsOk(s) && LogGrows(s, t) && root.root in s.roots
    requires s.roots[root.root] == root.(homeSession := s.roots[root.root].homeSession)
    requires t.roots == s.roots[root.root := root] && t.reservations == s.reservations
    ensures RootStep(s, t)
  {
    forall x | x in t.roots ensures RootOk(t, x) { assert RootOk(s, x); }
    forall x | x in t.reservations ensures ReservationOk(t, x) { StillLogged(s, t, x); }
  }

  // -------------------------------------------------------------------- rights

  /** The rights a holder has in the given access. */
  ghost function RightsAt(s: State, g: GrantKey,
                          access: Access): set<RootRight> { RightsIn(KeptRights(s.grants, g, access)) }

  /** The grant an acquisition wrote is what the holder had when it committed, plus what it asked for. */
  lemma AcquireAddsRights(s: State, rootAt: State, homeAt: State, holderAt: State, i: AcquireInput, at: nat)
    requires RevisionsOk(s) && RevisionsOk(holderAt) && RevisionsAge(holderAt, s)
    requires PlanAcquireRoot(rootAt, homeAt, holderAt, i).Planned?
    requires Commits(s, PlanAcquireRoot(rootAt, homeAt, holderAt, i).txn, at)
    ensures var t := Commit(s, PlanAcquireRoot(rootAt, homeAt, holderAt, i).txn, at);
      var root := rootAt.roots[i.root]; var g := GrantKey(root.root, i.node, i.session);
      && g in t.grants && t.grants == s.grants[g := t.grants[g]]
      && RightsAt(t, g, AccessOf(t.grants[g])) == RightsAt(s, g, AccessOf(t.grants[g])) + RightsIn(i.rights)
  {
    var root := rootAt.roots[i.root];
    var g := GrantKey(root.root, i.node, i.session);
    var generation := homeAt.grants[GrantKey(root.root, root.homeNode, root.homeSession)].generation;
    var kept := KeptRights(holderAt.grants, g, Access(root.epoch, root.homeSession, generation));
    var grant := AcquiredGrant(root, i, generation, kept);
    AcquireEffect(s, i, grant, HolderCondition(holderAt, g), at);
    HolderIsCurrent(s, holderAt, g, at);
    MergedIsUnion(kept, i.rights);
  }

  lemma HolderIsCurrent(s: State, holderAt: State, g: GrantKey, at: nat)
    requires RevisionsOk(s) && RevisionsOk(holderAt) && RevisionsAge(holderAt, s)
    requires Holds(s, HolderCondition(holderAt, g), at)
    ensures g in s.grants <==> g in holderAt.grants
    ensures g in s.grants ==> s.grants[g] == holderAt.grants[g]
  {
    assert GrantAges(holderAt, s, g);
  }
}
