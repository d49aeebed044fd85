/**
 The owner-root authority (src/meta/owner_roots.rs): reserve, activate, abort,
 acquire and recover, on the same store.
 */
module OwnerRoots {
  import opened Records
  import opened MetaStore
  import opened NamespacePlans
  import Encodings

  // -------------------------------------------------------------------- rights

  const ALL_RIGHTS := [Lookup, Read, Write, Admin]

  function Has(rights: seq<RootRight>, r: RootRight): seq<RootRight> { if r in rights then [r] else [] }

  /** The rights of both lists, each once, in a fixed order. */
  function Merged(existing: seq<RootRight>, requested: seq<RootRight>): seq<RootRight>
  {
    var all := existing + requested;
    Has(all, Lookup) + Has(all, Read) + Has(all, Write) + Has(all, Admin)
  }

  ghost function RightsIn(rights: seq<RootRight>): set<RootRight> { set r | r in rights }

  lemma MergedIsUnion(existing: seq<RootRight>, requested: seq<RootRight>)
    ensures RightsIn(Merged(existing, requested)) == RightsIn(existing) + RightsIn(requested)
    ensures forall i, j :: 0 <= i < j < |Merged(existing, requested)| ==>
      Merged(existing, requested)[i] != Merged(existing, requested)[j]
  {
    forall r ensures r in Merged(existing, requested) <==> r in existing || r in requested {
      match r case Lookup => case Read => case Write => case Admin =>
    }
  }

  /** `merge_rights` */
  method MergeRights(existing: seq<RootRight>, requested: seq<RootRight>) returns (out: seq<RootRight>)
    ensures out == Merged(existing, requested)
  {
    var lookup, read, write, admin := false, false, false, false;
    var all := existing + requested;
    for i := 0 to |all|
      invariant lookup <==> Lookup in all[..i]
      invariant read <==> Read in all[..i]
      invariant write <==> Write in all[..i]
      invariant admin <==> Admin in all[..i]
    {
      assert all[..i + 1] == all[..i] + [all[i]];
      match all[i] {
        case Lookup => lookup := true;
        case Read => read := true;
        case Write => write := true;
        case Admin => admin := true;
      }
    }
    assert all[..|all|] == all;
    out := [];
    if lookup { out := out + [Lookup]; }
    if read { out := out + [Read]; }
    if write { out := out + [Write]; }
    if admin { out := out + [Admin]; }
  }

  // --------------------------------------------------------------------- plans

  function CallerKey(node: NodeId, session: SessionId, request: string): RequestKey
  {
    RequestKey(node + "/" + session, request)
  }

  function PrepareToken(root: string, session: SessionId, intent: string, request: string): string
  {
    "prepare:" + root + ":" + session + ":" + intent + ":" + request
  }

  datatype ReserveInput = ReserveInput(
    request: string, root: string, node: NodeId, session: SessionId, expectedEpoch: nat, intent: string)

  function NewReservation(i: ReserveInput): RootReservation
  {
    RootReservation(i.root, Max(i.expectedEpoch, 1), i.node, i.session, i.intent,
                    PrepareToken(i.root, i.session, i.intent, i.request))
  }

  function ReserveTxn(i: ReserveInput): MetaTxn
  {
    var key := CallerKey(i.node, i.session, i.request);
    MetaTxn(key, ReserveRoot,
            [ RequestAbsent(key), NodeSessionCurrent(i.node, i.session), Missing(RootAt(i.root)),
              Missing(ReservationAt(i.root)) ],
            [ Put(ReservationEntity(NewReservation(i))),
              RecordOutcome(RequestOutcome(key, ReserveRoot, ReservationResult(NewReservation(i)))) ])
  }

  predicate SameIntent(r: RootReservation, i: ReserveInput)
  {
    r.homeNode == i.node && r.homeSession == i.session && r.intent == i.intent
  }

  /** A repeated intent is answered from the reservation that was read; nothing is submitted. */
  function PlanReserve(reservationAt: State, i: ReserveInput): Plan
  {
    if i.root in reservationAt.reservations && SameIntent(reservationAt.reservations[i.root], i)
      then Refused(AlreadyExists)
    else Planned(ReserveTxn(i))
  }

  function HomeGrant(root: RootRecord, generation: nat): RootGrant
  {
    RootGrant(root.root, root.epoch, root.homeNode, root.homeSession, root.homeNode, root.homeSession, generation,
              ALL_RIGHTS, FenceToken(root.root, root.homeSession, generation))
  }

  function FenceToken(root: string, session: SessionId, generation: nat): string
  {
    "fence:" + root + ":" + session + ":" + Encodings.Decimal(generation)
  }

  function ActivatedRoot(r: RootReservation, prepareId: string): RootRecord
  {
    RootRecord(r.root, r.epoch, r.homeNode, r.homeSession, prepareId)
  }

  function ActivateTxn(request: string, r: RootReservation, prepareId: string): MetaTxn
  {
    var key := CallerKey(r.homeNode, r.homeSession, request);
    var root := ActivatedRoot(r, prepareId);
    MetaTxn(key, ActivateRoot,
            [ RequestAbsent(key), NodeSessionCurrent(r.homeNode, r.homeSession), Missing(RootAt(r.root)),
              EntityEquals(ReservationEntity(r)) ],
            [ Put(RootEntity(root)), Put(GrantEntity(HomeGrant(root, 1))), Delete(ReservationAt(r.root)),
              RecordOutcome(RequestOutcome(key, ActivateRoot, GrantResult(HomeGrant(root, 1)))) ])
  }

  function PlanActivate(reservationAt: State, request: string, shown: RootReservation, prepareId: string): Plan
  {
    if shown.root !in reservationAt.reservations then Refused(NotFound)
    else if reservationAt.reservations[shown.root].(root := shown.root) != shown then Refused(Conflict)
    else Planned(ActivateTxn(request, reservationAt.reservations[shown.root], prepareId))
  }

  function AbortTxn(request: string, r: RootReservation, root: string, session: SessionId): MetaTxn
  {
    var key := CallerKey(r.homeNode, session, request);
    MetaTxn(key, AbortRoot,
            [ RequestAbsent(key), EntityEquals(ReservationEntity(r)) ],
            [ Delete(ReservationAt(root)), RecordOutcome(RequestOutcome(key, AbortRoot, EmptyResult)) ])
  }

  datatype AbortInput = AbortInput(
    request: string, root: string, epoch: nat, session: SessionId, intent: string, token: string, home: Option<NodeId>)

  function PlanAbort(reservationAt: State, i: AbortInput): Plan
  {
    if i.root !in reservationAt.reservations then Refused(NotFound)
    else
      var r := reservationAt.reservations[i.root];
      if r.homeSession != i.session || r.epoch != i.epoch || r.intent != i.intent || r.token != i.token
        then Refused(Conflict)
      else if i.home.Some? && i.home.value != r.homeNode then Refused(PermissionDenied)
      else Planned(AbortTxn(i.request, r, i.root, i.session))
  }

  datatype AcquireInput = AcquireInput(
    request: string, root: string, node: NodeId, session: SessionId, rights: seq<RootRight>,
    expectedEpoch: nat, expectedGeneration: nat)

  /** The access a grant belongs to: rights carry over only within one of these. */
  datatype Access = Access(epoch: nat, homeSession: SessionId, generation: nat)

  function AccessOf(g: RootGrant): Access { Access(g.epoch, g.homeSession, g.generation) }

  function KeptRights(grants: map<GrantKey, RootGrant>, key: GrantKey, access: Access): seq<RootRight>
  {
    if key in grants && AccessOf(grants[key]) == access then grants[key].rights else []
  }

  function HolderCondition(holderAt: State, key: GrantKey): TxnCondition
  {
    if key in holderAt.grants
    then RevisionEquals(GrantAt(key), if GrantAt(key) in holderAt.modRev then holderAt.modRev[GrantAt(key)] else 0)
    else Missing(GrantAt(key))
  }

  function AcquiredGrant(root: RootRecord, i: AcquireInput, generation: nat, kept: seq<RootRight>): RootGrant
  {
    RootGrant(root.root, root.epoch, root.homeNode, root.homeSession, i.node, i.session, generation,
              Merged(kept, i.rights), FenceToken(root.root, i.session, generation))
  }

  function AcquireTxn(i: AcquireInput, grant: RootGrant, holder: TxnCondition): MetaTxn
  {
    var key := CallerKey(i.node, i.session, i.request);
    MetaTxn(key, AcquireRoot,
            [ RequestAbsent(key), NodeSessionCurrent(i.node, i.session), RootEpochEquals(grant.root, grant.epoch),
              holder ],
            [ Put(GrantEntity(grant)), RecordOutcome(RequestOutcome(key, AcquireRoot, GrantResult(grant))) ])
  }

  function PlanAcquireRoot(rootAt: State, homeAt: State, holderAt: State, i: AcquireInput): Plan
  {
    if i.root !in rootAt.roots then Refused(NotFound)
    else
      var root := rootAt.roots[i.root];
      var home := GrantKey(root.root, root.homeNode, root.homeSession);
      var holder := GrantKey(root.root, i.node, i.session);
      if i.expectedEpoch != 0 && i.expectedEpoch != root.epoch then Refused(Conflict)
      else if home !in homeAt.grants then Refused(NotFound)
      else
        var generation := homeAt.grants[home].generation;
        if i.expectedGeneration != 0 && i.expectedGeneration != generation then Refused(Conflict)
        else
          Planned(AcquireTxn(i, AcquiredGrant(root, i, generation,
                                              KeptRights(holderAt.grants, holder,
                                                         Access(root.epoch, root.homeSession, generation))),
                             HolderCondition(holderAt, holder)))
  }

  datatype RecoverInput = RecoverInput(
    request: string, root: string, expectedEpoch: nat, node: NodeId, session: SessionId, prepareId: string)

  function RecoverTxn(request: string, root: RootRecord, generation: nat): MetaTxn
  {
    var key := CallerKey(root.homeNode, root.homeSession, request);
    MetaTxn(key, RecoverRoot,
            [ RequestAbsent(key), NodeSessionCurrent(root.homeNode, root.homeSession),
              RootEpochEquals(root.root, root.epoch) ],
            [ Put(RootEntity(root)), Put(GrantEntity(HomeGrant(root, generation))),
              RecordOutcome(RequestOutcome(key, RecoverRoot, GrantResult(HomeGrant(root, generation)))) ])
  }

  function PlanRecover(rootAt: State, grantAt: State, i: RecoverInput): Plan
  {
    if i.root !in rootAt.roots then Refused(NotFound)
    else
      var root := rootAt.roots[i.root];
      if root.homeNode != i.node || root.epoch != i.expectedEpoch || root.prepareId != i.prepareId
        then Refused(Conflict)
      else
        var home := GrantKey(root.root, root.homeNode, root.homeSession);
        var generation := if home in grantAt.grants then SatAdd64(grantAt.grants[home].generation, 1) else 1;
        Planned(RecoverTxn(i.request, root.(homeSession := i.session), generation))
  }

  // ----------------------------------------------------------------- invariant

  ghost predicate RootOk(s: State, r: string)
    requires r in s.roots
  {
    s.roots[r].root == r && r !in s.reservations
  }

  /** A reservation remembers the request that made it, and that request is in the log. */
  ghost predicate Logged(s: State, r: RootReservation, request: string)
  {
    && r.token == PrepareToken(r.root, r.homeSession, r.intent, request)
    && CallerKey(r.homeNode, r.homeSession, request) in s.requests
  }

  ghost predicate ReservationOk(s: State, r: string)
    requires r in s.reservations
  {
    s.reservations[r].root == r && exists request :: Logged(s, s.reservations[r], request)
  }

  ghost predicate RootsOk(s: State)
  {
    && (forall r {:trigger RootOk(s, r)} :: r in s.roots ==> RootOk(s, r))
    && (forall r {:trigger ReservationOk(s, r)} :: r in s.reservations ==> ReservationOk(s, r))
  }

  /** An active root stays, with its home node, epoch and prepare id. */
  ghost predicate RootStays(s: State, t: State, r: string)
    requires r in s.roots
  {
    r in t.roots && t.roots[r] == s.roots[r].(homeSession := t.roots[r].homeSession)
  }

  ghost predicate RootsStay(s: State, t: State)
  {
    forall r {:trigger RootStays(s, t, r)} :: r in s.roots ==> RootStays(s, t, r)
  }

  /** A reservation appears only by a request not seen before. */
  ghost predicate ReservationFresh(s: State, t: State, r: string)
  {
    r in t.reservations && !(r in s.reservations && s.reservations[r] == t.reservations[r]) ==>
      exists request :: Logged(t, t.reservations[r], request)
        && CallerKey(t.reservations[r].homeNode, t.reservations[r].homeSession, request) !in s.requests
  }

  ghost predicate ReservationsFresh(s: State, t: State)
  {
    forall r {:trigger ReservationFresh(s, t, r)} :: ReservationFresh(s, t, r)
  }

  /** The token and the other fields of a reservation fix the request that made it. */
  lemma TokenFixesRequest(root: string, session: SessionId, intent: string, a: string, b: string)
    requires PrepareToken(root, session, intent, a) == PrepareToken(root, session, intent, b)
    ensures a == b
  {
    var p := "prepare:" + root + ":" + session + ":" + intent + ":";
    assert PrepareToken(root, session, intent, a) == p + a;
    assert PrepareToken(root, session, intent, b) == p + b;
    assert a == (p + a)[|p|..];
    assert b == (p + b)[|p|..];
  }
}
