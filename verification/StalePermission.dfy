/**
 A run in which a directory loses its permissions between the planning and the
 commit of a rename that changes nothing: the rename commits, although the same
 request, planned on the state it commits in, is refused.
 */
module StalePermission {
  import opened Records
  import opened MetaStore
  import opened NamespacePlans
  import opened NamespaceEffects
  import opened NamespaceSteps
  import opened InodeHistory
  import opened Leases
  import opened RequestLog
  import opened MetaRun
  import opened RunSteps
  import opened RunFacts
  import opened RunTheorems
  import opened DigestBinding

  const LIBRARY := NamespaceId("n")

  const ENTRY := DentryKey(LIBRARY, ROOT, [97])

  /** The root directory, owned by user 0. */
  function Shelf(mode: nat, revision: U64): InodeRecord
  {
    RootInode(LIBRARY).(attrs := InodeAttributes(mode, 0, 0, 2, 0, 0, 0), revision := revision)
  }

  /** The pipe that user 0 puts into it. */
  const BOOK := InodeRecord(LIBRARY, InodeId("f"), Special(Fifo), InodeAttributes(0, 0, 0, 1, 0, 0, 0), None, None,
                            map[], 1)

  const SHELVE := AddRequest(Origin("c", OperationId("add"), []), LIBRARY, ROOT, [97],
                             InodeAttributes(0, 0, 0, 1, 0, 0, 0),
                             NewSpecial(Fifo, CallerContext(0, 0, [])))

  /** User 7 renames it to its own name. */
  const STAY_PUT := RenameRequest(Origin("c", OperationId("rename"), []), LIBRARY, ROOT, [97], ROOT, [97], true,
                                  CallerContext(7, 7, []))

  function ChangeMode(name: string, mode: nat, revision: nat): MetadataRequest
  {
    MetadataRequest("c", OperationId(name), ROOT, revision, InodeAttributes(mode, 0, 0, 2, 0, 0, 0), map[])
  }

  /** What the steps below look at: root, entry, and the request keys in use. */
  ghost predicate Shows(s: State, shelf: InodeRecord, full: bool, used: set<RequestKey>)
  {
    && s.inodes == (if full then map[ROOT := shelf, BOOK.id := BOOK] else map[ROOT := shelf])
    && s.dentries == (if full then map[ENTRY := BOOK.id] else map[])
    && s.leases == map[] && s.requests.Keys == used
  }

  lemma RoomIn(s: State, shelf: InodeRecord, full: bool, used: set<RequestKey>)
    requires Shows(s, shelf, full, used) && shelf.attrs.nlink < MAX32 && shelf.revision < MAX64
    ensures Headroom(s)
  {
  }

  // -------------------------------------------------------------------------- steps

  const ROOT_KEY := RequestKey("afs-meta", "dfs-namespace-root:n")

  lemma Started()
    ensures Shows(Commit(EMPTY, RootTxn(LIBRARY), 0), Shelf(493, 1), false, {ROOT_KEY})
  {
    var txn := RootTxn(LIBRARY);
    var o := RequestOutcome(ROOT_KEY, DfsInitializeNamespace, InodeResult(RootInode(LIBRARY)));
    assert txn.mutations[1] == RecordOutcome(o) && txn.request == ROOT_KEY;
    assert AllHold(EMPTY, txn.conditions, 0);
    assert Commits(EMPTY, txn, 0);
    RootEffect(EMPTY, LIBRARY, 0);
    CommitLogs(EMPTY, txn, 0, o);
  }

  lemma {:induction false} AllHoldOf(s: State, cs: seq<TxnCondition>)
    requires forall i :: 0 <= i < |cs| ==> Holds(s, cs[i], 0)
    ensures AllHold(s, cs, 0)
  {
    if cs != [] {
      assert forall i :: 0 <= i < |cs[1..]| ==> cs[1..][i] == cs[i + 1];
      AllHoldOf(s, cs[1..]);
    }
  }

  lemma UpdateCommits(s: State, key: RequestKey, from: InodeRecord, to: InodeRecord)
    requires key.IsValid() && key !in s.requests && from.id in s.inodes && s.inodes[from.id] == from
    ensures var txn := UpdateTxn(key, DfsSetInodeMetadata, from, to, None);
      Commits(s, txn, 0) && Commit(s, txn, 0).requests.Keys == s.requests.Keys + {key}
  {
    var txn := UpdateTxn(key, DfsSetInodeMetadata, from, to, None);
    var o := RequestOutcome(key, DfsSetInodeMetadata, InodeResult(to));
    assert txn.mutations[1] == RecordOutcome(o);
    AllHoldOf(s, txn.conditions);
    CommitLogs(s, txn, 0, o);
  }

  lemma EntriesKept(s: State, t: State)
    requires OnlyChanged(s, t, {OfRequests, OfInodes})
    ensures t.dentries == s.dentries && t.leases == s.leases
  {
    assert Kept(s, t, OfDentries) && Kept(s, t, OfLeases);
  }

  lemma ModeWritten(s: State, t: State, from: InodeRecord, to: InodeRecord, full: bool, used: set<RequestKey>,
                    key: RequestKey)
    requires Shows(s, from, full, used) && to.id == ROOT && t.requests.Keys == used + {key}
    requires t.inodes == s.inodes[to.id := to] && t.dentries == s.dentries && t.leases == s.leases
    ensures Shows(t, to, full, used + {key})
  {
    assert BOOK.id != ROOT;
  }

  lemma BookWritten(s: State, t: State, from: InodeRecord, to: InodeRecord, used: set<RequestKey>, key: RequestKey)
    requires Shows(s, from, false, used) && to.id == ROOT && t.requests.Keys == used + {key}
    requires t.inodes == s.inodes[to.id := to][BOOK.id := BOOK] && t.dentries == s.dentries[ENTRY := BOOK.id]
    requires t.leases == s.leases
    ensures Shows(t, to, true, used + {key})
  {
    assert BOOK.id != ROOT;
  }

  lemma ModePlan(s: State, was: nat, revision: nat, full: bool, used: set<RequestKey>, name: string, mode: nat)
    requires revision < 9 && Shows(s, Shelf(was, revision), full, used) && name != ""
    ensures PlanSetMetadata(s, ChangeMode(name, mode, revision))
      == Planned(UpdateTxn(RequestKey("c", name), DfsSetInodeMetadata, Shelf(was, revision), Shelf(mode, revision + 1),
                           None))
  {
  }

  lemma AddPlan(s: State, used: set<RequestKey>)
    requires Shows(s, Shelf(511, 2), false, used)
    ensures PlanAdd(s, SHELVE, BOOK.id, 0)
      == Planned(CreationTxn(SHELVE.origin, DfsMknod, ENTRY, Shelf(511, 2), Shelf(511, 3), BOOK, None))
  {
    assert CheckName([97]).None? && Shelf(511, 2).attrs.mode % 4 == 3;
  }

  lemma ModeChanged(s: State, was: nat, revision: nat, full: bool, used: set<RequestKey>, name: string, mode: nat)
    requires revision < 9 && Shows(s, Shelf(was, revision), full, used) && name != "" && RequestKey("c", name) !in used
    ensures Headroom(s)
    ensures Shows(Submit(s, PlanSetMetadata(s, ChangeMode(name, mode, revision)), 0), Shelf(mode, revision + 1), full,
                  used + {RequestKey("c", name)})
  {
    var key, from, to := RequestKey("c", name), Shelf(was, revision), Shelf(mode, revision + 1);
    RoomIn(s, from, full, used);
    ModePlan(s, was, revision, full, used, name, mode);
    UpdateCommits(s, key, from, to);
    UpdateEffect(s, key, DfsSetInodeMetadata, from, to, None, 0);
    var t := Commit(s, UpdateTxn(key, DfsSetInodeMetadata, from, to, None), 0);
    EntriesKept(s, t);
    ModeWritten(s, t, from, to, full, used, key);
  }

  lemma CreationCommits(s: State, origin: Origin, op: StoreOperation, key: DentryKey, from: InodeRecord,
                        to: InodeRecord, inode: InodeRecord)
    requires origin.Key().IsValid() && origin.Key() !in s.requests && from.id in s.inodes && s.inodes[from.id] == from
    requires key !in s.dentries && inode.id !in s.inodes
    ensures var txn := CreationTxn(origin, op, key, from, to, inode, None);
      Commits(s, txn, 0) && Commit(s, txn, 0).requests.Keys == s.requests.Keys + {origin.Key()}
  {
    var txn := CreationTxn(origin, op, key, from, to, inode, None);
    var o := origin.Outcome(op, CreationResult(inode, None));
    CreationPlain(o, key, to, inode, None);
    RecordedIsValid(txn.mutations, o);
    AllHoldOf(s, txn.conditions);
    CommitLogs(s, txn, 0, o);
  }

  lemma Shelved(s: State, used: set<RequestKey>)
    requires Shows(s, Shelf(511, 2), false, used) && SHELVE.origin.Key() !in used
    ensures Headroom(s)
    ensures Shows(Submit(s, PlanAdd(s, SHELVE, BOOK.id, 0), 0), Shelf(511, 3), true, used + {SHELVE.origin.Key()})
  {
    var from, to := Shelf(511, 2), Shelf(511, 3);
    RoomIn(s, from, false, used);
    AddPlan(s, used);
    CreationCommits(s, SHELVE.origin, DfsMknod, ENTRY, from, to, BOOK);
    CreationEffect(s, SHELVE.origin, DfsMknod, ENTRY, from, to, BOOK, None, 0);
    BookWritten(s, Commit(s, CreationTxn(SHELVE.origin, DfsMknod, ENTRY, from, to, BOOK, None), 0), from, to, used,
                SHELVE.origin.Key());
  }

  lemma RenamePlanned(s: State, revision: U64, used: set<RequestKey>)
    requires Shows(s, Shelf(511, revision), true, used)
    ensures PlanRename(s, s, s, STAY_PUT, 0) == Planned(NoopTxn(STAY_PUT, BOOK))
  {
    assert CheckName([97]).None?;
  }

  lemma RenameStillCommits(t: State, revision: U64, used: set<RequestKey>)
    requires Shows(t, Shelf(0, revision), true, used) && STAY_PUT.origin.Key() !in used
    ensures Commits(t, NoopTxn(STAY_PUT, BOOK), 0) && PlanRename(t, t, t, STAY_PUT, 0) == Refused(PermissionDenied)
  {
    assert CheckName([97]).None?;
    assert AllHold(t, NoopTxn(STAY_PUT, BOOK).conditions, 0);
  }

  /** Planned as a rename that changes nothing, it commits in `t`, where the same request is refused. */
  ghost predicate Outlives(e: TreeEvent, t: State)
  {
    && PlanTree(e, 0) == Planned(NoopTxn(STAY_PUT, BOOK)) && Commits(t, NoopTxn(STAY_PUT, BOOK), 0)
    && PlanTree(ReadingFrom(e, t), 0) == Refused(PermissionDenied)
  }

  lemma RenameOutlives(x: State, used: set<RequestKey>, t: State, later: set<RequestKey>)
    requires Shows(x, Shelf(511, 3), true, used) && Shows(t, Shelf(0, 4), true, later)
    requires STAY_PUT.origin.Key() !in later
    ensures Outlives(Rename(x, x, x, STAY_PUT), t)
  {
    RenamePlanned(x, 3, used);
    RenameStillCommits(t, 4, later);
  }

  // ---------------------------------------------------------------------------- runs

  /** A run goes on with one more transaction. */
  lemma Extended(h: seq<State>, es: seq<Step>, cfg: ReplicationConfig, e: Event, plan: Plan)
    returns (h': seq<State>, es': seq<Step>)
    requires Run(h, es, cfg) && !e.Register? && Honest(e) && Headroom(h[|es|]) && PlanOf(e, cfg, 0) == plan
    requires forall j :: 0 <= j < |ReadsOf(e)| ==> ReadsOf(e)[j] in h
    ensures Run(h', es', cfg) && |es'| == |es| + 1 && h <= h' && es <= es'
    ensures es'[|es|] == Step(e, 0, 0) && h'[|es| + 1] == Submit(h[|es|], plan, 0)
  {
    RunsGoOn(h, es, cfg, Step(e, 0, 0));
    h', es' := h + [Next(h[|es|], e, cfg, 0, 0)], es + [Step(e, 0, 0)];
  }

  lemma OneStep(cfg: ReplicationConfig) returns (h: seq<State>, es: seq<Step>)
    ensures Run(h, es, cfg) && |es| == 1 && Shows(h[1], Shelf(493, 1), false, {ROOT_KEY})
  {
    Started();
    h, es := Extended([EMPTY], [], cfg, OnTree(StartNamespace(LIBRARY)), Planned(RootTxn(LIBRARY)));
  }

  lemma ExtendedBySet(h: seq<State>, es: seq<Step>, cfg: ReplicationConfig, req: MetadataRequest)
    returns (h': seq<State>, es': seq<Step>)
    requires Run(h, es, cfg) && Headroom(h[|es|])
    ensures Run(h', es', cfg) && |es'| == |es| + 1 && h <= h' && es <= es'
    ensures es'[|es|] == Step(OnFiles(SetMetadata(h[|es|], req)), 0, 0)
    ensures h'[|es| + 1] == Submit(h[|es|], PlanSetMetadata(h[|es|], req), 0)
  {
    h', es' := Extended(h, es, cfg, OnFiles(SetMetadata(h[|es|], req)), PlanSetMetadata(h[|es|], req));
  }

  lemma ExtendedByAdd(h: seq<State>, es: seq<Step>, cfg: ReplicationConfig, req: AddRequest, id: InodeId)
    returns (h': seq<State>, es': seq<Step>)
    requires Run(h, es, cfg) && Headroom(h[|es|]) && !req.what.NewFile?
    ensures Run(h', es', cfg) && |es'| == |es| + 1 && h <= h' && es <= es'
    ensures es'[|es|] == Step(OnTree(Add(h[|es|], req, id)), 0, 0)
    ensures h'[|es| + 1] == Submit(h[|es|], PlanAdd(h[|es|], req, id, 0), 0)
  {
    h', es' := Extended(h, es, cfg, OnTree(Add(h[|es|], req, id)), PlanAdd(h[|es|], req, id, 0));
  }

  lemma ModeStep(h: seq<State>, es: seq<Step>, cfg: ReplicationConfig, was: nat, revision: nat, full: bool,
                 used: set<RequestKey>,
                 name: string, mode: nat) returns (h': seq<State>, es': seq<Step>)
    requires Run(h, es, cfg) && revision < 9 && Shows(h[|es|], Shelf(was, revision), full, used)
    requires name != "" && RequestKey("c", name) !in used
    ensures Run(h', es', cfg) && |es'| == |es| + 1 && h <= h' && es <= es'
    ensures es'[|es|].event == OnFiles(SetMetadata(h[|es|], ChangeMode(name, mode, revision)))
    ensures Shows(h'[|es'|], Shelf(mode, revision + 1), full, used + {RequestKey("c", name)})
  {
    ModeChanged(h[|es|], was, revision, full, used, name, mode);
    h', es' := ExtendedBySet(h, es, cfg, ChangeMode(name, mode, revision));
  }

  lemma KeysDiffer()
    ensures RequestKey("c", "open") !in {ROOT_KEY}
    ensures SHELVE.origin.Key() !in {ROOT_KEY} + {RequestKey("c", "open")}
    ensures RequestKey("c", "close") !in {ROOT_KEY} + {RequestKey("c", "open")} + {SHELVE.origin.Key()}
    ensures STAY_PUT.origin.Key()
      !in {ROOT_KEY} + {RequestKey("c", "open")} + {SHELVE.origin.Key()} + {RequestKey("c", "close")}
  {
    assert ROOT_KEY.caller[0] == 'a' && "open"[0] == 'o' && "close"[0] == 'c' && "add"[0] == 'a' && "rename"[0] == 'r';
    assert "c"[0] == 'c';
  }

  lemma AddStep(h: seq<State>, es: seq<Step>, cfg: ReplicationConfig, used: set<RequestKey>)
    returns (h': seq<State>, es': seq<Step>)
    requires Run(h, es, cfg) && Shows(h[|es|], Shelf(511, 2), false, used) && SHELVE.origin.Key() !in used
    ensures Run(h', es', cfg) && |es'| == |es| + 1 && h <= h' && es <= es'
    ensures Shows(h'[|es'|], Shelf(511, 3), true, used + {SHELVE.origin.Key()})
  {
    Shelved(h[|es|], used);
    h', es' := ExtendedByAdd(h, es, cfg, SHELVE, BOOK.id);
  }

  lemma TwoSteps(cfg: ReplicationConfig) returns (h: seq<State>, es: seq<Step>)
    ensures Run(h, es, cfg) && |es| == 2 && Shows(h[2], Shelf(511, 2), false, {ROOT_KEY} + {RequestKey("c", "open")})
  {
    KeysDiffer();
    var g, ds := OneStep(cfg);
    h, es := ModeStep(g, ds, cfg, 493, 1, false, {ROOT_KEY}, "open", 511);
  }

  lemma ThreeSteps(cfg: ReplicationConfig) returns (h: seq<State>, es: seq<Step>)
    ensures Run(h, es, cfg) && |es| == 3
    ensures Shows(h[3], Shelf(511, 3), true, {ROOT_KEY} + {RequestKey("c", "open")} + {SHELVE.origin.Key()})
  {
    KeysDiffer();
    var g, ds := TwoSteps(cfg);
    h, es := AddStep(g, ds, cfg, {ROOT_KEY} + {RequestKey("c", "open")});
  }

  lemma FourSteps(cfg: ReplicationConfig) returns (h: seq<State>, es: seq<Step>)
    ensures Run(h, es, cfg) && |es| == 4 && es[3].event == OnFiles(SetMetadata(h[3], ChangeMode("close", 0, 3)))
    ensures Shows(h[3], Shelf(511, 3), true, {ROOT_KEY} + {RequestKey("c", "open")} + {SHELVE.origin.Key()})
    ensures Shows(h[4], Shelf(0, 4), true,
                  {ROOT_KEY} + {RequestKey("c", "open")} + {SHELVE.origin.Key()} + {RequestKey("c", "close")})
  {
    KeysDiffer();
    var g, ds := ThreeSteps(cfg);
    h, es := ModeStep(g, ds, cfg, 511, 3, true, {ROOT_KEY} + {RequestKey("c", "open")} + {SHELVE.origin.Key()}, "close",
                      0);
  }

  lemma RenameStep(h: seq<State>, es: seq<Step>, cfg: ReplicationConfig, x: State, used: set<RequestKey>,
                   later: set<RequestKey>)
    returns (h': seq<State>, es': seq<Step>)
    requires Run(h, es, cfg) && x in h && Shows(x, Shelf(511, 3), true, used)
    requires Shows(h[|es|], Shelf(0, 4), true, later)
    ensures Run(h', es', cfg) && |es'| == |es| + 1 && h <= h' && es <= es'
    ensures es'[|es|] == Step(OnTree(Rename(x, x, x, STAY_PUT)), 0, 0)
  {
    RenamePlanned(x, 3, used);
    RoomIn(h[|es|], Shelf(0, 4), true, later);
    h', es' := Extended(h, es, cfg, OnTree(Rename(x, x, x, STAY_PUT)), Planned(NoopTxn(STAY_PUT, BOOK)));
  }

  /**
   The root is opened, a pipe put into it, the rename planned; the root is
   closed, and the rename commits.
   */
  lemma NoopCanOutliveItsPermission(cfg: ReplicationConfig) returns (h: seq<State>, es: seq<Step>)
    ensures Run(h, es, cfg) && |es| == 5 && es[3].event == OnFiles(SetMetadata(h[3], ChangeMode("close", 0, 3)))
    ensures es[4] == Step(OnTree(Rename(h[3], h[3], h[3], STAY_PUT)), 0, 0)
    ensures Outlives(es[4].event.tree, h[4])
  {
    KeysDiffer();
    var g, ds := FourSteps(cfg);
    var used := {ROOT_KEY} + {RequestKey("c", "open")} + {SHELVE.origin.Key()};
    RenameOutlives(g[3], used, g[4], used + {RequestKey("c", "close")});
    h, es := RenameStep(g, ds, cfg, g[3], used, used + {RequestKey("c", "close")});
  }
}
