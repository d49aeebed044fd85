# A verified model of AFS

AFS is a distributed file system.  `afs-meta` holds all authority in a
transactional store; `afs-node` holds immutable chunks in a crash-safe local
store.  This project models both in Dafny and proves what they promise over
every run.  `dafny verify dfyconfig.toml` checks it.

## How it is modelled

**Metadata authority** (`src/meta/dfs.rs`, `src/meta/owner_roots.rs`).  `State`
is the store's content as a record of maps.  Every service operation is a *plan*:
a function from the states it read, each possibly different and possibly stale,
to a transaction of conditions and mutations.  `Commit` applies a transaction to
the state it meets: nothing happens if the request key has an outcome or a
condition fails, otherwise all mutations happen.  A *run* (`RunTheorems.Run`)
starts with the empty store and is any sequence of commits of plans whose reads
were any earlier states of the run.  The invariants are proved from the
transactions' own conditions.  The tree operations that the namespace
transactions must amount to are defined on their own, on a graph of names and
link counts (`NamespaceTree`).

**Local chunk store** (`src/node/chunk.rs`).  `ChunkDisk` is a file system with
volatile and durable halves: file contents, the chunk directory, the catalog's
log.  `LocalChunkStore` is a class whose methods take the disk through the same
primitive steps in the same order as the source, and whose ghost trace keeps
every disk state passed through with what had been promised by then.  At each of
them the process may be killed, which leaves the unsynced halves as they are for
the next process, or the power may fail, which does not.

**Loops** of the source are methods with loops, proved against predicates that
do not mention them: the descendant searches, extent and receipt validation, the
merging of read intervals, the selection of replicas, the merging of rights, the
replay of the log, the scatter of a verified read.

| modules | subject |
|---|---|
| Records, MetaStore | records, transactions, `Commit` and its frame |
| NamespaceTree, NamespacePlans, NamespaceEffects, NamespaceSafety, LinkCounts, InodeHistory, NamespaceRefinement, DescendantSearch | namespace |
| Leases, FileLayouts, FileCommits, FileHistory, ReadRanges | leases, versions, layouts, reads |
| Replication, RepairPlans, RepairSafety, ReportSafety, RepairClaims, Ordering, Placement | replication, repair, placement |
| OwnerRoots, RootSafety | owner roots |
| RequestLog, MetaRun, NamespaceSteps, FileSteps, RunSteps, RunFacts, EventFrames, RunTheorems, RunHistory, DigestBinding, StalePermission | runs |
| VerifiedRead, ChunkDisk, ChunkPromises, ChunkStore, ChunkLives, StoreAndMeta | chunk store, and both together |
| Encodings | the texts behind ids |

## Assumptions

- `compare_and_commit` is atomic and keeps recorded outcomes, as the in-memory store does it (`src/meta/store.rs:1486-1556`).
- Digests and keyed tags are opaque functions.  Where identity matters the model keeps the hashed value itself.
- Chunk ids are derived from content (`src/node/chunk.rs:78-84`).  A version commit writes chunk records unconditionally and relies on it, so a run takes only receipts with such ids.
- Node ids contain no colon (`src/config.rs:260-267`), so copy ids can be kept structured.
- Link counts, inode revisions and lease epochs are below their maxima in the states of a run (`InodeHistory.Headroom`).  `LinkCounts` and `Leases.AcquiredSucceedsExactly` say exactly what room is needed.
- `create` takes the link count from its caller (`src/meta/dfs.rs:1069-1078`); runs take callers that pass 1.
- All servers of one run have the same replication config, and a transaction commits no earlier, by the clock, than it was planned.
- A rename reads its old parent before its new one, as the source does (`src/meta/dfs.rs:1486-1491`); apart from that, reads come from any earlier states in any order.
- Which nodes are live, and the sessions consulted as evidence, come from several separate reads.  They enter the plans as unconstrained values, so nothing about them is used.
- A killed process leaves the disk as it is, synced or not, with possibly a torn line at the end of the log.
- A power loss keeps of an unsynced file anything, of the chunk directory for each name the last synced binding or any later one, and of the log its synced lines, possibly more of them, and possibly a torn line.

## Where the code falls short of the plain rule

- *A committed operation is the one the commit-time state would have planned.*  This fails for a rename that finds both names bound to one inode, since it pins neither parent.  For it the rule holds exactly if the parents still allow it at commit time (`NamespaceRefinement.NoopRefinesExactly`).  `StalePermission.NoopCanOutliveItsPermission` is a run in which `set_metadata` takes the permission away in between.  All other namespace operations refine without condition.
- *An acknowledged chunk survives every kill and every power loss.*  This fails for a batch that installs nothing: it acknowledges files that are recorded and verify, and syncs nothing itself (`src/node/chunk.rs:437-447`).  The directory may be unsynced because an earlier batch ended in an error after its rename (`ChunkLives.LoseByUnsyncedName`).  The log may be unsynced because the process was killed between `write_all` and `sync_all` and started again (`ChunkLives.LoseByUnsyncedLog`).  An acknowledgement cannot be lost if and only if there is evidence for it on disk: every binding of the name that a power loss may keep leads to the chunk's synced bytes, and every part of the log that may survive records the chunk at its revision (`ChunkDisk.EvidenceIsExact`).  That is always so when the batch installs something, or when nothing was unsynced when it began (`ChunkStore.LocalChunkStore.PersistBatch`).
- *An acknowledgement is below a quarantine's revision exactly if it came before it.*  This can fail after a power loss takes back unsynced lines of the log, since their revisions are then used again (`ChunkLives.RevisionUsedTwice`).  Call the *reach* of a chunk in a catalog the catalog's revision if the chunk is recorded there as durable, and the next revision otherwise: the store can acknowledge the chunk at its reach and not below, and quarantine it only above.  An event about a chunk is *firm* on a disk if every beginning of the log that a power loss may leave has a reach of at least the event's revision.  Once an event is firm, every later event of the chunk, in every life of the store, is in order with it (`ChunkStore.LocalChunkStore.QuarantineRevisionSeparates`).  As long as it is not, the store, offered the chunk again, has a life that goes on to acknowledge it below the event's revision (`ChunkLives.AcknowledgedBelow`) and one that goes on to quarantine it there or below (`ChunkLives.QuarantinedNotAbove`).  Firmness is exactly that no interruption can take the reach below the revision (`ChunkDisk.FirmIsExact`).  Every event told with the log synced is firm (`ChunkDisk.HeldIsFirm`), and some others are: the first revision is, even on an unsynced log (`ChunkLives.LoseByUnsyncedLog`).
- *The descendant searches decide ancestry.*  Both follow the holder of the inode they find first.  So for a file with names in two directories, neither above the other, they answer wrongly for one of them (`DescendantSearch.TwoNamesMislead`).  They are right for every ancestor if and only if every holder is the one found or above it (`DescendantSearch.AgreesExactly`).  Directories have one holder, and every search that a rename of any run makes starts at one (`RunTheorems.SearchesDecideRenames`).

## Model

| member | source | states |
|---|---|---|
| `MetaStore.ConditionHolds` | src/meta/store.rs:1498-1507 | each condition of a transaction that commits holds of the state it meets |
| `MetaStore.CommitFrame` | src/meta/store.rs:1516-1556 | a transaction changes only the kinds of record its mutations name |
| `NamespaceTree.AddKeepsWf` | src/meta/dfs.rs:1214-1298 | adding a node keeps the graph a rooted tree with exact link counts |
| `NamespaceTree.LinkKeepsWf` | src/meta/dfs.rs:1818-1870 | so does a second name for a file |
| `NamespaceTree.RemoveKeepsWf` | src/meta/dfs.rs:1720-1786 | so does removing a file's name or an empty directory |
| `NamespaceTree.MoveKeepsWf` | src/meta/dfs.rs:1559-1681 | so does moving a name, also across parents, of a directory not above its new parent |
| `NamespaceTree.NoCycle` | src/meta/dfs.rs:4263-4356 | a well-formed tree has no cycle of entries |
| `NamespaceTree.LiveDirHasOneName` | src/meta/dfs.rs:1690-1787 | every live directory but the root has exactly one entry |
| `NamespaceTree.RemovedDirIsGone` | src/meta/dfs.rs:3652-3671 | a removed directory has no entry and no entry lies below it |
| `NamespaceSafety.AddIsAtomic` | src/meta/dfs.rs:1040-1166 | a committing create, mkdir, mknod or symlink, planned from a stale parent, performs exactly the tree's add, and a create also its lease |
| `NamespaceSafety.LinkIsAtomic` | src/meta/dfs.rs:1789-1871 | a committing link performs exactly the tree's link |
| `NamespaceSafety.RemoveIsAtomic` | src/meta/dfs.rs:1690-1787 | a committing unlink or rmdir performs exactly the tree's remove |
| `NamespaceSafety.RenameIsAtomic` | src/meta/dfs.rs:1455-1688 | a committing rename performs exactly the tree's move, after removing the target it replaces |
| `LinkCounts.AddCountsExactly` | src/meta/dfs.rs:4358-4377 | a committing creation keeps all counts exact if and only if the counter it raises has room and a new file starts with one link |
| `LinkCounts.LinkCountsExactly` | src/meta/dfs.rs:1845-1848 | the same for link: if and only if the count is below its maximum |
| `LinkCounts.RenameCountsExactly` | src/meta/dfs.rs:1594-1681 | the same for rename, including cross-parent renames that replace a directory |
| `RunTheorems.RunIsGood` | src/meta/dfs.rs:1040-3112 | every state of every run satisfies the whole invariant, and each later state extends each earlier one |
| `RunTheorems.RunsGoOn` | src/meta/store.rs:1486-1556 | any event that read states of a run may come next, so the theorems about runs are not empty |
| `RunTheorems.NamespaceIsATree` | src/meta/dfs.rs:1455-1787 | in every state of every run the directories form a tree rooted at inode 1, each with one name, none below a removed directory, and every link count is exact |
| `NamespaceRefinement.AddRefines` | src/meta/dfs.rs:1096-1129 | a creation that commits is the one the commit-time state would have planned |
| `NamespaceRefinement.LinkRefines` | src/meta/dfs.rs:1818-1870 | the same for link |
| `NamespaceRefinement.RemoveRefines` | src/meta/dfs.rs:1720-1786 | the same for unlink and rmdir |
| `NamespaceRefinement.RenameRefines` | src/meta/dfs.rs:1486-1688 | the same for a rename that moves something, though parents and view were read separately |
| `NamespaceRefinement.NoopRefinesExactly` | src/meta/dfs.rs:3713-3743 | a no-op rename refines if and only if the parents still allow it at commit time; it never changes a name or an inode |
| `StalePermission.NoopCanOutliveItsPermission` | src/meta/dfs.rs:3713-3743 | a run of five events in which a no-op rename commits after `set_metadata` closed its parent, although the same request planned on that state is refused |
| `RunTheorems.CommittedPlansAreCurrent` | src/meta/dfs.rs:1486-1688 | optimistic refinement in every run, for every namespace event |
| `DescendantSearch.ParentOf` | src/meta/store.rs:1996-2012 | finds a parent if the inode has an entry, and none otherwise |
| `DescendantSearch.StoreWalk` | src/meta/store.rs:1970-1994 | terminates on every graph; on every tree and for every inode it answers whether the ancestor is the inode itself or at or above the holder it found first |
| `DescendantSearch.ParentFromSubtree` | src/meta/dfs.rs:4327-4356 | the recursive search below a directory finds a holder of the inode or exhausts what it visited |
| `DescendantSearch.ParentFromView` | src/meta/dfs.rs:4289-4325 | on every tree finds a parent exactly if there is one |
| `DescendantSearch.DirectoryIsDescendantOrSame` | src/meta/dfs.rs:4263-4287 | terminates on every graph; on every tree and for every inode it answers as the parent walk does, for the holder it found first |
| `DescendantSearch.AgreesExactly` | src/meta/dfs.rs:4263-4287 | such an answer is right for every ancestor if and only if every holder of the inode is the one found or above it |
| `DescendantSearch.TwoNamesMislead` | src/meta/dfs.rs:4263-4287 | a tree with a file in two sibling directories, on which the answer for the second is no |
| `DescendantSearch.DirectoriesHaveOneParent` | src/meta/dfs.rs:4263-4287 | every directory of a tree has at most one holder |
| `DescendantSearch.SearchIsExact` | src/meta/dfs.rs:4263-4287 | for an inode with at most one holder every answer of either search is ancestry |
| `RunTheorems.SearchesDecideRenames` | src/meta/dfs.rs:1529-1539 | in every run, whatever the two searches answer for a rename's new parent, in the view and at commit, is what its plan and its condition take it for |
| `InodeHistory.NothingBetween` | src/meta/dfs.rs:1590-1602 | between two equal sightings of an inode record nothing happened to it or its names |
| `Leases.AcquiredSucceedsExactly` | src/meta/dfs.rs:2192-2252 | the acquired lease succeeds the old one if and only if the owner stays or the epoch can grow |
| `Leases.AcquireGrows` | src/meta/dfs.rs:2166-2253 | a stale acquisition never lowers an epoch or shortens a lease |
| `Leases.RenewGrows` | src/meta/dfs.rs:2424-2490 | nor does a stale renewal |
| `Leases.PinnedLeaseIsPresented` | src/meta/dfs.rs:3622-3650 | a lease validated when planning and pinned at commit has the presented epoch and owner |
| `Leases.SyncIsFenced` | src/meta/dfs.rs:2858-2892 | a metadata sync commits only under the current epoch |
| `FileSteps.CommitIsFenced` | src/meta/dfs.rs:2941-3051 | a version commit takes effect only under the current epoch |
| `RunTheorems.LeasesAreFencedByEpoch` | src/meta/dfs.rs:2166-2490 | in every run an epoch has one owner session, epochs never fall, and expiry never falls within an epoch |
| `RunTheorems.SupersededCommitFails` | src/meta/dfs.rs:2903-3112 | no version commit presenting an epoch once superseded succeeds, even if planned before the takeover |
| `RunTheorems.SupersededSyncFails` | src/meta/dfs.rs:2837-2901 | the same for metadata syncs |
| `FileLayouts.ValidateExtents` | src/meta/dfs.rs:2977-3012 | the loop accepts exactly ordered, disjoint, non-empty extents inside the file that are brought or inherited |
| `FileLayouts.ResolveAt` | src/meta/dfs.rs:2977-3012 | in an accepted layout each byte is stored in one place |
| `FileLayouts.InheritedByteIsSame` | src/meta/dfs.rs:4000-4019 | each byte of an inherited extent resolves to the same chunk byte as in the base version |
| `RunHistory.VersionsInheritBytes` | src/meta/dfs.rs:2944-3083 | in every run each stored version was committed by some step, and each of its bytes is in a chunk that this commit brought or where it is in the stored layout of its parent version |
| `FileLayouts.InheritedStaysInside` | src/meta/dfs.rs:4000-4019 | an inherited extent lies inside its chunk |
| `FileCommits.ValidateReceipt` | src/meta/dfs.rs:3130-3243 | accepts exactly the receipts that prove enough durable copies on distinct assigned nodes and domains, and yields one copy per acknowledgement |
| `FileCommits.ValidateReceipts` | src/meta/dfs.rs:2963-2976 | accepts exactly lists of such receipts, of this operation, for distinct chunks |
| `FileCommits.BroughtIsOk` | src/meta/dfs.rs:3056-3083 | a receipt's placement lists every acknowledged copy, Ready, each on its own node |
| `FileCommits.BringAllKeepsStock` | src/meta/dfs.rs:3056-3101 | bringing in any list of proven receipts keeps chunks, copies, placements and tasks consistent |
| `FileHistory.SourcedIsOk` | src/meta/dfs.rs:2977-3012 | every accepted extent lies in a chunk that is recorded and placed once the commit is done |
| `FileHistory.CommitKeepsHistory` | src/meta/dfs.rs:3013-3055 | a committing version extends its inode's history and no other |
| `FileHistory.HeadWalksHistory` | src/meta/dfs.rs:3013-3055 | following parents from the head visits the history backwards and then ends |
| `RunTheorems.HistoryIsLinear` | src/meta/dfs.rs:2944-3055 | in every run, following parents from any head visits exactly that inode's versions, newest first, and ends at none |
| `RunTheorems.FilesAreImmutable` | src/meta/dfs.rs:2140-2164 | inodes, versions and layouts are never lost, versions and layouts never change, and an inode's revision rises with every change, so it fixes the record |
| `RunTheorems.HistoriesGrow` | src/meta/dfs.rs:3013-3055 | in every run an inode's earlier history is the beginning of its later one |
| `RunTheorems.StoredLayoutsAreBacked` | src/meta/dfs.rs:2959-3083 | every extent of every stored layout is well formed and lies in a recorded chunk placed on at least the required number of nodes |
| `RunTheorems.StoredLayoutsAreReadable` | src/meta/dfs.rs:5087-5108 | for stored layouts the interval computation never fails |
| `ReadRanges.ClippedSpans` | src/meta/dfs.rs:5091-5108 | fails exactly if a clipped extent leaves the chunk; otherwise its spans hold exactly the readable bytes |
| `ReadRanges.Merge` | src/meta/dfs.rs:5109-5117 | merging keeps exactly the bytes and leaves gaps between intervals |
| `ReadRanges.ReadChunkIntervals` | src/meta/dfs.rs:5087-5122 | the sorted and merged intervals hold exactly the bytes the per-byte rule allows |
| `ReadRanges.CoveredIsBytewise` | src/meta/dfs.rs:5124-5131 | a range is covered if and only if it is non-empty, does not overflow and each of its bytes is in some interval |
| `ReadRanges.ShapedNeverExceeds` | src/meta/dfs.rs:2977-3012 | an accepted layout never makes the computation fail |
| `Placement.SelectionPass` | src/meta/dfs.rs:4789-4804 | one pass adds only new nodes, and new domains if so told, until full or exhausted |
| `Placement.Choose` | src/meta/dfs.rs:4777-4805 | the two passes fill the group and reach as many domains as the pool and the size permit |
| `Placement.MostDomains` | src/meta/dfs.rs:4788-4805 | no selection of that size has more domains |
| `Placement.BuildReplicaGroup` | src/meta/dfs.rs:4770-4819 | succeeds exactly if size and domains meet the minima; the head comes first |
| `Placement.PreferredIsOwn` | src/meta/dfs.rs:4754-4768 | a session yields a target exactly if it has a device; the target names the session and its first device by id, epoch and failure domain, the earliest listed among equals |
| `Placement.TargetsPerNode` | src/meta/dfs.rs:4678-4690 | sorting and removing neighbours leaves exactly one target for each storage node |
| `Placement.HeadedGroups` | src/meta/dfs.rs:4720-4733 | with the caller as head: groups exist exactly if there are enough domains, and each is right |
| `Placement.HeadlessGroups` | src/meta/dfs.rs:4734-4742 | the same without a head |
| `Placement.BuildReplicaGroups` | src/meta/dfs.rs:4673-4752 | for every valid config and session list, succeeds exactly if placement is possible; every group has as many nodes and domains as can be, and the caller as head when it must |
| `RepairPlans.ValidateRepairAcks` | src/meta/dfs.rs:3554-3620 | accepts exactly the acknowledgements that prove a full repair |
| `RepairPlans.Observe` | src/meta/dfs.rs:845-878 | the loop finds exactly whether the device is listed, whether it was superseded, and which copies to mark |
| `RepairSafety.PlanClaimKeeps` | src/meta/dfs.rs:287-616 | a claim request planned from stale reads keeps the replication records consistent |
| `ReportSafety.PlanReportKeeps` | src/meta/dfs.rs:618-784 | so does every kind of report |
| `ReportSafety.PlanCorruptionKeeps` | src/meta/dfs.rs:786-1017 | so does a corruption report, which installs no claim |
| `ReportSafety.CorruptionMarksExactly` | src/meta/dfs.rs:845-878 | a corruption report marks exactly the listed Ready copies on the device below the reported revision |
| `ReportSafety.ReportNeedsItsClaim` | src/meta/dfs.rs:649-665 | a report commits only if the stored task runs exactly its claim |
| `RepairClaims.RetiredMeansGone` | src/meta/dfs.rs:397-442 | the evidence that a worker retired fails if its session backs the claim at commit |
| `RepairClaims.LiveClaimIsKept` | src/meta/dfs.rs:397-442 | an unexpired claim of a current live worker survives every claim request |
| `RepairClaims.PlanClaimFresh` | src/meta/dfs.rs:3511-3551 | a claim is installed only under a request key new to the log |
| `RunTheorems.RepairDebtIsKept` | src/meta/dfs.rs:447-509 | in every run a Satisfied placement lists the desired number of Ready matching copies on distinct nodes, and any other placement has an open repair task |
| `RunTheorems.ClaimsHaveNoAba` | src/meta/dfs.rs:581-612 | in every run a claim that has gone never comes back |
| `RunTheorems.ClaimRequestsKeepLiveClaims` | src/meta/dfs.rs:397-442 | in every run no claim request removes or replaces a live claim |
| `RunHistory.LiveClaimsAreKept` | src/meta/dfs.rs:397-442 | in every run, whatever event comes next, a live claim is not replaced by another |
| `RunTheorems.ReportsNeedTheirClaim` | src/meta/dfs.rs:649-665 | in every run a report takes effect only while its exact claim is the running one |
| `OwnerRoots.MergeRights` | src/meta/owner_roots.rs:890-920 | the loop yields, in the fixed order, exactly the rights of either list |
| `OwnerRoots.MergedIsUnion` | src/meta/owner_roots.rs:890-920 | the merged list is the union |
| `OwnerRoots.TokenFixesRequest` | src/meta/owner_roots.rs:116-181 | a reservation's token and fields fix the request that made it |
| `RootSafety.ReserveKeeps` | src/meta/owner_roots.rs:116-181 | a stale reserve that commits never leaves a root both reserved and active, and reserves only under a request key new to the log |
| `RootSafety.ActivateEffect` | src/meta/owner_roots.rs:183-250 | an activation commits only on exactly its reservation and an inactive root; it removes the one, makes the other active and grants the home, and changes nothing else |
| `RootSafety.AbortEffect` | src/meta/owner_roots.rs:252-302 | an abort commits only on exactly its reservation and removes only that |
| `RootSafety.RecoverKeeps` | src/meta/owner_roots.rs:630-693 | a recovery planned from a stale record changes neither home node nor epoch of any root |
| `RootSafety.AcquireAddsRights` | src/meta/owner_roots.rs:333-452 | the grant written is what the holder had at commit plus what it asked for |
| `RunTheorems.RootsAreExclusive` | src/meta/owner_roots.rs:116-302 | in every run a root is never both reserved and active, and an active root keeps its home node and epoch |
| `RunTheorems.ReservationsAreConsumedOnce` | src/meta/owner_roots.rs:183-302 | in every run a reservation once consumed never comes back |
| `RunTheorems.RightsAccumulate` | src/meta/owner_roots.rs:333-452 | while a holder's epoch, home session and generation stay, racing acquires end with the union of all committed rights |
| `RequestLog.CommitLogs` | src/meta/store.rs:1508-1516 | a commit records and returns its own outcome |
| `RequestLog.ExactlyOnce` | src/meta/dfs.rs:3968-3998 | once a digest-bound request committed, be it a claim or another operation, the identical request gets its result, any other under the key an error, and neither changes the state |
| `DigestBinding.AddIsDigestBound` | src/meta/dfs.rs:1057-1166 | creations record their outcome with the request digest |
| `DigestBinding.RenameIsDigestBound` | src/meta/dfs.rs:1665-1688 | so do renames that move something |
| `DigestBinding.NoopIsDigestBound` | src/meta/dfs.rs:3713-3743 | so do renames that change nothing |
| `DigestBinding.RemoveIsDigestBound` | src/meta/dfs.rs:1750-1787 | so do unlink and rmdir |
| `DigestBinding.LinkIsDigestBound` | src/meta/dfs.rs:1846-1871 | so do links |
| `DigestBinding.CommitIsDigestBound` | src/meta/dfs.rs:3039-3112 | so do version commits |
| `DigestBinding.ClaimIsAnswerable` | src/meta/dfs.rs:287-616 | every planned claim request is a valid transaction that records its claim, or that there is none, with the digest |
| `DigestBinding.ReportIsAnswerable` | src/meta/dfs.rs:618-784 | so is every planned report, with the task it leaves |
| `DigestBinding.CorruptionIsAnswerable` | src/meta/dfs.rs:786-1017 | so is every planned corruption report |
| `DigestBinding.EventsAreAnswerable` | src/meta/dfs.rs:3745-3763 | so is every event of a run that has a digest |
| `RunTheorems.RequestsTakeEffectOnce` | src/meta/dfs.rs:3745-3763 | in every run at most one event under a request key changes the state |
| `RunTheorems.RetriesAreAnswered` | src/meta/dfs.rs:3955-3998 | in every run retries are answered as the first time and conflicting requests are rejected, also for claims |
| `DigestBinding.RepeatedRequestsAreAnswered` | src/meta/dfs.rs:3745-3763 | of any two events with digests under one request key in a run, if the first took effect then the second changes nothing and is answered like the first if operation and digest agree, and refused otherwise |
| `Encodings.ChunkTextInjective` | src/node/chunk.rs:78-84 | a chunk id's text determines digest and length |
| `Encodings.TaskTextInjective` | src/meta/dfs.rs:4620-4622 | a repair task id's text determines the chunk |
| `Encodings.CopyTextInjective` | src/meta/dfs.rs:3215-3218 | a copy id's text determines node, epoch, device and chunk if node ids hold no colon |
| `Encodings.ColonsCollide` | src/config.rs:260-267 | with colons in node ids two copies can share an id |
| `Encodings.InodePreimageInjective` | src/meta/dfs.rs:3961-3966 | the bytes hashed into a new inode id determine caller and operation |
| `VerifiedRead.Clamp` | src/node/chunk.rs:800-820 | the counts are the clamped lengths, refused exactly if a range leaves the buffer |
| `VerifiedRead.CopyOverlap` | src/node/chunk.rs:838-852 | one range of one block is copied to exactly its place |
| `VerifiedRead.Scatter` | src/node/chunk.rs:838-852 | one block is scattered to all ranges |
| `VerifiedRead.Scan` | src/node/chunk.rs:826-854 | for any reads, short or changing, the loop ends; the ranges hold exactly the hashed bytes and nothing else is touched |
| `VerifiedRead.PassedIsGenuine` | src/node/chunk.rs:855-865 | bytes that pass have the chunk's length and digest |
| `VerifiedRead.VerifyIsExact` | src/node/chunk.rs:765-771 | on a file that does not change, verification passes exactly for the chunk's bytes, however short the reads |
| `VerifiedRead.VerifiedRangesInto` | src/node/chunk.rs:793-865 | answers with the clamped counts or the first error, delivers exactly hashed bytes, and leaves all other output bytes alone |
| `VerifiedRead.VerifiedRange` | src/node/chunk.rs:773-791 | yields exactly the hashed bytes of the range, or the error |
| `VerifiedRead.ReadAt` | src/node/chunk.rs:169-181 | fills the buffer with hashed bytes, and leaves it unchanged on error |
| `ChunkDisk.RecoverCatalog` | src/node/chunk.rs:250-276 | replays the log exactly up to its end, or refuses it |
| `ChunkDisk.VerifyFindsIntact` | src/node/chunk.rs:765-768 | verification of a file at rest finds out exactly whether it is intact |
| `ChunkDisk.EvidenceSurvives` | src/node/chunk.rs:250-276 | evidence on disk for an acknowledgement is found again, and is evidence again, after every kill and every power loss that reopens |
| `ChunkDisk.EvidenceIsExact` | src/node/chunk.rs:435-533 | some kill or power loss that reopens loses the record, the bytes or the revision of an acknowledgement if and only if there is no evidence for it |
| `ChunkDisk.FloorIsExact` | src/node/chunk.rs:708-725 | exactly the revisions above that of the synced log can be fallen below by a power loss, and so be used again |
| `ChunkDisk.FirmIsExact` | src/node/chunk.rs:250-276 | some kill or power loss that reopens leaves a chunk's reach below a revision if and only if the revision is not firm for it |
| `ChunkDisk.HeldIsFirm` | src/node/chunk.rs:708-725 | a revision up to that of the synced log is firm for every chunk |
| `ChunkPromises.PublishKeeps` | src/node/chunk.rs:463-480 | linking or renaming a synced file keeps every promise |
| `ChunkPromises.SyncDirectoryKeeps` | src/node/chunk.rs:486-489 | so does syncing the directory |
| `ChunkPromises.AppendKeeps` | src/node/chunk.rs:708-718 | so does appending a transaction that honours them, whether or not the line survives |
| `ChunkPromises.InterruptionKeeps` | src/node/chunk.rs:294-318 | the disk found after a kill or a power loss keeps every promise made before it |
| `ChunkPromises.ResumedKeeps` | src/node/chunk.rs:294-318 | quarantines that only the log had are told on reopening, above every revision that was ever firm for their chunks |
| `ChunkPromises.RememberKeeps` | src/node/chunk.rs:708-725 | what is firm on the disk now can be promised from now on |
| `ChunkStore.LocalChunkStore.InstallFile` | src/node/chunk.rs:453-481 | stages, syncs and names a file; other names and all old files stay; refuses exactly a foreign file under the name |
| `ChunkStore.LocalChunkStore.AppendCatalogTxn` | src/node/chunk.rs:708-725 | appends, syncs the log, then its directory, keeping all promises at each step |
| `ChunkStore.LocalChunkStore.CommitInstalled` | src/node/chunk.rs:486-516 | syncs the directory before the catalog, at the next revision; then nothing is unsynced |
| `ChunkStore.LocalChunkStore.EnterDurable` | src/node/chunk.rs:491-516 | enters exactly the installed chunks as durable at the next revision, with the log synced and every promise kept |
| `ChunkStore.LocalChunkStore.PersistItem` | src/node/chunk.rs:435-484 | skips, replaces or links one item; it succeeds exactly if no other record has its id and no foreign file stands under the name of an unrecorded chunk, and nothing already in place is lost |
| `ChunkStore.LocalChunkStore.InstallAll` | src/node/chunk.rs:433-484 | installs a batch in order; it succeeds exactly if every item fits and no error ends it, and otherwise the items before the first obstacle verify |
| `ChunkStore.LocalChunkStore.MakeDurable` | src/node/chunk.rs:433-516 | then every item is recorded as durable and verifies, either with nothing written or with nothing left unsynced |
| `ChunkStore.LocalChunkStore.PersistBatch` | src/node/chunk.rs:408-533 | a batch is acknowledged exactly if it is addressed to this store, the catalog is not below the floor, every item fits and no error ends it; then every item is recorded as durable and verifies, and its acknowledgement is a promise exactly if there is evidence for it, which there is, and its revision is firm, when nothing is unsynced; otherwise records, revision and promises stay |
| `ChunkStore.LocalChunkStore.QuarantineRecords` | src/node/chunk.rs:642-664 | marks exactly these durable records at a fresh revision that is then held and firm, or fails at the last revision; no acknowledged chunk is among them |
| `ChunkStore.LocalChunkStore.QuarantineIfInvalid` | src/node/chunk.rs:596-614 | quarantines a record exactly if the file now under its name fails to verify |
| `ChunkStore.LocalChunkStore.OpenVerified` | src/node/chunk.rs:562-592 | opens exactly the chunks recorded as durable whose files verify, changing nothing; a file that fails is quarantined |
| `ChunkStore.LocalChunkStore.FindDamaged` | src/node/chunk.rs:350-374 | finds exactly the durable records whose files are missing or of the wrong length |
| `ChunkStore.LocalChunkStore.Recover` | src/node/chunk.rs:337-387 | quarantines exactly those and keeps every acknowledgement; it fails exactly if there is one and no revision is left |
| `ChunkStore.LocalChunkStore.Reopen` | src/node/chunk.rs:294-318 | after a kill or a power loss at any point, replay has every acknowledged chunk durable and intact, at no lower revision than the held one |
| `ChunkStore.LocalChunkStore.Open` | src/node/chunk.rs:294-387 | replay and then the pass over the records: opens exactly if the log replays and a needed quarantine has a revision left; then every acknowledged chunk is durable and intact at no lower revision, and every durable record has a file of its length |
| `ChunkStore.LocalChunkStore.Decay` | src/node/chunk.rs:175-177 | damage outside the store's control costs exactly the acknowledgements whose bytes it spoils |
| `ChunkStore.LocalChunkStore.AcksSurviveInterruptions` | src/node/chunk.rs:408-533 | at every disk state passed through, every kill and every power loss that reopens finds every chunk acknowledged by then, at no lower revision |
| `ChunkStore.LocalChunkStore.AckIsSafeExactly` | src/node/chunk.rs:435-533 | at every moment of every life of a store, what would be acknowledged can be lost if and only if there is no evidence for it |
| `ChunkStore.LocalChunkStore.RevisionIsHeldExactly` | src/node/chunk.rs:708-725 | and exactly the revisions above the held one can be used again |
| `ChunkStore.LocalChunkStore.RevisionIsFirmExactly` | src/node/chunk.rs:250-276 | and a chunk's reach can fall below a revision if and only if the revision is not firm for it |
| `ChunkStore.LocalChunkStore.QuarantineRevisionSeparates` | src/node/chunk.rs:642-664 | every quarantined record was told; if the earlier of its quarantine and an acknowledgement of its chunk was firm at any moment before the later one, the acknowledgement's revision is lower exactly if it came first |
| `ChunkLives.AcknowledgeAgain` | src/node/chunk.rs:437-447 | a chunk that is recorded and verifies is acknowledged with nothing synced |
| `ChunkLives.ReplaceUnsynced` | src/node/chunk.rs:463-484 | a file rots, a batch replaces it and ends in an error: the chunk verifies and yet is not bound |
| `ChunkLives.LoseByUnsyncedName` | src/node/chunk.rs:437-484 | the life that then acknowledges the chunk again, and a power loss can lose it |
| `ChunkLives.UnsyncedReplacementCanBeLost` | src/node/chunk.rs:463-490 | on every disk whose synced name does not lead to the chunk's bytes, the replacement alone makes it verify and can be lost; the directory sync binds it |
| `ChunkLives.UnsyncedLineCanBeLost` | src/node/chunk.rs:708-718 | on a disk with a synced, intact file and an unsynced catalog line, the recorded chunk can be lost |
| `ChunkLives.KilledBeforeSync` | src/node/chunk.rs:717-718 | a process killed between writing the line and syncing it is started again with that line unsynced |
| `ChunkLives.LoseByUnsyncedLog` | src/node/chunk.rs:437-533 | the life that then acknowledges the chunk, and a power loss can take back its record; the revision, though not held, is firm |
| `ChunkLives.RevisionUsedTwice` | src/node/chunk.rs:437-664 | a life from the empty disk in which an acknowledgement and a later quarantine of its chunk have the same revision |
| `ChunkLives.FallBack` | src/node/chunk.rs:294-387 | from any store a power loss may leave any surviving beginning of the log and every file in order, and the store opens with exactly that catalog |
| `ChunkLives.AcknowledgeAtReach` | src/node/chunk.rs:408-533 | from there it can acknowledge the chunk at exactly its reach |
| `ChunkLives.AcknowledgedBelow` | src/node/chunk.rs:408-533 | for every store, every chunk offered to it and every revision not firm for the chunk, a life that goes on to acknowledge the chunk below that revision |
| `ChunkLives.QuarantinedNotAbove` | src/node/chunk.rs:596-664 | and one that goes on to quarantine the chunk at that revision or below |
| `StoreAndMeta.AckedCopyStillServes` | src/meta/dfs.rs:5002-5036 | after a reopen, a Ready copy whose acknowledgement is a promise is accepted under any later live session that advertises the catalog, and its file holds the bytes |
| `StoreAndMeta.ReportSeparatesCopies` | src/meta/dfs.rs:845-878 | a committing corruption report marks, of the listed Ready copies, exactly those acknowledged before the quarantine if the earlier of the two events was firm before the later one, and otherwise exactly those of a lower revision |

## Left out

- RPC and REST translation, error-code mapping, process assembly, mounts, configuration merging and SDKs: field-by-field code that would only add easy members.
- Timestamps, permission-bit helpers beyond those that guard namespace changes, and xattr policy: branch-local checks.
- `lookup`, `read_dir`, `read_link`, `get_xattr`, `open_write`'s resolution of a fresh authority and the other reads: they change nothing.
- `create`'s retry loop after parent drift: each attempt is one event of a run.
- `validate_replica_write`, read grants and their tags: the tags are opaque, and nothing stored depends on them.
- Owner-root listing, watching, command batches and revocation acknowledgements; the generation of an access across interleaved recoveries, which the recovery transaction does not pin.
- The order of repair fences: committing an under-replicated chunk again resets the attempt counter, so claims are identified by value.
- The bytes of the hash, the keyed tag, the placement hash and the log's encoding; a log line is a transaction or does not decode.
- Reopening after a torn log tail: recovery refuses it, so the properties of kills and power losses speak of successful reopens.
- Input and output errors inside the chunk store, except the error that ends a batch between items.
- `LocalCatalog` is one device's: the checks of a record's device fields against the store's own are not modelled.
- Staging files and orphan counts in the recovery report: nothing depends on them.
- Concurrent readers of a file being replaced: a read takes any view of its file, which covers them.
