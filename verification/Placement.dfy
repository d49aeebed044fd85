/**
 Replica placement (src/meta/dfs.rs): choosing replica groups from the live
 sessions.  Placement succeeds exactly when it can, and every group it makes
 has as many nodes and as many failure domains as possible.
 */
module Placement {
  import opened Records
  import opened Ordering

  // ------------------------------------------------------------------- targets

  ghost function NodesIn(ts: seq<ReplicaTarget>): set<NodeId> { set i | 0 <= i < |ts| :: ts[i].node }

  ghost function DomainsIn(ts: seq<ReplicaTarget>): set<string> { set i | 0 <= i < |ts| :: ts[i].device.domain }

  ghost predicate NodesDiffer(ts: seq<ReplicaTarget>)
  {
    forall i, j :: 0 <= i < j < |ts| ==> ts[i].node != ts[j].node
  }

  lemma NodesAppend(ts: seq<ReplicaTarget>, t: ReplicaTarget)
    ensures NodesIn(ts + [t]) == NodesIn(ts) + {t.node} && DomainsIn(ts + [t]) == DomainsIn(ts) + {t.device.domain}
  {
    var us := ts + [t];
    forall x | x in NodesIn(ts) + {t.node} ensures x in NodesIn(us) {
      if x in NodesIn(ts) { var i :| 0 <= i < |ts| && ts[i].node == x; assert us[i].node == x; } else {
        assert us[|ts|].node == x;
      }
    }
    forall x | x in DomainsIn(ts) + {t.device.domain} ensures x in DomainsIn(us) {
      if x in DomainsIn(ts) { var i :| 0 <= i < |ts| && ts[i].device.domain == x; assert us[i].device.domain == x; }
      else { assert us[|ts|].device.domain == x; }
    }
  }

  lemma {:induction false} DistinctCount(ts: seq<ReplicaTarget>)
    requires NodesDiffer(ts)
    ensures |NodesIn(ts)| == |ts|
  {
    if ts != [] {
      var n := |ts| - 1;
      assert ts == ts[..n] + [ts[n]];
      DistinctCount(ts[..n]);
      NodesAppend(ts[..n], ts[n]);
      assert ts[n].node !in NodesIn(ts[..n]);
    }
  }

  lemma {:induction false} FewerDomains(ts: seq<ReplicaTarget>)
    ensures |DomainsIn(ts)| <= |ts|
  {
    if ts != [] {
      var n := |ts| - 1;
      assert ts == ts[..n] + [ts[n]];
      FewerDomains(ts[..n]);
      NodesAppend(ts[..n], ts[n]);
    }
  }

  // ---------------------------------------------------------- building one group

  function Rotated(candidates: seq<ReplicaTarget>, seed: nat): seq<ReplicaTarget>
  {
    seq(|candidates|, k requires 0 <= k < |candidates| => candidates[(seed + k) % |candidates|])
  }

  lemma RotatedIsShift(candidates: seq<ReplicaTarget>, seed: nat)
    requires seed < |candidates|
    ensures Rotated(candidates, seed) == candidates[seed..] + candidates[..seed]
  {
    var shift := candidates[seed..] + candidates[..seed];
    forall k | 0 <= k < |candidates| ensures Rotated(candidates, seed)[k] == shift[k] {
      ModOnce(seed + k, |candidates|);
    }
  }

  lemma ModOnce(x: nat, n: nat)
    requires 0 < n && x < 2 * n
    ensures x % n == if x < n then x else x - n
  {
    if x >= n { assert x == n + (x - n); }
  }

  /** The nodes and domains of a list do not depend on its order. */
  lemma RotatedSame(candidates: seq<ReplicaTarget>, seed: nat)
    requires seed < |candidates| || candidates == []
    ensures NodesIn(Rotated(candidates, seed)) == NodesIn(candidates)
    ensures DomainsIn(Rotated(candidates, seed)) == DomainsIn(candidates)
    ensures NodesDiffer(candidates) ==> NodesDiffer(Rotated(candidates, seed))
    ensures forall t :: t in Rotated(candidates, seed) <==> t in candidates
  {
    if candidates != [] {
      RotatedIsShift(candidates, seed);
      var r := Rotated(candidates, seed);
      forall t | t in candidates ensures t in r {
        var i :| 0 <= i < |candidates| && candidates[i] == t;
        assert r[if i < seed then i + |candidates| - seed else i - seed] == t;
      }
      SameElements(r, candidates);
    }
  }

  lemma SameElements(a: seq<ReplicaTarget>, b: seq<ReplicaTarget>)
    requires forall t :: t in a <==> t in b
    ensures NodesIn(a) == NodesIn(b) && DomainsIn(a) == DomainsIn(b)
  {
    FewerElements(a, b);
    FewerElements(b, a);
  }

  lemma FewerElements(a: seq<ReplicaTarget>, b: seq<ReplicaTarget>)
    requires forall i :: 0 <= i < |a| ==> a[i] in b
    ensures NodesIn(a) <= NodesIn(b) && DomainsIn(a) <= DomainsIn(b)
  {
    forall i | 0 <= i < |a| ensures a[i].node in NodesIn(b) && a[i].device.domain in DomainsIn(b) {
      var j :| 0 <= j < |b| && b[j] == a[i];
    }
  }

  function HeadList(head: Option<ReplicaTarget>): seq<ReplicaTarget> { if head.Some? then [head.value] else [] }

  /** A selection from the pool, starting with the head, on distinct nodes. */
  ghost predicate Selection(chosen: seq<ReplicaTarget>, head: Option<ReplicaTarget>, candidates: seq<ReplicaTarget>)
  {
    && HeadList(head) <= chosen && NodesDiffer(chosen)
    && forall i :: 0 <= i < |chosen| ==> chosen[i] in HeadList(head) + candidates
  }

  /** One pass over the rotated candidates, taking only new domains if so told. */
  method SelectionPass(preferNew: bool, rotated: seq<ReplicaTarget>, count: nat,
                       start: seq<ReplicaTarget>, startNodes: set<NodeId>, startDomains: set<string>,
                       ghost head: Option<ReplicaTarget>, ghost candidates: seq<ReplicaTarget>)
    returns (selected: seq<ReplicaTarget>, nodes: set<NodeId>, domains: set<string>)
    requires Picked(start, startNodes, startDomains, head, candidates, count)
    requires forall j :: 0 <= j < |rotated| ==> rotated[j] in candidates
    ensures Picked(selected, nodes, domains, head, candidates, count) && startDomains <= domains
    ensures preferNew ==> |selected| - |start| == |domains| - |startDomains|
    ensures |selected| < count
      ==> forall j :: 0 <= j < |rotated| ==>
          rotated[j].node in nodes || (preferNew && rotated[j].device.domain in domains)
  {
    selected, nodes, domains := start, startNodes, startDomains;
    for i := 0 to |rotated|
      invariant Picked(selected, nodes, domains, head, candidates, count) && startDomains <= domains
      invariant preferNew ==> |selected| - |start| == |domains| - |startDomains|
      invariant |selected| < count
        ==> forall j :: 0 <= j < i ==> rotated[j].node in nodes || (preferNew && rotated[j].device.domain in domains)
    {
      if |selected| >= count { break; }
      if rotated[i].node in nodes { continue; }
      var newDomain := rotated[i].device.domain !in domains;
      if preferNew && !newDomain { continue; }
      Pick(selected, nodes, domains, head, candidates, count, rotated[i]);
      nodes := nodes + {rotated[i].node};
      domains := domains + {rotated[i].device.domain};
      selected := selected + [rotated[i]];
    }
  }

  /** The selection of `build_replica_group`: new domains first, then any nodes. */
  method Choose(head: Option<ReplicaTarget>, candidates: seq<ReplicaTarget>, count: nat, seed: nat)
    returns (selected: seq<ReplicaTarget>, nodes: set<NodeId>, domains: set<string>)
    requires NodesDiffer(HeadList(head) + candidates) && |HeadList(head)| <= count <= |HeadList(head) + candidates|
    requires seed < |candidates| || candidates == []
    ensures Picked(selected, nodes, domains, head, candidates, count) && |selected| == count
    ensures |domains| == Min(count, |DomainsIn(HeadList(head) + candidates)|)
  {
    RotatedSame(candidates, seed);
    var rotated := Rotated(candidates, seed);
    var start := HeadList(head);
    var startNodes := if head.Some? then {head.value.node} else {};
    var startDomains := if head.Some? then {head.value.device.domain} else {};
    StartPicked(head, candidates, count);
    var first, firstNodes, firstDomains := SelectionPass(true, rotated, count, start, startNodes, startDomains, head,
                                                         candidates);
    assert forall j :: 0 <= j < |candidates| ==> candidates[j] in rotated;
    FirstPass(first, head, candidates, rotated, count);
    selected, nodes, domains := SelectionPass(false, rotated, count, first, firstNodes, firstDomains, head, candidates);
    SecondPass(first, selected, head, candidates, rotated, count);
  }

  lemma StartPicked(head: Option<ReplicaTarget>, candidates: seq<ReplicaTarget>, count: nat)
    requires |HeadList(head)| <= count
    ensures Picked(HeadList(head), if head.Some? then {head.value.node} else {},
                   if head.Some? then {head.value.device.domain} else {},
                   head, candidates, count)
    ensures |DomainsIn(HeadList(head))| == |HeadList(head)|
  {
    if head.Some? {
      NodesAppend([], head.value);
      assert [] + [head.value] == [head.value];
    }
  }

  /** A candidate whose node is taken is itself taken. */
  lemma TakenByNode(selected: seq<ReplicaTarget>, head: Option<ReplicaTarget>, candidates: seq<ReplicaTarget>,
                    t: ReplicaTarget)
    requires Selection(selected, head, candidates) && NodesDiffer(HeadList(head) + candidates)
    requires t in candidates && t.node in NodesIn(selected)
    ensures t in selected
  {
    var pool := HeadList(head) + candidates;
    var i :| 0 <= i < |selected| && selected[i].node == t.node;
    var j :| 0 <= j < |pool| && pool[j] == selected[i];
    var k :| 0 <= k < |candidates| && candidates[k] == t;
    assert pool[|HeadList(head)| + k] == t;
  }

  /** The state of the selection: sets that mirror the list. */
  ghost predicate Picked(selected: seq<ReplicaTarget>, nodes: set<NodeId>, domains: set<string>,
                         head: Option<ReplicaTarget>, candidates: seq<ReplicaTarget>, count: nat)
  {
    && nodes == NodesIn(selected) && domains == DomainsIn(selected) && Selection(selected, head, candidates)
    && |selected| <= count
  }

  lemma Pick(selected: seq<ReplicaTarget>, nodes: set<NodeId>, domains: set<string>,
             head: Option<ReplicaTarget>, candidates: seq<ReplicaTarget>, count: nat, t: ReplicaTarget)
    requires Picked(selected, nodes, domains, head, candidates, count) && |selected| < count
    requires t in candidates && t.node !in nodes
    ensures Picked(selected + [t], nodes + {t.node}, domains + {t.device.domain}, head, candidates, count)
  {
    NodesAppend(selected, t);
    forall i | 0 <= i < |selected| ensures selected[i].node != t.node { assert selected[i].node in NodesIn(selected); }
  }

  /** After the first pass either the group is full of distinct domains, or every domain is in it. */
  lemma FirstPass(selected: seq<ReplicaTarget>, head: Option<ReplicaTarget>, candidates: seq<ReplicaTarget>,
                  rotated: seq<ReplicaTarget>, count: nat)
    requires Selection(selected, head, candidates) && |selected| <= count && |DomainsIn(selected)| == |selected|
    requires NodesDiffer(HeadList(head) + candidates) && forall t :: t in rotated <==> t in candidates
    requires |selected| < count
      ==> forall j :: 0 <= j < |rotated| ==>
          rotated[j].node in NodesIn(selected) || rotated[j].device.domain in DomainsIn(selected)
    ensures |DomainsIn(selected)| == Min(count, |DomainsIn(HeadList(head) + candidates)|)
    ensures |selected| < count ==> DomainsIn(HeadList(head) + candidates) == DomainsIn(selected)
  {
    var pool := HeadList(head) + candidates;
    FewerElements(selected, pool);
    Larger(DomainsIn(selected), DomainsIn(pool));
    if |selected| < count {
      forall i | 0 <= i < |pool| ensures pool[i].device.domain in DomainsIn(selected) {
        if i < |HeadList(head)| {
          assert selected[i] == pool[i];
        } else {
          assert pool[i] in candidates;
          var j :| 0 <= j < |rotated| && rotated[j] == pool[i];
          if rotated[j].node in NodesIn(selected) {
            TakenByNode(selected, head, candidates, pool[i]);
            var k :| 0 <= k < |selected| && selected[k] == pool[i];
          }
        }
      }
      assert DomainsIn(pool) <= DomainsIn(selected);
      assert DomainsIn(pool) == DomainsIn(selected);
    }
  }

  /** After the second pass the group is full, with the domains of the first. */
  lemma SecondPass(first: seq<ReplicaTarget>, selected: seq<ReplicaTarget>, head: Option<ReplicaTarget>,
                   candidates: seq<ReplicaTarget>,
                   rotated: seq<ReplicaTarget>, count: nat)
    requires Selection(selected, head, candidates) && |selected| <= count <= |HeadList(head) + candidates|
    requires NodesDiffer(HeadList(head) + candidates) && NodesIn(rotated) == NodesIn(candidates)
    requires |selected| < count ==> forall j :: 0 <= j < |rotated| ==> rotated[j].node in NodesIn(selected)
    requires |DomainsIn(first)| == Min(count, |DomainsIn(HeadList(head) + candidates)|)
    requires DomainsIn(first) <= DomainsIn(selected)
    ensures |selected| == count && |DomainsIn(selected)| == Min(count, |DomainsIn(HeadList(head) + candidates)|)
  {
    var pool := HeadList(head) + candidates;
    if |selected| < count {
      forall i | 0 <= i < |pool| ensures pool[i].node in NodesIn(selected) {
        if i < |HeadList(head)| {
          assert selected[i] == pool[i];
        } else {
          assert candidates[i - |HeadList(head)|] == pool[i];
          assert pool[i].node in NodesIn(rotated);
        }
      }
      DistinctCount(pool);
      DistinctCount(selected);
      Larger(NodesIn(pool), NodesIn(selected));
    }
    MostDomains(selected, pool);
    Larger(DomainsIn(first), DomainsIn(selected));
  }

  /** What a group needs of its targets, their nodes and their domains. */
  predicate Suffices(cfg: ReplicationConfig, targets: nat, domains: nat)
  {
    targets >= cfg.sync && targets >= cfg.minNodes && domains >= cfg.minDomains
  }

  /** `build_replica_group`; the hash of the selection is its epoch and its name. */
  method BuildReplicaGroup(cfg: ReplicationConfig, head: Option<ReplicaTarget>, candidates: seq<ReplicaTarget>,
                           count: nat, seed: nat,
                           hash: (ReplicationConfig, seq<ReplicaTarget>) -> nat, name: nat -> string)
    returns (group: Option<ReplicaGroup>)
    requires NodesDiffer(HeadList(head) + candidates) && |HeadList(head)| <= count <= |HeadList(head) + candidates|
    requires seed < |candidates| || candidates == []
    ensures group.Some? <==> Suffices(cfg, count, Min(count, |DomainsIn(HeadList(head) + candidates)|))
    ensures group.Some? ==> GroupFrom(group.value, HeadList(head) + candidates, count)
    ensures group.Some? && head.Some? ==> group.value.targets[0] == head.value
  {
    var selected, nodes, domains := Choose(head, candidates, count, seed);
    DistinctCount(selected);
    if |selected| < cfg.sync || |nodes| < cfg.minNodes || |domains| < cfg.minDomains { return None; }
    var epoch := hash(cfg, selected);
    return Some(ReplicaGroup(ReplicaGroupId(name(epoch)), epoch, selected));
  }

  /** A group of `count` targets of the pool on distinct nodes with as many domains as there can be. */
  ghost predicate GroupFrom(g: ReplicaGroup, pool: seq<ReplicaTarget>, count: nat)
  {
    && |g.targets| == count && NodesDiffer(g.targets)
    && (forall i :: 0 <= i < |g.targets| ==> g.targets[i] in pool)
    && |DomainsIn(g.targets)| == Min(count, |DomainsIn(pool)|)
  }

  /** No choice of that many targets has more domains. */
  lemma MostDomains(chosen: seq<ReplicaTarget>, pool: seq<ReplicaTarget>)
    requires forall i :: 0 <= i < |chosen| ==> chosen[i] in pool
    ensures |DomainsIn(chosen)| <= Min(|chosen|, |DomainsIn(pool)|)
  {
    FewerDomains(chosen);
    FewerElements(chosen, pool);
    Larger(DomainsIn(chosen), DomainsIn(pool));
  }

  // ---------------------------------------------------------- one target per node

  predicate DeviceLe(a: Device, b: Device)
  {
    if a.id != b.id then StringLe(a.id, b.id)
    else if a.epoch != b.epoch then a.epoch < b.epoch
    else StringLe(a.domain, b.domain)
  }

  predicate TargetLe(a: ReplicaTarget, b: ReplicaTarget)
  {
    if a.node != b.node then StringLe(a.node, b.node)
    else if a.nodeEpoch != b.nodeEpoch then a.nodeEpoch < b.nodeEpoch
    else if a.device.id != b.device.id then StringLe(a.device.id, b.device.id)
    else a.device.epoch <= b.device.epoch
  }

  lemma TargetLeTransitive(a: ReplicaTarget, b: ReplicaTarget, c: ReplicaTarget)
    requires TargetLe(a, b) && TargetLe(b, c)
    ensures TargetLe(a, c)
  {
    if a.node != b.node && b.node != c.node {
      StringLeTransitive(a.node, b.node, c.node);
      if a.node == c.node { StringLeAntisymmetric(a.node, b.node); }
    }
    if a.node == b.node == c.node && a.nodeEpoch == b.nodeEpoch == c.nodeEpoch
       && a.device.id != b.device.id && b.device.id != c.device.id {
      StringLeTransitive(a.device.id, b.device.id, c.device.id);
      if a.device.id == c.device.id { StringLeAntisymmetric(a.device.id, b.device.id); }
    }
  }

  lemma TargetLeIsOrder()
    ensures IsOrder(TargetLe)
  {
    forall x, y ensures TargetLe(x, y) || TargetLe(y, x) {
      StringLeTotal(x.node, y.node);
      StringLeTotal(x.device.id, y.device.id);
    }
    forall x, y, z | TargetLe(x, y) && TargetLe(y, z) ensures TargetLe(x, z) { TargetLeTransitive(x, y, z); }
  }

  /** `preferred_replica_target`: the first device of a session that has any. */
  function PreferredTarget(s: NodeSession): Option<ReplicaTarget>
  {
    var devices := Sorted(s.devices, DeviceLe);
    if devices == [] then None else Some(ReplicaTarget(s.node, s.epoch, s.dataAddr, devices[0]))
  }

  lemma DeviceLeTransitive(a: Device, b: Device, c: Device)
    requires DeviceLe(a, b) && DeviceLe(b, c)
    ensures DeviceLe(a, c)
  {
    if a.id != b.id && b.id != c.id {
      StringLeTransitive(a.id, b.id, c.id);
      if a.id == c.id { StringLeAntisymmetric(a.id, b.id); }
    }
    if a.id == b.id == c.id && a.epoch == b.epoch == c.epoch { StringLeTransitive(a.domain, b.domain, c.domain); }
  }

  lemma DeviceLeIsOrder()
    ensures IsOrder(DeviceLe)
  {
    forall x, y ensures DeviceLe(x, y) || DeviceLe(y, x) {
      StringLeTotal(x.id, y.id);
      StringLeTotal(x.domain, y.domain);
    }
    forall x, y, z | DeviceLe(x, y) && DeviceLe(y, z) ensures DeviceLe(x, z) { DeviceLeTransitive(x, y, z); }
  }

  /** The target names its session and the session's first device by id, epoch and failure domain. */
  lemma PreferredIsOwn(s: NodeSession)
    ensures PreferredTarget(s).None? <==> s.devices == []
    ensures PreferredTarget(s).Some? ==>
      var t := PreferredTarget(s).value;
      t.node == s.node && t.nodeEpoch == s.epoch && t.endpoint == s.dataAddr
      && exists i: nat :: FirstLeast(s.devices, DeviceLe, i) && t.device == s.devices[i]
  {
    if s.devices != [] {
      DeviceLeIsOrder();
      var i := SortedHead(s.devices, DeviceLe);
    }
  }

  function AllTargets(sessions: seq<NodeSession>): seq<ReplicaTarget>
  {
    if sessions == [] then []
    else (if PreferredTarget(sessions[0]).Some? then [PreferredTarget(sessions[0]).value] else [])
         + AllTargets(sessions[1..])
  }

  function NodeKey(t: ReplicaTarget): string { t.node }

  /** The targets placement chooses from: one for each storage node, in order. */
  function Targets(sessions: seq<NodeSession>): seq<ReplicaTarget>
  {
    Dedup(Sorted(AllTargets(sessions), TargetLe), NodeKey)
  }

  ghost function StorageNodes(sessions: seq<NodeSession>): set<NodeId>
  {
    set i | 0 <= i < |sessions| && sessions[i].devices != [] :: sessions[i].node
  }

  lemma {:induction false} AllTargetsNodes(sessions: seq<NodeSession>, n: NodeId)
    ensures (exists t :: t in AllTargets(sessions) && t.node == n) <==> n in StorageNodes(sessions)
  {
    if sessions != [] {
      var rest := sessions[1..];
      AllTargetsNodes(rest, n);
      PreferredIsOwn(sessions[0]);
      assert n in StorageNodes(sessions)
        <==> (sessions[0].devices != [] && sessions[0].node == n) || n in StorageNodes(rest) by {
        if n in StorageNodes(rest) {
          var i :| 0 <= i < |rest| && rest[i].devices != [] && rest[i].node == n;
          assert sessions[i + 1] == rest[i];
        }
        if n in StorageNodes(sessions) {
          var i :| 0 <= i < |sessions| && sessions[i].devices != [] && sessions[i].node == n;
          if i > 0 { assert rest[i - 1] == sessions[i]; }
        }
      }
      var first := if PreferredTarget(sessions[0]).Some? then [PreferredTarget(sessions[0]).value] else [];
      assert forall t :: t in AllTargets(sessions) <==> t in first || t in AllTargets(rest);
    }
  }

  /** Exactly one target for each node that has a device. */
  lemma TargetsPerNode(sessions: seq<NodeSession>)
    ensures NodesDiffer(Targets(sessions))
    ensures NodesIn(Targets(sessions)) == StorageNodes(sessions)
    ensures |Targets(sessions)| == |StorageNodes(sessions)|
  {
    var sorted := Sorted(AllTargets(sessions), TargetLe);
    var ts := Targets(sessions);
    TargetLeIsOrder();
    SortedInOrder(AllTargets(sessions), TargetLe);
    forall i, j | 0 <= i < j < |sorted| ensures StringLe(NodeKey(sorted[i]), NodeKey(sorted[j])) {
      assert TargetLe(sorted[i], sorted[j]);
      if sorted[i].node == sorted[j].node { StringLeTotal(sorted[i].node, sorted[i].node); }
    }
    DedupDistinct(sorted, NodeKey);
    assert NodesDiffer(ts) by {
      forall i, j | 0 <= i < j < |ts| ensures ts[i].node != ts[j].node { assert NodeKey(ts[i]) != NodeKey(ts[j]); }
    }
    forall n ensures n in NodesIn(ts) <==> n in StorageNodes(sessions) { TargetNode(sessions, n); }
    DistinctCount(ts);
  }

  lemma TargetNode(sessions: seq<NodeSession>, n: NodeId)
    ensures n in NodesIn(Targets(sessions)) <==> n in StorageNodes(sessions)
  {
    var sorted := Sorted(AllTargets(sessions), TargetLe);
    var ts := Targets(sessions);
    AllTargetsNodes(sessions, n);
    if n in NodesIn(ts) {
      var i :| 0 <= i < |ts| && ts[i].node == n;
      DedupHolds(sorted, NodeKey, ts[i]);
      SortedHolds(AllTargets(sessions), TargetLe, ts[i]);
    }
    if n in StorageNodes(sessions) {
      var t :| t in AllTargets(sessions) && t.node == n;
      SortedHolds(AllTargets(sessions), TargetLe, t);
      DedupKeeps(sorted, NodeKey, t);
      var z :| z in Dedup(sorted, NodeKey) && NodeKey(z) == NodeKey(t);
      var i :| 0 <= i < |ts| && ts[i] == z;
    }
  }

  // ---------------------------------------------------------------- all groups

  function FindNode(ts: seq<ReplicaTarget>, node: NodeId): Option<ReplicaTarget>
  {
    if ts == [] then None else if ts[0].node == node then Some(ts[0]) else FindNode(ts[1..], node)
  }

  lemma {:induction false} FindNodeFinds(ts: seq<ReplicaTarget>, node: NodeId)
    ensures FindNode(ts, node).Some? <==> node in NodesIn(ts)
    ensures FindNode(ts, node).Some? ==> FindNode(ts, node).value in ts && FindNode(ts, node).value.node == node
  {
    if ts != [] {
      var rest := ts[1..];
      FindNodeFinds(rest, node);
      if node in NodesIn(rest) { var i :| 0 <= i < |rest| && rest[i].node == node; assert ts[i + 1].node == node; }
      if node in NodesIn(ts) && ts[0].node != node {
        var i :| 0 <= i < |ts| && ts[i].node == node;
        assert rest[i - 1].node == node;
      }
    }
  }

  function Without(ts: seq<ReplicaTarget>, node: NodeId): seq<ReplicaTarget>
  {
    if ts == [] then [] else (if ts[0].node == node then [] else [ts[0]]) + Without(ts[1..], node)
  }

  lemma {:induction false} WithoutHolds(ts: seq<ReplicaTarget>, node: NodeId)
    ensures forall t :: t in Without(ts, node) <==> t in ts && t.node != node
    ensures NodesDiffer(ts) ==> NodesDiffer(Without(ts, node))
  {
    if ts != [] {
      WithoutHolds(ts[1..], node);
      assert forall t :: t in ts <==> t == ts[0] || t in ts[1..];
      var rest := Without(ts[1..], node);
      if NodesDiffer(ts) {
        forall k | 0 <= k < |rest| ensures rest[k].node != ts[0].node {
          assert rest[k] in ts[1..];
          var j :| 0 <= j < |ts[1..]| && ts[1..][j] == rest[k];
        }
      }
    }
  }

  /** Putting one target first changes neither the nodes nor the domains. */
  lemma HeadFirst(ts: seq<ReplicaTarget>, head: ReplicaTarget)
    requires NodesDiffer(ts) && head in ts
    ensures var pool := [head] + Without(ts, head.node);
      && NodesDiffer(pool) && |pool| == |ts| && NodesIn(pool) == NodesIn(ts) && DomainsIn(pool) == DomainsIn(ts)
      && forall t :: t in pool <==> t in ts
  {
    var rest := Without(ts, head.node);
    var pool := [head] + rest;
    WithoutHolds(ts, head.node);
    forall t | t in ts ensures t in pool {
      if t.node == head.node {
        var i :| 0 <= i < |ts| && ts[i] == t;
        var j :| 0 <= j < |ts| && ts[j] == head;
      } else {
        assert t in rest;
      }
    }
    forall k | 0 <= k < |rest| ensures rest[k].node != head.node { assert rest[k] in rest; }
    SameElements(pool, ts);
    DistinctCount(pool);
    DistinctCount(ts);
  }

  function RequiredTargets(cfg: ReplicationConfig): nat { Max(Max(cfg.sync, cfg.minNodes), cfg.minDomains) }

  /** Placement is possible. */
  ghost predicate Feasible(caller: NodeId, cfg: ReplicationConfig, sessions: seq<NodeSession>)
  {
    && (cfg.local == Required ==> caller in StorageNodes(sessions))
    && |StorageNodes(sessions)| >= RequiredTargets(cfg)
    && |DomainsIn(Targets(sessions))| >= cfg.minDomains
  }

  /** What every group made for these sessions satisfies. */
  ghost predicate GroupOk(g: ReplicaGroup, caller: NodeId, cfg: ReplicationConfig, sessions: seq<NodeSession>)
  {
    && GroupFrom(g, Targets(sessions), Min(cfg.desired, |StorageNodes(sessions)|))
    && (cfg.local != NotRequired && caller in StorageNodes(sessions) ==> |g.targets| > 0 && g.targets[0].node == caller)
  }

  function GroupKey(g: ReplicaGroup): string { g.id.text }

  predicate GroupLe(a: ReplicaGroup, b: ReplicaGroup) { StringLe(a.id.text, b.id.text) }

  lemma PoolGroup(g: ReplicaGroup, pool: seq<ReplicaTarget>, ts: seq<ReplicaTarget>, count: nat)
    requires GroupFrom(g, pool, count) && DomainsIn(pool) == DomainsIn(ts) && forall t :: t in pool <==> t in ts
    ensures GroupFrom(g, ts, count)
  {
  }

  /** `build_replica_groups` */
  method BuildReplicaGroups(caller: NodeId, cfg: ReplicationConfig, sessions: seq<NodeSession>,
                            hash: (ReplicationConfig, seq<ReplicaTarget>) -> nat, name: nat -> string)
    returns (groups: Option<seq<ReplicaGroup>>)
    requires cfg.IsValid()
    ensures groups.Some? <==> Feasible(caller, cfg, sessions)
    ensures groups.Some? ==>
      groups.value != [] && forall i :: 0 <= i < |groups.value| ==> GroupOk(groups.value[i], caller, cfg, sessions)
  {
    var targets := Targets(sessions);
    TargetsPerNode(sessions);
    var callerTarget := FindNode(targets, caller);
    FindNodeFinds(targets, caller);
    if cfg.local == Required && callerTarget.None? { return None; }
    var required := RequiredTargets(cfg);
    if |targets| < required { return None; }
    var count := Min(cfg.desired, |targets|);
    if count < required { return None; }
    var made: seq<ReplicaGroup>;
    if cfg.local != NotRequired && callerTarget.Some? {
      made := HeadedGroups(caller, cfg, sessions, callerTarget.value, count, hash, name);
    } else {
      made := HeadlessGroups(caller, cfg, sessions, count, hash, name);
    }
    var sorted := Sorted(made, GroupLe);
    var unique := Dedup(sorted, GroupKey);
    forall i | 0 <= i < |unique| ensures unique[i] in made {
      DedupHolds(sorted, GroupKey, unique[i]);
      SortedHolds(made, GroupLe, unique[i]);
    }
    if made != [] {
      SortedHolds(made, GroupLe, made[0]);
      DedupKeeps(sorted, GroupKey, made[0]);
    }
    if unique == [] { return None; }
    return Some(unique);
  }

  ghost predicate AllGroupsOk(made: seq<ReplicaGroup>, caller: NodeId, cfg: ReplicationConfig,
                              sessions: seq<NodeSession>)
  {
    forall i :: 0 <= i < |made| ==> GroupOk(made[i], caller, cfg, sessions)
  }

  method HeadedGroups(caller: NodeId, cfg: ReplicationConfig, sessions: seq<NodeSession>, head: ReplicaTarget,
                      count: nat,
                      hash: (ReplicationConfig, seq<ReplicaTarget>) -> nat,
                      name: nat -> string) returns (made: seq<ReplicaGroup>)
    requires head in Targets(sessions) && head.node == caller && NodesDiffer(Targets(sessions)) && cfg.IsValid()
    requires |Targets(sessions)| == |StorageNodes(sessions)|
    requires count == Min(cfg.desired, |Targets(sessions)|) >= RequiredTargets(cfg)
    ensures made != [] <==> |DomainsIn(Targets(sessions))| >= cfg.minDomains
    ensures AllGroupsOk(made, caller, cfg, sessions)
  {
    var targets := Targets(sessions);
    var tail := Without(targets, head.node);
    HeadFirst(targets, head);
    assert HeadList(Some(head)) + tail == [head] + tail;
    made := [];
    for seed := 0 to Max(|tail|, 1)
      invariant AllGroupsOk(made, caller, cfg, sessions)
      invariant |made| == if |DomainsIn(targets)| >= cfg.minDomains then seed else 0
    {
      var group := BuildReplicaGroup(cfg, Some(head), tail, count, seed, hash, name);
      if group.Some? {
        PoolGroup(group.value, HeadList(Some(head)) + tail, targets, count);
        made := made + [group.value];
      }
    }
  }

  method HeadlessGroups(caller: NodeId, cfg: ReplicationConfig, sessions: seq<NodeSession>, count: nat,
                        hash: (ReplicationConfig, seq<ReplicaTarget>) -> nat,
                        name: nat -> string) returns (made: seq<ReplicaGroup>)
    requires NodesDiffer(Targets(sessions)) && cfg.IsValid()
    requires (cfg.local == NotRequired || caller !in StorageNodes(sessions))
    requires |Targets(sessions)| == |StorageNodes(sessions)|
    requires count == Min(cfg.desired, |Targets(sessions)|) >= RequiredTargets(cfg)
    ensures made != [] <==> |DomainsIn(Targets(sessions))| >= cfg.minDomains
    ensures AllGroupsOk(made, caller, cfg, sessions)
  {
    var targets := Targets(sessions);
    assert HeadList(None) + targets == targets;
    made := [];
    for seed := 0 to |targets|
      invariant AllGroupsOk(made, caller, cfg, sessions)
      invariant |made| == if |DomainsIn(targets)| >= cfg.minDomains then seed else 0
    {
      var group := BuildReplicaGroup(cfg, None, targets, count, seed, hash, name);
      if group.Some? { made := made + [group.value]; }
    }
  }
}
