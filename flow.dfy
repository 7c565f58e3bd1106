/**
 * The dashboard's payment-log graph (apps/dash/src/app/Flow.tsx, the second
 * effect): logs are grouped by correlation id, each group is ordered by time,
 * and every log becomes a main node, followed by a verification node and a
 * settlement node when it carries those transaction hashes. Consecutive logs
 * of a group are chained from the last node the previous log produced.
 */
module FlowGraph {
  import opened Wrappers
  import Text

  /** A payment log row. `time` is `new Date(timestamp).getTime()`. */
  datatype PaymentLog = PaymentLog(
    id: int,
    correlationId: string,
    paymentStatus: string,
    time: int,
    verificationTxHash: Option<string>,
    settlementTxHash: Option<string>)

  datatype NodeKind = MainLog | Verification | Settlement

  /** A graph node; its display text, layout position and copied log details are not modelled. */
  datatype FlowNode = FlowNode(id: string, kind: NodeKind, name: string, logId: int)

  datatype FlowEdge = FlowEdge(id: string, source: string, target: string)

  /** A truthy hash: present and non-empty. */
  predicate HasHash(h: Option<string>) {
    h.Some? && h.value != ""
  }

  /** The id prefix of each kind of node. */
  function KindPrefix(kind: NodeKind): string {
    match kind
    case MainLog => "log-"
    case Verification => "verification-"
    case Settlement => "settlement-"
  }

  /** The node id `log-<id>`, `verification-<id>` or `settlement-<id>`. */
  function NodeId(kind: NodeKind, log: PaymentLog): (s: string)
    ensures s != ""
    ensures |KindPrefix(kind)| <= |s| && s[..|KindPrefix(kind)|] == KindPrefix(kind)
  {
    KindPrefix(kind) + Text.IntToDecimal(log.id)
  }

  /** Node ids are unique: the id determines the kind of node and the log it belongs to. */
  lemma NodeIdInjective(k1: NodeKind, l1: PaymentLog, k2: NodeKind, l2: PaymentLog)
    ensures NodeId(k1, l1) == NodeId(k2, l2) <==> k1 == k2 && l1.id == l2.id
  {
    var a, b := NodeId(k1, l1), NodeId(k2, l2);
    if a == b {
      assert a[0] == KindPrefix(k1)[0] && b[0] == KindPrefix(k2)[0];
      assert k1 == k2;
      assert Text.IntToDecimal(l1.id) == a[|KindPrefix(k1)|..] == b[|KindPrefix(k2)|..] == Text.IntToDecimal(l2.id);
      Text.IntToDecimalInjective(l1.id, l2.id);
    }
  }

  /** An edge `e-<source>-<target>`. */
  function Link(source: string, target: string): (e: FlowEdge)
    ensures e.source == source && e.target == target
  {
    FlowEdge("e-" + source + "-" + target, source, target)
  }

  /** The nodes one log adds: its main node, then a verification and a settlement node when it has those hashes. */
  function LogNodes(log: PaymentLog): seq<FlowNode> {
    var main := [FlowNode(NodeId(MainLog, log), MainLog, log.paymentStatus, log.id)];
    var verification := if HasHash(log.verificationTxHash)
                        then [FlowNode(NodeId(Verification, log), Verification, "Verification", log.id)] else [];
    var settlement := if HasHash(log.settlementTxHash)
                      then [FlowNode(NodeId(Settlement, log), Settlement, "Settlement", log.id)] else [];
    main + verification + settlement
  }

  /** A log adds one main node first, and a verification or settlement node exactly when it has that hash. */
  lemma LogNodesShape(log: PaymentLog)
    ensures var ns := LogNodes(log);
      && |ns| == 1 + (if HasHash(log.verificationTxHash) then 1 else 0) + (if HasHash(log.settlementTxHash) then 1 else 0)
      && ns[0] == FlowNode(NodeId(MainLog, log), MainLog, log.paymentStatus, log.id)
      && ((exists n :: n in ns && n.kind == Verification) <==> HasHash(log.verificationTxHash))
      && ((exists n :: n in ns && n.kind == Settlement) <==> HasHash(log.settlementTxHash))
      && forall n :: n in ns[1..] ==> n.kind != MainLog
  {
    var ns := LogNodes(log);
    assert forall n :: n in ns ==> n == ns[0] || n in ns[1..];
  }

  /** Where the next log of the group is chained from: the settlement node, else the verification node, else the main node. */
  function LastNodeId(log: PaymentLog): (id: string)
    ensures HasHash(log.settlementTxHash) ==> id == NodeId(Settlement, log)
    ensures !HasHash(log.settlementTxHash) && HasHash(log.verificationTxHash) ==> id == NodeId(Verification, log)
    ensures !HasHash(log.settlementTxHash) && !HasHash(log.verificationTxHash) ==> id == NodeId(MainLog, log)
  {
    if HasHash(log.settlementTxHash) then NodeId(Settlement, log)
    else if HasHash(log.verificationTxHash) then NodeId(Verification, log)
    else NodeId(MainLog, log)
  }

  /**
   * The edges one log adds after `previous`: from the previous log's last
   * node to this main node, from the main node to the verification node, and
   * into the settlement node from the verification node if there is one,
   * else from the main node.
   */
  function LogEdges(log: PaymentLog, previous: Option<string>): seq<FlowEdge> {
    var chain := if previous.Some? then [Link(previous.value, NodeId(MainLog, log))] else [];
    var verification := if HasHash(log.verificationTxHash) then [Link(NodeId(MainLog, log), NodeId(Verification, log))] else [];
    var settlement :=
      if HasHash(log.settlementTxHash)
      then [Link(if HasHash(log.verificationTxHash) then NodeId(Verification, log) else NodeId(MainLog, log), NodeId(Settlement, log))]
      else [];
    chain + verification + settlement
  }

  /**
   * A log is chained from `previous` when there is one, its verification node
   * hangs off its main node, and its settlement node hangs off the
   * verification node if there is one, else off the main node.
   */
  lemma LogEdgesShape(log: PaymentLog, previous: Option<string>)
    ensures var es := LogEdges(log, previous);
      && |es| == (if previous.Some? then 1 else 0) + (if HasHash(log.verificationTxHash) then 1 else 0)
                 + (if HasHash(log.settlementTxHash) then 1 else 0)
      && (previous.Some? ==> es[0] == Link(previous.value, NodeId(MainLog, log)))
      && (HasHash(log.verificationTxHash) ==> Link(NodeId(MainLog, log), NodeId(Verification, log)) in es)
      && (HasHash(log.settlementTxHash) && HasHash(log.verificationTxHash) ==>
            Link(NodeId(Verification, log), NodeId(Settlement, log)) in es)
      && (HasHash(log.settlementTxHash) && !HasHash(log.verificationTxHash) ==>
            Link(NodeId(MainLog, log), NodeId(Settlement, log)) in es)
  {
  }

  /** The nodes of a time-ordered group, log by log. */
  function GroupNodes(logs: seq<PaymentLog>): seq<FlowNode> {
    if logs == [] then [] else GroupNodes(logs[..|logs| - 1]) + LogNodes(logs[|logs| - 1])
  }

  /** `previousNodeId` after a group's logs: the last node of the last log, `null` before the first. */
  function GroupPrevious(logs: seq<PaymentLog>): Option<string> {
    if logs == [] then None else Some(LastNodeId(logs[|logs| - 1]))
  }

  /** The edges of a time-ordered group, log by log. */
  function GroupEdges(logs: seq<PaymentLog>): seq<FlowEdge> {
    if logs == [] then []
    else GroupEdges(logs[..|logs| - 1]) + LogEdges(logs[|logs| - 1], GroupPrevious(logs[..|logs| - 1]))
  }

  /** The reduce accumulator: correlation ids in first-seen order, and each id's logs. */
  datatype Groups = Groups(keys: seq<string>, members: map<string, seq<PaymentLog>>)

  /** One step of the reduce: a new id opens an empty group, then the log is pushed onto its group. */
  function AddToGroup(g: Groups, log: PaymentLog): Groups {
    var k := log.correlationId;
    if k in g.members then Groups(g.keys, g.members[k := g.members[k] + [log]])
    else Groups(g.keys + [k], g.members[k := [log]])
  }

  function GroupLogs(logs: seq<PaymentLog>): (g: Groups)
    ensures forall k :: k in g.keys <==> k in g.members
  {
    if logs == [] then Groups([], map[]) else AddToGroup(GroupLogs(logs[..|logs| - 1]), logs[|logs| - 1])
  }

  /** The logs with a given correlation id, in input order. */
  function WithCorrelation(logs: seq<PaymentLog>, k: string): (r: seq<PaymentLog>)
    ensures forall l :: l in r <==> l in logs && l.correlationId == k
  {
    if logs == [] then []
    else
      var init := WithCorrelation(logs[..|logs| - 1], k);
      assert logs == logs[..|logs| - 1] + [logs[|logs| - 1]];
      if logs[|logs| - 1].correlationId == k then init + [logs[|logs| - 1]] else init
  }

  lemma {:induction false} WithCorrelationNone(logs: seq<PaymentLog>, k: string)
    requires forall l :: l in logs ==> l.correlationId != k
    ensures WithCorrelation(logs, k) == []
  {
    if logs != [] {
      WithCorrelationNone(logs[..|logs| - 1], k);
    }
  }

  predicate DistinctKeys(keys: seq<string>) {
    forall a, b :: 0 <= a < b < |keys| ==> keys[a] != keys[b]
  }

  /** The grouping is a partition: each id once, in first-seen order, holding exactly its logs in input order. */
  lemma {:induction false} GroupKeysDistinct(logs: seq<PaymentLog>)
    ensures DistinctKeys(GroupLogs(logs).keys)
  {
    if logs != [] {
      GroupKeysDistinct(logs[..|logs| - 1]);
    }
  }

  lemma {:induction false} GroupIdsAreLogIds(logs: seq<PaymentLog>)
    ensures forall k :: k in GroupLogs(logs).members <==> exists l :: l in logs && l.correlationId == k
  {
    if logs != [] {
      var init := logs[..|logs| - 1];
      var last := logs[|logs| - 1];
      assert logs == init + [last];
      GroupIdsAreLogIds(init);
      forall k ensures (k in GroupLogs(logs).members <==> exists l :: l in logs && l.correlationId == k) {
        if k == last.correlationId {
          assert last in logs;
        } else {
          assert (exists l :: l in logs && l.correlationId == k) <==> (exists l :: l in init && l.correlationId == k) by {
            forall l | l in logs && l.correlationId == k ensures l in init { }
          }
        }
      }
    }
  }

  lemma {:induction false} GroupMembersAreFiltered(logs: seq<PaymentLog>)
    ensures forall k :: k in GroupLogs(logs).members ==> GroupLogs(logs).members[k] == WithCorrelation(logs, k)
  {
    if logs != [] {
      var init := logs[..|logs| - 1];
      var last := logs[|logs| - 1];
      GroupMembersAreFiltered(init);
      GroupIdsAreLogIds(init);
      var g := GroupLogs(init);
      var k0 := last.correlationId;
      assert GroupLogs(logs) == AddToGroup(g, last);
      forall k | k in GroupLogs(logs).members ensures GroupLogs(logs).members[k] == WithCorrelation(logs, k) {
        if k == k0 {
          if k0 !in g.members {
            WithCorrelationNone(init, k);
          }
          assert WithCorrelation(logs, k) == WithCorrelation(init, k) + [last];
        } else {
          assert WithCorrelation(logs, k) == WithCorrelation(init, k);
        }
      }
    }
  }

  /** The grouping is a partition: each id once, in first-seen order, holding exactly its logs in input order. */
  lemma GroupLogsPartitions(logs: seq<PaymentLog>)
    ensures var g := GroupLogs(logs);
      && DistinctKeys(g.keys)
      && (forall k :: k in g.keys <==> k in g.members)
      && (forall k :: k in g.members <==> exists l :: l in logs && l.correlationId == k)
      && (forall k :: k in g.members ==> g.members[k] == WithCorrelation(logs, k))
  {
    GroupKeysDistinct(logs);
    GroupIdsAreLogIds(logs);
    GroupMembersAreFiltered(logs);
  }

  /** Insertion into a time-ordered list, after every log that is not later. */
  function InsertByTime(x: PaymentLog, logs: seq<PaymentLog>): (r: seq<PaymentLog>)
    ensures multiset(r) == multiset(logs) + multiset{x} && |r| == |logs| + 1
  {
    if logs == [] then [x]
    else if x.time < logs[0].time then [x] + logs
    else
      assert logs == [logs[0]] + logs[1..];
      [logs[0]] + InsertByTime(x, logs[1..])
  }

  predicate TimeOrdered(logs: seq<PaymentLog>) {
    forall a, b :: 0 <= a < b < |logs| ==> logs[a].time <= logs[b].time
  }

  lemma {:induction false} InsertByTimeOrdered(x: PaymentLog, logs: seq<PaymentLog>)
    requires TimeOrdered(logs)
    ensures TimeOrdered(InsertByTime(x, logs))
  {
    if logs != [] && x.time >= logs[0].time {
      InsertByTimeOrdered(x, logs[1..]);
      var tail := InsertByTime(x, logs[1..]);
      forall b | 0 <= b < |tail| ensures logs[0].time <= tail[b].time {
        assert tail[b] in multiset(tail);
        assert tail[b] == x || tail[b] in logs[1..];
      }
    }
  }

  /** The logs with timestamp `t`, in order. */
  function AtTime(logs: seq<PaymentLog>, t: int): seq<PaymentLog> {
    if logs == [] then []
    else (if logs[0].time == t then [logs[0]] else []) + AtTime(logs[1..], t)
  }

  lemma {:induction false} AtTimeAppend(a: seq<PaymentLog>, b: seq<PaymentLog>, t: int)
    ensures AtTime(a + b, t) == AtTime(a, t) + AtTime(b, t)
  {
    if a == [] {
      assert a + b == b;
    } else {
      assert a + b == [a[0]] + (a[1..] + b);
      assert a == [a[0]] + a[1..];
      AtTimeCons(a[0], a[1..] + b, t);
      AtTimeCons(a[0], a[1..], t);
      AtTimeAppend(a[1..], b, t);
      SeqAssoc(if a[0].time == t then [a[0]] else [], AtTime(a[1..], t), AtTime(b, t));
    }
  }

  /** A time-ordered list holds no log earlier than its first. */
  lemma {:induction false} AtTimeBelowFirst(logs: seq<PaymentLog>, t: int)
    requires TimeOrdered(logs) && logs != [] && t < logs[0].time
    ensures AtTime(logs, t) == []
  {
    if |logs| > 1 {
      TimeOrderedTail(logs);
      assert logs[0].time <= logs[1].time;
      AtTimeBelowFirst(logs[1..], t);
    }
  }

  lemma TimeOrderedTail(logs: seq<PaymentLog>)
    requires TimeOrdered(logs) && logs != []
    ensures TimeOrdered(logs[1..])
  {
    forall a, b | 0 <= a < b < |logs[1..]| ensures logs[1..][a].time <= logs[1..][b].time {
      assert logs[1..][a] == logs[a + 1] && logs[1..][b] == logs[b + 1];
    }
  }

  /** Inserting before the first log: nothing of `x`'s timestamp comes before it. */
  lemma AtTimeInsertFirst(x: PaymentLog, logs: seq<PaymentLog>, t: int)
    requires TimeOrdered(logs) && logs != [] && x.time < logs[0].time
    ensures AtTime(InsertByTime(x, logs), t) == AtTime(logs, t) + (if x.time == t then [x] else [])
  {
    assert InsertByTime(x, logs) == [x] + logs;
    AtTimeAppend([x], logs, t);
    if x.time == t {
      AtTimeBelowFirst(logs, t);
    }
  }

  /** Inserting past the first log. */
  lemma AtTimeInsertLater(x: PaymentLog, logs: seq<PaymentLog>, t: int)
    requires logs != [] && x.time >= logs[0].time
    requires AtTime(InsertByTime(x, logs[1..]), t) == AtTime(logs[1..], t) + (if x.time == t then [x] else [])
    ensures AtTime(InsertByTime(x, logs), t) == AtTime(logs, t) + (if x.time == t then [x] else [])
  {
    var head := if logs[0].time == t then [logs[0]] else [];
    var mine := if x.time == t then [x] else [];
    var rest := AtTime(logs[1..], t);
    InsertPastFirst(x, logs);
    AtTimeCons(logs[0], InsertByTime(x, logs[1..]), t);
    assert [logs[0]] + logs[1..] == logs;
    AtTimeCons(logs[0], logs[1..], t);
    SeqAssoc(head, rest, mine);
  }

  lemma SeqAssoc(a: seq<PaymentLog>, b: seq<PaymentLog>, c: seq<PaymentLog>)
    ensures a + (b + c) == (a + b) + c
  {
  }

  lemma InsertPastFirst(x: PaymentLog, logs: seq<PaymentLog>)
    requires logs != [] && x.time >= logs[0].time
    ensures InsertByTime(x, logs) == [logs[0]] + InsertByTime(x, logs[1..])
  {
  }

  lemma AtTimeCons(h: PaymentLog, rest: seq<PaymentLog>, t: int)
    ensures AtTime([h] + rest, t) == (if h.time == t then [h] else []) + AtTime(rest, t)
  {
    assert ([h] + rest)[0] == h && ([h] + rest)[1..] == rest;
  }

  /** Inserting into a time-ordered list puts `x` after every log of its own timestamp. */
  lemma {:induction false} AtTimeInsert(x: PaymentLog, logs: seq<PaymentLog>, t: int)
    requires TimeOrdered(logs)
    ensures AtTime(InsertByTime(x, logs), t) == AtTime(logs, t) + (if x.time == t then [x] else [])
  {
    if logs == [] {
    } else if x.time < logs[0].time {
      AtTimeInsertFirst(x, logs, t);
    } else {
      TimeOrderedTail(logs);
      AtTimeInsert(x, logs[1..], t);
      AtTimeInsertLater(x, logs, t);
    }
  }

  /** The sort is stable: logs of equal timestamp keep their input order. */
  lemma {:induction false} SortByTimeIsStable(logs: seq<PaymentLog>, t: int)
    ensures AtTime(SortByTime(logs), t) == AtTime(logs, t)
  {
    if logs != [] {
      var init, last := logs[..|logs| - 1], logs[|logs| - 1];
      assert logs == init + [last];
      SortByTimeIsStable(init, t);
      AtTimeInsert(last, SortByTime(init), t);
      AtTimeAppend(init, [last], t);
    }
  }

  /** `logs.sort((a, b) => time(a) - time(b))` on a group: a time-ordered permutation. */
  function SortByTime(logs: seq<PaymentLog>): (r: seq<PaymentLog>)
    ensures multiset(r) == multiset(logs) && |r| == |logs|
    ensures TimeOrdered(r)
  {
    if logs == [] then []
    else
      assert logs == logs[..|logs| - 1] + [logs[|logs| - 1]];
      var sorted := SortByTime(logs[..|logs| - 1]);
      InsertByTimeOrdered(logs[|logs| - 1], sorted);
      InsertByTime(logs[|logs| - 1], sorted)
  }

  /** The nodes of the first `n` groups, each group in time order. */
  function NodesOfGroups(g: Groups, n: nat): seq<FlowNode>
    requires n <= |g.keys| && forall k :: k in g.keys ==> k in g.members
  {
    if n == 0 then [] else NodesOfGroups(g, n - 1) + GroupNodes(SortByTime(g.members[g.keys[n - 1]]))
  }

  /** The edges of the first `n` groups; no edge is shared between groups. */
  function EdgesOfGroups(g: Groups, n: nat): seq<FlowEdge>
    requires n <= |g.keys| && forall k :: k in g.keys ==> k in g.members
  {
    if n == 0 then [] else EdgesOfGroups(g, n - 1) + GroupEdges(SortByTime(g.members[g.keys[n - 1]]))
  }

  lemma GroupsStep(g: Groups, n: nat)
    requires n < |g.keys| && forall k :: k in g.keys ==> k in g.members
    ensures NodesOfGroups(g, n + 1) == NodesOfGroups(g, n) + GroupNodes(SortByTime(g.members[g.keys[n]]))
    ensures EdgesOfGroups(g, n + 1) == EdgesOfGroups(g, n) + GroupEdges(SortByTime(g.members[g.keys[n]]))
  {
  }

  /** The whole graph of a log list. */
  function FlowNodes(logs: seq<PaymentLog>): seq<FlowNode> {
    NodesOfGroups(GroupLogs(logs), |GroupLogs(logs).keys|)
  }

  function FlowEdges(logs: seq<PaymentLog>): seq<FlowEdge> {
    EdgesOfGroups(GroupLogs(logs), |GroupLogs(logs).keys|)
  }

  /** The `reduce` that groups the logs: one pass, opening a group on each new correlation id. */
  method GroupByCorrelation(logs: seq<PaymentLog>) returns (keys: seq<string>, acc: map<string, seq<PaymentLog>>)
    ensures Groups(keys, acc) == GroupLogs(logs)
    ensures forall k :: k in keys ==> k in acc
  {
    keys, acc := [], map[];
    var i := 0;
    while i < |logs|
      invariant 0 <= i <= |logs|
      invariant Groups(keys, acc) == GroupLogs(logs[..i])
    {
      assert logs[..i + 1][..i] == logs[..i];
      var log := logs[i];
      assert GroupLogs(logs[..i + 1]) == AddToGroup(GroupLogs(logs[..i]), log);
      if log.correlationId !in acc {
        acc := acc[log.correlationId := []];
        keys := keys + [log.correlationId];
        assert acc[log.correlationId] + [log] == [log];
      }
      acc := acc[log.correlationId := acc[log.correlationId] + [log]];
      i := i + 1;
    }
    assert logs[..|logs|] == logs;
  }

  /** The body of the inner `forEach`: one log's nodes and edges, and the new `previousNodeId`. */
  method AppendLog(log: PaymentLog, previousNodeId: Option<string>, nodes0: seq<FlowNode>, edges0: seq<FlowEdge>)
    returns (nodes: seq<FlowNode>, edges: seq<FlowEdge>, previous: Option<string>)
    ensures nodes == nodes0 + LogNodes(log)
    ensures edges == edges0 + LogEdges(log, previousNodeId)
    ensures previous == Some(LastNodeId(log))
  {
    nodes, edges := nodes0, edges0;
    var logNodeId := NodeId(MainLog, log);
    nodes := nodes + [FlowNode(logNodeId, MainLog, log.paymentStatus, log.id)];
    if previousNodeId.Some? {
      edges := edges + [Link(previousNodeId.value, logNodeId)];
    }
    previous := Some(logNodeId);
    if HasHash(log.verificationTxHash) {
      var verificationNodeId := NodeId(Verification, log);
      nodes := nodes + [FlowNode(verificationNodeId, Verification, "Verification", log.id)];
      edges := edges + [Link(logNodeId, verificationNodeId)];
      previous := Some(verificationNodeId);
    }
    if HasHash(log.settlementTxHash) {
      var settlementNodeId := NodeId(Settlement, log);
      nodes := nodes + [FlowNode(settlementNodeId, Settlement, "Settlement", log.id)];
      var source := if HasHash(log.verificationTxHash) then NodeId(Verification, log) else logNodeId;
      edges := edges + [Link(source, settlementNodeId)];
      previous := Some(settlementNodeId);
    }
  }

  lemma AppendAssociates<T>(a: seq<T>, b: seq<T>, c: seq<T>)
    ensures a + (b + c) == (a + b) + c
  {
  }

  /** Extending a group prefix by one log extends its nodes, edges and chaining point by that log's. */
  lemma GroupStep(group: seq<PaymentLog>, j: nat)
    requires j < |group|
    ensures GroupNodes(group[..j + 1]) == GroupNodes(group[..j]) + LogNodes(group[j])
    ensures GroupEdges(group[..j + 1]) == GroupEdges(group[..j]) + LogEdges(group[j], GroupPrevious(group[..j]))
    ensures GroupPrevious(group[..j + 1]) == Some(LastNodeId(group[j]))
  {
    assert group[..j + 1][..j] == group[..j];
  }

  /** The inner `forEach` over one time-ordered group, starting with `previousNodeId` null. */
  method AppendGroup(group: seq<PaymentLog>, nodes0: seq<FlowNode>, edges0: seq<FlowEdge>)
    returns (nodes: seq<FlowNode>, edges: seq<FlowEdge>)
    ensures nodes == nodes0 + GroupNodes(group)
    ensures edges == edges0 + GroupEdges(group)
  {
    nodes, edges := nodes0, edges0;
    var previousNodeId: Option<string> := None;
    var j := 0;
    while j < |group|
      invariant 0 <= j <= |group|
      invariant nodes == nodes0 + GroupNodes(group[..j])
      invariant edges == edges0 + GroupEdges(group[..j])
      invariant previousNodeId == GroupPrevious(group[..j])
    {
      GroupStep(group, j);
      ghost var nodesBefore, edgesBefore := GroupNodes(group[..j]), GroupEdges(group[..j]);
      nodes, edges, previousNodeId := AppendLog(group[j], previousNodeId, nodes, edges);
      AppendAssociates(nodes0, nodesBefore, LogNodes(group[j]));
      AppendAssociates(edges0, edgesBefore, LogEdges(group[j], GroupPrevious(group[..j])));
      j := j + 1;
    }
    assert group[..|group|] == group;
  }

  /**
   * The effect that builds the graph: it does nothing for an empty log list
   * (`updated` false); otherwise it groups the logs, sorts each group in
   * place by time, and appends each group's nodes and edges in turn.
   */
  method BuildFlow(logs: seq<PaymentLog>) returns (updated: bool, nodes: seq<FlowNode>, edges: seq<FlowEdge>)
    ensures updated <==> |logs| > 0
    ensures updated ==> nodes == FlowNodes(logs) && edges == FlowEdges(logs)
    ensures !updated ==> nodes == [] && edges == []
  {
    nodes, edges := [], [];
    if |logs| == 0 {
      return false, nodes, edges;
    }
    var keys, acc := GroupByCorrelation(logs);
    ghost var groups := Groups(keys, acc);
    assert forall k :: k in groups.keys ==> k in groups.members;
    var g := 0;
    while g < |keys|
      invariant 0 <= g <= |keys|
      invariant forall k :: k in groups.keys ==> k in groups.members
      invariant nodes == NodesOfGroups(groups, g)
      invariant edges == EdgesOfGroups(groups, g)
    {
      var group := SortByTime(acc[keys[g]]);
      GroupsStep(groups, g);
      nodes, edges := AppendGroup(group, nodes, edges);
      g := g + 1;
    }
    assert groups == GroupLogs(logs);
    return true, nodes, edges;
  }

  // Counting: sums of a per-log measure over lists, groups and the graph.

  function Weight(logs: seq<PaymentLog>, f: PaymentLog -> nat): nat {
    if logs == [] then 0 else f(logs[0]) + Weight(logs[1..], f)
  }

  lemma {:induction false} WeightAppend(logs: seq<PaymentLog>, x: PaymentLog, f: PaymentLog -> nat)
    ensures Weight(logs + [x], f) == Weight(logs, f) + f(x)
  {
    if logs != [] {
      assert (logs + [x])[1..] == logs[1..] + [x];
      WeightAppend(logs[1..], x, f);
    }
  }

  lemma {:induction false} WeightInsert(x: PaymentLog, logs: seq<PaymentLog>, f: PaymentLog -> nat)
    ensures Weight(InsertByTime(x, logs), f) == Weight(logs, f) + f(x)
  {
    if logs != [] && x.time >= logs[0].time {
      WeightInsert(x, logs[1..], f);
    }
  }

  /** Sorting a group changes no count. */
  lemma {:induction false} WeightSort(logs: seq<PaymentLog>, f: PaymentLog -> nat)
    ensures Weight(SortByTime(logs), f) == Weight(logs, f)
  {
    if logs != [] {
      var init := logs[..|logs| - 1];
      assert logs == init + [logs[|logs| - 1]];
      WeightSort(init, f);
      WeightInsert(logs[|logs| - 1], SortByTime(init), f);
      WeightAppend(init, logs[|logs| - 1], f);
    }
  }

  /** The measure summed over the first `n` groups. */
  function GroupsWeight(g: Groups, n: nat, f: PaymentLog -> nat): nat
    requires n <= |g.keys| && forall k :: k in g.keys ==> k in g.members
  {
    if n == 0 then 0 else GroupsWeight(g, n - 1, f) + Weight(g.members[g.keys[n - 1]], f)
  }

  lemma {:induction false} GroupsWeightPush(g: Groups, n: nat, k: string, x: PaymentLog, f: PaymentLog -> nat)
    requires n <= |g.keys| && (forall j :: j in g.keys ==> j in g.members) && DistinctKeys(g.keys) && k in g.members
    ensures var h := Groups(g.keys, g.members[k := g.members[k] + [x]]);
      GroupsWeight(h, n, f) == GroupsWeight(g, n, f) + (if k in g.keys[..n] then f(x) else 0)
  {
    if n > 0 {
      GroupsWeightPush(g, n - 1, k, x, f);
      WeightAppend(g.members[k], x, f);
      assert g.keys[..n] == g.keys[..n - 1] + [g.keys[n - 1]];
      if g.keys[n - 1] == k {
        assert k !in g.keys[..n - 1];
      }
    }
  }

  lemma {:induction false} GroupsWeightOpen(g: Groups, n: nat, k: string, x: PaymentLog, f: PaymentLog -> nat)
    requires n <= |g.keys| && (forall j :: j in g.keys ==> j in g.members) && k !in g.keys
    ensures GroupsWeight(Groups(g.keys + [k], g.members[k := [x]]), n, f) == GroupsWeight(g, n, f)
  {
    if n > 0 {
      GroupsWeightOpen(g, n - 1, k, x, f);
      assert (g.keys + [k])[n - 1] == g.keys[n - 1];
    }
  }

  /** A log with a known correlation id adds its measure to that group. */
  lemma GroupLogsWeightJoin(init: seq<PaymentLog>, last: PaymentLog, f: PaymentLog -> nat)
    requires last.correlationId in GroupLogs(init).members
    ensures GroupsWeight(GroupLogs(init + [last]), |GroupLogs(init + [last]).keys|, f)
         == GroupsWeight(GroupLogs(init), |GroupLogs(init).keys|, f) + f(last)
  {
    var g := GroupLogs(init);
    assert (init + [last])[..|init|] == init;
    GroupKeysDistinct(init);
    GroupsWeightPush(g, |g.keys|, last.correlationId, last, f);
    assert g.keys[..|g.keys|] == g.keys;
  }

  /** A log with a new correlation id opens a group of its own. */
  lemma GroupLogsWeightOpen(init: seq<PaymentLog>, last: PaymentLog, f: PaymentLog -> nat)
    requires last.correlationId !in GroupLogs(init).members
    ensures GroupsWeight(GroupLogs(init + [last]), |GroupLogs(init + [last]).keys|, f)
         == GroupsWeight(GroupLogs(init), |GroupLogs(init).keys|, f) + f(last)
  {
    var g := GroupLogs(init);
    var k := last.correlationId;
    assert (init + [last])[..|init|] == init;
    GroupsWeightOpen(g, |g.keys|, k, last, f);
    var h := Groups(g.keys + [k], g.members[k := [last]]);
    assert Weight([last], f) == f(last);
    assert GroupsWeight(h, |g.keys| + 1, f) == GroupsWeight(h, |g.keys|, f) + Weight([last], f);
  }

  /** Grouping keeps every count: summed over the groups, a measure adds up to its sum over the logs. */
  lemma {:induction false} GroupLogsWeight(logs: seq<PaymentLog>, f: PaymentLog -> nat)
    ensures GroupsWeight(GroupLogs(logs), |GroupLogs(logs).keys|, f) == Weight(logs, f)
  {
    if logs != [] {
      var init := logs[..|logs| - 1];
      var last := logs[|logs| - 1];
      assert logs == init + [last];
      GroupLogsWeight(init, f);
      WeightAppend(init, last, f);
      if last.correlationId in GroupLogs(init).members {
        GroupLogsWeightJoin(init, last, f);
      } else {
        GroupLogsWeightOpen(init, last, f);
      }
    }
  }

  /** The nodes a log contributes: its main node, and one node per transaction hash it carries. */
  function NodesPerLog(log: PaymentLog): (n: nat)
    ensures n == |LogNodes(log)|
  {
    LogNodesShape(log);
    1 + (if HasHash(log.verificationTxHash) then 1 else 0) + (if HasHash(log.settlementTxHash) then 1 else 0)
  }

  function OnePerLog(log: PaymentLog): nat {
    1
  }

  /** The number of main log nodes. */
  function CountMain(ns: seq<FlowNode>): nat {
    if ns == [] then 0 else (if ns[0].kind == MainLog then 1 else 0) + CountMain(ns[1..])
  }

  lemma {:induction false} CountMainAppend(a: seq<FlowNode>, b: seq<FlowNode>)
    ensures CountMain(a + b) == CountMain(a) + CountMain(b)
  {
    if a != [] {
      assert (a + b)[1..] == a[1..] + b;
      CountMainAppend(a[1..], b);
    } else {
      assert a + b == b;
    }
  }

  lemma {:induction false} CountMainNone(ns: seq<FlowNode>)
    requires forall n :: n in ns ==> n.kind != MainLog
    ensures CountMain(ns) == 0
  {
    if ns != [] {
      assert ns[0] in ns;
      assert forall n :: n in ns[1..] ==> n in ns;
      CountMainNone(ns[1..]);
    }
  }

  lemma {:induction false} GroupNodesCounts(logs: seq<PaymentLog>)
    ensures |GroupNodes(logs)| == Weight(logs, NodesPerLog)
    ensures CountMain(GroupNodes(logs)) == Weight(logs, OnePerLog)
  {
    if logs != [] {
      var init := logs[..|logs| - 1];
      var last := logs[|logs| - 1];
      assert logs == init + [last];
      GroupNodesCounts(init);
      WeightAppend(init, last, NodesPerLog);
      WeightAppend(init, last, OnePerLog);
      LogNodesShape(last);
      var ns := LogNodes(last);
      CountMainAppend(GroupNodes(init), ns);
      assert ns == [ns[0]] + ns[1..];
      CountMainAppend([ns[0]], ns[1..]);
      CountMainNone(ns[1..]);
    }
  }

  /** The `n`-th group adds the nodes of its member logs. */
  lemma NodesOfGroupsSizeStep(g: Groups, n: nat)
    requires 0 < n <= |g.keys| && forall k :: k in g.keys ==> k in g.members
    ensures |NodesOfGroups(g, n)| == |NodesOfGroups(g, n - 1)| + Weight(g.members[g.keys[n - 1]], NodesPerLog)
  {
    var members := g.members[g.keys[n - 1]];
    var group := SortByTime(members);
    assert NodesOfGroups(g, n) == NodesOfGroups(g, n - 1) + GroupNodes(group);
    GroupNodesCounts(group);
    WeightSort(members, NodesPerLog);
  }

  lemma {:induction false} NodesOfGroupsSize(g: Groups, n: nat)
    requires n <= |g.keys| && forall k :: k in g.keys ==> k in g.members
    ensures |NodesOfGroups(g, n)| == GroupsWeight(g, n, NodesPerLog)
  {
    if n > 0 {
      NodesOfGroupsSize(g, n - 1);
      assert |NodesOfGroups(g, n - 1)| == GroupsWeight(g, n - 1, NodesPerLog);
      NodesOfGroupsSizeStep(g, n);
    }
  }

  /** The `n`-th group adds one main node per member log. */
  lemma NodesOfGroupsMainStep(g: Groups, n: nat)
    requires 0 < n <= |g.keys| && forall k :: k in g.keys ==> k in g.members
    ensures CountMain(NodesOfGroups(g, n))
         == CountMain(NodesOfGroups(g, n - 1)) + Weight(g.members[g.keys[n - 1]], OnePerLog)
  {
    var members := g.members[g.keys[n - 1]];
    var group := SortByTime(members);
    assert NodesOfGroups(g, n) == NodesOfGroups(g, n - 1) + GroupNodes(group);
    CountMainAppend(NodesOfGroups(g, n - 1), GroupNodes(group));
    GroupNodesCounts(group);
    WeightSort(members, OnePerLog);
  }

  lemma {:induction false} NodesOfGroupsMain(g: Groups, n: nat)
    requires n <= |g.keys| && forall k :: k in g.keys ==> k in g.members
    ensures CountMain(NodesOfGroups(g, n)) == GroupsWeight(g, n, OnePerLog)
  {
    if n > 0 {
      NodesOfGroupsMain(g, n - 1);
      assert CountMain(NodesOfGroups(g, n - 1)) == GroupsWeight(g, n - 1, OnePerLog);
      NodesOfGroupsMainStep(g, n);
    }
  }

  /**
   * The graph has one node per log plus one per verification hash and one per
   * settlement hash, and exactly one main node per log.
   */
  lemma FlowNodeCounts(logs: seq<PaymentLog>)
    ensures |FlowNodes(logs)| == Weight(logs, NodesPerLog)
    ensures CountMain(FlowNodes(logs)) == |logs|
  {
    var g := GroupLogs(logs);
    NodesOfGroupsSize(g, |g.keys|);
    NodesOfGroupsMain(g, |g.keys|);
    GroupLogsWeight(logs, NodesPerLog);
    GroupLogsWeight(logs, OnePerLog);
    WeightOfOnes(logs);
  }

  lemma {:induction false} WeightOfOnes(logs: seq<PaymentLog>)
    ensures Weight(logs, OnePerLog) == |logs|
  {
    if logs != [] {
      WeightOfOnes(logs[1..]);
    }
  }

  // Edges: every endpoint is a node of the same group.

  predicate HasNodeId(ns: seq<FlowNode>, id: string) {
    exists n :: n in ns && n.id == id
  }

  /** Within a time-ordered group, every edge joins two nodes of that group, and the chaining point is one of them. */
  lemma {:induction false} GroupEdgesStayInGroup(logs: seq<PaymentLog>)
    ensures forall e :: e in GroupEdges(logs) ==>
      HasNodeId(GroupNodes(logs), e.source) && HasNodeId(GroupNodes(logs), e.target)
    ensures GroupPrevious(logs).Some? ==> HasNodeId(GroupNodes(logs), GroupPrevious(logs).value)
  {
    if logs != [] {
      var init := logs[..|logs| - 1];
      var last := logs[|logs| - 1];
      GroupEdgesStayInGroup(init);
      var before := GroupNodes(init);
      var ns := LogNodes(last);
      var all := GroupNodes(logs);
      assert all == before + ns;
      LogNodesShape(last);
      assert forall id :: HasNodeId(before, id) ==> HasNodeId(all, id) by {
        forall id | HasNodeId(before, id) ensures HasNodeId(all, id) {
          var n :| n in before && n.id == id;
          assert n in all;
        }
      }
      assert HasNodeId(all, NodeId(MainLog, last)) by { assert ns[0] in all; }
      if HasHash(last.verificationTxHash) {
        assert HasNodeId(all, NodeId(Verification, last)) by { assert ns[1] in all; }
      }
      if HasHash(last.settlementTxHash) {
        assert HasNodeId(all, NodeId(Settlement, last)) by { assert ns[|ns| - 1] in all; }
      }
      var es := LogEdges(last, GroupPrevious(init));
      forall e | e in es ensures HasNodeId(all, e.source) && HasNodeId(all, e.target) { }
      forall e | e in GroupEdges(logs) ensures HasNodeId(all, e.source) && HasNodeId(all, e.target) {
        assert e in GroupEdges(init) || e in es;
      }
    }
  }

  lemma HasNodeIdAppend(a: seq<FlowNode>, b: seq<FlowNode>, id: string)
    ensures HasNodeId(a + b, id) <==> HasNodeId(a, id) || HasNodeId(b, id)
  {
    if HasNodeId(a + b, id) {
      var m :| m in a + b && m.id == id;
      assert m in a || m in b;
    }
    if HasNodeId(a, id) {
      var m :| m in a && m.id == id;
      assert m in a + b;
    }
    if HasNodeId(b, id) {
      var m :| m in b && m.id == id;
      assert m in a + b;
    }
  }

  /** The `n`-th group's edges join its own nodes, which are nodes of the first `n` groups. */
  lemma EdgesOfGroupsStep(g: Groups, n: nat)
    requires 0 < n <= |g.keys| && forall k :: k in g.keys ==> k in g.members
    requires forall e :: e in EdgesOfGroups(g, n - 1) ==>
      HasNodeId(NodesOfGroups(g, n - 1), e.source) && HasNodeId(NodesOfGroups(g, n - 1), e.target)
    ensures forall e :: e in EdgesOfGroups(g, n) ==>
      HasNodeId(NodesOfGroups(g, n), e.source) && HasNodeId(NodesOfGroups(g, n), e.target)
  {
    var group := SortByTime(g.members[g.keys[n - 1]]);
    var before := NodesOfGroups(g, n - 1);
    var here := GroupNodes(group);
    assert NodesOfGroups(g, n) == before + here;
    assert EdgesOfGroups(g, n) == EdgesOfGroups(g, n - 1) + GroupEdges(group);
    GroupEdgesStayInGroup(group);
    forall e | e in EdgesOfGroups(g, n)
      ensures HasNodeId(before + here, e.source) && HasNodeId(before + here, e.target)
    {
      HasNodeIdAppend(before, here, e.source);
      HasNodeIdAppend(before, here, e.target);
    }
  }

  lemma {:induction false} EdgesOfGroupsEndpoints(g: Groups, n: nat)
    requires n <= |g.keys| && forall k :: k in g.keys ==> k in g.members
    ensures forall e :: e in EdgesOfGroups(g, n) ==>
      HasNodeId(NodesOfGroups(g, n), e.source) && HasNodeId(NodesOfGroups(g, n), e.target)
  {
    if n > 0 {
      EdgesOfGroupsEndpoints(g, n - 1);
      EdgesOfGroupsStep(g, n);
    }
  }

  /** Every edge of the graph starts and ends at a node of the graph. */
  lemma FlowEdgesEndpoints(logs: seq<PaymentLog>)
    ensures forall e :: e in FlowEdges(logs) ==> HasNodeId(FlowNodes(logs), e.source) && HasNodeId(FlowNodes(logs), e.target)
  {
    EdgesOfGroupsEndpoints(GroupLogs(logs), |GroupLogs(logs).keys|);
  }
}
