/**
 * The dashboard's tree helpers (apps/dash/src/app/helper-node-sort.ts): nodes
 * hang under a parent id and carry a numeric `rank` among their siblings.
 * Where to add a node and with what rank, rank renumbering within sibling
 * groups, the stable rank sort, the depth-first hierarchy walk, and the
 * parent-to-child edges built from it.
 */
module NodeSort {
  import opened Wrappers
  import Text

  /**
   * A graph node: its id, its `data.parent` and `data.rank` (`None` where
   * the property is missing), and the rest of its properties, kept opaque.
   */
  datatype DashNode = DashNode(id: string, parent: Option<string>, rank: Option<real>, content: string)

  /** A graph edge. */
  datatype HierarchyEdge = HierarchyEdge(id: string, source: string, target: string, edgeType: string)

  /** `node.data?.rank || 0`: a missing rank counts as 0. */
  function RankOr0(n: DashNode): (r: real)
    ensures n.rank.Some? ==> r == n.rank.value
    ensures n.rank.None? ==> r == 0.0
  {
    n.rank.GetOr(0.0)
  }

  /** `nodes.filter(node => node.data?.parent === parent)` for a parent id. */
  function Children(nodes: seq<DashNode>, parent: string): (r: seq<DashNode>)
    ensures forall n :: n in r <==> n in nodes && n.parent == Some(parent)
    ensures |r| <= |nodes|
  {
    if nodes == [] then []
    else
      var rest := Children(nodes[1..], parent);
      assert forall n :: n in nodes <==> n == nodes[0] || n in nodes[1..];
      if nodes[0].parent == Some(parent) then [nodes[0]] + rest else rest
  }

  /**
   * `Math.max(...ranks)` over a non-empty list of `rank as number` values:
   * a missing rank makes the maximum `NaN`, here `None`.
   */
  function MaxRank(ns: seq<DashNode>): (m: Option<real>)
    requires |ns| > 0
    ensures m.Some? <==> forall n :: n in ns ==> n.rank.Some?
    ensures m.Some? ==> (forall n :: n in ns ==> n.rank.value <= m.value) && (exists n :: n in ns && n.rank == m)
  {
    if |ns| == 1 then ns[0].rank
    else
      var rest := MaxRank(ns[1..]);
      assert forall n :: n in ns <==> n == ns[0] || n in ns[1..];
      if ns[0].rank.None? || rest.None? then None
      else if ns[0].rank.value >= rest.value then ns[0].rank
      else rest
  }

  /** `maxRank + 1` where `maxRank` is 0 for no siblings: the rank after the last sibling (`None` is `NaN`). */
  function NextRank(siblings: seq<DashNode>): (r: Option<real>)
    ensures siblings == [] ==> r == Some(1.0)
    ensures siblings != [] && (forall n :: n in siblings ==> n.rank.Some?) ==>
      r.Some? && (forall n :: n in siblings ==> n.rank.value + 1.0 <= r.value)
      && (exists n :: n in siblings && n.rank == Some(r.value - 1.0))
    ensures siblings != [] && (exists n :: n in siblings && n.rank.None?) ==> r.None?
  {
    if siblings == [] then Some(1.0)
    else
      match MaxRank(siblings)
      case None => None
      case Some(m) => Some(m + 1.0)
  }

  datatype Direction = Parallel | Series

  /** What `determineSourceAndRank` returns: the node to attach to and the new node's rank (`None` is `NaN`). */
  datatype Placement = Placement(sourceNodeId: string, newRank: Option<real>)

  /** `edges.find(edge => edge.target === target)`. */
  function FirstEdgeInto(edges: seq<HierarchyEdge>, target: string): (e: Option<HierarchyEdge>)
    ensures e.Some? ==> e.value in edges && e.value.target == target
    ensures e.None? ==> forall x :: x in edges ==> x.target != target
  {
    if edges == [] then None
    else if edges[0].target == target then Some(edges[0])
    else FirstEdgeInto(edges[1..], target)
  }

  /**
   * `determineSourceAndRank(selectedNodes, direction, nodes, edges)`. With one
   * node selected, a series addition goes under that node after its last
   * child; a parallel one goes beside it, under the source of its incoming
   * edge, half a rank after it. Otherwise the new node goes under `root`,
   * attached to the first node, and `None` is the `TypeError` thrown when
   * there are no nodes at all.
   */
  function DetermineSourceAndRank(selectedNodes: seq<DashNode>, direction: Direction, nodes: seq<DashNode>,
                                  edges: seq<HierarchyEdge>): (r: Option<Placement>)
    ensures |selectedNodes| == 1 && direction == Series ==>
      r == Some(Placement(selectedNodes[0].id, NextRank(Children(nodes, selectedNodes[0].id))))
    ensures |selectedNodes| == 1 && direction == Parallel ==>
      && r.Some?
      && (FirstEdgeInto(edges, selectedNodes[0].id).Some? ==>
            r.value.sourceNodeId == FirstEdgeInto(edges, selectedNodes[0].id).value.source)
      && (FirstEdgeInto(edges, selectedNodes[0].id).None? ==> r.value.sourceNodeId == selectedNodes[0].id)
      && (selectedNodes[0].rank.Some? && selectedNodes[0].rank.value != 0.0 ==>
            r.value.newRank == Some(selectedNodes[0].rank.value + 0.5))
      && (selectedNodes[0].rank.None? || selectedNodes[0].rank == Some(0.0) ==> r.value.newRank == Some(1.0))
    ensures |selectedNodes| != 1 ==>
      if nodes == [] then r.None?
      else r == Some(Placement(nodes[0].id, NextRank(Children(nodes, "root"))))
  {
    if |selectedNodes| == 1 then
      var selected := selectedNodes[0];
      match direction
      case Series => Some(Placement(selected.id, NextRank(Children(nodes, selected.id))))
      case Parallel =>
        var source := match FirstEdgeInto(edges, selected.id)
                      case Some(e) => e.source
                      case None => selected.id;
        var rank := if selected.rank.Some? && selected.rank.value != 0.0 then selected.rank.value + 0.5 else 1.0;
        Some(Placement(source, Some(rank)))
    else if nodes == [] then None
    else Some(Placement(nodes[0].id, NextRank(Children(nodes, "root"))))
  }

  /**
   * The order both sorts put positions of `nodes` in: by rank (missing as 0),
   * then, when `byId`, by id, then by original position. Breaking the last
   * tie by position is what makes a sort by this order stable.
   */
  predicate Precedes(nodes: seq<DashNode>, i: nat, j: nat, byId: bool)
    requires i < |nodes| && j < |nodes|
  {
    var a := RankOr0(nodes[i]);
    var b := RankOr0(nodes[j]);
    a < b || (a == b && (
      (byId && Text.StrLt(nodes[i].id, nodes[j].id)) ||
      ((!byId || nodes[i].id == nodes[j].id) && i < j)))
  }

  /** `Precedes` is a strict total order on positions. */
  lemma PrecedesIsStrictTotal(nodes: seq<DashNode>, i: nat, j: nat, k: nat, byId: bool)
    requires i < |nodes| && j < |nodes| && k < |nodes|
    ensures !Precedes(nodes, i, i, byId)
    ensures Precedes(nodes, i, j, byId) ==> !Precedes(nodes, j, i, byId)
    ensures Precedes(nodes, i, j, byId) && Precedes(nodes, j, k, byId) ==> Precedes(nodes, i, k, byId)
    ensures i != j ==> Precedes(nodes, i, j, byId) || Precedes(nodes, j, i, byId)
  {
    Text.StrLtIsStrictTotal(nodes[i].id, nodes[j].id, nodes[k].id);
    Text.StrLtIsStrictTotal(nodes[j].id, nodes[i].id, nodes[k].id);
    Text.StrLtIsStrictTotal(nodes[i].id, nodes[k].id, nodes[j].id);
  }

  predicate InBounds(nodes: seq<DashNode>, ps: seq<nat>) {
    forall k :: 0 <= k < |ps| ==> ps[k] < |nodes|
  }

  /** Every earlier position precedes every later one. */
  predicate StrictlySorted(nodes: seq<DashNode>, ps: seq<nat>, byId: bool)
    requires InBounds(nodes, ps)
  {
    forall a, b :: 0 <= a < b < |ps| ==> Precedes(nodes, ps[a], ps[b], byId)
  }

  /** Insertion of one position into a sorted list of positions. */
  function Insert(nodes: seq<DashNode>, x: nat, ps: seq<nat>, byId: bool): (r: seq<nat>)
    requires x < |nodes| && InBounds(nodes, ps)
    ensures multiset(r) == multiset(ps) + multiset{x} && |r| == |ps| + 1
    ensures InBounds(nodes, r)
  {
    if ps == [] then [x]
    else if Precedes(nodes, x, ps[0], byId) then [x] + ps
    else
      assert ps == [ps[0]] + ps[1..];
      [ps[0]] + Insert(nodes, x, ps[1..], byId)
  }

  lemma {:induction false} InsertSorted(nodes: seq<DashNode>, x: nat, ps: seq<nat>, byId: bool)
    requires x < |nodes| && InBounds(nodes, ps)
    requires StrictlySorted(nodes, ps, byId) && x !in ps
    ensures StrictlySorted(nodes, Insert(nodes, x, ps, byId), byId)
  {
    if ps == [] {
    } else if Precedes(nodes, x, ps[0], byId) {
      var r := [x] + ps;
      forall a, b | 0 <= a < b < |r|
        ensures Precedes(nodes, r[a], r[b], byId)
      {
        if a == 0 {
          PrecedesIsStrictTotal(nodes, x, ps[0], ps[b - 1], byId);
        }
      }
    } else {
      assert ps == [ps[0]] + ps[1..];
      InsertSorted(nodes, x, ps[1..], byId);
      var tail := Insert(nodes, x, ps[1..], byId);
      var r := [ps[0]] + tail;
      PrecedesIsStrictTotal(nodes, x, ps[0], x, byId);
      assert Precedes(nodes, ps[0], x, byId);
      forall a, b | 0 <= a < b < |r|
        ensures Precedes(nodes, r[a], r[b], byId)
      {
        if a == 0 {
          assert r[b] in multiset(tail);
          assert r[b] == x || r[b] in ps[1..];
        }
      }
    }
  }

  /** No position occurs twice. */
  predicate Distinct(ps: seq<nat>) {
    forall a, b :: 0 <= a < b < |ps| ==> ps[a] != ps[b]
  }

  /** Sorting distinct positions by `Precedes`, by insertion from the left. */
  function SortPositions(nodes: seq<DashNode>, ps: seq<nat>, byId: bool): (r: seq<nat>)
    requires InBounds(nodes, ps) && Distinct(ps)
    ensures multiset(r) == multiset(ps) && |r| == |ps|
    ensures InBounds(nodes, r) && StrictlySorted(nodes, r, byId)
  {
    if ps == [] then []
    else
      var init := ps[..|ps| - 1];
      var last := ps[|ps| - 1];
      assert ps == init + [last];
      var sorted := SortPositions(nodes, init, byId);
      assert last !in sorted by {
        assert last !in multiset(init);
      }
      InsertSorted(nodes, last, sorted, byId);
      Insert(nodes, last, sorted, byId)
  }

  /** `[0, 1, ..., n - 1]`. */
  function Range(n: nat): (r: seq<nat>)
    ensures |r| == n && forall k :: 0 <= k < n ==> r[k] == k
  {
    if n == 0 then [] else Range(n - 1) + [n - 1]
  }

  /** The nodes at the given positions, in that order. */
  function Select(nodes: seq<DashNode>, ps: seq<nat>): (r: seq<DashNode>)
    requires InBounds(nodes, ps)
    ensures |r| == |ps| && forall k :: 0 <= k < |ps| ==> r[k] == nodes[ps[k]]
  {
    if ps == [] then [] else [nodes[ps[0]]] + Select(nodes, ps[1..])
  }

  lemma SelectAppend(nodes: seq<DashNode>, ps: seq<nat>, x: nat)
    requires InBounds(nodes, ps) && x < |nodes|
    ensures InBounds(nodes, ps + [x]) && Select(nodes, ps + [x]) == Select(nodes, ps) + [nodes[x]]
  {
  }

  lemma SelectCons(nodes: seq<DashNode>, p: nat, qs: seq<nat>)
    requires p < |nodes| && InBounds(nodes, qs)
    ensures InBounds(nodes, [p] + qs) && Select(nodes, [p] + qs) == [nodes[p]] + Select(nodes, qs)
  {
    assert ([p] + qs)[1..] == qs;
  }

  lemma {:induction false} SelectInsert(nodes: seq<DashNode>, x: nat, ps: seq<nat>, byId: bool)
    requires x < |nodes| && InBounds(nodes, ps)
    ensures multiset(Select(nodes, Insert(nodes, x, ps, byId))) == multiset(Select(nodes, ps)) + multiset{nodes[x]}
  {
    if ps == [] || Precedes(nodes, x, ps[0], byId) {
      InsertAtHead(nodes, x, ps, byId);
      SelectConsCount(nodes, x, ps);
    } else {
      InsertPastHead(nodes, x, ps, byId);
      SelectInsert(nodes, x, ps[1..], byId);
      SelectConsCount(nodes, ps[0], Insert(nodes, x, ps[1..], byId));
      SelectHeadCount(nodes, ps);
    }
  }

  /** Before a head it precedes, or into an empty list, a position goes first. */
  lemma InsertAtHead(nodes: seq<DashNode>, x: nat, ps: seq<nat>, byId: bool)
    requires x < |nodes| && InBounds(nodes, ps) && (ps == [] || Precedes(nodes, x, ps[0], byId))
    ensures Insert(nodes, x, ps, byId) == [x] + ps
  {
  }

  /** Past a head that precedes it, a position is inserted into the tail. */
  lemma InsertPastHead(nodes: seq<DashNode>, x: nat, ps: seq<nat>, byId: bool)
    requires x < |nodes| && InBounds(nodes, ps) && ps != [] && !Precedes(nodes, x, ps[0], byId)
    ensures Insert(nodes, x, ps, byId) == [ps[0]] + Insert(nodes, x, ps[1..], byId)
  {
  }

  /** The nodes a non-empty list selects: the head's node and those of the rest. */
  lemma SelectHeadCount(nodes: seq<DashNode>, ps: seq<nat>)
    requires InBounds(nodes, ps) && ps != []
    ensures multiset(Select(nodes, ps)) == multiset{nodes[ps[0]]} + multiset(Select(nodes, ps[1..]))
  {
  }

  /** The nodes `[p] + qs` selects: that of `p` and those of `qs`. */
  lemma SelectConsCount(nodes: seq<DashNode>, p: nat, qs: seq<nat>)
    requires p < |nodes| && InBounds(nodes, qs)
    ensures InBounds(nodes, [p] + qs)
    ensures multiset(Select(nodes, [p] + qs)) == multiset{nodes[p]} + multiset(Select(nodes, qs))
  {
    SelectCons(nodes, p, qs);
  }

  /** Sorting positions permutes the nodes they select. */
  lemma {:induction false} SelectSort(nodes: seq<DashNode>, ps: seq<nat>, byId: bool)
    requires InBounds(nodes, ps) && Distinct(ps)
    ensures multiset(Select(nodes, SortPositions(nodes, ps, byId))) == multiset(Select(nodes, ps))
  {
    if ps != [] {
      var init := ps[..|ps| - 1];
      var last := ps[|ps| - 1];
      assert ps == init + [last];
      SelectSort(nodes, init, byId);
      SelectInsert(nodes, last, SortPositions(nodes, init, byId), byId);
      SelectAppend(nodes, init, last);
    }
  }

  /**
   * `sortNodesByRank(nodes)`: lodash `orderBy` on `rank || 0`, ascending. The
   * result is a permutation of the input in non-decreasing rank.
   */
  function SortNodesByRank(nodes: seq<DashNode>): (r: seq<DashNode>)
    ensures |r| == |nodes| && multiset(r) == multiset(nodes)
    ensures forall a, b :: 0 <= a < b < |r| ==> RankOr0(r[a]) <= RankOr0(r[b])
  {
    var ps := SortPositions(nodes, Range(|nodes|), false);
    SelectRange(nodes, |nodes|);
    assert nodes[..|nodes|] == nodes;
    SelectSort(nodes, Range(|nodes|), false);
    SortedRanksAscend(nodes, ps);
    Select(nodes, ps)
  }

  /** The positions `0, ..., n - 1` select the first `n` nodes. */
  lemma {:induction false} SelectRange(nodes: seq<DashNode>, n: nat)
    requires n <= |nodes|
    ensures InBounds(nodes, Range(n)) && Distinct(Range(n))
    ensures Select(nodes, Range(n)) == nodes[..n]
  {
    if n > 0 {
      SelectRange(nodes, n - 1);
      SelectAppend(nodes, Range(n - 1), n - 1);
      assert nodes[..n] == nodes[..n - 1] + [nodes[n - 1]];
    }
  }

  /** Nodes at positions sorted by rank (then position) are in non-decreasing rank. */
  lemma SortedRanksAscend(nodes: seq<DashNode>, ps: seq<nat>)
    requires InBounds(nodes, ps) && StrictlySorted(nodes, ps, false)
    ensures var r := Select(nodes, ps);
      forall a, b :: 0 <= a < b < |r| ==> RankOr0(r[a]) <= RankOr0(r[b])
  {
    var r := Select(nodes, ps);
    forall a, b | 0 <= a < b < |r|
      ensures RankOr0(r[a]) <= RankOr0(r[b])
    {
      assert Precedes(nodes, ps[a], ps[b], false);
    }
  }

  /**
   * The sort is stable: the result lists the nodes at the sorted positions,
   * and nodes of equal rank keep their original relative order.
   */
  lemma SortNodesByRankIsStable(nodes: seq<DashNode>)
    ensures var ps := SortPositions(nodes, Range(|nodes|), false);
      && multiset(ps) == multiset(Range(|nodes|))
      && SortNodesByRank(nodes) == Select(nodes, ps)
      && forall a, b :: 0 <= a < b < |ps| && RankOr0(nodes[ps[a]]) == RankOr0(nodes[ps[b]]) ==> ps[a] < ps[b]
  {
    var ps := SortPositions(nodes, Range(|nodes|), false);
    assert forall a, b :: 0 <= a < b < |ps| ==> Precedes(nodes, ps[a], ps[b], false);
  }

  /** The positions below `n` of nodes with the given `data.parent`, in increasing order. */
  function Group(nodes: seq<DashNode>, parent: Option<string>, n: nat): (g: seq<nat>)
    requires n <= |nodes|
    ensures forall a, b :: 0 <= a < b < |g| ==> g[a] < g[b]
    ensures forall k :: 0 <= k < |g| ==> g[k] < n
    ensures forall k :: k in g <==> 0 <= k < n && nodes[k].parent == parent
    ensures InBounds(nodes, g) && Distinct(g)
  {
    if n == 0 then []
    else
      var g := Group(nodes, parent, n - 1);
      if nodes[n - 1].parent == parent then g + [n - 1] else g
  }

  /** The positions of the node at `i` and its siblings (`nodes.filter(n => n.data?.parent === node.data?.parent)`). */
  function Siblings(nodes: seq<DashNode>, i: nat): (g: seq<nat>)
    requires i < |nodes|
    ensures InBounds(nodes, g) && Distinct(g) && i in g
  {
    Group(nodes, nodes[i].parent, |nodes|)
  }

  /** The siblings sorted by rank (missing as 0), then id, then position. */
  function SiblingOrder(nodes: seq<DashNode>, i: nat): (s: seq<nat>)
    requires i < |nodes|
    ensures multiset(s) == multiset(Siblings(nodes, i)) && |s| == |Siblings(nodes, i)|
    ensures InBounds(nodes, s) && StrictlySorted(nodes, s, true) && i in s
  {
    var g := Siblings(nodes, i);
    assert i in multiset(g);
    SortPositions(nodes, g, true)
  }

  /** `indexOf`: the first place `x` occurs. */
  function IndexOf(ps: seq<nat>, x: nat): (r: nat)
    requires x in ps
    ensures r < |ps| && ps[r] == x && forall k :: 0 <= k < r ==> ps[k] != x
  {
    if ps[0] == x then 0 else 1 + IndexOf(ps[1..], x)
  }

  /** The re-computed rank of the node at `i`: its place in the sorted sibling list. */
  function NewRank(nodes: seq<DashNode>, i: nat): (r: nat)
    requires i < |nodes|
    ensures r < |Siblings(nodes, i)|
  {
    IndexOf(SiblingOrder(nodes, i), i)
  }

  /** `recalculateRanks(nodes)`: every node in place, with `data.rank` replaced by its place among its siblings. */
  function RecalculateRanks(nodes: seq<DashNode>): (r: seq<DashNode>)
    ensures |r| == |nodes|
    ensures forall i :: 0 <= i < |nodes| ==>
      && r[i].id == nodes[i].id && r[i].parent == nodes[i].parent && r[i].content == nodes[i].content
      && r[i].rank == Some(NewRank(nodes, i) as real)
  {
    seq(|nodes|, i requires 0 <= i < |nodes| => nodes[i].(rank := Some(NewRank(nodes, i) as real)))
  }

  /** Two nodes with the same parent share one sorted sibling list. */
  lemma SameParentSameOrder(nodes: seq<DashNode>, i: nat, j: nat)
    requires i < |nodes| && j < |nodes| && nodes[i].parent == nodes[j].parent
    ensures SiblingOrder(nodes, i) == SiblingOrder(nodes, j)
  {
  }

  /** A new rank is below the size of the node's sibling group. */
  lemma RecalculatedRankInGroup(nodes: seq<DashNode>, i: nat)
    requires i < |nodes|
    ensures var r := RecalculateRanks(nodes);
      r[i].rank.Some? && 0.0 <= r[i].rank.value < |Siblings(nodes, i)| as real
  {
  }

  /** No two siblings get the same new rank. */
  lemma RecalculatedRanksDistinct(nodes: seq<DashNode>, i: nat, j: nat)
    requires i < |nodes| && j < |nodes| && i != j && nodes[i].parent == nodes[j].parent
    ensures var r := RecalculateRanks(nodes); r[i].rank != r[j].rank
  {
    SameParentSameOrder(nodes, i, j);
    var s := SiblingOrder(nodes, i);
    assert s[NewRank(nodes, i)] == i;
    assert s[NewRank(nodes, j)] == j;
    assert NewRank(nodes, i) != NewRank(nodes, j);
    var r := RecalculateRanks(nodes);
    assert r[i].rank == Some(NewRank(nodes, i) as real);
    assert r[j].rank == Some(NewRank(nodes, j) as real);
  }

  /** Every value below the size `k` of a sibling group is some sibling's new rank, so the group's ranks are `0, ..., k - 1`. */
  lemma RecalculatedRanksCoverGroup(nodes: seq<DashNode>, i: nat, k: nat)
    requires i < |nodes| && k < |Siblings(nodes, i)|
    ensures var r := RecalculateRanks(nodes);
      exists m :: 0 <= m < |nodes| && nodes[m].parent == nodes[i].parent && r[m].rank == Some(k as real)
  {
    var s := SiblingOrder(nodes, i);
    var m := s[k];
    assert m in multiset(Siblings(nodes, i));
    assert m < |nodes| && nodes[m].parent == nodes[i].parent;
    SameParentSameOrder(nodes, i, m);
    forall a | 0 <= a < k ensures s[a] != m {
      PrecedesIsStrictTotal(nodes, s[a], s[a], s[a], true);
    }
    assert NewRank(nodes, m) == k;
  }

  /**
   * Among siblings, a lower new rank means an earlier place in the order by
   * old rank (missing as 0), then id, then position, and conversely.
   */
  lemma RecalculatedRanksFollowOrder(nodes: seq<DashNode>, i: nat, j: nat)
    requires i < |nodes| && j < |nodes| && nodes[i].parent == nodes[j].parent
    ensures NewRank(nodes, i) < NewRank(nodes, j) <==> Precedes(nodes, i, j, true)
  {
    SameParentSameOrder(nodes, i, j);
    SortedPlaceOrder(nodes, SiblingOrder(nodes, i), true, i, j);
  }

  /** In a strictly sorted list, one position comes before another exactly when it precedes it. */
  lemma SortedPlaceOrder(nodes: seq<DashNode>, s: seq<nat>, byId: bool, i: nat, j: nat)
    requires InBounds(nodes, s) && StrictlySorted(nodes, s, byId) && i in s && j in s
    ensures i < |nodes| && j < |nodes|
    ensures IndexOf(s, i) < IndexOf(s, j) <==> Precedes(nodes, i, j, byId)
  {
    var p, q := IndexOf(s, i), IndexOf(s, j);
    PrecedesIsStrictTotal(nodes, i, j, i, byId);
    if q < p {
      assert Precedes(nodes, s[q], s[p], byId);
    }
  }

  /**
   * No cycle is reachable inside `reach`: a set of ids closed under taking
   * children, with a level that strictly drops from a parent id in it to each
   * of its children. Nodes whose parent lies outside `reach` are unconstrained,
   * so the smallest such set is the ids the walk from a start id can visit.
   */
  ghost predicate Leveled(nodes: seq<DashNode>, reach: set<string>, level: string -> nat) {
    forall n :: n in nodes && n.parent.Some? && n.parent.value in reach ==>
      n.id in reach && level(n.id) < level(n.parent.value)
  }

  /** The start of a walk: `null`, or an id inside `reach`. */
  ghost predicate Starts(parentId: Option<string>, reach: set<string>) {
    parentId.Some? ==> parentId.value in reach
  }

  /** The children of a parent id; `null` matches no node. */
  function ChildrenOf(nodes: seq<DashNode>, parentId: Option<string>): (r: seq<DashNode>)
    ensures forall n :: n in r <==> n in nodes && parentId.Some? && n.parent == parentId
  {
    if parentId.None? then [] else Children(nodes, parentId.value)
  }

  /**
   * `traverseHierarchy(nodes, parentId, processor)`: the processor's output
   * for the children of `parentId`, followed by the traversal below each
   * child in order. It runs forever when a cycle is reachable from
   * `parentId`, so the absence of one is required; `reach` and the level are
   * its witness and play no part in the result.
   */
  function Traverse<T>(nodes: seq<DashNode>, parentId: Option<string>,
                       processor: (seq<DashNode>, Option<string>) -> seq<T>, ghost reach: set<string>, ghost level: string -> nat): (r: seq<T>)
    requires Leveled(nodes, reach, level) && Starts(parentId, reach)
    ensures var here := processor(ChildrenOf(nodes, parentId), parentId); |here| <= |r| && r[..|here|] == here
    decreases if parentId.Some? then level(parentId.value) else 0, 1
  {
    var children := ChildrenOf(nodes, parentId);
    var here := processor(children, parentId);
    var below := TraverseEach(nodes, children, processor, reach, level, if parentId.Some? then level(parentId.value) else 0);
    assert (here + below)[..|here|] == here;
    here + below
  }

  /** `children.flatMap(node => traverseHierarchy(nodes, node.id, processor))`. */
  function TraverseEach<T>(nodes: seq<DashNode>, children: seq<DashNode>,
                           processor: (seq<DashNode>, Option<string>) -> seq<T>,
                           ghost reach: set<string>, ghost level: string -> nat, ghost bound: nat): (r: seq<T>)
    requires Leveled(nodes, reach, level)
    requires forall c :: c in children ==> c.id in reach && level(c.id) < bound
    decreases bound, 0, |children|
  {
    if children == [] then []
    else Traverse(nodes, Some(children[0].id), processor, reach, level) + TraverseEach(nodes, children[1..], processor, reach, level, bound)
  }

  /** `sortNodesByRank` as a traversal processor (it ignores the parent id). */
  function SortLevel(nodes: seq<DashNode>, parentId: Option<string>): (r: seq<DashNode>)
    ensures multiset(r) == multiset(nodes)
  {
    SortNodesByRank(nodes)
  }

  /**
   * `createHierarchyEdges(nodes, parentId)`: nothing for a `null` parent,
   * otherwise one edge `parentId-nodeId` from the parent to each node, in order.
   */
  function CreateHierarchyEdges(nodes: seq<DashNode>, parentId: Option<string>): (r: seq<HierarchyEdge>)
    ensures parentId.None? ==> r == []
    ensures parentId.Some? ==> |r| == |nodes| && forall k :: 0 <= k < |nodes| ==>
      r[k] == HierarchyEdge(parentId.value + "-" + nodes[k].id, parentId.value, nodes[k].id, "default")
  {
    if parentId.None? || nodes == [] then []
    else
      [HierarchyEdge(parentId.value + "-" + nodes[0].id, parentId.value, nodes[0].id, "default")]
        + CreateHierarchyEdges(nodes[1..], parentId)
  }

  /** Every node a rank-sorting traversal yields is a node of the input that has a parent. */
  lemma {:induction false} TraverseYieldsChildren(nodes: seq<DashNode>, parentId: Option<string>, reach: set<string>, level: string -> nat)
    requires Leveled(nodes, reach, level) && Starts(parentId, reach)
    ensures forall n :: n in Traverse(nodes, parentId, SortLevel, reach, level) ==> n in nodes && n.parent.Some?
    decreases if parentId.Some? then level(parentId.value) else 0, 1
  {
    var children := ChildrenOf(nodes, parentId);
    var here := SortLevel(children, parentId);
    forall n | n in here ensures n in nodes && n.parent.Some? {
      assert n in multiset(children);
    }
    TraverseEachYieldsChildren(nodes, children, reach, level, if parentId.Some? then level(parentId.value) else 0);
  }

  lemma {:induction false} TraverseEachYieldsChildren(nodes: seq<DashNode>, children: seq<DashNode>,
                                                     reach: set<string>, level: string -> nat, bound: nat)
    requires Leveled(nodes, reach, level)
    requires forall c :: c in children ==> c.id in reach && level(c.id) < bound
    ensures forall n :: n in TraverseEach(nodes, children, SortLevel, reach, level, bound) ==> n in nodes && n.parent.Some?
    decreases bound, 0, |children|
  {
    if children != [] {
      TraverseYieldsChildren(nodes, Some(children[0].id), reach, level);
      TraverseEachYieldsChildren(nodes, children[1..], reach, level, bound);
    }
  }

  /** An edge from a node's parent id to that node. */
  ghost predicate EdgeToChild(nodes: seq<DashNode>, e: HierarchyEdge) {
    && e.id == e.source + "-" + e.target
    && exists n :: n in nodes && n.id == e.target && n.parent == Some(e.source)
  }

  /** Every edge an edge-building traversal yields joins a node of the input to its parent. */
  lemma {:induction false} TraverseEdgesJoinParents(nodes: seq<DashNode>, parentId: Option<string>, reach: set<string>, level: string -> nat)
    requires Leveled(nodes, reach, level) && Starts(parentId, reach)
    ensures forall e :: e in Traverse(nodes, parentId, CreateHierarchyEdges, reach, level) ==> EdgeToChild(nodes, e)
    decreases if parentId.Some? then level(parentId.value) else 0, 1
  {
    var children := ChildrenOf(nodes, parentId);
    var here := CreateHierarchyEdges(children, parentId);
    forall e | e in here ensures EdgeToChild(nodes, e) {
      var k :| 0 <= k < |here| && here[k] == e;
      assert children[k] in children;
    }
    TraverseEachEdgesJoinParents(nodes, children, reach, level, if parentId.Some? then level(parentId.value) else 0);
  }

  lemma {:induction false} TraverseEachEdgesJoinParents(nodes: seq<DashNode>, children: seq<DashNode>,
                                                       reach: set<string>, level: string -> nat, bound: nat)
    requires Leveled(nodes, reach, level)
    requires forall c :: c in children ==> c.id in reach && level(c.id) < bound
    ensures forall e :: e in TraverseEach(nodes, children, CreateHierarchyEdges, reach, level, bound) ==> EdgeToChild(nodes, e)
    decreases bound, 0, |children|
  {
    if children != [] {
      TraverseEdgesJoinParents(nodes, Some(children[0].id), reach, level);
      TraverseEachEdgesJoinParents(nodes, children[1..], reach, level, bound);
    }
  }

  /** `nodes.find(node => node.id === id)`. */
  function FindNode(nodes: seq<DashNode>, id: string): (r: Option<DashNode>)
    ensures r.Some? ==> r.value in nodes && r.value.id == id
    ensures r.None? ==> forall n :: n in nodes ==> n.id != id
  {
    if nodes == [] then None
    else if nodes[0].id == id then Some(nodes[0])
    else FindNode(nodes[1..], id)
  }

  datatype Hierarchy = Hierarchy(sortedNodes: seq<DashNode>, hierarchyEdges: seq<HierarchyEdge>)

  /**
   * `prepareHierarchicalElements(nodes)`: nothing without a `root` node;
   * otherwise the root followed by the rank-sorting traversal below it, and
   * the parent-to-child edges of that list. The contract states that the list
   * starts with the root and holds only input nodes that have a parent after
   * it, and that every edge joins a listed node to its parent; which
   * descendants appear and their order within a level are given by `Traverse`
   * and `SortLevel`.
   */
  function PrepareHierarchicalElements(nodes: seq<DashNode>, ghost reach: set<string>, ghost level: string -> nat)
    : (r: Hierarchy)
    requires Leveled(nodes, reach, level) && "root" in reach
    ensures FindNode(nodes, "root").None? ==> r.sortedNodes == [] && r.hierarchyEdges == []
    ensures FindNode(nodes, "root").Some? ==>
      && |r.sortedNodes| > 0 && r.sortedNodes[0] == FindNode(nodes, "root").value
      && (forall n :: n in r.sortedNodes ==> n in nodes)
      && (forall n :: n in r.sortedNodes[1..] ==> n.parent.Some?)
      && (forall e :: e in r.hierarchyEdges ==> EdgeToChild(r.sortedNodes, e))
  {
    match FindNode(nodes, "root")
    case None => Hierarchy([], [])
    case Some(root) =>
      var nodeResults := Traverse(nodes, Some("root"), SortLevel, reach, level);
      TraverseYieldsChildren(nodes, Some("root"), reach, level);
      var sortedNodes := [root] + nodeResults;
      assert sortedNodes[1..] == nodeResults;
      assert Leveled(sortedNodes, reach, level);
      var edgeResults := Traverse(sortedNodes, Some("root"), CreateHierarchyEdges, reach, level);
      TraverseEdgesJoinParents(sortedNodes, Some("root"), reach, level);
      Hierarchy(sortedNodes, edgeResults)
  }

  /** A parent cycle the walk from `root` never enters does not stop the hierarchy from being built. */
  lemma UnreachableCycleTolerated()
    ensures var root := DashNode("root", None, None, "");
      var nodes := [root, DashNode("a", Some("b"), None, ""), DashNode("b", Some("a"), None, "")];
      && Leveled(nodes, {"root"}, _ => 0)
      && PrepareHierarchicalElements(nodes, {"root"}, _ => 0) == Hierarchy([root], [])
  {
    var root := DashNode("root", None, None, "");
    var nodes := [root, DashNode("a", Some("b"), None, ""), DashNode("b", Some("a"), None, "")];
    assert ChildrenOf(nodes, Some("root")) == [];
    assert ChildrenOf([root], Some("root")) == [];
  }
}
