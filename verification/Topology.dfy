/** Compiling a participant list into the key plan, step by step as the server does. */
module Topology {
  import opened Names
  import opened PlanProperties
  import opened PlanShape
  import opened PlanTree
  import opened Sequences
  import opened Shuffling
  import opened Wrappers

  /** A node of the reduction tree; target and task id are filled in after the tree stands. */
  class TreeNode {
    const operator: ClientId
    const group: Option<nat>
    const children: seq<TreeNode>
    const level: int
    const index: nat
    const action: Action
    var target: Option<ClientId>
    var taskId: Option<TaskKey>

    constructor Leaf(group: nat, operator: ClientId)
      ensures this.operator == operator && this.group == Some(group) && children == []
      ensures level == -1 && index == group
    {
      this.operator, this.group, children := operator, Some(group), [];
      level, index, action := -1, group, GroupUnblind;
      target, taskId := None, None;
    }

    constructor Inner(children: seq<TreeNode>, level: nat, index: nat)
      requires 1 <= |children| <= 2
      ensures operator == children[0].operator && group == None && this.children == children
      ensures this.level == level && this.index == index
      ensures action == if |children| == 2 then TreeCombine else TreeCarry
    {
      operator, group, this.children := children[0].operator, None, children;
      this.level, this.index := level, index;
      action := if |children| == 2 then TreeCombine else TreeCarry;
      target, taskId := None, None;
    }
  }

  type Layers = seq<seq<TreeNode>>

  ghost predicate LeafNode(groups: Groups, i: nat, node: TreeNode)
    requires WellGrouped(groups)
  {
    && i < |groups|
    && node.level == -1 && node.index == i && node.group == Some(i)
    && node.operator == groups[i][0] && node.children == []
  }

  /** node reduces the children at 2i and 2i + 1 of the level below it. */
  ghost predicate ReductionNode(groups: Groups, below: seq<TreeNode>, level: nat, i: nat, node: TreeNode)
    requires WellGrouped(groups) && |below| == Width(|groups|, level)
  {
    && i < Width(|groups|, level + 1)
    && node.level == level && node.index == i && node.group == None
    && node.operator == Operator(groups, level + 1, i)
    && node.children == ChildNodes(below, i)
    && node.action == ActionOf(groups, Tree(level, i))
  }

  /** The object at height h and index i is the node of that place. */
  ghost predicate NodeInPlace(groups: Groups, layers: Layers, h: nat, i: nat)
    requires WellGrouped(groups) && h < |layers| && i < |layers[h]|
    requires h > 0 ==> |layers[h - 1]| == Width(|groups|, h - 1)
  {
    if h == 0 then LeafNode(groups, i, layers[0][i])
    else ReductionNode(groups, layers[h - 1], h - 1, i, layers[h][i])
  }

  function ChildNodes(below: seq<TreeNode>, i: nat): seq<TreeNode>
    requires 2 * i < |below|
  {
    [below[2 * i]] + if 2 * i + 1 < |below| then [below[2 * i + 1]] else []
  }

  /** layers[h] holds the nodes at height h. */
  ghost predicate Forest(groups: Groups, layers: Layers) {
    && WellGrouped(groups) && layers != []
    && (forall h | 0 <= h < |layers| :: |layers[h]| == Width(|groups|, h))
    && forall h, i | 0 <= h < |layers| && 0 <= i < |layers[h]| :: NodeInPlace(groups, layers, h, i)
  }

  ghost function Nodes(layers: Layers): set<TreeNode> {
    set h, i | 0 <= h < |layers| && 0 <= i < |layers[h]| :: layers[h][i]
  }

  /** The index of the ancestor n heights up. */
  function Up(i: nat, n: nat): nat {
    if n == 0 then i else Up(i, n - 1) / 2
  }

  lemma {:induction false} UpInRange(g: nat, h: nat, i: nat, n: nat)
    requires i < Width(g, h)
    ensures Up(i, n) < Width(g, h + n)
  {
    if n > 0 {
      UpInRange(g, h, i, n - 1);
    }
  }

  lemma NodesApart(groups: Groups, layers: Layers, h: nat, i: nat)
    requires Forest(groups, layers) && h < |layers| && i < |layers[h]|
    ensures forall k, j | 0 <= k < |layers| && 0 <= j < |layers[k]| && (k != h || j != i) :: layers[k][j] != layers[h][i]
  {
    forall k, j | 0 <= k < |layers| && 0 <= j < |layers[k]| && (k != h || j != i) ensures layers[k][j] != layers[h][i] {
      assert NodeInPlace(groups, layers, k, j) && NodeInPlace(groups, layers, h, i);
    }
  }

  /** The target of place (k, j) once node (h, i) and its first c subtrees are assigned. */
  ghost function Assigned(groups: Groups, h: nat, i: nat, c: nat, target: ClientId,
                          k: nat, j: nat, before: Option<ClientId>): Option<ClientId>
    requires WellGrouped(groups) && j < Width(|groups|, k)
  {
    if k == h && j == i then Some(target)
    else if k < h && 2 * i <= Up(j, h - 1 - k) < 2 * i + c then (
      UpInRange(|groups|, k, j, 1);
      Some(Operator(groups, k + 1, j / 2)))
    else before
  }

  lemma AssignedStep(groups: Groups, h: nat, i: nat, c: nat, target: ClientId,
                     k: nat, j: nat, before: Option<ClientId>)
    requires WellGrouped(groups) && j < Width(|groups|, k) && i < Width(|groups|, h)
    requires 0 < h && c < 2 && 2 * i + c < Width(|groups|, h - 1)
    ensures Assigned(groups, h - 1, 2 * i + c, 2, Operator(groups, h, i), k, j,
                     Assigned(groups, h, i, c, target, k, j, before))
      == Assigned(groups, h, i, c + 1, target, k, j, before)
  {
    hide Width, Operator;
    if k < h - 1 {
      assert Up(j, h - 1 - k) == Up(j, h - 2 - k) / 2;
    }
  }

  /** A node without a second child, or a leaf, has nothing more to assign. */
  lemma AssignedDone(groups: Groups, h: nat, i: nat, c: nat, target: ClientId,
                     k: nat, j: nat, before: Option<ClientId>)
    requires WellGrouped(groups) && j < Width(|groups|, k) && i < Width(|groups|, h)
    requires c == 2 || (h == 0 && c == 0) || (h > 0 && c == 1 && Width(|groups|, h - 1) == 2 * i + 1)
    ensures Assigned(groups, h, i, c, target, k, j, before) == Assigned(groups, h, i, 2, target, k, j, before)
  {
    if k < h {
      UpInRange(|groups|, k, j, h - 1 - k);
    }
  }

  /** Gives node (h, i) its target and every node below it the operator of its parent. */
  method AssignTargets(node: TreeNode, target: ClientId,
                       ghost groups: Groups, ghost layers: Layers, ghost h: nat, ghost i: nat)
    requires Forest(groups, layers) && h < |layers| && i < |layers[h]| && node == layers[h][i]
    modifies Nodes(layers)`target
    ensures forall k, j | 0 <= k < |layers| && 0 <= j < |layers[k]| ::
      layers[k][j].target == Assigned(groups, h, i, 2, target, k, j, old(layers[k][j].target))
    decreases h
  {
    assert NodeInPlace(groups, layers, h, i);
    NodesApart(groups, layers, h, i);
    node.target := Some(target);
    var c := 0;
    while c < |node.children|
      invariant 0 <= c <= |node.children|
      invariant forall k, j | 0 <= k < |layers| && 0 <= j < |layers[k]| ::
        layers[k][j].target == Assigned(groups, h, i, c, target, k, j, old(layers[k][j].target))
    {
      AssignTargets(node.children[c], node.operator, groups, layers, h - 1, 2 * i + c);
      hide Assigned, Width, Operator;
      forall k, j | 0 <= k < |layers| && 0 <= j < |layers[k]|
        ensures layers[k][j].target == Assigned(groups, h, i, c + 1, target, k, j, old(layers[k][j].target))
      {
        AssignedStep(groups, h, i, c, target, k, j, old(layers[k][j].target));
      }
      c := c + 1;
    }
    forall k, j | 0 <= k < |layers| && 0 <= j < |layers[k]|
      ensures layers[k][j].target == Assigned(groups, h, i, 2, target, k, j, old(layers[k][j].target))
    {
      AssignedDone(groups, h, i, c, target, k, j, old(layers[k][j].target));
    }
  }

  lemma ForestGrows(groups: Groups, layers: Layers, following: seq<TreeNode>)
    requires Forest(groups, layers) && |following| == Width(|groups|, |layers|)
    requires forall i | 0 <= i < |following| ::
      ReductionNode(groups, layers[|layers| - 1], |layers| - 1, i, following[i])
    ensures Forest(groups, layers + [following])
  {
    hide ReductionNode, LeafNode, Width, WellGrouped, NodeInPlace;
    var grown := layers + [following];
    assert forall h | 0 <= h < |layers| :: grown[h] == layers[h];
    forall h, i | 0 <= h < |grown| && 0 <= i < |grown[h]| ensures NodeInPlace(groups, grown, h, i) {
      if h < |layers| {
        OldPlace(groups, layers, grown, h, i);
      } else {
        NewPlace(groups, grown, h, i);
      }
    }
  }

  lemma OldPlace(groups: Groups, layers: Layers, grown: Layers, h: nat, i: nat)
    requires Forest(groups, layers) && h < |layers| <= |grown| && i < |layers[h]|
    requires forall k | 0 <= k < |layers| :: grown[k] == layers[k]
    ensures (h > 0 ==> |grown[h - 1]| == Width(|groups|, h - 1)) && NodeInPlace(groups, grown, h, i)
  {
    hide ReductionNode, LeafNode, Width, WellGrouped;
    assert NodeInPlace(groups, layers, h, i);
    assert h > 0 ==> grown[h - 1] == layers[h - 1];
  }

  lemma NewPlace(groups: Groups, grown: Layers, h: nat, i: nat)
    requires WellGrouped(groups) && 0 < h < |grown| && i < |grown[h]| && |grown[h - 1]| == Width(|groups|, h - 1)
    requires ReductionNode(groups, grown[h - 1], h - 1, i, grown[h][i])
    ensures NodeInPlace(groups, grown, h, i)
  {
  }

  /** The node reducing the one or two nodes of its level that start at 2i. */
  method ReducePair(groups: Groups, active: seq<TreeNode>, level: nat, i: nat, ghost layers: Layers)
    returns (node: TreeNode)
    requires Forest(groups, layers) && |layers| == level + 1 && active == layers[level] && 2 * i < |active|
    ensures fresh(node) && ReductionNode(groups, active, level, i, node)
  {
    var children := if 2 * i + 2 <= |active| then active[2 * i..2 * i + 2] else active[2 * i..];
    assert children == ChildNodes(active, i);
    assert NodeInPlace(groups, layers, level, 2 * i);
    assert Operator(groups, level + 1, i) == Operator(groups, level, 2 * i);
    node := new TreeNode.Inner(children, level, i);
  }

  /** Pairs up the nodes of one level, a left-over node standing alone. */
  method BuildLevel(groups: Groups, active: seq<TreeNode>, level: nat, ghost layers: Layers)
    returns (following: seq<TreeNode>)
    requires Forest(groups, layers) && |layers| == level + 1 && active == layers[level] && 1 < |active|
    ensures |following| == Width(|groups|, level + 1) < |active|
    ensures Forest(groups, layers + [following])
    ensures forall n | n in following :: fresh(n)
  {
    hide ReductionNode;
    following := [];
    var index := 0;
    while index < |active|
      invariant index == 2 * |following| && index <= |active| + 1
      invariant forall i | 0 <= i < |following| :: fresh(following[i])
      invariant forall i | 0 <= i < |following| :: ReductionNode(groups, active, level, i, following[i])
    {
      var node := ReducePair(groups, active, level, index / 2, layers);
      following := following + [node];
      index := index + 2;
    }
    ForestGrows(groups, layers, following);
  }

  /** treeNodes lists the reduction nodes level by level. */
  ghost predicate LevelByLevel(g: nat, layers: Layers, treeNodes: seq<TreeNode>) {
    && layers != [] && |treeNodes| == LevelOffset(g, |layers| - 1)
    && forall h, i | 1 <= h < |layers| && 0 <= i < |layers[h]| :: ListedAt(g, treeNodes, h - 1, i, layers[h][i])
  }

  ghost predicate ListedAt(g: nat, treeNodes: seq<TreeNode>, level: nat, i: nat, node: TreeNode) {
    LevelOffset(g, level) + i < |treeNodes| && treeNodes[LevelOffset(g, level) + i] == node
  }

  lemma ListGrows(g: nat, layers: Layers, treeNodes: seq<TreeNode>, following: seq<TreeNode>)
    requires LevelByLevel(g, layers, treeNodes) && |following| == Width(g, |layers|)
    ensures LevelByLevel(g, layers + [following], treeNodes + following)
  {
    hide Width;
    var grown, list := layers + [following], treeNodes + following;
    forall h, i | 1 <= h < |grown| && 0 <= i < |grown[h]| ensures ListedAt(g, list, h - 1, i, grown[h][i]) {
      if h < |layers| {
        assert ListedAt(g, treeNodes, h - 1, i, layers[h][i]);
      }
    }
  }

  method BuildLeaves(groups: Groups) returns (leaves: seq<TreeNode>)
    requires WellGrouped(groups)
    ensures Forest(groups, [leaves])
    ensures forall n | n in leaves :: fresh(n)
  {
    leaves := [];
    var group := 0;
    while group < |groups|
      invariant group == |leaves| <= |groups|
      invariant forall j | 0 <= j < |leaves| :: fresh(leaves[j])
      invariant forall j | 0 <= j < |leaves| :: LeafNode(groups, j, leaves[j])
    {
      var leaf := new TreeNode.Leaf(group, groups[group][0]);
      leaves := leaves + [leaf];
      group := group + 1;
    }
  }

  /** The halving loop: levels are built until one node is left. */
  method BuildTree(groups: Groups) returns (root: TreeNode, treeNodes: seq<TreeNode>, ghost layers: Layers)
    requires WellGrouped(groups)
    ensures Forest(groups, layers) && |layers| == Height(|groups|) + 1 && layers[Height(|groups|)] == [root]
    ensures LevelByLevel(|groups|, layers, treeNodes)
    ensures forall h | 0 <= h < |layers| :: forall n | n in layers[h] :: fresh(n)
  {
    var active := BuildLeaves(groups);
    var level := 0;
    layers, treeNodes := [active], [];
    HeightIsLeastPower(|groups|);
    hide Height;
    while |active| > 1
      invariant Forest(groups, layers) && |layers| == level + 1 && active == layers[level]
      invariant level <= Height(|groups|)
      invariant forall h | 0 <= h < |layers| :: forall n | n in layers[h] :: fresh(n)
      invariant LevelByLevel(|groups|, layers, treeNodes)
      decreases |active|
    {
      var following := BuildLevel(groups, active, level, layers);
      ListGrows(|groups|, layers, treeNodes, following);
      treeNodes, layers := treeNodes + following, layers + [following];
      active, level := following, level + 1;
    }
    root := active[0];
  }

  /** A node followed by everything below it, in depth-first order. */
  function WalkNodes(node: TreeNode, ghost groups: Groups, ghost layers: Layers, ghost h: nat, ghost i: nat): seq<TreeNode>
    requires Forest(groups, layers) && h < |layers| && i < |layers[h]| && node == layers[h][i]
    decreases h
  {
    assert NodeInPlace(groups, layers, h, i);
    [node]
    + (if |node.children| >= 1 then WalkNodes(node.children[0], groups, layers, h - 1, 2 * i) else [])
    + (if |node.children| >= 2 then WalkNodes(node.children[1], groups, layers, h - 1, 2 * i + 1) else [])
  }

  lemma WalkEntersChild(groups: Groups, layers: Layers, h: nat, i: nat, c: nat, n: TreeNode)
    requires Forest(groups, layers) && 0 < h < |layers| && i < |layers[h]|
    requires c < |layers[h - 1]| && (c == 2 * i || c == 2 * i + 1)
    requires n in WalkNodes(layers[h - 1][c], groups, layers, h - 1, c)
    ensures n in WalkNodes(layers[h][i], groups, layers, h, i)
  {
    assert NodeInPlace(groups, layers, h, i);
    hide Width, Operator, ActionOf;
    assert layers[h][i].children[c - 2 * i] == layers[h - 1][c];
  }

  /** The walk meets every node at or below its start. */
  lemma {:induction false} WalkMeets(groups: Groups, layers: Layers, h: nat, i: nat, k: nat, j: nat)
    requires Forest(groups, layers) && h < |layers| && i < |layers[h]| && k <= h && j < |layers[k]| && Up(j, h - k) == i
    ensures layers[k][j] in WalkNodes(layers[h][i], groups, layers, h, i)
    decreases h
  {
    hide NodeInPlace, WellGrouped;
    if k < h {
      var c := Up(j, h - 1 - k);
      UpInRange(|groups|, k, j, h - 1 - k);
      WalkMeets(groups, layers, h - 1, c, k, j);
      WalkEntersChild(groups, layers, h, i, c, layers[k][j]);
    }
  }

  lemma WalkSplits(groups: Groups, layers: Layers, h: nat, i: nat, n: TreeNode) returns (c: nat)
    requires Forest(groups, layers) && h < |layers| && i < |layers[h]|
    requires n in WalkNodes(layers[h][i], groups, layers, h, i) && n != layers[h][i]
    ensures 0 < h && c < |layers[h - 1]| && n in WalkNodes(layers[h - 1][c], groups, layers, h - 1, c)
  {
    assert NodeInPlace(groups, layers, h, i);
    hide Operator, ActionOf, WellGrouped, LeafNode;
    var node := layers[h][i];
    c := if |node.children| >= 2 && n in WalkNodes(node.children[1], groups, layers, h - 1, 2 * i + 1)
      then 2 * i + 1 else 2 * i;
  }

  /** The walk meets only nodes of the forest. */
  lemma {:induction false} WalkStays(groups: Groups, layers: Layers, h: nat, i: nat, n: TreeNode)
    requires Forest(groups, layers) && h < |layers| && i < |layers[h]|
    requires n in WalkNodes(layers[h][i], groups, layers, h, i)
    ensures n in Nodes(layers)
    decreases h
  {
    hide WalkNodes, NodeInPlace, Width;
    if n != layers[h][i] {
      var c := WalkSplits(groups, layers, h, i, n);
      WalkStays(groups, layers, h - 1, c, n);
    }
  }

  lemma OnlyLeafOfGroup(groups: Groups, layers: Layers, n: TreeNode, group: nat)
    requires Forest(groups, layers) && n in Nodes(layers) && n.group == Some(group)
    ensures group < |layers[0]| && n == layers[0][group]
  {
    var h, i :| 0 <= h < |layers| && 0 <= i < |layers[h]| && layers[h][i] == n;
    assert NodeInPlace(groups, layers, h, i);
  }

  /** The first node of the walk from the root that stands for the group. */
  method FindLeaf(root: TreeNode, group: nat, ghost groups: Groups, ghost layers: Layers) returns (leaf: TreeNode)
    requires Forest(groups, layers) && layers[|layers| - 1] == [root] && group < |groups|
    ensures leaf == layers[0][group]
  {
    ghost var top := |layers| - 1;
    var walk := WalkNodes(root, groups, layers, top, 0);
    assert layers[0][group] in walk by {
      UpInRange(|groups|, 0, group, top);
      WalkMeets(groups, layers, top, 0, 0, group);
    }
    assert NodeInPlace(groups, layers, 0, group);
    var n := 0;
    while walk[n].group != Some(group)
      invariant 0 <= n < |walk|
      invariant layers[0][group] !in walk[..n]
      decreases |walk| - n
    {
      n := n + 1;
    }
    WalkStays(groups, layers, top, 0, walk[n]);
    OnlyLeafOfGroup(groups, layers, walk[n], group);
    return walk[n];
  }

  // ---- Emitting the tasks

  /** Every node has its target, and nodes already emitted have their task id. */
  ghost predicate Targeted(groups: Groups, layers: Layers)
    requires Forest(groups, layers) && |layers| == Height(|groups|) + 1
    reads Nodes(layers)
  {
    forall h, i | 0 <= h < |layers| && 0 <= i < |layers[h]| ::
      layers[h][i].target == Some(Target(groups, h, i))
  }

  lemma AddRecord(groups: Groups, j: nat, p: nat)
    requires WellGrouped(groups) && j < |groups| && 1 <= p < |groups[j]|
    ensures TaskOf(groups, Add(j, p)) == Task(Add(j, p), GroupAdd, GroupStage, 0, groups[j][p],
      if p + 1 < |groups[j]| then groups[j][p + 1] else groups[j][0],
      [if p == 1 then Start(j) else Add(j, p - 1)])
  {
  }

  lemma StartRecord(groups: Groups, j: nat)
    requires WellGrouped(groups) && j < |groups|
    ensures TaskOf(groups, Start(j)) == Task(Start(j), GroupStart, GroupStage, 0, groups[j][0], groups[j][1], [])
  {
  }

  lemma UnblindRecord(groups: Groups, j: nat)
    requires WellGrouped(groups) && j < |groups|
    ensures TaskOf(groups, Unblind(j)) ==
      Task(Unblind(j), GroupUnblind, GroupStage, 0, groups[j][0], Target(groups, 0, j), [Add(j, |groups[j]| - 1)])
  {
  }

  method EmitGroup(groups: Groups, j: nat, leaf: TreeNode) returns (tasks: seq<Task>)
    requires WellGrouped(groups) && j < |groups| && leaf.target == Some(Target(groups, 0, j))
    modifies leaf`taskId
    ensures tasks == GroupTasks(groups, j)
    ensures leaf.taskId == Some(Unblind(j))
  {
    hide TaskOf, GroupTasks, Target;
    var members := groups[j];
    var previous := Start(j);
    tasks := [Task(previous, GroupStart, GroupStage, 0, members[0], members[1], [])];
    StartRecord(groups, j);
    var position := 1;
    while position < |members|
      invariant 1 <= position <= |members|
      invariant previous == if position == 1 then Start(j) else Add(j, position - 1)
      invariant tasks == GroupTasks(groups, j)[..position]
    {
      var receiver := if position + 1 < |members| then members[position + 1] else members[0];
      AddRecord(groups, j, position);
      tasks := tasks + [Task(Add(j, position), GroupAdd, GroupStage, 0, members[position], receiver, [previous])];
      previous := Add(j, position);
      position := position + 1;
    }
    UnblindRecord(groups, j);
    tasks := tasks + [Task(Unblind(j), GroupUnblind, GroupStage, 0, members[0], leaf.target.value, [previous])];
    leaf.taskId := Some(Unblind(j));
  }

  lemma TreeRecord(groups: Groups, level: nat, i: nat)
    requires WellGrouped(groups) && level < Height(|groups|) && i < Width(|groups|, level + 1)
    ensures TaskOf(groups, Tree(level, i)) ==
      Task(Tree(level, i), ActionOf(groups, Tree(level, i)), TreeStage, level, Operator(groups, level + 1, i),
           Target(groups, level + 1, i), Dependencies(groups, Tree(level, i)))
    ensures 2 * i < Width(|groups|, level)
    ensures Dependencies(groups, Tree(level, i)) ==
      if 2 * i + 1 < Width(|groups|, level) then [NodeKey(level, 2 * i), NodeKey(level, 2 * i + 1)]
      else [NodeKey(level, 2 * i)]
  {
  }

  /** The task of one reduction node, from the node's own record and its children's task ids. */
  method EmitNode(groups: Groups, level: nat, i: nat, node: TreeNode, ghost below: seq<TreeNode>) returns (task: Task)
    requires WellGrouped(groups) && level < Height(|groups|) && i < Width(|groups|, level + 1)
    requires |below| == Width(|groups|, level) && ReductionNode(groups, below, level, i, node)
    requires node.target == Some(Target(groups, level + 1, i))
    requires forall k | 0 <= k < |below| :: below[k].taskId == Some(NodeKey(level, k))
    modifies node`taskId
    ensures task == TaskOf(groups, Tree(level, i))
    ensures node.taskId == Some(Tree(level, i))
  {
    TreeRecord(groups, level, i);
    hide TaskOf, Dependencies, Target, Operator, Height, Width;
    var taskId := Tree(node.level, node.index);
    assert node.children[0] == below[2 * i];
    var dependencies := [node.children[0].taskId.value];
    if |node.children| == 2 {
      assert node.children[1] == below[2 * i + 1];
      dependencies := dependencies + [node.children[1].taskId.value];
    }
    task := Task(taskId, node.action, TreeStage, node.level, node.operator, node.target.value, dependencies);
    node.taskId := Some(taskId);
  }

  /** Nodes below height level + 1, and the first i at that height, carry their task ids. */
  ghost predicate Numbered(layers: Layers, level: nat, i: nat)
    reads Nodes(layers)
  {
    forall h, k | 0 <= h < |layers| && 0 <= k < |layers[h]| && (h <= level || (h == level + 1 && k < i)) ::
      layers[h][k].taskId == Some(NodeKey(h, k))
  }

  lemma NextNode(groups: Groups, layers: Layers, treeNodes: seq<TreeNode>, level: nat, i: nat)
    requires Forest(groups, layers) && |layers| == Height(|groups|) + 1 && LevelByLevel(|groups|, layers, treeNodes)
    requires level < Height(|groups|) && i < Width(|groups|, level + 1)
    ensures ListedAt(|groups|, treeNodes, level, i, layers[level + 1][i])
    ensures ReductionNode(groups, layers[level], level, i, layers[level + 1][i])
  {
    assert NodeInPlace(groups, layers, level + 1, i);
  }

  method EmitNext(groups: Groups, node: TreeNode, ghost layers: Layers, ghost level: nat, ghost i: nat)
    returns (task: Task)
    requires Forest(groups, layers) && |layers| == Height(|groups|) + 1 && Targeted(groups, layers)
    requires level < Height(|groups|) && i < Width(|groups|, level + 1) && node == layers[level + 1][i]
    requires Numbered(layers, level, i)
    modifies node`taskId
    ensures task == TaskOf(groups, Tree(level, i))
    ensures Numbered(layers, level, i + 1) && Targeted(groups, layers)
    ensures i + 1 == Width(|groups|, level + 1) ==> Numbered(layers, level + 1, 0)
  {
    assert ReductionNode(groups, layers[level], level, i, node) by {
      assert NodeInPlace(groups, layers, level + 1, i);
    }
    NodesApart(groups, layers, level + 1, i);
    hide NodeInPlace, Target, TaskOf, Operator;
    task := EmitNode(groups, node.level, node.index, node, layers[level]);
  }

  /** The reduction tasks before place (level, i). */
  ghost function Emitted(groups: Groups, level: nat, i: nat): seq<Task>
    requires WellGrouped(groups) && level <= Height(|groups|)
    requires if level < Height(|groups|) then i <= Width(|groups|, level + 1) else i == 0
  {
    TreeTasks(groups, level) + if level < Height(|groups|) then LevelTasks(groups, level)[..i] else []
  }

  lemma EmittedNext(groups: Groups, level: nat, i: nat)
    requires WellGrouped(groups) && level < Height(|groups|) && i < Width(|groups|, level + 1)
    ensures Emitted(groups, level, i + 1) == Emitted(groups, level, i) + [TaskOf(groups, Tree(level, i))]
    ensures i + 1 == Width(|groups|, level + 1) ==> Emitted(groups, level, i + 1) == Emitted(groups, level + 1, 0)
  {
    hide TaskOf, Height, Width;
    var tasks := LevelTasks(groups, level);
    assert tasks[..i + 1] == tasks[..i] + [tasks[i]];
    assert tasks[..|tasks|] == tasks;
  }

  lemma {:induction false} LevelsEnd(g: nat, level: nat, i: nat, levels: nat)
    requires level <= levels
    ensures LevelOffset(g, level) <= LevelOffset(g, levels)
    ensures level < levels && i < Width(g, level + 1) ==> LevelOffset(g, level) + i < LevelOffset(g, levels)
    decreases levels
  {
    if level < levels {
      LevelsEnd(g, level, i, levels - 1);
    }
  }

  /** (level, i) is the place the n-th reduction node stands at, or the end. */
  ghost predicate PlaceOf(g: nat, n: nat, level: nat, i: nat) {
    && level <= Height(g) && n == LevelOffset(g, level) + i
    && if level < Height(g) then i < Width(g, level + 1) else i == 0
  }

  /** node's level and index are smaller than the given ones. */
  ghost predicate StandsBefore(node: TreeNode, level: nat, i: nat) {
    node.level < level || (node.level == level && node.index < i)
  }

  lemma FirstPlace(groups: Groups)
    requires WellGrouped(groups)
    ensures PlaceOf(|groups|, 0, 0, 0) && Emitted(groups, 0, 0) == []
  {
    NoTreeTasks(groups);
  }

  /** Behind the last node everything is emitted. */
  lemma LastPlace(groups: Groups, n: nat, level: nat, i: nat)
    requires WellGrouped(groups) && PlaceOf(|groups|, n, level, i) && n >= LevelOffset(|groups|, Height(|groups|))
    ensures level == Height(|groups|) && i == 0 && Emitted(groups, level, i) == TreeTasks(groups, Height(|groups|))
  {
    LevelsEnd(|groups|, level, i, Height(|groups|));
    hide TreeTasks;
  }

  /** The node standing at a place gets its task. */
  method EmitAt(groups: Groups, treeNodes: seq<TreeNode>, n: nat, ghost layers: Layers, ghost level: nat, ghost i: nat)
    returns (task: Task)
    requires Forest(groups, layers) && |layers| == Height(|groups|) + 1 && Targeted(groups, layers)
    requires LevelByLevel(|groups|, layers, treeNodes) && Numbered(layers, level, i)
    requires n < |treeNodes| && PlaceOf(|groups|, n, level, i)
    modifies Nodes(layers)`taskId
    ensures level < Height(|groups|) && i < Width(|groups|, level + 1) && task == TaskOf(groups, Tree(level, i))
    ensures treeNodes[n].level == level && treeNodes[n].index == i
    ensures Targeted(groups, layers) && Numbered(layers, level, i + 1)
    ensures i + 1 == Width(|groups|, level + 1) ==> Numbered(layers, level + 1, 0)
  {
    NextNode(groups, layers, treeNodes, level, i);
    assert treeNodes[n] == layers[level + 1][i] && layers[level + 1][i] in Nodes(layers);
    hide Forest, LevelByLevel, Targeted, Numbered, NodeInPlace;
    task := EmitNext(groups, treeNodes[n], layers, level, i);
  }

  /** Walks the reduction nodes, which already stand in the order of level and index. */
  method EmitTree(groups: Groups, treeNodes: seq<TreeNode>, ghost layers: Layers) returns (tasks: seq<Task>)
    requires Forest(groups, layers) && |layers| == Height(|groups|) + 1 && Targeted(groups, layers)
    requires LevelByLevel(|groups|, layers, treeNodes) && Numbered(layers, 0, 0)
    modifies Nodes(layers)`taskId
    ensures tasks == TreeTasks(groups, Height(|groups|))
    ensures Numbered(layers, Height(|groups|), 0)
  {
    hide TaskOf, TreeTasks, Target, NodeInPlace, Emitted, Height, Width, Targeted, Numbered;
    FirstPlace(groups);
    tasks := [];
    var n := 0;
    ghost var level: nat, i: nat := 0, 0;
    while n < |treeNodes|
      invariant PlaceOf(|groups|, n, level, i)
      invariant Targeted(groups, layers) && Numbered(layers, level, i)
      invariant tasks == Emitted(groups, level, i)
      invariant n > 0 ==> n <= |treeNodes| && StandsBefore(treeNodes[n - 1], level, i)
    {
      var task := EmitAt(groups, treeNodes, n, layers, level, i);
      EmittedNext(groups, level, i);
      tasks := tasks + [task];
      level, i := NextPlace(|groups|, n, level, i);
      n := n + 1;
    }
    LastPlace(groups, n, level, i);
  }

  /** After the last place of a level comes the first one of the next. */
  lemma NextPlace(g: nat, n: nat, level: nat, i: nat) returns (nextLevel: nat, next: nat)
    requires 0 < g && PlaceOf(g, n, level, i) && level < Height(g)
    ensures PlaceOf(g, n + 1, nextLevel, next)
    ensures if i + 1 == Width(g, level + 1) then nextLevel == level + 1 && next == 0 else nextLevel == level && next == i + 1
  {
    if i + 1 == Width(g, level + 1) {
      nextLevel, next := level + 1, 0;
    } else {
      nextLevel, next := level, i + 1;
    }
  }

  // ---- The whole derivation

  /** The least k with 2^k >= n, the rounded-up binary logarithm. */
  function CeilLog2(n: nat, k: nat): (r: nat)
    requires 0 < n && (k > 0 ==> Pow2(k - 1) < n)
    ensures n <= Pow2(r) && (r > 0 ==> Pow2(r - 1) < n)
    decreases n - Pow2(k)
  {
    if n <= Pow2(k) then k else CeilLog2(n, k + 1)
  }

  lemma {:induction false} Pow2Monotone(a: nat, b: nat)
    requires a <= b
    ensures Pow2(a) <= Pow2(b)
    decreases b
  {
    if a < b {
      Pow2Monotone(a, b - 1);
    }
  }

  /** The logarithm in the plan counts the rounds of the halving loop. */
  lemma HeightIsCeilLog2(g: nat)
    requires 0 < g
    ensures CeilLog2(g, 0) == Height(g)
  {
    HeightIsLeastPower(g);
    var r := CeilLog2(g, 0);
    if r < Height(g) {
      Pow2Monotone(r, Height(g) - 1);
    } else if Height(g) < r {
      Pow2Monotone(Height(g), r - 1);
    }
  }

  /** The plan for a participant list under the draws of its seed, or why there is none. */
  ghost function PlanFor(participants: seq<ClientId>, draw: Draws): Result<Plan, PlanError>
    requires |participants| <= DRAW_LIMIT && Productive(draw)
  {
    if !Distinct(participants) then Failure(DuplicateParticipants)
    else if |participants| < 3 then Failure(TooFewParticipants)
    else
      GroupSizesBalanced(|participants|);
      ShufflePermutes(participants, draw);
      Success(PlanFromOrder(ShuffleOf(participants, draw)))
  }

  ghost function PlanFromOrder(order: seq<ClientId>): (plan: Plan)
    requires 3 <= |order|
  {
    GroupSizesBalanced(|order|);
    SplitWellGrouped(order);
    PlanOf(order, SplitGroups(order, GroupSizes(|order|).value))
  }

  lemma SplitWellGrouped(order: seq<ClientId>)
    requires 3 <= |order|
    ensures GroupSizes(|order|).Success? && Offset(GroupSizes(|order|).value, |GroupSizes(|order|).value|) == |order|
    ensures var groups := SplitGroups(order, GroupSizes(|order|).value);
      WellGrouped(groups) && Join(groups) == order
  {
    GroupSizesBalanced(|order|);
    var sizes := GroupSizes(|order|).value;
    SplitGroupsPartition(order, sizes, |sizes|);
    assert order[..|order|] == order;
  }

  method SplitMembers(members: seq<ClientId>, sizes: seq<nat>) returns (groups: Groups)
    requires Offset(sizes, |sizes|) == |members|
    ensures groups == SplitGroups(members, sizes)
  {
    groups := [];
    var offset, index := 0, 0;
    while index < |sizes|
      invariant index <= |sizes| && offset == Offset(sizes, index)
      invariant groups == SplitTo(members, sizes, index)
    {
      OffsetMonotone(sizes, index + 1, |sizes|);
      groups := groups + [members[offset..offset + sizes[index]]];
      offset, index := offset + sizes[index], index + 1;
    }
  }

  method DeriveTreePlan(participants: seq<ClientId>, draw: Draws) returns (result: Result<Plan, PlanError>)
    requires |participants| <= DRAW_LIMIT && Productive(draw)
    ensures result == PlanFor(participants, draw)
  {
    hide ShuffleOf, SplitGroups, PlanOf, GroupSizes, Distinct;
    DistinctIffFullSet(participants);
    if |SetOf(participants)| != |participants| {
      return Failure(DuplicateParticipants);
    }
    var shuffled := Shuffle(participants, draw);
    ShufflePermutes(participants, draw);
    assert |multiset(shuffled)| == |multiset(participants)|;
    var sizes := GroupSizes(|shuffled|);
    if |participants| >= 3 {
      GroupSizesBalanced(|participants|);
    }
    if sizes.Failure? {
      return Failure(sizes.error);
    }
    SplitWellGrouped(shuffled);
    var groups := SplitMembers(shuffled, sizes.value);
    var plan := CompileGroups(shuffled, groups);
    return Success(plan);
  }

  /** Assigning from the root reaches every node. */
  lemma RootAssigns(groups: Groups, h: nat, i: nat, before: Option<ClientId>)
    requires WellGrouped(groups) && h <= Height(|groups|) && i < Width(|groups|, h)
    ensures Width(|groups|, Height(|groups|)) == 1
    ensures Assigned(groups, Height(|groups|), 0, 2, Operator(groups, Height(|groups|), 0), h, i, before)
      == Some(Target(groups, h, i))
  {
    HeightIsLeastPower(|groups|);
    if h < Height(|groups|) {
      UpInRange(|groups|, h, i, Height(|groups|) - 1 - h);
      UpInRange(|groups|, h, i, Height(|groups|) - h);
    }
  }

  lemma TasksAssembled(groups: Groups, lower: seq<Task>, upper: seq<Task>)
    requires WellGrouped(groups)
    requires lower == AllGroupTasks(groups, |groups|) && upper == TreeTasks(groups, Height(|groups|))
    ensures lower + upper == PlanTasks(groups)
  {
  }

  /** The root is run by the first member of the first group. */
  lemma RootOperator(groups: Groups)
    requires WellGrouped(groups)
    ensures Width(|groups|, Height(|groups|)) == 1
    ensures Operator(groups, Height(|groups|), 0) == groups[0][0]
    ensures |groups| == 1 ==> Height(|groups|) == 0
  {
    HeightIsLeastPower(|groups|);
    OperatorIsFirstCoordinator(groups, Height(|groups|), 0);
  }

  /** The tree over the groups, with every node's target filled in. */
  method TargetedTree(groups: Groups) returns (root: TreeNode, treeNodes: seq<TreeNode>, ghost layers: Layers)
    requires WellGrouped(groups)
    ensures Forest(groups, layers) && |layers| == Height(|groups|) + 1 && layers[Height(|groups|)] == [root]
    ensures LevelByLevel(|groups|, layers, treeNodes) && Targeted(groups, layers)
    ensures root.operator == groups[0][0]
    ensures fresh(Nodes(layers))
  {
    root, treeNodes, layers := BuildTree(groups);
    ghost var top := Height(|groups|);
    forall n | n in Nodes(layers) ensures fresh(n) {
      var h, i :| 0 <= h < |layers| && 0 <= i < |layers[h]| && layers[h][i] == n;
      assert n in layers[h];
    }
    RootOperator(groups);
    assert root.operator == groups[0][0] by { assert NodeInPlace(groups, layers, top, 0); }
    hide Assigned, Operator, Target, Height, NodeInPlace;
    label built:
    AssignTargets(root, root.operator, groups, layers, top, 0);
    forall h, i | 0 <= h < |layers| && 0 <= i < |layers[h]| ensures layers[h][i].target == Some(Target(groups, h, i)) {
      RootAssigns(groups, h, i, old@built(layers[h][i].target));
    }
  }

  /** The first n group results carry their task ids. */
  ghost predicate LeavesNumbered(layers: Layers, n: nat)
    requires layers != [] && n <= |layers[0]|
    reads Nodes(layers)
  {
    forall j | 0 <= j < n :: layers[0][j].taskId == Some(Unblind(j))
  }

  method EmitNextGroup(groups: Groups, root: TreeNode, group: nat, ghost layers: Layers) returns (tasks: seq<Task>)
    requires Forest(groups, layers) && |layers| == Height(|groups|) + 1 && layers[Height(|groups|)] == [root]
    requires group < |groups| && Targeted(groups, layers) && LeavesNumbered(layers, group)
    modifies Nodes(layers)`taskId
    ensures tasks == GroupTasks(groups, group)
    ensures Targeted(groups, layers) && LeavesNumbered(layers, group + 1)
  {
    hide NodeInPlace, GroupTasks, Target, Height;
    var leaf := FindLeaf(root, group, groups, layers);
    NodesApart(groups, layers, 0, group);
    tasks := EmitGroup(groups, group, leaf);
  }

  method EmitGroups(groups: Groups, root: TreeNode, ghost layers: Layers) returns (tasks: seq<Task>)
    requires Forest(groups, layers) && |layers| == Height(|groups|) + 1 && layers[Height(|groups|)] == [root]
    requires Targeted(groups, layers)
    modifies Nodes(layers)`taskId
    ensures tasks == AllGroupTasks(groups, |groups|)
    ensures Numbered(layers, 0, 0)
  {
    hide NodeInPlace, AllGroupTasks, GroupTasks, Target, Height, Targeted, LeavesNumbered, Numbered;
    NoGroupTasks(groups);
    NoLeafNumbered(layers);
    tasks := [];
    var group := 0;
    while group < |groups|
      invariant group <= |groups| && tasks == AllGroupTasks(groups, group)
      invariant Targeted(groups, layers) && LeavesNumbered(layers, group)
    {
      OneMoreGroup(groups, group);
      var own := EmitNextGroup(groups, root, group, layers);
      tasks := tasks + own;
      group := group + 1;
    }
    AllLeavesNumbered(groups, layers);
  }

  lemma NoLeafNumbered(layers: Layers)
    requires layers != []
    ensures LeavesNumbered(layers, 0)
  {
  }

  lemma AllLeavesNumbered(groups: Groups, layers: Layers)
    requires Forest(groups, layers) && LeavesNumbered(layers, |groups|)
    ensures Numbered(layers, 0, 0)
  {
    hide NodeInPlace;
  }

  method CompileGroups(shuffled: seq<ClientId>, groups: Groups) returns (plan: Plan)
    requires WellGrouped(groups)
    ensures plan == PlanOf(shuffled, groups)
  {
    var root, treeNodes, layers := TargetedTree(groups);
    hide Forest, Target, AllGroupTasks, TreeTasks;
    var lower := EmitGroups(groups, root, layers);
    var upper := EmitTree(groups, treeNodes, layers);
    assert layers[Height(|groups|)][0].taskId == Some(RootTask(groups));
    HeightIsCeilLog2(|groups|);
    TasksAssembled(groups, lower, upper);
    plan := Plan(shuffled, groups, lower + upper, root.operator, root.taskId.value,
      if |groups| > 1 then CeilLog2(|groups|, 0) else 0);
  }

  // ---- What a derived plan promises

  lemma {:induction false} GroupIsSlice(members: seq<ClientId>, sizes: seq<nat>, n: nat, j: nat)
    requires j < n <= |sizes| && Offset(sizes, |sizes|) == |members|
    ensures Offset(sizes, j) <= Offset(sizes, j + 1) <= |members|
    ensures SplitTo(members, sizes, n)[j] == members[Offset(sizes, j)..Offset(sizes, j + 1)]
  {
    OffsetMonotone(sizes, j + 1, |sizes|);
    if j < n - 1 {
      GroupIsSlice(members, sizes, n - 1, j);
    }
  }

  /** Groups of a duplicate-free order share no client. */
  lemma SplitKeepsDistinct(members: seq<ClientId>, sizes: seq<nat>)
    requires Distinct(members) && Offset(sizes, |sizes|) == |members|
    ensures MembersDistinct(SplitGroups(members, sizes))
  {
    var groups := SplitGroups(members, sizes);
    forall j, p, k, q | 0 <= j < |groups| && 0 <= p < |groups[j]| && 0 <= k < |groups| && 0 <= q < |groups[k]|
      && groups[j][p] == groups[k][q] ensures j == k && p == q
    {
      GroupIsSlice(members, sizes, |sizes|, j);
      GroupIsSlice(members, sizes, |sizes|, k);
      assert Offset(sizes, j) + p == Offset(sizes, k) + q;
      if j < k {
        OffsetMonotone(sizes, j + 1, k);
      } else if k < j {
        OffsetMonotone(sizes, k + 1, j);
      }
    }
  }

  lemma PermutationDistinct(a: seq<ClientId>, b: seq<ClientId>)
    requires multiset(a) == multiset(b) && Distinct(a)
    ensures Distinct(b)
  {
    assert |multiset(a)| == |a| && |multiset(b)| == |b|;
    assert forall x :: x in SetOf(a) <==> x in multiset(a);
    assert forall x :: x in SetOf(b) <==> x in multiset(b);
    assert SetOf(a) == SetOf(b);
    DistinctIffFullSet(a);
    DistinctIffFullSet(b);
  }

  /** groups partitions exactly the given participants into groups of three to five. */
  ghost predicate Partitions(groups: Groups, participants: seq<ClientId>) {
    WellGrouped(groups) && MembersDistinct(groups) && multiset(Join(groups)) == multiset(participants)
  }

  /** Three or more distinct participants always get a plan: the closed form over a partition of them. */
  lemma DerivedPlanPartitions(participants: seq<ClientId>, draw: Draws)
    requires 3 <= |participants| <= DRAW_LIMIT && Productive(draw) && Distinct(participants)
    ensures PlanFor(participants, draw).Success?
    ensures var plan := PlanFor(participants, draw).value;
      && Partitions(plan.groups, participants)
      && plan == PlanOf(plan.participants, plan.groups)
      && plan.participants == ShuffleOf(participants, draw)
      && plan.rootClient == plan.participants[0]
  {
    var order := ShuffleOf(participants, draw);
    ShufflePermutes(participants, draw);
    assert |multiset(order)| == |multiset(participants)|;
    PermutationDistinct(participants, order);
    SplitWellGrouped(order);
    var sizes := GroupSizes(|order|).value;
    SplitKeepsDistinct(order, sizes);
    GroupIsSlice(order, sizes, |sizes|, 0);
    hide PlanTasks, ShuffleOf, GroupSizes;
  }
}
