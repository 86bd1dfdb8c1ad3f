/** What the key tree computes: the meaning of each action, and the value at the root. */
module KeyTree {
  import opened Names
  import opened PlanProperties
  import opened PlanShape
  import opened PlanTree
  import opened Ring
  import opened Sequences

  /** Exact integers a client holds: its key, and as coordinator the blind of its group. */
  type Keys = ClientId -> int
  type Blinds = nat -> int

  /** Tasks of lower rank come before tasks that depend on them. */
  function Rank(key: TaskKey): nat {
    match key
    case Start(_) => 0
    case Add(_, position) => position
    case Unblind(_) => 5
    case Tree(level, _) => 6 + level
  }

  lemma DependenciesRankLower(groups: Groups, key: TaskKey)
    requires WellGrouped(groups) && IsTask(groups, key)
    ensures forall d | d in Dependencies(groups, key) :: IsTask(groups, d) && Rank(d) < Rank(key)
  {
    DependenciesAreTasks(groups, key);
  }

  /** The integer a task stands for, before reduction to 64 bits. */
  ghost function Value(groups: Groups, key: TaskKey, keys: Keys, blinds: Blinds): int
    requires WellGrouped(groups) && IsTask(groups, key)
    decreases Rank(key)
  {
    DependenciesRankLower(groups, key);
    var d := Dependencies(groups, key);
    match key
    case Start(group) => keys(Sender(groups, key)) + blinds(group)
    case Add(group, _) => Value(groups, d[0], keys, blinds) + keys(Sender(groups, key))
    case Unblind(group) => Value(groups, d[0], keys, blinds) - blinds(group)
    case Tree(_, _) =>
      Value(groups, d[0], keys, blinds) + if |d| == 2 then Value(groups, d[1], keys, blinds) else 0
  }

  /** After the addition at a position the ring carries the blind and the keys up to that position. */
  lemma {:induction false} RingValue(groups: Groups, group: nat, place: nat, keys: Keys, blinds: Blinds)
    requires WellGrouped(groups) && group < |groups| && place < |groups[group]|
    ensures Value(groups, ContributionAt(group, place), keys, blinds)
      == blinds(group) + SumTo(groups[group], place + 1, keys)
  {
    if place > 0 {
      RingValue(groups, group, place - 1, keys, blinds);
      assert Dependencies(groups, Add(group, place))[0] == ContributionAt(group, place - 1);
    } else {
      assert SumTo(groups[group], 1, keys) == SumTo(groups[group], 0, keys) + keys(groups[group][0]);
    }
  }

  /** Unblinding leaves the sum of the group's keys. */
  lemma GroupValue(groups: Groups, group: nat, keys: Keys, blinds: Blinds)
    requires WellGrouped(groups) && group < |groups|
    ensures Value(groups, Unblind(group), keys, blinds) == Sum(groups[group], keys)
  {
    RingValue(groups, group, |groups[group]| - 1, keys, blinds);
    assert Dependencies(groups, Unblind(group))[0] == ContributionAt(group, |groups[group]| - 1);
  }

  ghost function GroupSums(groups: Groups, keys: Keys): nat -> int {
    (j: nat) => if j < |groups| then Sum(groups[j], keys) else 0
  }

  /** A reduction node is worth what its one or two children are worth together. */
  lemma NodeUnfolds(groups: Groups, h: nat, i: nat, keys: Keys, blinds: Blinds)
    requires WellGrouped(groups) && 1 <= h <= Height(|groups|) && i < Width(|groups|, h)
    ensures IsTask(groups, NodeKey(h, i)) && IsTask(groups, NodeKey(h - 1, 2 * i))
    ensures 2 * i + 1 < Width(|groups|, h - 1) ==> IsTask(groups, NodeKey(h - 1, 2 * i + 1))
    ensures Value(groups, NodeKey(h, i), keys, blinds)
      == Value(groups, NodeKey(h - 1, 2 * i), keys, blinds)
       + if 2 * i + 1 < Width(|groups|, h - 1) then Value(groups, NodeKey(h - 1, 2 * i + 1), keys, blinds) else 0
  {
    ChildIsTask(groups, h, i);
    ChildIsTask(groups, h - 1, 2 * i);
    hide Height, Sender;
    var d := Dependencies(groups, NodeKey(h, i));
    assert d[0] == NodeKey(h - 1, 2 * i);
    if 2 * i + 1 < Width(|groups|, h - 1) {
      ChildIsTask(groups, h - 1, 2 * i + 1);
      assert |d| == 2 && d[1] == NodeKey(h - 1, 2 * i + 1);
    }
  }

  /** What the groups covered by node (h, i) sum to. */
  ghost function CoveredSum(groups: Groups, h: nat, i: nat, keys: Keys): int
    requires i < Width(|groups|, h)
  {
    Sum(Covered(|groups|, h, i), GroupSums(groups, keys))
  }

  lemma CoveredSumUnfolds(groups: Groups, h: nat, i: nat, keys: Keys)
    requires groups != [] && 1 <= h && i < Width(|groups|, h)
    ensures CoveredSum(groups, h, i, keys) == CoveredSum(groups, h - 1, 2 * i, keys)
      + if 2 * i + 1 < Width(|groups|, h - 1) then CoveredSum(groups, h - 1, 2 * i + 1, keys) else 0
  {
    var left := Covered(|groups|, h - 1, 2 * i);
    if 2 * i + 1 < Width(|groups|, h - 1) {
      SumConcat(left, Covered(|groups|, h - 1, 2 * i + 1), GroupSums(groups, keys));
    } else {
      assert Covered(|groups|, h, i) == left;
    }
  }

  lemma CoveredSumLeaf(groups: Groups, i: nat, keys: Keys)
    requires i < |groups|
    ensures CoveredSum(groups, 0, i, keys) == Sum(groups[i], keys)
  {
    SumHead([i], GroupSums(groups, keys));
  }

  lemma {:induction false} NodeValue(groups: Groups, h: nat, i: nat, keys: Keys, blinds: Blinds)
    requires WellGrouped(groups) && h <= Height(|groups|) && i < Width(|groups|, h)
    ensures IsTask(groups, NodeKey(h, i))
    ensures Value(groups, NodeKey(h, i), keys, blinds) == CoveredSum(groups, h, i, keys)
  {
    hide Value, CoveredSum;
    ChildIsTask(groups, h, i);
    if h == 0 {
      GroupValue(groups, i, keys, blinds);
      CoveredSumLeaf(groups, i, keys);
    } else {
      NodeUnfolds(groups, h, i, keys, blinds);
      CoveredSumUnfolds(groups, h, i, keys);
      NodeValue(groups, h - 1, 2 * i, keys, blinds);
      if 2 * i + 1 < Width(|groups|, h - 1) {
        NodeValue(groups, h - 1, 2 * i + 1, keys, blinds);
      }
    }
  }

  lemma {:induction false} SumOfGroupSums(groups: Groups, n: nat, keys: Keys)
    requires n <= |groups|
    ensures SumTo(Range(0, |groups|), n, GroupSums(groups, keys)) == Sum(JoinTo(groups, n), keys)
  {
    if n > 0 {
      SumOfGroupSums(groups, n - 1, keys);
      SumConcat(JoinTo(groups, n - 1), groups[n - 1], keys);
    }
  }

  /** The root task's value is the sum of every member's key, each once, with every blind cancelled. */
  lemma RootValueIsKeySum(groups: Groups, keys: Keys, blinds: Blinds)
    requires WellGrouped(groups)
    ensures IsTask(groups, RootTask(groups))
    ensures Value(groups, RootTask(groups), keys, blinds) == Sum(Join(groups), keys)
  {
    RootCoversEveryGroup(|groups|);
    NodeValue(groups, Height(|groups|), 0, keys, blinds);
    SumOfGroupSums(groups, |groups|, keys);
  }
}
