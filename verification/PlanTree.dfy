/** The task list of a plan as an in-tree: listed once each, dependencies first, outputs routed to their consumer. */
module PlanTree {
  import opened Names
  import opened PlanProperties
  import opened PlanShape
  import opened Sequences

  /** Different tasks have different task_id texts. */
  lemma TaskNameInjective(a: TaskKey, b: TaskKey)
    requires TaskName(a) == TaskName(b)
    ensures a == b
  {
    assert TaskName(a)[0] == (if a.Tree? then 't' else 'g') && TaskName(b)[0] == (if b.Tree? then 't' else 'g');
    if a.Tree? {
      SplitName("t", Decimal(a.level), Decimal(a.index), Decimal(b.level), Decimal(b.index));
      DecimalInjective(a.level, b.level);
      DecimalInjective(a.index, b.index);
    } else {
      SplitName("g", Decimal(a.group), GroupStep(a), Decimal(b.group), GroupStep(b));
      DecimalInjective(a.group, b.group);
      GroupStepInjective(a, b);
    }
  }

  lemma SplitName(initial: string, x: string, s: string, y: string, t: string)
    requires |initial| == 1 && '-' !in x && '-' !in y
    requires initial + x + "-" + s == initial + y + "-" + t
    ensures x == y && s == t
  {
    assert (initial + x + "-" + s)[1..] == x + "-" + s;
    assert (initial + y + "-" + t)[1..] == y + "-" + t;
    DashSplit(x, y, s, t);
  }

  lemma GroupStepInjective(a: TaskKey, b: TaskKey)
    requires !a.Tree? && !b.Tree? && GroupStep(a) == GroupStep(b) && a.group == b.group
    ensures a == b
  {
    assert GroupStep(a)[0] == GroupStep(b)[0];
    if a.Add? {
      assert GroupStep(a)[4..] == Decimal(a.position) && GroupStep(b)[4..] == Decimal(b.position);
      DecimalInjective(a.position, b.position);
    }
  }

  // ---- Where each task stands in the list

  function Position(groups: Groups, key: TaskKey): nat
    requires WellGrouped(groups) && IsTask(groups, key)
  {
    match key
    case Start(group) => |AllGroupTasks(groups, group)|
    case Add(group, position) => |AllGroupTasks(groups, group)| + position
    case Unblind(group) => |AllGroupTasks(groups, group)| + |groups[group]|
    case Tree(level, index) => |AllGroupTasks(groups, |groups|)| + LevelOffset(|groups|, level) + index
  }

  lemma {:induction false} GroupTasksListed(groups: Groups, n: nat, i: nat)
    requires WellGrouped(groups) && n <= |groups| && i < |AllGroupTasks(groups, n)|
    ensures var t := AllGroupTasks(groups, n)[i];
      !t.id.Tree? && IsTask(groups, t.id) && t == TaskOf(groups, t.id) && Position(groups, t.id) == i
  {
    hide TaskOf;
    if i < |AllGroupTasks(groups, n - 1)| {
      GroupTasksListed(groups, n - 1, i);
    }
  }

  lemma {:induction false} TreeTasksListed(groups: Groups, levels: nat, i: nat)
    requires WellGrouped(groups) && levels <= Height(|groups|) && i < |TreeTasks(groups, levels)|
    ensures var t := TreeTasks(groups, levels)[i];
      && t.id.Tree? && IsTask(groups, t.id) && t == TaskOf(groups, t.id)
      && Position(groups, t.id) == |AllGroupTasks(groups, |groups|)| + i
  {
    hide TaskOf;
    if i < |TreeTasks(groups, levels - 1)| {
      TreeTasksListed(groups, levels - 1, i);
    }
  }

  /** What stands at index i is the task whose position is i. */
  lemma TaskAt(groups: Groups, i: nat)
    requires WellGrouped(groups) && i < |PlanTasks(groups)|
    ensures var t := PlanTasks(groups)[i];
      IsTask(groups, t.id) && t == TaskOf(groups, t.id) && Position(groups, t.id) == i
  {
    hide TaskOf;
    var first := AllGroupTasks(groups, |groups|);
    if i < |first| {
      GroupTasksListed(groups, |groups|, i);
    } else {
      TreeTasksListed(groups, Height(|groups|), i - |first|);
    }
  }

  lemma {:induction false} GroupTasksPrefix(groups: Groups, m: nat, n: nat)
    requires WellGrouped(groups) && m <= n <= |groups|
    ensures AllGroupTasks(groups, m) <= AllGroupTasks(groups, n)
    decreases n
  {
    hide TaskOf;
    if m < n {
      GroupTasksPrefix(groups, m, n - 1);
    }
  }

  lemma {:induction false} TreeTasksPrefix(groups: Groups, m: nat, n: nat)
    requires WellGrouped(groups) && m <= n <= Height(|groups|)
    ensures TreeTasks(groups, m) <= TreeTasks(groups, n)
    decreases n
  {
    hide TaskOf;
    if m < n {
      TreeTasksPrefix(groups, m, n - 1);
    }
  }

  lemma GroupTaskListed(groups: Groups, key: TaskKey)
    requires WellGrouped(groups) && IsTask(groups, key) && !key.Tree?
    ensures var i := Position(groups, key);
      i < |AllGroupTasks(groups, |groups|)| && AllGroupTasks(groups, |groups|)[i] == TaskOf(groups, key)
  {
    hide TaskOf, GroupTasks;
    GroupTasksPrefix(groups, key.group + 1, |groups|);
    var before, own := AllGroupTasks(groups, key.group), GroupTasks(groups, key.group);
    assert AllGroupTasks(groups, key.group + 1) == before + own;
    hide AllGroupTasks;
    var i := Position(groups, key);
    assert own[i - |before|] == TaskOf(groups, key);
    assert AllGroupTasks(groups, |groups|)[i] == (before + own)[i];
  }

  lemma TreeTaskListed(groups: Groups, key: TaskKey)
    requires WellGrouped(groups) && IsTask(groups, key) && key.Tree?
    ensures var i := LevelOffset(|groups|, key.level) + key.index; var upper := TreeTasks(groups, Height(|groups|));
      i < |upper| && upper[i] == TaskOf(groups, key)
  {
    hide TaskOf;
    TreeTasksPrefix(groups, key.level + 1, Height(|groups|));
    assert LevelTasks(groups, key.level)[key.index] == TaskOf(groups, key);
  }

  lemma NoGroupTasks(groups: Groups)
    requires WellGrouped(groups)
    ensures AllGroupTasks(groups, 0) == []
  {
  }

  lemma OneMoreGroup(groups: Groups, j: nat)
    requires WellGrouped(groups) && j < |groups|
    ensures AllGroupTasks(groups, j + 1) == AllGroupTasks(groups, j) + GroupTasks(groups, j)
  {
  }

  lemma NoTreeTasks(groups: Groups)
    requires WellGrouped(groups)
    ensures TreeTasks(groups, 0) == []
  {
  }

  /** Every task of the plan is listed at its position. */
  lemma TaskListed(groups: Groups, key: TaskKey)
    requires WellGrouped(groups) && IsTask(groups, key)
    ensures var i := Position(groups, key);
      i < |PlanTasks(groups)| && PlanTasks(groups)[i] == TaskOf(groups, key)
  {
    hide TaskOf;
    if key.Tree? {
      TreeTaskListed(groups, key);
    } else {
      GroupTaskListed(groups, key);
    }
  }

  /** The list holds every task exactly once, under pairwise different task_id texts. */
  lemma PlanTasksExact(groups: Groups)
    requires WellGrouped(groups)
    ensures forall key :: IsTask(groups, key) <==> exists t | t in PlanTasks(groups) :: t.id == key
    ensures forall t | t in PlanTasks(groups) :: IsTask(groups, t.id) && t == TaskOf(groups, t.id)
    ensures forall i, j | 0 <= i < j < |PlanTasks(groups)| ::
      TaskName(PlanTasks(groups)[i].id) != TaskName(PlanTasks(groups)[j].id)
  {
    hide TaskOf;
    var tasks := PlanTasks(groups);
    forall t | t in tasks ensures IsTask(groups, t.id) && t == TaskOf(groups, t.id) {
      var i :| 0 <= i < |tasks| && tasks[i] == t;
      TaskAt(groups, i);
    }
    forall key | IsTask(groups, key) ensures exists t | t in tasks :: t.id == key {
      TaskListed(groups, key);
      assert tasks[Position(groups, key)] in tasks;
    }
    forall i, j | 0 <= i < j < |tasks| ensures TaskName(tasks[i].id) != TaskName(tasks[j].id) {
      TaskAt(groups, i);
      TaskAt(groups, j);
      if TaskName(tasks[i].id) == TaskName(tasks[j].id) {
        TaskNameInjective(tasks[i].id, tasks[j].id);
      }
    }
  }

  // ---- The in-tree

  /** The one task that consumes the output of a task other than the root. */
  function Consumer(groups: Groups, key: TaskKey): TaskKey
    requires WellGrouped(groups) && IsTask(groups, key)
  {
    match key
    case Start(group) => Add(group, 1)
    case Add(group, position) =>
      if position + 1 < |groups[group]| then Add(group, position + 1) else Unblind(group)
    case Unblind(group) => NodeKey(1, group / 2)
    case Tree(level, index) => NodeKey(level + 2, index / 2)
  }

  lemma ChildIsTask(groups: Groups, h: nat, i: nat)
    requires WellGrouped(groups) && h <= Height(|groups|) && i < Width(|groups|, h)
    ensures IsTask(groups, NodeKey(h, i))
  {
  }

  /** Only the root stands at full height. */
  lemma RootIsAlone(groups: Groups, h: nat, i: nat)
    requires WellGrouped(groups) && h <= Height(|groups|) && i < Width(|groups|, h)
    ensures h == Height(|groups|) <==> NodeKey(h, i) == RootTask(groups)
    ensures h < Height(|groups|) ==> i / 2 < Width(|groups|, h + 1)
    ensures h == Height(|groups|) ==> i == 0
  {
    HeightIsLeastPower(|groups|);
  }

  lemma DependenciesAreTasks(groups: Groups, key: TaskKey)
    requires WellGrouped(groups) && IsTask(groups, key)
    ensures forall d | d in Dependencies(groups, key) :: IsTask(groups, d)
  {
    if key.Tree? {
      ChildIsTask(groups, key.level, 2 * key.index);
      if 2 * key.index + 1 < Width(|groups|, key.level) {
        ChildIsTask(groups, key.level, 2 * key.index + 1);
      }
    }
  }

  lemma ConsumerIsTask(groups: Groups, key: TaskKey)
    requires WellGrouped(groups) && IsTask(groups, key) && key != RootTask(groups)
    ensures IsTask(groups, Consumer(groups, key))
    ensures key in Dependencies(groups, Consumer(groups, key))
  {
    if key.Unblind? {
      RootIsAlone(groups, 0, key.group);
    } else if key.Tree? {
      RootIsAlone(groups, key.level + 1, key.index);
    }
  }

  /** A task other than the root is a dependency of its consumer and of nothing else; the root is one of nothing. */
  lemma ConsumedExactlyOnce(groups: Groups, key: TaskKey, other: TaskKey)
    requires WellGrouped(groups) && IsTask(groups, key) && IsTask(groups, other)
    ensures key in Dependencies(groups, other) <==> key != RootTask(groups) && other == Consumer(groups, key)
  {
    if key != RootTask(groups) {
      ConsumerIsTask(groups, key);
    }
    if other.Tree? && key in Dependencies(groups, other) {
      var i := if key == NodeKey(other.level, 2 * other.index) then 2 * other.index else 2 * other.index + 1;
      RootIsAlone(groups, other.level, i);
    } else if other.Unblind? && key in Dependencies(groups, other) {
      assert key != RootTask(groups);
    }
  }

  lemma DependenciesDistinct(groups: Groups, key: TaskKey)
    requires WellGrouped(groups) && IsTask(groups, key)
    ensures Distinct(Dependencies(groups, key))
  {
  }

  /** The list is topologically ordered: whatever a task waits for stands before it. */
  lemma DependenciesComeFirst(groups: Groups, key: TaskKey, d: TaskKey)
    requires WellGrouped(groups) && IsTask(groups, key) && d in Dependencies(groups, key)
    ensures IsTask(groups, d) && Position(groups, d) < Position(groups, key)
  {
    hide TaskOf, Height, Sender, Receiver;
    DependenciesAreTasks(groups, key);
    if key.Tree? {
      if key.level == 0 {
        GroupTasksPrefix(groups, d.group + 1, |groups|);
        assert |AllGroupTasks(groups, d.group + 1)| == |AllGroupTasks(groups, d.group)| + |groups[d.group]| + 1;
      } else {
        assert LevelOffset(|groups|, key.level) == LevelOffset(|groups|, d.level) + Width(|groups|, key.level);
      }
    }
  }

  /** Following the consumers from any task ends at the root. */
  lemma {:induction false} ReachesRoot(groups: Groups, key: TaskKey) returns (path: seq<TaskKey>)
    requires WellGrouped(groups) && IsTask(groups, key)
    ensures path != [] && path[0] == key && path[|path| - 1] == RootTask(groups)
    ensures forall i | 0 <= i < |path| :: IsTask(groups, path[i])
    ensures forall i | 0 <= i < |path| - 1 :: path[i] in Dependencies(groups, path[i + 1])
    decreases |PlanTasks(groups)| - Position(groups, key)
  {
    hide TaskOf;
    TaskListed(groups, key);
    if key == RootTask(groups) {
      path := [key];
    } else {
      var next := Consumer(groups, key);
      ConsumerIsTask(groups, key);
      DependenciesComeFirst(groups, next, key);
      TaskListed(groups, next);
      var rest := ReachesRoot(groups, next);
      path := [key] + rest;
    }
  }

  /** Every output is sent to the client that runs the task consuming it; the root keeps its own. */
  lemma RoutedToConsumer(groups: Groups, key: TaskKey)
    requires WellGrouped(groups) && IsTask(groups, key)
    ensures key != RootTask(groups) ==>
      IsTask(groups, Consumer(groups, key)) && Receiver(groups, key) == Sender(groups, Consumer(groups, key))
    ensures key == RootTask(groups) ==> Receiver(groups, key) == Sender(groups, key) == groups[0][0]
  {
    if key != RootTask(groups) {
      ConsumerIsTask(groups, key);
    }
    if key.Unblind? {
      RootIsAlone(groups, 0, key.group);
      OperatorIsFirstCoordinator(groups, 0, key.group);
    } else if key.Tree? {
      RootIsAlone(groups, key.level + 1, key.index);
      OperatorIsFirstCoordinator(groups, key.level + 1, key.index);
    }
  }

  // ---- Contributions and counts

  /** The task in which the member at a place of a group adds a key. */
  function ContributionAt(group: nat, place: nat): TaskKey {
    if place == 0 then Start(group) else Add(group, place)
  }

  /** No client stands at two places. */
  ghost predicate MembersDistinct(groups: Groups) {
    forall j, p, k, q | 0 <= j < |groups| && 0 <= p < |groups[j]| && 0 <= k < |groups| && 0 <= q < |groups[k]| ::
      groups[j][p] == groups[k][q] ==> j == k && p == q
  }

  /** Each participant adds a key in exactly one task: no other key-adding task is theirs. */
  lemma ContributesExactlyOnce(groups: Groups, group: nat, place: nat, other: TaskKey)
    requires WellGrouped(groups) && MembersDistinct(groups) && group < |groups| && place < |groups[group]|
    requires IsTask(groups, other)
    ensures IsTask(groups, ContributionAt(group, place))
    ensures (other.Start? || other.Add?) && Sender(groups, other) == groups[group][place]
      <==> other == ContributionAt(group, place)
  {
  }

  function CountAction(tasks: seq<Task>, n: nat, action: Action): nat
    requires n <= |tasks|
  {
    if n == 0 then 0 else CountAction(tasks, n - 1, action) + if tasks[n - 1].action == action then 1 else 0
  }

  /** How many of the nodes one height above w nodes run the action: pairs combine, a left-over node carries. */
  function LevelTally(w: nat, action: Action): nat {
    match action
    case TreeCombine => w / 2
    case TreeCarry => w % 2
    case _ => 0
  }

  function Tally(g: nat, levels: nat, action: Action): nat {
    if levels == 0 then 0 else Tally(g, levels - 1, action) + LevelTally(Width(g, levels - 1), action)
  }

  ghost predicate Reduces(action: Action) {
    action.TreeCombine? || action.TreeCarry?
  }

  /** tasks has no reducing task below base, and from base on the tree levels over g leaves, one after another. */
  ghost predicate LevelsListed(tasks: seq<Task>, base: nat, g: nat) {
    && base + LevelOffset(g, Height(g)) == |tasks|
    && (forall n | 0 <= n < base :: !Reduces(tasks[n].action))
    && forall level: nat, i: nat | level < Height(g) && i < Width(g, level + 1) :: NodeListed(tasks, base, g, level, i)
  }

  ghost predicate NodeListed(tasks: seq<Task>, base: nat, g: nat, level: nat, i: nat) {
    var n := base + LevelOffset(g, level) + i;
    n < |tasks| && tasks[n].action == if 2 * i + 1 < Width(g, level) then TreeCombine else TreeCarry
  }

  lemma PlanListsLevels(groups: Groups)
    requires WellGrouped(groups)
    ensures LevelsListed(PlanTasks(groups), |AllGroupTasks(groups, |groups|)|, |groups|)
  {
    hide TaskOf;
    var tasks, base, g := PlanTasks(groups), |AllGroupTasks(groups, |groups|)|, |groups|;
    forall n | 0 <= n < base ensures !Reduces(tasks[n].action) {
      GroupTasksListed(groups, g, n);
    }
    forall level: nat, i: nat | level < Height(g) && i < Width(g, level + 1) ensures NodeListed(tasks, base, g, level, i) {
      TaskListed(groups, Tree(level, i));
    }
  }

  lemma {:induction false} CountBelowBase(tasks: seq<Task>, base: nat, n: nat, action: Action)
    requires n <= base <= |tasks| && Reduces(action) && forall m | 0 <= m < base :: !Reduces(tasks[m].action)
    ensures CountAction(tasks, n, action) == 0
  {
    if n > 0 {
      CountBelowBase(tasks, base, n - 1, action);
    }
  }

  /** One more node over a level of w nodes runs one more action. */
  lemma OneMoreNode(w: nat, i: nat, action: Action)
    requires Reduces(action) && 2 * i < w
    ensures LevelTally(Least(2 * (i + 1), w), action)
      == LevelTally(Least(2 * i, w), action) + if action == (if 2 * i + 1 < w then TreeCombine else TreeCarry) then 1 else 0
  {
  }

  lemma WholeLevel(w: nat, action: Action)
    ensures LevelTally(Least(0, w), action) == 0
    ensures LevelTally(Least(2 * ((w + 1) / 2), w), action) == LevelTally(w, action)
  {
  }

  lemma {:induction false} TallyWithin(tasks: seq<Task>, base: nat, g: nat, level: nat, i: nat, action: Action)
    requires LevelsListed(tasks, base, g) && Reduces(action) && level < Height(g) && i <= Width(g, level + 1)
    ensures base + LevelOffset(g, level) + i <= |tasks|
    ensures CountAction(tasks, base + LevelOffset(g, level) + i, action)
      == Tally(g, level, action) + LevelTally(Least(2 * i, Width(g, level)), action)
    decreases level, i
  {
    hide LevelTally, Least, Height;
    WholeLevel(Width(g, level), action);
    if i > 0 {
      TallyWithin(tasks, base, g, level, i - 1, action);
      assert NodeListed(tasks, base, g, level, i - 1);
      OneMoreNode(Width(g, level), i - 1, action);
    } else if level > 0 {
      TallyWithin(tasks, base, g, level - 1, Width(g, level), action);
      WholeLevel(Width(g, level - 1), action);
    } else {
      CountBelowBase(tasks, base, base, action);
    }
  }

  lemma {:induction false} CombinesLeft(g: nat, levels: nat)
    ensures Tally(g, levels, TreeCombine) + Width(g, levels) == g
    ensures Tally(g, levels, TreeCarry) <= levels
  {
    if levels > 0 {
      CombinesLeft(g, levels - 1);
    }
  }

  lemma CarriesBelowHeight(g: nat)
    requires 0 < g
    ensures Tally(g, Height(g), TreeCombine) == g - 1
    ensures Tally(g, Height(g), TreeCarry) <= if g >= 2 then Height(g) - 1 else 0
  {
    HeightIsLeastPower(g);
    CombinesLeft(g, Height(g));
    if g >= 2 {
      CombinesLeft(g, Height(g) - 1);
      assert Width(g, Height(g) - 1) == 2;
    }
  }

  lemma TallyAll(tasks: seq<Task>, base: nat, g: nat, action: Action)
    requires LevelsListed(tasks, base, g) && Reduces(action)
    ensures CountAction(tasks, |tasks|, action) == Tally(g, Height(g), action)
  {
    if Height(g) > 0 {
      TallyWithin(tasks, base, g, Height(g) - 1, Width(g, Height(g)), action);
    } else {
      CountBelowBase(tasks, base, base, action);
    }
  }

  /** A plan over g groups has exactly g - 1 combining tasks, and fewer carrying tasks than tree levels. */
  lemma ReductionTaskCounts(groups: Groups)
    requires WellGrouped(groups)
    ensures var tasks, g := PlanTasks(groups), |groups|;
      && CountAction(tasks, |tasks|, TreeCombine) == g - 1
      && CountAction(tasks, |tasks|, TreeCarry) <= if g >= 2 then Height(g) - 1 else 0
  {
    PlanListsLevels(groups);
    CarriesBelowHeight(|groups|);
    var base := |AllGroupTasks(groups, |groups|)|;
    TallyAll(PlanTasks(groups), base, |groups|, TreeCombine);
    TallyAll(PlanTasks(groups), base, |groups|, TreeCarry);
  }
}
