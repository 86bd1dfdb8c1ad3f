/** The key plan in closed form: which tasks a grouping gives, who runs them and what they wait for. */
module PlanShape {
  import opened Names
  import opened Sequences
  import opened Wrappers

  datatype PlanError = TooFewParticipants | UnbalancedGroups | DuplicateParticipants

  function GroupCount(participants: nat): nat {
    (participants + 3) / 4
  }

  function GroupSizes(participants: nat): (sizes: Result<seq<nat>, PlanError>)
    ensures participants < 3 ==> sizes == Failure(TooFewParticipants)
  {
    if participants < 3 then Failure(TooFewParticipants)
    else if participants == 5 then Success([5])
    else
      var count := GroupCount(participants);
      var base, remainder := participants / count, participants % count;
      var sizes := seq(count, i => base + if i < remainder then 1 else 0);
      if exists size | size in sizes :: size != 3 && size != 4 then Failure(UnbalancedGroups) else Success(sizes)
  }

  /** Where group n starts: the sizes of the groups before it added up. */
  function Offset(sizes: seq<nat>, n: nat): nat
    requires n <= |sizes|
  {
    if n == 0 then 0 else Offset(sizes, n - 1) + sizes[n - 1]
  }

  lemma {:induction false} OffsetMonotone(sizes: seq<nat>, m: nat, n: nat)
    requires m <= n <= |sizes|
    ensures Offset(sizes, m) <= Offset(sizes, n)
    decreases n
  {
    if m < n {
      OffsetMonotone(sizes, m, n - 1);
    }
  }

  /** The first n groups: consecutive slices of the given sizes. */
  function SplitTo(members: seq<ClientId>, sizes: seq<nat>, n: nat): (groups: Groups)
    requires n <= |sizes| && Offset(sizes, |sizes|) == |members|
    ensures |groups| == n
  {
    if n == 0 then []
    else
      OffsetMonotone(sizes, n, |sizes|);
      SplitTo(members, sizes, n - 1) + [members[Offset(sizes, n - 1)..Offset(sizes, n)]]
  }

  function SplitGroups(members: seq<ClientId>, sizes: seq<nat>): Groups
    requires Offset(sizes, |sizes|) == |members|
  {
    SplitTo(members, sizes, |sizes|)
  }

  function Pow2(k: nat): (p: nat)
    ensures 0 < p
  {
    if k == 0 then 1 else 2 * Pow2(k - 1)
  }

  /** How many nodes the reduction over g groups has at height h, group results being height 0. */
  function Width(g: nat, h: nat): (w: nat)
    ensures 0 < g ==> 0 < w
  {
    if h == 0 then g else (Width(g, h - 1) + 1) / 2
  }

  /** How often the halving loop runs. */
  function Height(g: nat): nat {
    if g <= 1 then 0 else 1 + Height((g + 1) / 2)
  }

  datatype TaskKey =
    | Start(group: nat)
    | Add(group: nat, position: nat)
    | Unblind(group: nat)
    | Tree(level: nat, index: nat)

  /** The task_id text of a task: g2-start, g2-add-1, g2-unblind or t0-3. */
  function TaskName(key: TaskKey): string {
    match key
    case Tree(level, index) => "t" + Decimal(level) + "-" + Decimal(index)
    case _ => "g" + Decimal(key.group) + "-" + GroupStep(key)
  }

  function GroupStep(key: TaskKey): string
    requires !key.Tree?
  {
    match key
    case Start(_) => "start"
    case Add(_, position) => "add-" + Decimal(position)
    case Unblind(_) => "unblind"
  }

  datatype Action = GroupStart | GroupAdd | GroupUnblind | TreeCombine | TreeCarry
  datatype TaskStage = GroupStage | TreeStage

  datatype Task = Task(
    id: TaskKey, action: Action, stage: TaskStage, level: nat,
    sender: ClientId, receiver: ClientId, dependencies: seq<TaskKey>)

  type Groups = seq<seq<ClientId>>

  datatype Plan = Plan(
    participants: seq<ClientId>, groups: Groups, tasks: seq<Task>,
    rootClient: ClientId, rootTask: TaskKey, treeLevels: nat)

  /** Groups of three to five members, as the grouping rule gives them. */
  predicate WellGrouped(groups: Groups) {
    groups != [] && forall j | 0 <= j < |groups| :: 3 <= |groups[j]| <= 5
  }

  /** The task that ends the work at node (h, i): a group's unblinding, or a reduction task. */
  function NodeKey(h: nat, i: nat): TaskKey {
    if h == 0 then Unblind(i) else Tree(h - 1, i)
  }

  /** The client that runs node (h, i): the first child's operator, down to a group coordinator. */
  function Operator(groups: Groups, h: nat, i: nat): ClientId
    requires WellGrouped(groups) && i < Width(|groups|, h)
  {
    if h == 0 then groups[i][0] else Operator(groups, h - 1, 2 * i)
  }

  /** The client that receives the output of node (h, i): its parent's operator, or itself at the root. */
  function Target(groups: Groups, h: nat, i: nat): ClientId
    requires WellGrouped(groups) && h <= Height(|groups|) && i < Width(|groups|, h)
  {
    if h == Height(|groups|) then Operator(groups, h, i) else Operator(groups, h + 1, i / 2)
  }

  predicate IsTask(groups: Groups, key: TaskKey) {
    match key
    case Start(group) => group < |groups|
    case Add(group, position) => group < |groups| && 1 <= position < |groups[group]|
    case Unblind(group) => group < |groups|
    case Tree(level, index) => level < Height(|groups|) && index < Width(|groups|, level + 1)
  }

  function Dependencies(groups: Groups, key: TaskKey): seq<TaskKey>
    requires WellGrouped(groups) && IsTask(groups, key)
  {
    match key
    case Start(_) => []
    case Add(group, position) => [if position == 1 then Start(group) else Add(group, position - 1)]
    case Unblind(group) => [Add(group, |groups[group]| - 1)]
    case Tree(level, index) =>
      [NodeKey(level, 2 * index)]
      + if 2 * index + 1 < Width(|groups|, level) then [NodeKey(level, 2 * index + 1)] else []
  }

  function Sender(groups: Groups, key: TaskKey): ClientId
    requires WellGrouped(groups) && IsTask(groups, key)
  {
    match key
    case Start(group) => groups[group][0]
    case Add(group, position) => groups[group][position]
    case Unblind(group) => groups[group][0]
    case Tree(level, index) => Operator(groups, level + 1, index)
  }

  function Receiver(groups: Groups, key: TaskKey): ClientId
    requires WellGrouped(groups) && IsTask(groups, key)
  {
    match key
    case Start(group) => groups[group][1]
    case Add(group, position) => if position + 1 < |groups[group]| then groups[group][position + 1] else groups[group][0]
    case Unblind(group) => Target(groups, 0, group)
    case Tree(level, index) => Target(groups, level + 1, index)
  }

  function ActionOf(groups: Groups, key: TaskKey): Action {
    match key
    case Start(_) => GroupStart
    case Add(_, _) => GroupAdd
    case Unblind(_) => GroupUnblind
    case Tree(level, index) => if 2 * index + 1 < Width(|groups|, level) then TreeCombine else TreeCarry
  }

  function TaskOf(groups: Groups, key: TaskKey): (t: Task)
    requires WellGrouped(groups) && IsTask(groups, key)
    ensures t.id == key && t.action == ActionOf(groups, key)
  {
    Task(
      key, ActionOf(groups, key),
      if key.Tree? then TreeStage else GroupStage,
      if key.Tree? then key.level else 0,
      Sender(groups, key), Receiver(groups, key), Dependencies(groups, key))
  }

  /** The tasks of one group in the order they are emitted: start, one addition per further member, unblinding. */
  function GroupTasks(groups: Groups, j: nat): (tasks: seq<Task>)
    requires WellGrouped(groups) && j < |groups|
    ensures |tasks| == |groups[j]| + 1
    ensures tasks[0] == TaskOf(groups, Start(j))
    ensures forall p | 1 <= p < |groups[j]| :: tasks[p] == TaskOf(groups, Add(j, p))
    ensures tasks[|groups[j]|] == TaskOf(groups, Unblind(j))
  {
    [TaskOf(groups, Start(j))]
    + seq(|groups[j]| - 1, p requires 0 <= p < |groups[j]| - 1 => TaskOf(groups, Add(j, p + 1)))
    + [TaskOf(groups, Unblind(j))]
  }

  function AllGroupTasks(groups: Groups, n: nat): seq<Task>
    requires WellGrouped(groups) && n <= |groups|
  {
    if n == 0 then [] else AllGroupTasks(groups, n - 1) + GroupTasks(groups, n - 1)
  }

  function LevelTasks(groups: Groups, level: nat): (tasks: seq<Task>)
    requires WellGrouped(groups) && level < Height(|groups|)
    ensures |tasks| == Width(|groups|, level + 1)
    ensures forall i | 0 <= i < |tasks| :: tasks[i] == TaskOf(groups, Tree(level, i))
  {
    seq(Width(|groups|, level + 1),
        i requires 0 <= i < Width(|groups|, level + 1) => TaskOf(groups, Tree(level, i)))
  }

  /** How many reduction tasks the first levels hold together. */
  function LevelOffset(g: nat, levels: nat): nat {
    if levels == 0 then 0 else LevelOffset(g, levels - 1) + Width(g, levels)
  }

  function TreeTasks(groups: Groups, levels: nat): (tasks: seq<Task>)
    requires WellGrouped(groups) && levels <= Height(|groups|)
    ensures |tasks| == LevelOffset(|groups|, levels)
  {
    if levels == 0 then [] else TreeTasks(groups, levels - 1) + LevelTasks(groups, levels - 1)
  }

  function PlanTasks(groups: Groups): seq<Task>
    requires WellGrouped(groups)
  {
    AllGroupTasks(groups, |groups|) + TreeTasks(groups, Height(|groups|))
  }

  function RootTask(groups: Groups): TaskKey {
    NodeKey(Height(|groups|), 0)
  }

  function PlanOf(members: seq<ClientId>, groups: Groups): Plan
    requires WellGrouped(groups)
  {
    Plan(members, groups, PlanTasks(groups),
         groups[0][0], RootTask(groups), Height(|groups|))
  }
}
