/** What the key tree carries in a run: under every interleaving the root payload is the sum of all keys. */
module KeyRuns {
  import opened Frames
  import opened Growth
  import opened KeyTree
  import opened Names
  import opened PlanShape
  import opened PlanTree
  import opened Replay
  import opened Ring
  import opened RoundInvariant
  import opened Rounds
  import opened RoundSteps
  import opened Runs
  import opened Scheduler
  import opened Sequences
  import opened Shuffling
  import opened States
  import opened TaskSteps
  import opened Topology
  import opened Wrappers

  type Payloads = map<TaskKey, int>

  function Received(payloads: Payloads, dependencies: seq<TaskKey>, i: nat): int {
    if i < |dependencies| && dependencies[i] in payloads then payloads[dependencies[i]] else 0
  }

  /**
   * What the sender of a task puts into its artifact, in 64-bit words: the actions' meaning. A client knows its own
   * key, its own blind if it coordinates a group, and the artifacts its task depends on.
   */
  function Contribution(task: Task, payloads: Payloads, keys: Keys, blinds: Keys): int {
    var first, second := Received(payloads, task.dependencies, 0), Received(payloads, task.dependencies, 1);
    match task.action
    case GroupStart => Wrap(keys(task.sender) + blinds(task.sender))
    case GroupAdd => Wrap(first + keys(task.sender))
    case GroupUnblind => Wrap(first - blinds(task.sender))
    case TreeCombine => Wrap(first + second)
    case TreeCarry => first
  }

  /** Each group's blind is the one its coordinator drew. */
  function GroupBlinds(groups: Groups, blinds: Keys): Blinds {
    (j: nat) => if j < |groups| && groups[j] != [] then blinds(groups[j][0]) else 0
  }

  /** The exact integer a task stands for. */
  ghost function Worth(groups: Groups, k: TaskKey, keys: Keys, blinds: Keys): int
    requires WellGrouped(groups) && IsTask(groups, k)
  {
    Value(groups, k, keys, GroupBlinds(groups, blinds))
  }

  /** All inputs of a task carry the words of their worth. */
  ghost predicate InputsCarry(groups: Groups, k: TaskKey, payloads: Payloads, keys: Keys, blinds: Keys)
    requires WellGrouped(groups) && IsTask(groups, k)
  {
    forall d | d in Dependencies(groups, k) ::
      IsTask(groups, d) && d in payloads && payloads[d] == Wrap(Worth(groups, d, keys, blinds))
  }

  lemma RingContribution(groups: Groups, k: TaskKey, payloads: Payloads, keys: Keys, blinds: Keys)
    requires WellGrouped(groups) && IsTask(groups, k) && !k.Tree? && InputsCarry(groups, k, payloads, keys, blinds)
    ensures Contribution(TaskOf(groups, k), payloads, keys, blinds) == Wrap(Worth(groups, k, keys, blinds))
  {
    hide Wrap, Operator, Height, Width, Receiver;
    if !k.Start? {
      var d := Dependencies(groups, k)[0];
      assert d in Dependencies(groups, k);
      AddReduced(Worth(groups, d, keys, blinds), if k.Add? then keys(Sender(groups, k)) else blinds(groups[k.group][0]));
    }
  }

  lemma TreeContribution(groups: Groups, k: TaskKey, payloads: Payloads, keys: Keys, blinds: Keys)
    requires WellGrouped(groups) && IsTask(groups, k) && k.Tree? && InputsCarry(groups, k, payloads, keys, blinds)
    ensures Contribution(TaskOf(groups, k), payloads, keys, blinds) == Wrap(Worth(groups, k, keys, blinds))
  {
    hide Wrap, Operator, Height, Receiver;
    var deps := Dependencies(groups, k);
    assert deps[0] in deps;
    if |deps| == 2 {
      assert deps[1] in deps;
      WrapHomomorphic(Worth(groups, deps[0], keys, blinds), Worth(groups, deps[1], keys, blinds));
    }
  }

  /** A sender that follows its action carries the word of its task's worth. */
  lemma ContributionIsWorth(groups: Groups, k: TaskKey, payloads: Payloads, keys: Keys, blinds: Keys)
    requires WellGrouped(groups) && IsTask(groups, k) && InputsCarry(groups, k, payloads, keys, blinds)
    ensures Contribution(TaskOf(groups, k), payloads, keys, blinds) == Wrap(Worth(groups, k, keys, blinds))
  {
    hide Wrap, Worth, Contribution, TaskOf, InputsCarry, IsTask;
    if k.Tree? {
      TreeContribution(groups, k, payloads, keys, blinds);
    } else {
      RingContribution(groups, k, payloads, keys, blinds);
    }
  }

  /** Only one operand being reduced already is enough. */
  lemma AddReduced(x: int, y: int)
    ensures Wrap(Wrap(x) + y) == Wrap(x + y) && Wrap(Wrap(x) - y) == Wrap(x - y)
  {
    hide Wrap;
    var k := WrapQuotient(x);
    WrapCongruent(x + y, k);
    WrapCongruent(x - y, k);
  }

  // ---- Over a run

  ghost predicate UploadedAt(cfg: Config, steps: seq<Step>, n: nat, draw: Draws)
    requires n < |steps|
  {
    && steps[n].op.UploadTask? && Fresh(Answer(cfg, steps, n, draw))
    && steps[n].op.task in Reached(cfg, steps, n, draw).tasks
  }

  /** What the accepted uploads of the first n steps carry when every sender follows its action. */
  ghost function PayloadsAfter(cfg: Config, steps: seq<Step>, n: nat, draw: Draws, keys: Keys, blinds: Keys): Payloads
    requires n <= |steps|
  {
    if n == 0 then map[]
    else
      var before := PayloadsAfter(cfg, steps, n - 1, draw, keys, blinds);
      if UploadedAt(cfg, steps, n - 1, draw) then
        var k := steps[n - 1].op.task;
        before[k := Contribution(Reached(cfg, steps, n - 1, draw).tasks[k].task, before, keys, blinds)]
      else before
  }

  /** Every uploaded task carries the word its exact worth wraps to. */
  ghost predicate Sound(r: Round, payloads: Payloads, keys: Keys, blinds: Keys) {
    r.plan.Some? ==> forall k | k in r.tasks && r.tasks[k].upload.Some? ::
      CarriesWorth(r.plan.value.groups, k, payloads, keys, blinds)
  }

  ghost predicate CarriesWorth(groups: Groups, k: TaskKey, payloads: Payloads, keys: Keys, blinds: Keys) {
    WellGrouped(groups) && IsTask(groups, k) && k in payloads && payloads[k] == Wrap(Worth(groups, k, keys, blinds))
  }

  /** A ready task's dependencies have all been uploaded. */
  lemma ReadyInputsUploaded(r: Round, k: TaskKey, d: TaskKey)
    requires Inv(r) && k in r.tasks && r.tasks[k].state == Ready && d in r.tasks[k].task.dependencies
    ensures d in r.tasks && r.tasks[d].upload.Some?
  {
    hide Inv;
    TasksInOrder(r);
    assert DependenciesCompleted(r.tasks, k);
    CompletedIsFiled(r, d);
  }

  lemma UploadCarriesWorth(r: Round, k: TaskKey, payloads: Payloads, keys: Keys, blinds: Keys)
    requires Inv(r) && k in r.tasks && r.tasks[k].state == Ready && r.plan.Some? && Sound(r, payloads, keys, blinds)
    ensures CarriesWorth(r.plan.value.groups, k,
      payloads[k := Contribution(r.tasks[k].task, payloads, keys, blinds)], keys, blinds)
  {
    hide Inv, Wrap, Worth, Contribution, IsTask, PlanOf, Sender, Receiver, Dependencies;
    PlanShaped(r);
    var groups := r.plan.value.groups;
    forall d | d in Dependencies(groups, k)
      ensures IsTask(groups, d) && d in payloads && payloads[d] == Wrap(Worth(groups, d, keys, blinds))
    {
      ReadyInputsUploaded(r, k, d);
      assert CarriesWorth(groups, d, payloads, keys, blinds);
    }
    ContributionIsWorth(groups, k, payloads, keys, blinds);
  }

  lemma SoundAfterUpload(r: Round, step: Step, draw: Draws, payloads: Payloads, keys: Keys, blinds: Keys)
    requires Inv(r) && Productive(draw) && Sound(r, payloads, keys, blinds) && step.op.UploadTask?
    ensures var o, k := Perform(r, step, draw), step.op.task;
      if Fresh(o.reply) then
        k in r.tasks && Sound(o.round, payloads[k := Contribution(r.tasks[k].task, payloads, keys, blinds)], keys, blinds)
      else Sound(o.round, payloads, keys, blinds)
  {
    hide Inv, Perform, Admitted, Insertable, Fresh, Wrap, Worth, Contribution, IsTask;
    var k := step.op.task;
    if !Admitted(r, step.op) || IdemKey(step.op.client, TaskUploadOp(k), step.op.key) in r.idem {
      NothingNew(r, step, draw);
    } else {
      UploadAcceptedIff(r, step, draw);
      if Fresh(Perform(r, step, draw).reply) {
        PlanKept(r, step, draw);
        NoTasksWithoutPlan(r);
        UploadCarriesWorth(r, k, payloads, keys, blinds);
      }
    }
  }

  lemma SoundAfterOther(r: Round, step: Step, draw: Draws, payloads: Payloads, keys: Keys, blinds: Keys)
    requires Inv(r) && Productive(draw) && Sound(r, payloads, keys, blinds) && !step.op.UploadTask?
    ensures Sound(Perform(r, step, draw).round, payloads, keys, blinds)
  {
    hide Inv, CarriesWorth;
    if step.op.AckTask? {
      SameUploadsAfterAck(r, step, draw);
      PlanKeptOrEmpty(r, step, draw);
      hide Perform;
    } else {
      StepFrame(r, step, draw);
      hide Transact;
      assert Perform(r, step, draw) == Settle(r, Transact(r, step, draw));
    }
  }

  lemma PlanKeptOrEmpty(r: Round, step: Step, draw: Draws)
    requires Inv(r) && Productive(draw)
    ensures r.tasks != map[] ==> Perform(r, step, draw).round.plan == r.plan
  {
    hide Inv, Perform;
    if r.tasks != map[] {
      PlanKept(r, step, draw);
    }
  }

  /** An acknowledgement changes no upload. */
  lemma SameUploadsAfterAck(r: Round, step: Step, draw: Draws)
    requires Inv(r) && step.op.AckTask?
    ensures var after := Perform(r, step, draw).round;
      after.tasks.Keys == r.tasks.Keys && forall k | k in r.tasks :: after.tasks[k].upload == r.tasks[k].upload
  {
    hide Inv, Perform, Admitted, Fresh, Activate;
    if !Admitted(r, step.op) || IdemKey(step.op.client, TaskAckOp(step.op.task), step.op.key) in r.idem {
      NothingNew(r, step, draw);
    } else {
      AckAcceptedIff(r, step, draw);
      if Fresh(Perform(r, step, draw).reply) {
        ActivateFrame(Acknowledged(r.tasks, step.op.task, step.now), r.edges);
        assert Acknowledged(r.tasks, step.op.task, step.now).Keys == r.tasks.Keys;
      }
    }
  }

  lemma {:induction false} PayloadsSound(cfg: Config, steps: seq<Step>, n: nat, draw: Draws, keys: Keys, blinds: Keys)
    requires Proper(cfg) && Productive(draw) && n <= |steps|
    ensures Sound(Reached(cfg, steps, n, draw), PayloadsAfter(cfg, steps, n, draw, keys, blinds), keys, blinds)
  {
    hide Inv, Perform, Reached, Configured, Started, Answer, Contribution, Sound;
    if n == 0 {
      AtFirst(cfg, steps, draw);
      SoundAtFirst(cfg, keys, blinds);
    } else {
      PayloadsSound(cfg, steps, n - 1, draw, keys, blinds);
      ReachedKeeps(cfg, steps, n - 1, draw);
      NextReached(cfg, steps, n - 1, draw);
      var r, step := Reached(cfg, steps, n - 1, draw), steps[n - 1];
      var before := PayloadsAfter(cfg, steps, n - 1, draw, keys, blinds);
      if step.op.UploadTask? {
        SoundAfterUpload(r, step, draw, before, keys, blinds);
      } else {
        SoundAfterOther(r, step, draw, before, keys, blinds);
      }
    }
  }

  lemma SoundAtFirst(cfg: Config, keys: Keys, blinds: Keys)
    ensures Sound(Started(cfg), map[], keys, blinds)
  {
  }

  lemma SumOfMembers(groups: Groups, roster: seq<ClientId>, keys: Keys)
    requires Partitions(groups, roster)
    ensures Sum(Join(groups), keys) == Sum(roster, keys)
  {
    SumPermutation(Join(groups), roster, keys);
  }

  lemma RootCarriesSum(r: Round, payloads: Payloads, keys: Keys, blinds: Keys)
    requires Inv(r) && r.plan.Some? && AllTasksCompleted(r.tasks) && Sound(r, payloads, keys, blinds)
    ensures r.plan.value.rootTask in payloads && payloads[r.plan.value.rootTask] == Wrap(Sum(r.row.roster, keys))
  {
    hide RosterOk, SchedulerOk, FinalOk, ArtifactsOk, JobOk, ResultOk, AuditOk, VersionOk, IdemOk, BarriersOk, StageOk;
    hide IsTask, TaskOf, PlanTasks, Wrap, Height, Sum;
    var groups := r.plan.value.groups;
    var root := RootTask(groups);
    SumOfMembers(groups, r.row.roster, keys);
    RootValueIsKeySum(groups, keys, GroupBlinds(groups, blinds));
    CompletedIsFiled(r, root);
    assert CarriesWorth(groups, root, payloads, keys, blinds);
  }

  /** Once every task is completed, the root artifact carries the sum of all keys. */
  ghost predicate RootCarries(r: Round, payloads: Payloads, roster: seq<ClientId>, keys: Keys) {
    r.plan.Some? && AllTasksCompleted(r.tasks) ==>
      && r.plan.value.rootTask in payloads
      && payloads[r.plan.value.rootTask] == Wrap(Sum(roster, keys))
  }

  /**
   * Key tree soundness: once every task is completed, the root artifact carries the sum of every participant's key,
   * each exactly once and with all blinds gone, whatever order uploads and acknowledgements came in.
   */
  lemma RootIsKeySum(cfg: Config, steps: seq<Step>, n: nat, draw: Draws, keys: Keys, blinds: Keys)
    requires Proper(cfg) && Productive(draw) && n <= |steps|
    ensures RootCarries(Reached(cfg, steps, n, draw), PayloadsAfter(cfg, steps, n, draw, keys, blinds), cfg.roster, keys)
  {
    hide Inv, Reached, PayloadsAfter, AllTasksCompleted, Sound, Sum, Wrap;
    ReachedKeeps(cfg, steps, n, draw);
    PayloadsSound(cfg, steps, n, draw, keys, blinds);
    var r := Reached(cfg, steps, n, draw);
    if r.plan.Some? && AllTasksCompleted(r.tasks) {
      RootCarriesSum(r, PayloadsAfter(cfg, steps, n, draw, keys, blinds), keys, blinds);
    }
  }
}
