/** The task scheduler over whole runs: order, progress, routing, and the number of accepted steps. */
module Scheduler {
  import opened Frames
  import opened Growth
  import opened KeyTree
  import opened Names
  import opened PlanShape
  import opened PlanTree
  import opened Replay
  import opened RoundInvariant
  import opened Rounds
  import opened RoundSteps
  import opened Runs
  import opened Sequences
  import opened Shuffling
  import opened States
  import opened TaskSteps
  import opened Topology
  import opened Wrappers

  // ---- Order

  /** A task waits exactly while some dependency is not completed, and it is past waiting only when all are. */
  ghost predicate InOrder(r: Round) {
    forall k | k in r.tasks ::
      && (forall d | d in r.tasks[k].task.dependencies :: d in r.tasks)
      && (r.tasks[k].state == Waiting <==> !DependenciesCompleted(r.tasks, k))
  }

  ghost predicate DependenciesCompleted(tasks: map<TaskKey, TaskRow>, k: TaskKey)
    requires k in tasks
  {
    forall d | d in tasks[k].task.dependencies :: d in tasks && tasks[d].state == TaskCompleted
  }

  lemma WaitsExactlyForDependencies(cfg: Config, steps: seq<Step>, n: nat, draw: Draws)
    requires Proper(cfg) && Productive(draw) && n <= |steps|
    ensures InOrder(Reached(cfg, steps, n, draw))
  {
    ReachedKeeps(cfg, steps, n, draw);
    hide Reached, Configured;
    TasksInOrder(Reached(cfg, steps, n, draw));
  }

  lemma TasksInOrder(r: Round)
    requires Inv(r)
    ensures InOrder(r)
  {
    hide RosterOk, PlanOk, FinalOk, ArtifactsOk, JobOk, ResultOk, AuditOk, VersionOk, IdemOk, BarriersOk, StageOk;
    forall k | k in r.tasks ensures TaskOk(r.tasks, k) {
    }
  }

  // ---- Progress

  predicate Open(tasks: map<TaskKey, TaskRow>, k: TaskKey) {
    k in tasks && tasks[k].state in {Ready, ArtifactUploaded}
  }

  ghost predicate RankedTasks(tasks: map<TaskKey, TaskRow>) {
    forall k | k in tasks :: forall d | d in tasks[k].task.dependencies :: d in tasks && Rank(d) < Rank(k)
  }

  lemma TasksRanked(r: Round)
    requires Inv(r)
    ensures RankedTasks(r.tasks)
  {
    hide RosterOk, FinalOk, ArtifactsOk, JobOk, ResultOk, AuditOk, VersionOk, IdemOk, BarriersOk, StageOk, SchedulerOk;
    if r.plan.Some? {
      var groups := r.plan.value.groups;
      hide IsTask, PlanOf, Rank, Dependencies, Sender, Receiver;
      forall k | k in r.tasks ensures forall d | d in r.tasks[k].task.dependencies :: d in r.tasks && Rank(d) < Rank(k) {
        DependenciesRankLower(groups, k);
      }
    }
  }

  /** Below every task that is not completed there is one somebody can work on. */
  lemma {:induction false} OpenTaskBelow(tasks: map<TaskKey, TaskRow>, receipts: map<TaskKey, TaskReceipt>, k: TaskKey)
    returns (open: TaskKey)
    requires SchedulerOk(tasks, receipts) && RankedTasks(tasks) && k in tasks && tasks[k].state != TaskCompleted
    ensures Open(tasks, open)
    decreases Rank(k)
  {
    assert TaskOk(tasks, k);
    if tasks[k].state == Waiting {
      var d :| d in tasks[k].task.dependencies && d in tasks && tasks[d].state != TaskCompleted;
      open := OpenTaskBelow(tasks, receipts, d);
    } else {
      open := k;
    }
  }

  /** While some task is not completed, some task is ready or uploaded: the tree never gets stuck. */
  lemma NeverStuck(cfg: Config, steps: seq<Step>, n: nat, draw: Draws)
    requires Proper(cfg) && Productive(draw) && n <= |steps|
    ensures var r := Reached(cfg, steps, n, draw); AllTasksCompleted(r.tasks) || exists k :: Open(r.tasks, k)
  {
    ReachedKeeps(cfg, steps, n, draw);
    var r := Reached(cfg, steps, n, draw);
    hide Reached, Configured, RankedTasks, TaskOk;
    TasksRanked(r);
    if !AllTasksCompleted(r.tasks) {
      var k :| k in r.tasks && r.tasks[k].state != TaskCompleted;
      var open := OpenTaskBelow(r.tasks, r.taskReceipts, k);
    }
  }

  // ---- When the steps of the tree are accepted

  predicate Fresh(reply: Result<Reply, Error>) {
    reply.Success? && !reply.value.replay
  }

  lemma NoFileBeforeUpload(r: Round, k: TaskKey, client: Option<ClientId>)
    requires Inv(r) && k in r.tasks && r.tasks[k].state == Ready
    ensures !SlotTaken(r.artifacts, client, TaskFile(k))
  {
    ReadyHasNoUpload(r, k);
    hide RosterOk, PlanOk, FinalOk, JobOk, ResultOk, AuditOk, VersionOk, IdemOk, BarriersOk, StageOk, SchedulerOk;
    forall id | id in r.artifacts ensures ArtifactOwned(id, r.artifacts[id], r.participants, r.tasks, r.finalKey) {
    }
  }

  /**
   * Under a new key, a participant's upload is accepted exactly when key aggregation is on, the task is ready and the
   * participant's own, and the file is new; so a ready task that is offered can be worked on.
   */
  lemma UploadAcceptedIff(r: Round, step: Step, draw: Draws)
    requires Inv(r) && step.op.UploadTask? && Admitted(r, step.op)
    requires IdemKey(step.op.client, TaskUploadOp(step.op.task), step.op.key) !in r.idem
    ensures var o, k := Perform(r, step, draw), step.op.task;
      && (Fresh(o.reply) <==>
            && r.row.state == KeyAggregation && k in r.tasks && r.tasks[k].state == Ready
            && r.tasks[k].task.sender == step.op.client && Insertable(r.artifacts, step.op.stored))
      && (if Fresh(o.reply) then
            && k in r.tasks && r.tasks[k].state == Ready
            && o.round.tasks == r.tasks[k := TaskUploaded(r.tasks[k], step.op.upload, step.op.stored.objectId)]
          else o.round == r)
  {
    hide Inv, SlotTaken;
    if step.op.task in r.tasks && r.tasks[step.op.task].state == Ready {
      NoFileBeforeUpload(r, step.op.task, Some(step.op.client));
    }
  }

  /** An acknowledgement is accepted exactly when the sender names the ciphertext it uploaded. */
  lemma AckAcceptedIff(r: Round, step: Step, draw: Draws)
    requires Inv(r) && step.op.AckTask? && Admitted(r, step.op)
    requires IdemKey(step.op.client, TaskAckOp(step.op.task), step.op.key) !in r.idem
    ensures var o, k := Perform(r, step, draw), step.op.task;
      && (Fresh(o.reply) <==>
            && r.row.state == KeyAggregation && k in r.tasks && r.tasks[k].state == ArtifactUploaded
            && r.tasks[k].task.sender == step.op.client
            && r.tasks[k].upload.Some? && r.tasks[k].upload.value.ciphertextDigest == step.op.artifactDigest)
      && (if Fresh(o.reply) then
            && k in r.tasks && r.tasks[k].state == ArtifactUploaded
            && o.round.tasks == Activate(Acknowledged(r.tasks, k, step.now), r.edges)
          else o.round == r)
  {
    hide Inv, Activate;
    if step.op.task in r.tasks && r.tasks[step.op.task].state == ArtifactUploaded {
      NoReceiptBeforeAck(r, step.op.task);
    }
  }

  lemma NoReceiptBeforeAck(r: Round, k: TaskKey)
    requires Inv(r) && k in r.tasks && r.tasks[k].state == ArtifactUploaded
    ensures k !in r.taskReceipts
  {
  }

  lemma NoFinalFileYet(r: Round, client: Option<ClientId>)
    requires Inv(r) && r.finalKey.None?
    ensures !SlotTaken(r.artifacts, client, FinalKeyFile)
  {
    hide RosterOk, PlanOk, FinalOk, JobOk, ResultOk, AuditOk, VersionOk, IdemOk, BarriersOk, StageOk, SchedulerOk;
    forall id | id in r.artifacts ensures ArtifactOwned(id, r.artifacts[id], r.participants, r.tasks, r.finalKey) {
    }
  }

  /** The final key is accepted exactly once, from the root client, when the whole tree is completed. */
  lemma FinalKeyAcceptedIff(r: Round, step: Step, draw: Draws)
    requires Inv(r) && step.op.PublishFinal? && Admitted(r, step.op)
    requires IdemKey(step.op.client, FinalKeyOp, step.op.key) !in r.idem
    ensures var o := Perform(r, step, draw);
      && (Fresh(o.reply) <==>
            && r.row.state == KeyAggregation && r.plan.Some? && r.plan.value.rootClient == step.op.client
            && AllTasksCompleted(r.tasks) && r.finalKey.None? && Insertable(r.artifacts, step.op.stored))
      && (if Fresh(o.reply) then o.round.finalKey.Some? && o.round.finalKey.value.sender == step.op.client else o.round == r)
  {
    hide Inv, SlotTaken, AllTasksCompleted;
    if r.finalKey.None? {
      NoFinalFileYet(r, Some(step.op.client));
    }
  }

  // ---- Routing

  /** The client is handed a task's artifact: it is the receiver, the task is completed and the artifact is on file. */
  ghost predicate MayFetch(r: Round, k: TaskKey, client: ClientId) {
    && k in r.tasks && r.tasks[k].task.receiver == client && r.tasks[k].state == TaskCompleted
    && r.tasks[k].upload.Some? && Filed(r.artifacts, r.tasks[k].upload.value.artifactId, r.tasks[k].task.sender, TaskFile(k))
  }

  /** Whoever is to run a task gets the artifact of each of its dependencies, and the root client that of the root. */
  ghost predicate InputsDelivered(r: Round) {
    && (forall k | k in r.tasks && r.tasks[k].state != Waiting :: DeliveredTo(r, k))
    && (r.plan.Some? && AllTasksCompleted(r.tasks) ==> MayFetch(r, r.plan.value.rootTask, r.plan.value.rootClient))
  }

  ghost predicate DeliveredTo(r: Round, k: TaskKey)
    requires k in r.tasks
  {
    forall d | d in r.tasks[k].task.dependencies :: MayFetch(r, d, r.tasks[k].task.sender)
  }

  lemma ReceiverIsConsumer(groups: Groups, k: TaskKey, d: TaskKey)
    requires WellGrouped(groups) && IsTask(groups, k) && d in Dependencies(groups, k)
    ensures IsTask(groups, d) && Receiver(groups, d) == Sender(groups, k)
  {
    hide Dependencies, Receiver, Sender, Consumer;
    DependenciesAreTasks(groups, k);
    ConsumedExactlyOnce(groups, d, k);
    RoutedToConsumer(groups, d);
  }

  lemma CompletedIsFiled(r: Round, k: TaskKey)
    requires Inv(r) && k in r.tasks && r.tasks[k].state == TaskCompleted
    ensures r.tasks[k].upload.Some?
    ensures Filed(r.artifacts, r.tasks[k].upload.value.artifactId, r.tasks[k].task.sender, TaskFile(k))
  {
    hide RosterOk, PlanOk, FinalOk, JobOk, ResultOk, AuditOk, VersionOk, IdemOk, BarriersOk, StageOk;
    assert TaskOk(r.tasks, k);
  }

  lemma PlanShaped(r: Round)
    requires Inv(r) && r.plan.Some?
    ensures var groups := r.plan.value.groups;
      && WellGrouped(groups) && r.plan.value == PlanOf(r.plan.value.participants, groups)
      && (forall k :: k in r.tasks <==> IsTask(groups, k))
      && (forall k | k in r.tasks :: r.tasks[k].task == TaskOf(groups, k))
  {
    hide RosterOk, SchedulerOk, FinalOk, ArtifactsOk, JobOk, ResultOk, AuditOk, VersionOk, IdemOk, BarriersOk, StageOk;
    hide IsTask, TaskOf, PlanOf;
  }

  lemma NoTasksWithoutPlan(r: Round)
    requires Inv(r)
    ensures r.plan.None? ==> r.tasks == map[]
  {
  }

  lemma InputDelivered(r: Round, k: TaskKey, d: TaskKey)
    requires Inv(r) && r.plan.Some? && k in r.tasks && r.tasks[k].state != Waiting && d in r.tasks[k].task.dependencies
    ensures MayFetch(r, d, r.tasks[k].task.sender)
  {
    hide Inv, IsTask, PlanOf, Dependencies, Sender, Receiver;
    PlanShaped(r);
    TasksInOrder(r);
    ReceiverIsConsumer(r.plan.value.groups, k, d);
    assert DependenciesCompleted(r.tasks, k);
    CompletedIsFiled(r, d);
  }

  lemma RootDelivered(r: Round)
    requires Inv(r) && r.plan.Some? && AllTasksCompleted(r.tasks)
    ensures MayFetch(r, r.plan.value.rootTask, r.plan.value.rootClient)
  {
    hide Inv, IsTask, PlanTasks, Height, Sender, Receiver, Dependencies;
    PlanShaped(r);
    var groups := r.plan.value.groups;
    RootValueIsKeySum(groups, c => 0, j => 0);
    RoutedToConsumer(groups, RootTask(groups));
    CompletedIsFiled(r, RootTask(groups));
  }

  /** In every reachable state, every output has reached the client that consumes it. */
  lemma OutputsReachConsumers(cfg: Config, steps: seq<Step>, n: nat, draw: Draws)
    requires Proper(cfg) && Productive(draw) && n <= |steps|
    ensures InputsDelivered(Reached(cfg, steps, n, draw))
  {
    ReachedKeeps(cfg, steps, n, draw);
    var r := Reached(cfg, steps, n, draw);
    hide Reached, Configured, Inv, MayFetch, AllTasksCompleted;
    NoTasksWithoutPlan(r);
    forall k, d | k in r.tasks && r.tasks[k].state != Waiting && d in r.tasks[k].task.dependencies
      ensures MayFetch(r, d, r.tasks[k].task.sender)
    {
      InputDelivered(r, k, d);
    }
    if r.plan.Some? && AllTasksCompleted(r.tasks) {
      RootDelivered(r);
    }
  }

  // ---- Counting the accepted steps

  predicate IsTaskStep(op: Op) {
    op.UploadTask? || op.AckTask?
  }

  ghost predicate TaskStepAt(cfg: Config, steps: seq<Step>, n: nat, draw: Draws)
    requires n < |steps|
  {
    IsTaskStep(steps[n].op) && Fresh(Answer(cfg, steps, n, draw))
  }

  /** How many uploads and acknowledgements were newly accepted in the first n steps. */
  ghost function TaskStepsAccepted(cfg: Config, steps: seq<Step>, n: nat, draw: Draws): nat
    requires n <= |steps|
  {
    if n == 0 then 0 else TaskStepsAccepted(cfg, steps, n - 1, draw) + (if TaskStepAt(cfg, steps, n - 1, draw) then 1 else 0)
  }

  function Halves(tasks: map<TaskKey, TaskRow>, k: TaskKey): nat {
    if k !in tasks then 0
    else match tasks[k].state
      case ArtifactUploaded => 1
      case TaskCompleted => 2
      case _ => 0
  }

  /** How many steps the first n tasks of the list have behind them. */
  function Progress(tasks: map<TaskKey, TaskRow>, list: seq<Task>, n: nat): (p: nat)
    requires n <= |list|
    ensures p <= 2 * n
  {
    if n == 0 then 0 else Progress(tasks, list, n - 1) + Halves(tasks, list[n - 1].id)
  }

  function Advanced(r: Round): nat {
    if r.plan.Some? then Progress(r.tasks, r.plan.value.tasks, |r.plan.value.tasks|) else 0
  }

  /** One task taking one step takes the sum up by one, if it is listed once. */
  lemma {:induction false} OneStepOn(tasks: map<TaskKey, TaskRow>, after: map<TaskKey, TaskRow>, list: seq<Task>, k: TaskKey, n: nat, at: nat)
    requires n <= |list| && at < |list| && list[at].id == k
    requires forall i | 0 <= i < |list| && i != at :: list[i].id != k
    requires Halves(after, k) == Halves(tasks, k) + 1 && forall j | j != k :: Halves(after, j) == Halves(tasks, j)
    ensures Progress(after, list, n) == Progress(tasks, list, n) + if at < n then 1 else 0
  {
    hide Halves;
    if n > 0 {
      OneStepOn(tasks, after, list, k, n - 1, at);
    }
  }

  lemma {:induction false} AllAtEnd(tasks: map<TaskKey, TaskRow>, list: seq<Task>, n: nat)
    requires n <= |list|
    ensures Progress(tasks, list, n) == 2 * n <==> forall i | 0 <= i < n :: Halves(tasks, list[i].id) == 2
  {
    if n > 0 {
      AllAtEnd(tasks, list, n - 1);
    }
  }

  lemma {:induction false} NothingBehind(tasks: map<TaskKey, TaskRow>, list: seq<Task>, n: nat)
    requires n <= |list| && forall k | k in tasks :: Halves(tasks, k) == 0
    ensures Progress(tasks, list, n) == 0
  {
    if n > 0 {
      NothingBehind(tasks, list, n - 1);
    }
  }

  lemma ListedOnce(groups: Groups, k: TaskKey) returns (at: nat)
    requires WellGrouped(groups) && IsTask(groups, k)
    ensures at < |PlanTasks(groups)| && PlanTasks(groups)[at].id == k
    ensures forall i | 0 <= i < |PlanTasks(groups)| && i != at :: PlanTasks(groups)[i].id != k
  {
    hide PlanTasks, IsTask, TaskOf, TaskName;
    PlanTasksExact(groups);
    var t :| t in PlanTasks(groups) && t.id == k;
    at :| 0 <= at < |PlanTasks(groups)| && PlanTasks(groups)[at] == t;
  }

  lemma TaskAdvanced(r: Round, after: Round, k: TaskKey)
    requires Inv(r) && k in r.tasks && after.plan == r.plan
    requires Halves(after.tasks, k) == Halves(r.tasks, k) + 1
    requires forall j | j != k :: Halves(after.tasks, j) == Halves(r.tasks, j)
    ensures Advanced(after) == Advanced(r) + 1
  {
    hide Inv, PlanTasks, IsTask, TaskOf, Halves;
    NoTasksWithoutPlan(r);
    PlanShaped(r);
    var at := ListedOnce(r.plan.value.groups, k);
    OneStepOn(r.tasks, after.tasks, r.plan.value.tasks, k, |r.plan.value.tasks|, at);
  }

  lemma PlanKept(r: Round, step: Step, draw: Draws)
    requires Inv(r) && Productive(draw) && r.tasks != map[]
    ensures Perform(r, step, draw).round.plan == r.plan
  {
    hide Inv, Perform;
    NoTasksWithoutPlan(r);
    PerformKeeps(r, step, draw);
    hide RowGrows, ParticipantsGrow, JobGrows, TasksGrow;
  }

  /** A request that is not admitted or already on record is not newly accepted and changes nothing. */
  lemma NothingNew(r: Round, step: Step, draw: Draws)
    requires Identity(step.op).Some?
    requires !Admitted(r, step.op) || Identity(step.op).value.0 in r.idem
    ensures Perform(r, step, draw).round == r && !Fresh(Perform(r, step, draw).reply)
  {
    NotAdmitted(r, step, draw);
    if Admitted(r, step.op) {
      RecordDecides(r, step, draw);
    }
    hide Perform, Admitted, Identity;
  }

  lemma UploadAdvances(r: Round, step: Step, draw: Draws)
    requires Inv(r) && Productive(draw) && step.op.UploadTask?
    ensures var o := Perform(r, step, draw); Advanced(o.round) == Advanced(r) + if Fresh(o.reply) then 1 else 0
  {
    hide Inv, Perform, Advanced, Admitted, Insertable, Fresh;
    var k := IdemKey(step.op.client, TaskUploadOp(step.op.task), step.op.key);
    if !Admitted(r, step.op) || k in r.idem {
      NothingNew(r, step, draw);
    } else {
      UploadAcceptedIff(r, step, draw);
      if Fresh(Perform(r, step, draw).reply) {
        PlanKept(r, step, draw);
        TaskAdvanced(r, Perform(r, step, draw).round, step.op.task);
      }
    }
  }

  lemma AckHalves(tasks: map<TaskKey, TaskRow>, edges: set<(TaskKey, TaskKey)>, k: TaskKey, now: Time)
    requires k in tasks && tasks[k].state == ArtifactUploaded
    ensures var after := Activate(Acknowledged(tasks, k, now), edges);
      Halves(after, k) == Halves(tasks, k) + 1 && forall j | j != k :: Halves(after, j) == Halves(tasks, j)
  {
    hide Activate;
    ActivateFrame(Acknowledged(tasks, k, now), edges);
  }

  lemma AckAdvances(r: Round, step: Step, draw: Draws)
    requires Inv(r) && Productive(draw) && step.op.AckTask?
    ensures var o := Perform(r, step, draw); Advanced(o.round) == Advanced(r) + if Fresh(o.reply) then 1 else 0
  {
    hide Inv, Perform, Advanced, Admitted, Activate, Acknowledged, Fresh, Halves;
    var k := IdemKey(step.op.client, TaskAckOp(step.op.task), step.op.key);
    if !Admitted(r, step.op) || k in r.idem {
      NothingNew(r, step, draw);
    } else {
      AckAcceptedIff(r, step, draw);
      if Fresh(Perform(r, step, draw).reply) {
        PlanKept(r, step, draw);
        AckHalves(r.tasks, r.edges, step.op.task, step.now);
        TaskAdvanced(r, Perform(r, step, draw).round, step.op.task);
      }
    }
  }

  lemma OtherStepsStay(r: Round, step: Step, draw: Draws)
    requires Inv(r) && !IsTaskStep(step.op)
    ensures Advanced(Perform(r, step, draw).round) == Advanced(r)
  {
    var t := Transact(r, step, draw);
    hide Inv, Transact, Progress;
    StepFrame(r, step, draw);
    if t.Success? && step.op.ConfirmKeys? && r.row.state == KeySetup {
      NoTasksBeforePlan(r);
      var after := t.value.round;
      if after.plan.Some? && NothingUploaded(after.tasks) {
        NothingBehind(after.tasks, after.plan.value.tasks, |after.plan.value.tasks|);
      }
    }
  }

  /** The tree is as far along as the number of steps it newly accepted, in whatever order they came. */
  lemma {:induction false} AdvancedBySteps(cfg: Config, steps: seq<Step>, n: nat, draw: Draws)
    requires Proper(cfg) && Productive(draw) && n <= |steps|
    ensures Advanced(Reached(cfg, steps, n, draw)) == TaskStepsAccepted(cfg, steps, n, draw)
  {
    hide Inv, Perform, Reached, Configured, Advanced, Started, Answer;
    if n == 0 {
      AtFirst(cfg, steps, draw);
      NewTreeEmpty(cfg);
    } else {
      AdvancedBySteps(cfg, steps, n - 1, draw);
      ReachedKeeps(cfg, steps, n - 1, draw);
      NextReached(cfg, steps, n - 1, draw);
      var r, step := Reached(cfg, steps, n - 1, draw), steps[n - 1];
      if step.op.UploadTask? {
        UploadAdvances(r, step, draw);
      } else if step.op.AckTask? {
        AckAdvances(r, step, draw);
      } else {
        OtherStepsStay(r, step, draw);
      }
    }
  }

  lemma NewTreeEmpty(cfg: Config)
    ensures Advanced(Started(cfg)) == 0
  {
  }

  lemma CompletedExactly(r: Round)
    requires Inv(r) && r.plan.Some?
    ensures Advanced(r) <= 2 * |r.plan.value.tasks|
    ensures AllTasksCompleted(r.tasks) <==> Advanced(r) == 2 * |r.plan.value.tasks|
  {
    hide Inv, PlanTasks, IsTask, TaskOf, Progress;
    PlanShaped(r);
    PlanTasksExact(r.plan.value.groups);
    var list := r.plan.value.tasks;
    AllAtEnd(r.tasks, list, |list|);
    if forall i | 0 <= i < |list| :: Halves(r.tasks, list[i].id) == 2 {
      forall k | k in r.tasks ensures r.tasks[k].state == TaskCompleted {
        var t :| t in list && t.id == k;
        var i :| 0 <= i < |list| && list[i] == t;
        assert Halves(r.tasks, list[i].id) == 2;
      }
    }
    if AllTasksCompleted(r.tasks) {
      assert forall i | 0 <= i < |list| :: list[i] in list && Halves(r.tasks, list[i].id) == 2;
    }
  }

  /** The accepted steps are at most two per task of the plan, and that many exactly when all tasks are completed. */
  ghost predicate StepsCounted(r: Round, accepted: nat) {
    r.plan.Some? ==>
      && accepted <= 2 * |r.plan.value.tasks|
      && (AllTasksCompleted(r.tasks) <==> accepted == 2 * |r.plan.value.tasks|)
  }

  /**
   * A run has accepted exactly two steps per task of the plan when every task is completed, and never more: however
   * uploads, acknowledgements, repetitions and refusals are interleaved.
   */
  lemma TwoStepsPerTask(cfg: Config, steps: seq<Step>, n: nat, draw: Draws)
    requires Proper(cfg) && Productive(draw) && n <= |steps|
    ensures StepsCounted(Reached(cfg, steps, n, draw), TaskStepsAccepted(cfg, steps, n, draw))
  {
    hide Reached, Inv, Configured, Advanced, AllTasksCompleted;
    AdvancedBySteps(cfg, steps, n, draw);
    ReachedKeeps(cfg, steps, n, draw);
    if Reached(cfg, steps, n, draw).plan.Some? {
      CompletedExactly(Reached(cfg, steps, n, draw));
    }
  }
}
