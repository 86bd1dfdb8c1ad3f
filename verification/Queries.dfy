/** The reading side of the database: the next key action, task artifacts, the worker's inputs and the result. */
module Queries {
  import opened KeyTree
  import opened Names
  import opened PlanProperties
  import opened PlanShape
  import opened PlanTree
  import opened RoundInvariant
  import opened Rounds
  import opened RoundSteps
  import opened RunProperties
  import opened Runs
  import opened Scheduler
  import opened Sequences
  import opened Shuffling
  import opened States
  import opened Tables
  import opened TaskSteps
  import opened Topology
  import opened Transactions
  import opened Wrappers

  // ---- The next key action

  datatype KeyAction = AggregationDone | RunTask(task: TaskKey) | PublishFinalKey | ConfirmFinalKey | NothingYet

  /** The order actions are offered in: group tasks before tree tasks, then by level, then by task_id text. */
  predicate TaskBefore(a: Task, b: Task) {
    if a.stage != b.stage then a.stage.GroupStage?
    else if a.level != b.level then a.level < b.level
    else Before(TaskName(a.id), TaskName(b.id))
  }

  lemma TaskBeforeTransitive(a: Task, b: Task, c: Task)
    requires TaskBefore(a, b) && TaskBefore(b, c)
    ensures TaskBefore(a, c)
  {
    if a.stage == b.stage == c.stage && a.level == b.level == c.level {
      BeforeTransitive(TaskName(a.id), TaskName(b.id), TaskName(c.id));
    }
  }

  /** The client has this task to run now. */
  predicate ReadyFor(tasks: map<TaskKey, TaskRow>, client: ClientId, k: TaskKey) {
    k in tasks && tasks[k].state == Ready && tasks[k].task.sender == client
  }

  predicate MayPublish(r: Round, client: ClientId) {
    r.plan.Some? && r.plan.value.rootClient == client && AllTasksCompleted(r.tasks) && r.finalKey.None?
  }

  predicate MayConfirm(r: Round, client: ClientId) {
    r.finalKey.Some? && client !in r.finalReceipts
  }

  /** What the client is to be told to do next. */
  ghost predicate IsNext(r: Round, client: ClientId, answer: Result<KeyAction, Error>) {
    if r.row.protocol != V11 then answer == Failure(RoundConflict)
    else if r.row.state == UpdateCollection then answer == Success(AggregationDone)
    else if r.row.state != KeyAggregation then answer == Failure(RoundConflict)
    else if exists k :: ReadyFor(r.tasks, client, k) then
      && answer.Success? && answer.value.RunTask? && ReadyFor(r.tasks, client, answer.value.task)
      && forall k | ReadyFor(r.tasks, client, k) :: !TaskBefore(r.tasks[k].task, r.tasks[answer.value.task].task)
    else if MayPublish(r, client) then answer == Success(PublishFinalKey)
    else if MayConfirm(r, client) then answer == Success(ConfirmFinalKey)
    else answer == Success(NothingYet)
  }

  /** The first of the tasks in the order they are offered in. */
  method FirstTask(ready: set<TaskKey>, tasks: map<TaskKey, TaskRow>) returns (first: TaskKey)
    requires ready != {} && ready <= tasks.Keys
    ensures first in ready && forall k | k in ready :: !TaskBefore(tasks[k].task, tasks[first].task)
  {
    first :| first in ready;
    var todo := ready - {first};
    BeforeIrreflexive(TaskName(tasks[first].task.id));
    while todo != {}
      invariant todo <= ready && first in ready
      invariant forall k | k in ready && k !in todo :: !TaskBefore(tasks[k].task, tasks[first].task)
      decreases |todo|
    {
      var k :| k in todo;
      if TaskBefore(tasks[k].task, tasks[first].task) {
        forall j | j in ready && j !in todo ensures !TaskBefore(tasks[j].task, tasks[k].task) {
          if TaskBefore(tasks[j].task, tasks[k].task) {
            TaskBeforeTransitive(tasks[j].task, tasks[k].task, tasks[first].task);
          }
        }
        BeforeIrreflexive(TaskName(tasks[k].task.id));
        first := k;
      }
      todo := todo - {k};
    }
  }

  method NextKeyAction(db: Connection, id: RoundId, client: ClientId) returns (answer: Result<KeyAction, Error>)
    ensures id !in db.rounds ==> answer == Failure(RoundConflict)
    ensures id in db.rounds && (db.RoundOf(id).row.state == KeyAggregation ==> db.RoundOf(id).plan.Some?) ==>
      IsNext(db.RoundOf(id), client, answer)
  {
    hide Connection.RoundOf, TaskBefore, AllTasksCompleted;
    if id !in db.rounds {
      return Failure(RoundConflict);
    }
    var row := db.SelectRound(id);
    if row.protocol != V11 {
      return Failure(RoundConflict);
    }
    if row.state == UpdateCollection {
      return Success(AggregationDone);
    }
    if row.state != KeyAggregation {
      return Failure(RoundConflict);
    }
    var tasks, plan, final := db.SelectTasks(id), db.SelectPlan(id), db.SelectFinalKey(id);
    var ready := set k | k in tasks && tasks[k].state == Ready && tasks[k].task.sender == client;
    if plan.None? {
      return Failure(NotReady);
    }
    if ready != {} {
      var first := FirstTask(ready, tasks);
      assert ReadyFor(tasks, client, first);
      assert forall k | ReadyFor(tasks, client, k) :: k in ready;
      return Success(RunTask(first));
    }
    assert forall k :: !ReadyFor(tasks, client, k) by {
      assert forall k | ReadyFor(tasks, client, k) :: k in ready;
    }
    NoneIncomplete(tasks);
    var incomplete := |set t | t in tasks && tasks[t].state != TaskCompleted|;
    if incomplete == 0 && final.None? && client == plan.value.rootClient {
      return Success(PublishFinalKey);
    }
    if final.Some? && client !in db.SelectFinalReceipts(id) {
      return Success(ConfirmFinalKey);
    }
    return Success(NothingYet);
  }

  /** A task that is offered can be uploaded: no check on the round, the task or its sender stands in the way. */
  lemma OfferedTaskAccepted(r: Round, step: Step, draw: Draws)
    requires Inv(r) && step.op.UploadTask? && Admitted(r, step.op)
    requires IsNext(r, step.op.client, Success(RunTask(step.op.task)))
    requires IdemKey(step.op.client, TaskUploadOp(step.op.task), step.op.key) !in r.idem
    ensures Fresh(Perform(r, step, draw).reply) <==> Insertable(r.artifacts, step.op.stored)
  {
    hide Inv, Perform, Admitted, Insertable, TaskBefore;
    UploadAcceptedIff(r, step, draw);
  }

  lemma OfferedFinalKeyAccepted(r: Round, step: Step, draw: Draws)
    requires Inv(r) && step.op.PublishFinal? && Admitted(r, step.op)
    requires IsNext(r, step.op.client, Success(PublishFinalKey))
    requires IdemKey(step.op.client, FinalKeyOp, step.op.key) !in r.idem
    ensures Fresh(Perform(r, step, draw).reply) <==> Insertable(r.artifacts, step.op.stored)
  {
    hide Inv, Perform, Admitted, Insertable, TaskBefore, AllTasksCompleted;
    FinalKeyAcceptedIff(r, step, draw);
  }

  // ---- Somebody can always act

  lemma {:induction false} MemberJoined(groups: Groups, n: nat, j: nat, p: nat)
    requires j < n <= |groups| && p < |groups[j]|
    ensures groups[j][p] in JoinTo(groups, n)
  {
    if j < n - 1 {
      MemberJoined(groups, n - 1, j, p);
    }
  }

  lemma SenderIsMember(groups: Groups, roster: seq<ClientId>, k: TaskKey)
    requires Partitions(groups, roster) && IsTask(groups, k)
    ensures Sender(groups, k) in roster
  {
    var j, p := SenderPlace(groups, k);
    MemberJoined(groups, |groups|, j, p);
    assert Sender(groups, k) in multiset(Join(groups));
  }

  lemma SenderPlace(groups: Groups, k: TaskKey) returns (j: nat, p: nat)
    requires WellGrouped(groups) && IsTask(groups, k)
    ensures j < |groups| && p < |groups[j]| && Sender(groups, k) == groups[j][p]
  {
    match k
    case Start(group) => j, p := group, 0;
    case Add(group, position) => j, p := group, position;
    case Unblind(group) => j, p := group, 0;
    case Tree(level, index) =>
      OperatorIsFirstCoordinator(groups, level + 1, index);
      j, p := index * Pow2(level + 1), 0;
  }

  /** The client has something to do in key aggregation: a task to run or acknowledge, or its part in the final key. */
  ghost predicate CanAct(r: Round, client: ClientId) {
    || (exists k :: ReadyFor(r.tasks, client, k))
    || (exists k :: AwaitsAck(r.tasks, client, k))
    || MayPublish(r, client)
    || MayConfirm(r, client)
  }

  predicate AwaitsAck(tasks: map<TaskKey, TaskRow>, client: ClientId, k: TaskKey) {
    k in tasks && tasks[k].state == ArtifactUploaded && tasks[k].task.sender == client
  }

  lemma TaskSenderIsParticipant(r: Round, k: TaskKey)
    requires Inv(r) && k in r.tasks
    ensures r.tasks[k].task.sender in r.participants
  {
    hide SchedulerOk, FinalOk, ArtifactsOk, JobOk, ResultOk, AuditOk, VersionOk, IdemOk, BarriersOk, StageOk, IsTask, PlanOf;
    SenderIsMember(r.plan.value.groups, r.row.roster, k);
  }

  /** The final key is published, or its publisher is a participant; and somebody's receipt is missing. */
  lemma FinalKeyPending(r: Round)
    requires Inv(r) && r.row.state == KeyAggregation
    ensures r.plan.Some? && exists c :: c in r.participants && c !in r.finalReceipts
  {
    hide RosterOk, PlanOk, SchedulerOk, ArtifactsOk, JobOk, ResultOk, AuditOk, VersionOk, IdemOk, BarriersOk;
    ReceiptMissing(r.finalReceipts.Keys, r.participants.Keys);
  }

  lemma ReceiptMissing(some: set<ClientId>, all: set<ClientId>)
    requires some <= all && some != all
    ensures exists c :: c in all && c !in some
  {
    FullSubset(some, all);
    assert all == some + (all - some) && |all - some| > 0;
    var c :| c in all - some;
  }

  lemma RootClientIsParticipant(r: Round)
    requires Inv(r) && r.plan.Some?
    ensures r.plan.value.rootClient in r.participants
  {
    hide SchedulerOk, FinalOk, ArtifactsOk, JobOk, ResultOk, AuditOk, VersionOk, IdemOk, BarriersOk, StageOk, IsTask, PlanTasks;
    var groups := r.plan.value.groups;
    MemberJoined(groups, |groups|, 0, 0);
    assert groups[0][0] in multiset(Join(groups));
  }

  /** Key aggregation never deadlocks: in every reachable state of it some participant can take the next step. */
  lemma SomebodyCanAct(cfg: Config, steps: seq<Step>, n: nat, draw: Draws)
    requires Proper(cfg) && Productive(draw) && n <= |steps|
    requires Reached(cfg, steps, n, draw).row.state == KeyAggregation
    ensures exists client :: client in cfg.roster && CanAct(Reached(cfg, steps, n, draw), client)
  {
    hide Reached, Inv, AllTasksCompleted;
    ReachedKeeps(cfg, steps, n, draw);
    NeverStuck(cfg, steps, n, draw);
    var r := Reached(cfg, steps, n, draw);
    assert forall c :: c in cfg.roster <==> c in r.participants;
    hide Configured;
    FinalKeyPending(r);
    if !AllTasksCompleted(r.tasks) {
      var k :| Open(r.tasks, k);
      TaskSenderIsParticipant(r, k);
      var client := r.tasks[k].task.sender;
      assert ReadyFor(r.tasks, client, k) || AwaitsAck(r.tasks, client, k);
      assert CanAct(r, client);
    } else if r.finalKey.None? {
      RootClientIsParticipant(r);
      assert CanAct(r, r.plan.value.rootClient);
    } else {
      var client :| client in r.participants && client !in r.finalReceipts;
      assert CanAct(r, client);
    }
  }

  // ---- Artifacts, inputs and the result

  /** Handing out a task's artifact: to its receiver, once the task is completed. */
  method TaskArtifact(db: Connection, id: RoundId, task: TaskKey, client: ClientId) returns (file: Result<Artifact, Error>)
    requires id in db.rounds && Inv(db.RoundOf(id))
    ensures file.Success? <==> MayFetch(db.RoundOf(id), task, client)
    ensures file.Success? ==>
      file.value == db.RoundOf(id).artifacts[db.RoundOf(id).tasks[task].upload.value.artifactId]
    ensures file.Failure? ==> file.error == RoundConflict
  {
    hide Connection.RoundOf, Inv;
    var tasks, artifacts := db.SelectTasks(id), db.SelectArtifacts(id);
    if task !in tasks || tasks[task].task.receiver != client || tasks[task].state != TaskCompleted {
      return Failure(RoundConflict);
    }
    CompletedIsFiled(db.RoundOf(id), task);
    return Success(artifacts[tasks[task].upload.value.artifactId]);
  }

  /** One row of the worker's input. */
  datatype Input = Input(client: ClientId, path: string, digest: string, tag: string)

  function InputOf(r: Round, client: ClientId): Option<Input> {
    if client in r.participants && r.participants[client].update.Some?
      && r.participants[client].update.value.artifactId in r.artifacts
    then
      var slot := r.participants[client].update.value;
      Some(Input(client, r.artifacts[slot.artifactId].path, r.artifacts[slot.artifactId].digest, slot.tag))
    else None
  }

  /** The inputs of the first n clients of a list. */
  function InputsTo(r: Round, clients: seq<ClientId>, n: nat): seq<Input>
    requires n <= |clients|
  {
    if n == 0 then []
    else InputsTo(r, clients, n - 1) + (if InputOf(r, clients[n - 1]).Some? then [InputOf(r, clients[n - 1]).value] else [])
  }

  /** All inputs of a round, in the order of the clients. */
  function InputsOf(r: Round): seq<Input> {
    InputsTo(r, Sorted(r.row.roster), |r.row.roster|)
  }

  lemma {:induction false} EveryInput(r: Round, clients: seq<ClientId>, n: nat)
    requires n <= |clients| && forall c | c in clients :: InputOf(r, c).Some?
    ensures |InputsTo(r, clients, n)| == n
    ensures forall i | 0 <= i < n :: InputsTo(r, clients, n)[i] == InputOf(r, clients[i]).value
  {
    hide InputOf;
    if n > 0 {
      EveryInput(r, clients, n - 1);
      assert clients[n - 1] in clients;
    }
  }

  /** The update rows joined with their participants, in the order of the clients. */
  method JobInputs(db: Connection, id: RoundId) returns (inputs: seq<Input>)
    requires id in db.rounds && Inv(db.RoundOf(id))
    ensures inputs == InputsOf(db.RoundOf(id))
  {
    hide Connection.RoundOf, Inv;
    var clients := Sorted(db.SelectRound(id).roster);
    var ps, artifacts := db.SelectParticipants(id), db.SelectArtifacts(id);
    inputs := [];
    var n := 0;
    while n < |clients|
      invariant n <= |clients| && inputs == InputsTo(db.RoundOf(id), clients, n)
    {
      var c := clients[n];
      UpdatesUnique(db.RoundOf(id), c);
      var rows := map a | a in artifacts && artifacts[a].kind == UpdateFile && artifacts[a].client == Some(c) :: artifacts[a];
      if c in ps && rows != map[] {
        var a :| a in rows;
        assert IsUpdateOf(artifacts, c, a);
        inputs := inputs + [Input(c, rows[a].path, rows[a].digest, ps[c].update.value.tag)];
      } else if c in ps && ps[c].update.Some? {
        assert ps[c].update.value.artifactId in rows;
      }
      n := n + 1;
    }
  }

  /** A client's update rows are at most the one its slot names. */
  lemma UpdatesUnique(r: Round, c: ClientId)
    requires Inv(r)
    ensures forall a | IsUpdateOf(r.artifacts, c, a) ::
      c in r.participants && r.participants[c].update.Some? && r.participants[c].update.value.artifactId == a
    ensures c in r.participants && r.participants[c].update.Some? ==>
      IsUpdateOf(r.artifacts, c, r.participants[c].update.value.artifactId)
  {
    hide RosterOk, PlanOk, SchedulerOk, FinalOk, JobOk, ResultOk, AuditOk, VersionOk, IdemOk, BarriersOk, StageOk;
    UpdatesOwned(r);
    if c in r.participants && r.participants[c].update.Some? {
      UpdateStored(r, c);
    }
  }

  /** The published result with its tag, if the job is completed. */
  method ResultOf(db: Connection, id: RoundId) returns (result: Option<(Artifact, string)>)
    requires id in db.rounds && Inv(db.RoundOf(id))
    ensures result.Some? <==> db.RoundOf(id).job.Some? && db.RoundOf(id).job.value.state == JobCompleted
    ensures PastAggregation(db.RoundOf(id).row.state) ==> result.Some?
    ensures result.Some? ==>
      && result.value.0 in db.RoundOf(id).artifacts.Values && result.value.0.kind == ResultFile
      && db.RoundOf(id).job.value.tag == Some(result.value.1)
  {
    hide Connection.RoundOf;
    var artifacts, job := db.SelectArtifacts(id), db.SelectJob(id);
    ResultComplete(db.RoundOf(id));
    hide Inv;
    if (exists a | a in artifacts :: artifacts[a].kind == ResultFile) && job.Some? && job.value.state == JobCompleted {
      var a :| a in artifacts && artifacts[a].kind == ResultFile;
      return Some((artifacts[a], job.value.tag.value));
    }
    return None;
  }

  lemma ResultComplete(r: Round)
    requires Inv(r)
    ensures HasResult(r.artifacts) <==> r.job.Some? && r.job.value.state == JobCompleted
    ensures r.job.Some? && r.job.value.state == JobCompleted ==> r.job.value.tag.Some?
    ensures PastAggregation(r.row.state) ==> r.job.Some? && r.job.value.state == JobCompleted
  {
  }
}
