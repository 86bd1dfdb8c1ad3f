/** The key-aggregation transactions keep the round invariant. */
module TaskSteps {
  import opened Names
  import opened PlanShape
  import opened RoundInvariant
  import opened RoundSteps
  import opened Rounds
  import opened Sequences
  import opened States
  import opened Topology
  import opened Wrappers

  // ---- A new artifact row

  lemma IdemGrows(idem: map<IdemKey, IdemRecord>, artifacts: map<string, Artifact>,
                  participants: map<ClientId, Participant>, id: string, a: Artifact)
    requires IdemOk(idem, artifacts, participants) && id !in artifacts
    ensures IdemOk(idem, artifacts[id := a], participants)
  {
  }

  lemma ResultUntouched(artifacts: map<string, Artifact>, job: Option<Job>, id: string, a: Artifact)
    requires ResultOk(artifacts, job) && id !in artifacts && !a.kind.ResultFile?
    ensures ResultOk(artifacts[id := a], job)
  {
    var after := artifacts[id := a];
    if HasResult(artifacts) {
      var e :| e in artifacts && artifacts[e].kind == ResultFile;
      assert after[e].kind == ResultFile;
    }
  }

  function TaskUploaded(row: TaskRow, upload: Upload, id: string): TaskRow {
    row.(state := ArtifactUploaded, upload := Some(upload.(artifactId := id)))
  }

  lemma TaskFiled(artifacts: map<string, Artifact>, participants: map<ClientId, Participant>,
                  tasks: map<TaskKey, TaskRow>, finalKey: Option<FinalKey>,
                  k: TaskKey, id: string, a: Artifact, upload: Upload)
    requires ArtifactsOk(artifacts, participants, tasks, finalKey)
    requires k in tasks && tasks[k].upload.None? && id !in artifacts
    requires a.client == Some(tasks[k].task.sender) && a.kind == TaskFile(k)
    ensures ArtifactsOk(artifacts[id := a], participants, tasks[k := TaskUploaded(tasks[k], upload, id)], finalKey)
  {
    var rows, uploaded := artifacts[id := a], tasks[k := TaskUploaded(tasks[k], upload, id)];
    forall e | e in rows ensures ArtifactOwned(e, rows[e], participants, uploaded, finalKey) {
      if e != id {
        assert ArtifactOwned(e, artifacts[e], participants, tasks, finalKey);
      }
    }
  }

  /** The plan's tables only fix which tasks there are and what they are. */
  lemma TasksStay(plan: Plan, roster: seq<ClientId>, edges: set<(TaskKey, TaskKey)>,
                  tasks: map<TaskKey, TaskRow>, after: map<TaskKey, TaskRow>)
    requires TasksOfPlan(plan, roster, tasks, edges) && after.Keys == tasks.Keys
    requires forall k | k in tasks :: after[k].task == tasks[k].task
    ensures TasksOfPlan(plan, roster, after, edges)
  {
    hide Partitions, PlanOf, IsTask, TaskOf;
  }

  lemma UploadScheduled(tasks: map<TaskKey, TaskRow>, receipts: map<TaskKey, TaskReceipt>, k: TaskKey, upload: Upload, id: string)
    requires SchedulerOk(tasks, receipts) && k in tasks && tasks[k].state == Ready
    ensures SchedulerOk(tasks[k := TaskUploaded(tasks[k], upload, id)], receipts)
  {
    var after := tasks[k := TaskUploaded(tasks[k], upload, id)];
    forall j | j in after ensures TaskOk(after, j) {
      assert TaskOk(tasks, j);
    }
  }

  /** The rows after an accepted upload of a ready task. */
  function WithUpload(r: Round, task: TaskKey, id: string, a: Artifact, upload: Upload): Round
    requires task in r.tasks
  {
    r.(artifacts := r.artifacts[id := a], tasks := r.tasks[task := TaskUploaded(r.tasks[task], upload, id)])
  }

  lemma PlanStays(r: Round, tasks: map<TaskKey, TaskRow>)
    requires PlanOk(r.row.protocol, r.row.roster, r.plan, r.tasks, r.edges)
    requires tasks.Keys == r.tasks.Keys && forall k | k in r.tasks :: tasks[k].task == r.tasks[k].task
    ensures PlanOk(r.row.protocol, r.row.roster, r.plan, tasks, r.edges)
  {
    hide TasksOfPlan;
    if r.plan.Some? {
      TasksStay(r.plan.value, r.row.roster, r.edges, r.tasks, tasks);
    }
  }

  lemma UploadKeeps(r: Round, task: TaskKey, id: string, a: Artifact, upload: Upload)
    requires RowsOk(r) && task in r.tasks && r.tasks[task].state == Ready && id !in r.artifacts
    requires a.client == Some(r.tasks[task].task.sender) && a.kind == TaskFile(task)
    ensures RowsOk(WithUpload(r, task, id, a, upload))
  {
    hide PlanOk, SchedulerOk, ArtifactsOk, ResultOk, IdemOk, AuditOk, VersionOk, JobOk, RosterOk;
    UploadScheduled(r.tasks, r.taskReceipts, task, upload, id);
    NotUploadedYet(r.tasks, r.taskReceipts, task);
    TaskFiled(r.artifacts, r.participants, r.tasks, r.finalKey, task, id, a, upload);
    ResultUntouched(r.artifacts, r.job, id, a);
    IdemGrows(r.idem, r.artifacts, r.participants, id, a);
    PlanStays(r, WithUpload(r, task, id, a, upload).tasks);
  }

  lemma NotUploadedYet(tasks: map<TaskKey, TaskRow>, receipts: map<TaskKey, TaskReceipt>, k: TaskKey)
    requires SchedulerOk(tasks, receipts) && k in tasks && tasks[k].state == Ready
    ensures tasks[k].upload.None?
  {
    assert TaskOk(tasks, k);
  }

  lemma StageInAggregation(protocol: Protocol, members: set<ClientId>, plan: Option<Plan>, tasks: map<TaskKey, TaskRow>,
                           after: map<TaskKey, TaskRow>, receipts: map<ClientId, FinalReceipt>, job: Option<Job>)
    requires StageOk(KeyAggregation, protocol, members, plan, tasks, receipts, job)
    ensures StageOk(KeyAggregation, protocol, members, plan, after, receipts, job)
  {
  }

  lemma RecordTaskArtifactKeeps(r: Round, client: ClientId, task: TaskKey, stored: Stored, upload: Upload,
                                key: string, digest: string, now: Time)
    requires Inv(r)
    ensures Keeps(RecordTaskArtifact(r, client, task, stored, upload, key, digest, now),
                  {IdempotencyConflict, RoundConflict, ConstraintViolated})
  {
    hide RowsOk, BarriersOk, StageOk;
    var k := IdemKey(client, TaskUploadOp(task), key);
    if k !in r.idem && r.row.state == KeyAggregation && task in r.tasks && r.tasks[task].task.sender == client
      && r.tasks[task].state == Ready && stored.objectId !in r.artifacts
    {
      var a := Artifact(Some(client), TaskFile(task), stored.path, stored.digest, stored.size, now);
      var uploaded := WithUpload(r, task, stored.objectId, a, upload);
      UploadKeeps(r, task, stored.objectId, a, upload);
      var response := AcceptedFile(stored.objectId, upload.ciphertextDigest, stored.size);
      RememberKeeps(uploaded, k, digest, response);
      LogKeeps(Remember(uploaded, k, digest, response), client, TreeArtifactAccepted, now);
      StageInAggregation(r.row.protocol, r.participants.Keys, r.plan, r.tasks, uploaded.tasks, r.finalReceipts, r.job);
    }
  }

  // ---- Acknowledging a task

  function Acknowledged(tasks: map<TaskKey, TaskRow>, k: TaskKey, now: Time): map<TaskKey, TaskRow>
    requires k in tasks
  {
    tasks[k := tasks[k].(state := TaskCompleted, completedAt := Some(now))]
  }

  /** Activation never takes a state back, and touches nothing but the state. */
  lemma ActivateFrame(tasks: map<TaskKey, TaskRow>, edges: set<(TaskKey, TaskKey)>)
    ensures var after := Activate(tasks, edges);
      && after.Keys == tasks.Keys
      && forall k | k in tasks ::
        && after[k].task == tasks[k].task && after[k].upload == tasks[k].upload
        && (after[k].state == tasks[k].state || (tasks[k].state == Waiting && after[k].state == Ready))
  {
  }

  ghost predicate EdgesExact(tasks: map<TaskKey, TaskRow>, edges: set<(TaskKey, TaskKey)>) {
    && (forall k, d :: (k, d) in edges <==> k in tasks && d in tasks[k].task.dependencies)
    && (forall k, d | k in tasks && d in tasks[k].task.dependencies :: d in tasks)
  }

  ghost predicate Blocked(tasks: map<TaskKey, TaskRow>, k: TaskKey)
    requires k in tasks
  {
    exists d | d in tasks[k].task.dependencies :: d in tasks && tasks[d].state != TaskCompleted
  }

  lemma UnblockedIff(tasks: map<TaskKey, TaskRow>, edges: set<(TaskKey, TaskKey)>, k: TaskKey)
    requires EdgesExact(tasks, edges) && k in tasks
    ensures Unblocked(tasks, edges, k) <==> !Blocked(tasks, k)
  {
    if Unblocked(tasks, edges, k) {
      forall d | d in tasks[k].task.dependencies ensures d in tasks && tasks[d].state == TaskCompleted {
        assert (k, d) in edges;
      }
    }
  }

  lemma SameBlocks(tasks: map<TaskKey, TaskRow>, after: map<TaskKey, TaskRow>, k: TaskKey)
    requires k in tasks && after.Keys == tasks.Keys && after[k].task == tasks[k].task
    requires forall d | d in tasks :: tasks[d].state == TaskCompleted ==> after[d].state == TaskCompleted
    ensures Blocked(after, k) ==> Blocked(tasks, k)
    ensures (forall d | d in tasks :: after[d].state == TaskCompleted ==> tasks[d].state == TaskCompleted)
      ==> (Blocked(after, k) <==> Blocked(tasks, k))
  {
    if Blocked(tasks, k) {
      var d :| d in tasks[k].task.dependencies && d in tasks && tasks[d].state != TaskCompleted;
      assert d in after;
    }
  }

  /** Activation wakes exactly the waiting tasks that nothing blocks any more. */
  lemma ActivatedTask(tasks: map<TaskKey, TaskRow>, edges: set<(TaskKey, TaskKey)>, k: TaskKey)
    requires EdgesExact(tasks, edges) && k in tasks
    requires Blocked(tasks, k) ==> tasks[k].state == Waiting
    requires tasks[k].upload.Some? <==> tasks[k].state in {ArtifactUploaded, TaskCompleted}
    ensures TaskOk(Activate(tasks, edges), k)
  {
    ActivateFrame(tasks, edges);
    UnblockedIff(tasks, edges, k);
    var after := Activate(tasks, edges);
    hide Unblocked;
    SameBlocks(tasks, after, k);
    assert after[k].state == Waiting <==> tasks[k].state == Waiting && !Unblocked(tasks, edges, k);
    hide Activate;
    assert TaskOk(after, k) <==> (after[k].state == Waiting <==> Blocked(after, k));
  }

  lemma AcknowledgedTask(tasks: map<TaskKey, TaskRow>, edges: set<(TaskKey, TaskKey)>, k: TaskKey, j: TaskKey, now: Time)
    requires EdgesExact(tasks, edges) && j in tasks && TaskOk(tasks, j)
    requires k in tasks && tasks[k].state == ArtifactUploaded
    ensures TaskOk(Activate(Acknowledged(tasks, k, now), edges), j)
  {
    hide Activate;
    var done := Acknowledged(tasks, k, now);
    assert done.Keys == tasks.Keys;
    SameBlocks(tasks, done, j);
    assert Blocked(tasks, j) <==> tasks[j].state == Waiting;
    hide Blocked;
    ActivatedTask(done, edges, j);
  }

  /** Completing an uploaded task and activating what it unblocks leaves every task waiting exactly while it must. */
  lemma AcknowledgeScheduled(tasks: map<TaskKey, TaskRow>, edges: set<(TaskKey, TaskKey)>,
                             receipts: map<TaskKey, TaskReceipt>, k: TaskKey, receipt: TaskReceipt, now: Time)
    requires SchedulerOk(tasks, receipts) && EdgesExact(tasks, edges)
    requires k in tasks && tasks[k].state == ArtifactUploaded
    ensures SchedulerOk(Activate(Acknowledged(tasks, k, now), edges), receipts[k := receipt])
  {
    hide Activate, TaskOk, EdgesExact;
    var done := Acknowledged(tasks, k, now);
    ActivateFrame(done, edges);
    forall j | j in done ensures TaskOk(Activate(done, edges), j) {
      AcknowledgedTask(tasks, edges, k, j, now);
    }
  }

  // ---- The whole acknowledgement

  lemma ExactEdges(r: Round)
    requires PlanOk(r.row.protocol, r.row.roster, r.plan, r.tasks, r.edges) && SchedulerOk(r.tasks, r.taskReceipts)
    ensures EdgesExact(r.tasks, r.edges)
  {
    forall k, d | k in r.tasks && d in r.tasks[k].task.dependencies ensures d in r.tasks {
      assert TaskOk(r.tasks, k);
    }
    hide TaskOk;
  }

  /** Nothing an artifact row refers to changes. */
  lemma SameUploads(artifacts: map<string, Artifact>, participants: map<ClientId, Participant>,
                    tasks: map<TaskKey, TaskRow>, after: map<TaskKey, TaskRow>, finalKey: Option<FinalKey>)
    requires ArtifactsOk(artifacts, participants, tasks, finalKey) && after.Keys == tasks.Keys
    requires forall k | k in tasks :: after[k].task == tasks[k].task && after[k].upload == tasks[k].upload
    ensures ArtifactsOk(artifacts, participants, after, finalKey)
  {
    forall id | id in artifacts ensures ArtifactOwned(id, artifacts[id], participants, after, finalKey) {
      assert ArtifactOwned(id, artifacts[id], participants, tasks, finalKey);
    }
  }

  function WithReceipt(r: Round, task: TaskKey, receipt: TaskReceipt, now: Time): Round
    requires task in r.tasks
  {
    r.(tasks := Activate(Acknowledged(r.tasks, task, now), r.edges), taskReceipts := r.taskReceipts[task := receipt])
  }

  lemma ReceiptKeeps(r: Round, task: TaskKey, receipt: TaskReceipt, now: Time)
    requires RowsOk(r) && task in r.tasks && r.tasks[task].state == ArtifactUploaded
    ensures RowsOk(WithReceipt(r, task, receipt, now)) && task !in r.taskReceipts
  {
    hide PlanOk, ArtifactsOk, ResultOk, IdemOk, AuditOk, VersionOk, JobOk, RosterOk, Activate, TaskOk;
    ExactEdges(r);
    AcknowledgeScheduled(r.tasks, r.edges, r.taskReceipts, task, receipt, now);
    ActivateFrame(Acknowledged(r.tasks, task, now), r.edges);
    var after := WithReceipt(r, task, receipt, now).tasks;
    assert after.Keys == r.tasks.Keys;
    PlanStays(r, after);
    SameUploads(r.artifacts, r.participants, r.tasks, after, r.finalKey);
  }

  lemma AcknowledgeTaskKeeps(r: Round, client: ClientId, task: TaskKey, artifactDigest: string,
                             key: string, digest: string, now: Time)
    requires Inv(r)
    ensures Keeps(AcknowledgeTask(r, client, task, artifactDigest, key, digest, now), {IdempotencyConflict, RoundConflict})
  {
    hide RowsOk, BarriersOk, StageOk, Activate;
    var k := IdemKey(client, TaskAckOp(task), key);
    if k !in r.idem && task in r.tasks && r.row.state == KeyAggregation && r.tasks[task].state == ArtifactUploaded {
      var receipt := TaskReceipt(client, artifactDigest, now);
      ReceiptKeeps(r, task, receipt, now);
      var acknowledged := WithReceipt(r, task, receipt, now);
      RememberKeeps(acknowledged, k, digest, Accepted);
      LogKeeps(Remember(acknowledged, k, digest, Accepted), client, TreeTaskCompleted, now);
      StageInAggregation(r.row.protocol, r.participants.Keys, r.plan, r.tasks, acknowledged.tasks, r.finalReceipts, r.job);
    }
  }

  // ---- The final key

  lemma FinalFiled(artifacts: map<string, Artifact>, participants: map<ClientId, Participant>,
                   tasks: map<TaskKey, TaskRow>, id: string, a: Artifact, key: FinalKey)
    requires ArtifactsOk(artifacts, participants, tasks, None) && id !in artifacts
    requires a.kind == FinalKeyFile && a.client == Some(key.sender) && key.upload.artifactId == id
    ensures ArtifactsOk(artifacts[id := a], participants, tasks, Some(key))
  {
    var rows := artifacts[id := a];
    forall e | e in rows ensures ArtifactOwned(e, rows[e], participants, tasks, Some(key)) {
      if e != id {
        assert ArtifactOwned(e, artifacts[e], participants, tasks, None);
      }
    }
  }

  function WithFinalKey(r: Round, id: string, a: Artifact, key: FinalKey): Round {
    r.(artifacts := r.artifacts[id := a], finalKey := Some(key))
  }

  lemma FinalKeyKeeps(r: Round, id: string, a: Artifact, key: FinalKey)
    requires RowsOk(r) && r.finalKey.None? && id !in r.artifacts
    requires r.plan.Some? && AllTasksCompleted(r.tasks) && key.sender == r.plan.value.rootClient
    requires a.kind == FinalKeyFile && a.client == Some(key.sender) && key.upload.artifactId == id
    ensures RowsOk(WithFinalKey(r, id, a, key))
  {
    hide PlanOk, SchedulerOk, ArtifactsOk, ResultOk, IdemOk, AuditOk, VersionOk, JobOk, RosterOk;
    FinalFiled(r.artifacts, r.participants, r.tasks, id, a, key);
    ResultUntouched(r.artifacts, r.job, id, a);
    IdemGrows(r.idem, r.artifacts, r.participants, id, a);
  }

  lemma RecordFinalKeyKeeps(r: Round, client: ClientId, stored: Stored, upload: Upload,
                            key: string, digest: string, now: Time)
    requires Inv(r)
    ensures Keeps(RecordFinalKey(r, client, stored, upload, key, digest, now),
                  {IdempotencyConflict, RoundConflict, ConstraintViolated})
  {
    hide RowsOk, BarriersOk, StageOk, AllTasksCompleted;
    var k := IdemKey(client, FinalKeyOp, key);
    if k !in r.idem && r.plan.Some? && r.row.state == KeyAggregation && r.plan.value.rootClient == client
      && AllTasksCompleted(r.tasks) && r.finalKey.None? && stored.objectId !in r.artifacts
    {
      var a := Artifact(Some(client), FinalKeyFile, stored.path, stored.digest, stored.size, now);
      var final := FinalKey(upload.(artifactId := stored.objectId), client, now);
      FinalKeyKeeps(r, stored.objectId, a, final);
      var published := WithFinalKey(r, stored.objectId, a, final);
      var response := AcceptedFile(stored.objectId, upload.ciphertextDigest, stored.size);
      RememberKeeps(published, k, digest, response);
      LogKeeps(Remember(published, k, digest, response), client, FinalKeyPublished, now);
    }
  }

  function WithFinalReceipt(r: Round, client: ClientId, receipt: FinalReceipt): Round {
    r.(finalReceipts := r.finalReceipts[client := receipt])
  }

  lemma FinalReceiptKeeps(r: Round, client: ClientId, receipt: FinalReceipt)
    requires RowsOk(r) && client in r.participants && r.finalKey.Some?
    ensures RowsOk(WithFinalReceipt(r, client, receipt))
    ensures AllTasksCompleted(r.tasks)
  {
    hide PlanOk, SchedulerOk, ArtifactsOk, ResultOk, IdemOk, AuditOk, VersionOk, JobOk, RosterOk, AllTasksCompleted;
  }

  lemma UpdatesOpen(participants: map<ClientId, Participant>)
    requires BarriersOk(KeyAggregation, participants) && participants.Keys != {}
    ensures BarriersOk(UpdateCollection, participants)
  {
    var c :| c in participants.Keys;
    assert participants[c].update.None?;
  }

  /** The last receipt opens update collection; until then somebody's is missing. */
  lemma StageAfterReceipt(protocol: Protocol, members: set<ClientId>, plan: Option<Plan>, tasks: map<TaskKey, TaskRow>,
                          receipts: map<ClientId, FinalReceipt>, after: map<ClientId, FinalReceipt>, job: Option<Job>)
    requires StageOk(KeyAggregation, protocol, members, plan, tasks, receipts, job) && AllTasksCompleted(tasks)
    ensures StageOk(if after.Keys == members then UpdateCollection else KeyAggregation,
                    protocol, members, plan, tasks, after, job)
  {
  }

  lemma AcknowledgeFinalKeyKeeps(r: Round, client: ClientId, artifactDigest: string, key: string, digest: string, now: Time)
    requires Inv(r) && client in r.participants
    ensures Keeps(AcknowledgeFinalKey(r, client, artifactDigest, key, digest, now),
                  {IdempotencyConflict, RoundConflict, ConstraintViolated})
  {
    hide RowsOk, BarriersOk, StageOk, AllTasksCompleted;
    var k := IdemKey(client, FinalKeyAckOp, key);
    if k !in r.idem && r.row.state == KeyAggregation && r.finalKey.Some? {
      var receipt := FinalReceipt(artifactDigest, now);
      FinalReceiptKeeps(r, client, receipt);
      var received := WithFinalReceipt(r, client, receipt);
      RememberKeeps(received, k, digest, Accepted);
      var logged := Log(Remember(received, k, digest, Accepted), client, FinalKeyAcknowledged, now);
      LogKeeps(Remember(received, k, digest, Accepted), client, FinalKeyAcknowledged, now);
      StageAfterReceipt(r.row.protocol, r.participants.Keys, r.plan, r.tasks, r.finalReceipts, logged.finalReceipts, r.job);
      if logged.finalReceipts.Keys == logged.participants.Keys {
        UpdatesOpen(r.participants);
        MoveKeeps(logged, UpdateCollection, client, FinalKeyBarrier, now);
      }
    }
  }
}
