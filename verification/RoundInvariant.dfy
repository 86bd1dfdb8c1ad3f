/** What holds of a round's rows in every reachable state. */
module RoundInvariant {
  import opened Names
  import opened PlanShape
  import opened PlanTree
  import opened Rounds
  import opened Sequences
  import opened Shuffling
  import opened States
  import opened Topology
  import opened Wrappers

  predicate PastRegistration(s: RoundState) {
    s.KeySetup? || PastKeySetup(s)
  }

  predicate PastKeySetup(s: RoundState) {
    s.KeyAggregation? || PastKeyAggregation(s)
  }

  predicate PastKeyAggregation(s: RoundState) {
    s.UpdateCollection? || PastCollection(s)
  }

  predicate PastCollection(s: RoundState) {
    s.Aggregating? || PastAggregation(s)
  }

  predicate PastAggregation(s: RoundState) {
    s.ResultReady? || s.Completed?
  }

  ghost predicate RosterOk(roster: seq<ClientId>, expectedCount: nat, participants: map<ClientId, Participant>) {
    && 3 <= |roster| <= DRAW_LIMIT && Distinct(roster)
    && expectedCount == |roster|
    && participants.Keys == SetOf(roster)
  }

  predicate NoneCommitted(participants: map<ClientId, Participant>) {
    forall c | c in participants :: participants[c].commitment.None?
  }

  predicate NoneUpdated(participants: map<ClientId, Participant>) {
    forall c | c in participants :: participants[c].update.None?
  }

  predicate NoneDone(participants: map<ClientId, Participant>) {
    forall c | c in participants :: !participants[c].completed
  }

  /**
   * Behind a barrier everybody has contributed; in front of it somebody is missing, and nobody has
   * contributed to a later one.
   */
  ghost predicate BarriersOk(s: RoundState, participants: map<ClientId, Participant>) {
    && s != Created
    && (PastRegistration(s) ==> AllKeyed(participants))
    && (PastKeySetup(s) ==> AllCommitted(participants) && CommitmentsAgree(participants))
    && (PastCollection(s) ==> AllUpdated(participants))
    && (s.Completed? ==> AllDone(participants))
    && (s.RegistrationOpen? ==> !AllKeyed(participants) && NoneCommitted(participants))
    && (s.KeySetup? ==> !AllCommitted(participants))
    && (s.RegistrationOpen? || s.KeySetup? || s.KeyAggregation? ==> NoneUpdated(participants))
    && (s.UpdateCollection? ==> !AllUpdated(participants))
    && (s.ResultReady? ==> !AllDone(participants))
    && (Alive(s) && !PastAggregation(s) ==> NoneDone(participants))
  }

  /** Which rows a state comes with: the plan, its completion, the final-key receipts, and the job. */
  ghost predicate StageOk(s: RoundState, protocol: Protocol, members: set<ClientId>,
                          plan: Option<Plan>, tasks: map<TaskKey, TaskRow>,
                          receipts: map<ClientId, FinalReceipt>, job: Option<Job>) {
    && (s.RegistrationOpen? || s.KeySetup? ==> plan.None?)
    && (protocol == V11 && PastKeySetup(s) ==> plan.Some?)
    && (s.KeyAggregation? ==> protocol == V11 && receipts.Keys != members)
    && (protocol == V11 && PastKeyAggregation(s) ==> AllTasksCompleted(tasks) && receipts.Keys == members)
    && (s.RegistrationOpen? || s.KeySetup? || s.KeyAggregation? || s.UpdateCollection? ==> job.None?)
    && (s.Aggregating? ==> job.Some? && job.value.state in {JobReady, JobClaimed})
    && (PastAggregation(s) ==> job.Some? && job.value.state == JobCompleted)
  }

  ghost predicate PlanOk(protocol: Protocol, roster: seq<ClientId>, plan: Option<Plan>,
                         tasks: map<TaskKey, TaskRow>, edges: set<(TaskKey, TaskKey)>) {
    if plan.None? then tasks == map[] && edges == {}
    else protocol == V11 && TasksOfPlan(plan.value, roster, tasks, edges)
  }

  /** The task and dependency rows are those of the plan, and the plan partitions the roster. */
  ghost predicate TasksOfPlan(plan: Plan, roster: seq<ClientId>,
                              tasks: map<TaskKey, TaskRow>, edges: set<(TaskKey, TaskKey)>) {
    && Partitions(plan.groups, roster) && plan == PlanOf(plan.participants, plan.groups)
    && (forall k :: k in tasks <==> IsTask(plan.groups, k))
    && (forall k | k in tasks :: tasks[k].task == TaskOf(plan.groups, k))
    && (forall k, d :: (k, d) in edges <==> k in tasks && d in tasks[k].task.dependencies)
  }

  /** A task waits exactly while some dependency is not completed, and holds an upload exactly once uploaded. */
  ghost predicate TaskOk(tasks: map<TaskKey, TaskRow>, k: TaskKey)
    requires k in tasks
  {
    && (forall d | d in tasks[k].task.dependencies :: d in tasks)
    && (tasks[k].state == Waiting <==>
          exists d | d in tasks[k].task.dependencies :: d in tasks && tasks[d].state != TaskCompleted)
    && (tasks[k].upload.Some? <==> tasks[k].state in {ArtifactUploaded, TaskCompleted})
  }

  ghost predicate SchedulerOk(tasks: map<TaskKey, TaskRow>, receipts: map<TaskKey, TaskReceipt>) {
    && (forall k | k in tasks :: TaskOk(tasks, k))
    && (forall k :: k in receipts <==> k in tasks && tasks[k].state == TaskCompleted)
  }

  ghost predicate FinalOk(participants: map<ClientId, Participant>, plan: Option<Plan>,
                          tasks: map<TaskKey, TaskRow>, finalKey: Option<FinalKey>,
                          receipts: map<ClientId, FinalReceipt>) {
    && (finalKey.Some? ==> plan.Some? && AllTasksCompleted(tasks) && finalKey.value.sender == plan.value.rootClient)
    && receipts.Keys <= participants.Keys
    && (receipts != map[] ==> finalKey.Some?)
  }

  /** Every artifact row is accounted for by the row that owns it. */
  ghost predicate ArtifactOwned(id: string, a: Artifact, participants: map<ClientId, Participant>,
                                tasks: map<TaskKey, TaskRow>, finalKey: Option<FinalKey>) {
    match a.kind
    case UpdateFile =>
      && a.client.Some? && a.client.value in participants && participants[a.client.value].update.Some?
      && participants[a.client.value].update.value.artifactId == id
    case TaskFile(k) =>
      && k in tasks && a.client == Some(tasks[k].task.sender) && tasks[k].upload.Some?
      && tasks[k].upload.value.artifactId == id
    case FinalKeyFile =>
      finalKey.Some? && a.client == Some(finalKey.value.sender) && finalKey.value.upload.artifactId == id
    case ResultFile => a.client.None?
  }

  ghost predicate ArtifactsOk(artifacts: map<string, Artifact>, participants: map<ClientId, Participant>,
                              tasks: map<TaskKey, TaskRow>, finalKey: Option<FinalKey>) {
    && (forall id | id in artifacts :: ArtifactOwned(id, artifacts[id], participants, tasks, finalKey))
    && (forall c | c in participants && participants[c].update.Some? :: UpdateFiled(artifacts, c, participants[c].update.value))
    && (forall k | k in tasks && tasks[k].upload.Some? ::
          Filed(artifacts, tasks[k].upload.value.artifactId, tasks[k].task.sender, TaskFile(k)))
    && (finalKey.Some? ==>
          Filed(artifacts, finalKey.value.upload.artifactId, finalKey.value.sender, FinalKeyFile))
  }

  ghost predicate Filed(artifacts: map<string, Artifact>, id: string, client: ClientId, kind: ArtifactKind) {
    id in artifacts && artifacts[id].client == Some(client) && artifacts[id].kind == kind
  }

  ghost predicate UpdateFiled(artifacts: map<string, Artifact>, client: ClientId, slot: UpdateSlot) {
    Filed(artifacts, slot.artifactId, client, UpdateFile) && artifacts[slot.artifactId].digest == slot.digest
  }

  /** Attempts are bounded, a queued job has one left, and only a claimed job has a token. */
  ghost predicate JobOk(job: Option<Job>) {
    job.Some? ==>
      && job.value.attempts <= job.value.maxAttempts == MAX_ATTEMPTS
      && (job.value.state == JobReady ==> job.value.attempts < job.value.maxAttempts)
      && (job.value.token.Some? <==> job.value.state == JobClaimed)
      && (job.value.tag.Some? <==> job.value.state == JobCompleted)
  }

  /** A result row exists exactly when the job completed, and then there is one. */
  ghost predicate ResultOk(artifacts: map<string, Artifact>, job: Option<Job>) {
    && (HasResult(artifacts) <==> job.Some? && job.value.state == JobCompleted)
    && forall a, b | a in artifacts && b in artifacts ::
      artifacts[a].kind == ResultFile && artifacts[b].kind == ResultFile ==> a == b
  }

  // ---- The audit log

  /** How many of the first n events are versioned. */
  function Versions(audit: seq<AuditEvent>, n: nat): nat
    requires n <= |audit|
  {
    if n == 0 then 0 else Versions(audit, n - 1) + if audit[n - 1].version.Some? then 1 else 0
  }

  /** The state an event leads to. */
  function EventTarget(event: EventType, protocol: Protocol): Option<RoundState> {
    match event
    case RoundCreated => Some(RegistrationOpen)
    case PublicKeyBarrier => Some(KeySetup)
    case KeySetupBarrier => Some(if protocol == V11 then KeyAggregation else UpdateCollection)
    case FinalKeyBarrier => Some(UpdateCollection)
    case UpdateBarrier => Some(Aggregating)
    case AggregationCompleted => Some(ResultReady)
    case CompletionBarrier => Some(Completed)
    case KeyContextMismatched => Some(Failed)
    case AggregationFailed => Some(Failed)
    case LeaseExhausted => Some(Failed)
    case RoundRejected(_) => Some(Failed)
    case OperatorAbort => Some(Aborted)
    case DeadlineExceeded => Some(Expired)
    case _ => None
  }

  /** The state reached by replaying the versioned events among the first n. */
  function StateAfter(audit: seq<AuditEvent>, n: nat, protocol: Protocol): RoundState
    requires n <= |audit|
  {
    if n == 0 then Created
    else if audit[n - 1].version.Some? && EventTarget(audit[n - 1].event, protocol).Some? then
      EventTarget(audit[n - 1].event, protocol).value
    else StateAfter(audit, n - 1, protocol)
  }

  ghost predicate AuditOk(row: RoundRow, audit: seq<AuditEvent>) {
    && Versions(audit, |audit|) == row.version
    && (forall i | 0 <= i < |audit| && audit[i].version.Some? :: audit[i].version.value == Versions(audit, i + 1))
    && StateAfter(audit, |audit|, row.protocol) == row.state
  }

  /** The version counts the stages passed; cutting a round short costs one more. */
  ghost predicate VersionOk(row: RoundRow) {
    && (Alive(row.state) ==> row.version == Stage(row.state, row.protocol))
    && 1 <= row.version <= Stage(Completed, row.protocol)
    && (row.protocol == V10 ==> !row.state.KeyAggregation?)
    && (row.completedAt.Some? <==> Terminal(row.state))
    && (row.failureCode.Some? <==> !Alive(row.state))
  }

  /** Every remembered update answer is the one the stored update gives. */
  ghost predicate IdemOk(idem: map<IdemKey, IdemRecord>, artifacts: map<string, Artifact>,
                         participants: map<ClientId, Participant>) {
    forall k | k in idem && k.operation == UpdateOp ::
      && k.client in participants && participants[k.client].update.Some?
      && participants[k.client].update.value.artifactId in artifacts
      && idem[k].response == UpdateResponse(artifacts, participants[k.client].update.value.artifactId)
  }

  /** The part of the invariant that single statements keep, whatever the state of the round. */
  ghost predicate RowsOk(r: Round) {
    && RosterOk(r.row.roster, r.row.expectedCount, r.participants)
    && PlanOk(r.row.protocol, r.row.roster, r.plan, r.tasks, r.edges)
    && SchedulerOk(r.tasks, r.taskReceipts)
    && FinalOk(r.participants, r.plan, r.tasks, r.finalKey, r.finalReceipts)
    && ArtifactsOk(r.artifacts, r.participants, r.tasks, r.finalKey)
    && JobOk(r.job)
    && ResultOk(r.artifacts, r.job)
    && AuditOk(r.row, r.audit)
    && VersionOk(r.row)
    && IdemOk(r.idem, r.artifacts, r.participants)
  }

  ghost predicate Inv(r: Round) {
    && RowsOk(r)
    && BarriersOk(r.row.state, r.participants)
    && StageOk(r.row.state, r.row.protocol, r.participants.Keys, r.plan, r.tasks, r.finalReceipts, r.job)
  }
}
