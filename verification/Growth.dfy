/** Nothing a transaction has recorded is ever changed or lost while the round exists. */
module Growth {
  import opened Names
  import opened PlanShape
  import opened JobSteps
  import opened RoundInvariant
  import opened Rounds
  import opened RoundSteps
  import opened Shuffling
  import opened States
  import opened TaskSteps
  import opened Topology
  import opened Wrappers

  /** after has every row of before, unchanged. */
  ghost predicate Extends<K, V>(before: map<K, V>, after: map<K, V>) {
    forall k | k in before :: k in after && after[k] == before[k]
  }

  /** A value once present stays. */
  ghost predicate Stays<T>(before: Option<T>, after: Option<T>) {
    before.Some? ==> after == before
  }

  /** The retention window, counted from creation and, once the round is terminal, from its end. */
  function Retention(row: RoundRow): Time {
    row.retentionAt - if row.completedAt.Some? then row.completedAt.value else row.createdAt
  }

  predicate EndTimed(row: RoundRow) {
    row.completedAt.Some? <==> Terminal(row.state)
  }

  ghost predicate RowGrows(row: RoundRow, after: RoundRow) {
    && after.federation == row.federation && after.protocol == row.protocol && after.roster == row.roster
    && after.expectedCount == row.expectedCount
    && after.createdAt == row.createdAt && after.deadlineAt == row.deadlineAt
    && row.version <= after.version && (row.version == after.version ==> after == row)
    && (Terminal(row.state) ==> after == row)
    && (EndTimed(row) ==> EndTimed(after) && Retention(after) == Retention(row))
  }

  ghost predicate ParticipantGrows(p: Participant, after: Participant) {
    && Stays(p.publicKey, after.publicKey) && Stays(p.keyBundle, after.keyBundle)
    && Stays(p.commitment, after.commitment) && Stays(p.update, after.update)
    && (p.completed ==> after.completed)
  }

  ghost predicate ParticipantsGrow(ps: map<ClientId, Participant>, after: map<ClientId, Participant>) {
    after.Keys == ps.Keys && forall c | c in ps :: ParticipantGrows(ps[c], after[c])
  }

  function TaskRank(s: TaskState): nat {
    match s
    case Waiting => 0
    case Ready => 1
    case ArtifactUploaded => 2
    case TaskCompleted => 3
  }

  ghost predicate TaskGrows(t: TaskRow, after: TaskRow) {
    after.task == t.task && TaskRank(t.state) <= TaskRank(after.state) && Stays(t.upload, after.upload)
  }

  ghost predicate TasksGrow(tasks: map<TaskKey, TaskRow>, after: map<TaskKey, TaskRow>) {
    forall k | k in tasks :: k in after && TaskGrows(tasks[k], after[k])
  }

  function Attempts(job: Option<Job>): nat {
    if job.Some? then job.value.attempts else 0
  }

  /** The token of the claim that holds the job. */
  function Holder(job: Option<Job>): Option<string> {
    if job.Some? && job.value.state == JobClaimed then job.value.token else None
  }

  /** A job that is completed or failed for good keeps its row, and without a new attempt it gets no new holder. */
  ghost predicate JobGrows(job: Option<Job>, after: Option<Job>) {
    && Attempts(job) <= Attempts(after)
    && (Attempts(after) == Attempts(job) ==> Holder(after) in {None, Holder(job)})
    && (job.Some? ==>
          && after.Some? && after.value.id == job.value.id
          && (job.value.state in {JobCompleted, JobFailed} ==> after == job))
  }

  ghost predicate Grows(r: Round, after: Round) {
    && RowGrows(r.row, after.row)
    && ParticipantsGrow(r.participants, after.participants)
    && Extends(r.artifacts, after.artifacts)
    && Extends(r.idem, after.idem)
    && JobGrows(r.job, after.job)
    && r.audit <= after.audit
    && Stays(r.plan, after.plan) && (r.plan.Some? ==> after.tasks.Keys == r.tasks.Keys)
    && TasksGrow(r.tasks, after.tasks)
    && Extends(r.taskReceipts, after.taskReceipts)
    && Stays(r.finalKey, after.finalKey)
    && Extends(r.finalReceipts, after.finalReceipts)
  }

  lemma GrowsTransitively(a: Round, b: Round, c: Round)
    requires Grows(a, b) && Grows(b, c)
    ensures Grows(a, c)
  {
    hide Terminal;
    forall x | x in a.participants ensures ParticipantGrows(a.participants[x], c.participants[x]) {
      assert x in b.participants && ParticipantGrows(b.participants[x], c.participants[x]);
    }
    forall k | k in a.tasks ensures k in c.tasks && TaskGrows(a.tasks[k], c.tasks[k]) {
      assert k in b.tasks && TaskGrows(b.tasks[k], c.tasks[k]);
    }
  }

  lemma GrowsReflexively(r: Round)
    ensures Grows(r, r)
  {
  }

  // ---- Single statements

  lemma LogGrows(r: Round, actor: string, event: EventType, now: Time)
    ensures Grows(r, Log(r, actor, event, now))
  {
  }

  lemma RememberGrows(r: Round, k: IdemKey, digest: string, response: Response)
    requires k !in r.idem
    ensures Grows(r, Remember(r, k, digest, response))
  {
  }

  lemma MovedGrows(r: Round, target: RoundState, actor: string, event: EventType, now: Time)
    requires !Terminal(r.row.state)
    ensures Grows(r, Moved(r, target, actor, event, now))
  {
  }

  lemma ParticipantGrown(r: Round, client: ClientId, p: Participant)
    requires client in r.participants && ParticipantGrows(r.participants[client], p)
    ensures Grows(r, WithParticipant(r, client, p))
  {
  }

  lemma ArtifactGrown(r: Round, id: string, a: Artifact)
    requires id !in r.artifacts
    ensures Grows(r, r.(artifacts := r.artifacts[id := a]))
  {
  }

  lemma JobGrown(r: Round, job: Job)
    requires JobGrows(r.job, Some(job))
    ensures Grows(r, r.(job := Some(job)))
  {
  }

  /** The three statements that end most transactions. */
  lemma RecordedGrows(r: Round, changed: Round, k: IdemKey, digest: string, response: Response,
                      actor: string, event: EventType, now: Time)
    requires Grows(r, changed) && changed.idem == r.idem && k !in r.idem
    ensures Grows(r, Log(Remember(changed, k, digest, response), actor, event, now))
  {
    hide Grows;
    var remembered := Remember(changed, k, digest, response);
    RememberGrows(changed, k, digest, response);
    LogGrows(remembered, actor, event, now);
    GrowsTransitively(r, changed, remembered);
    GrowsTransitively(r, remembered, Log(remembered, actor, event, now));
  }

  lemma ThenMoved(r: Round, changed: Round, target: RoundState, actor: string, event: EventType, now: Time)
    requires Grows(r, changed) && !Terminal(changed.row.state)
    ensures Grows(r, Moved(changed, target, actor, event, now))
  {
    hide Grows;
    MovedGrows(changed, target, actor, event, now);
    GrowsTransitively(r, changed, Moved(changed, target, actor, event, now));
  }

  ghost predicate Extending(r: Round, t: Transaction) {
    t.Success? ==> Grows(r, t.value.round)
  }

  // ---- The transactions

  lemma RecordJsonSlotGrows(r: Round, client: ClientId, slot: JsonSlot, body: string, key: string, digest: string, now: Time)
    requires client in r.participants
    ensures Extending(r, RecordJsonSlot(r, client, slot, body, key, digest, now))
  {
    hide Grows, AllKeyed, MovedRow;
    GrowsReflexively(r);
    var p := r.participants[client];
    var k := IdemKey(client, SlotOperation(slot), key);
    if RecordJsonSlot(r, client, slot, body, key, digest, now).Failure? || k in r.idem {
    } else {
      var filled := WithParticipant(r, client, FillSlot(p, slot, body, now));
      ParticipantGrown(r, client, FillSlot(p, slot, body, now));
      hide FillSlot;
      var event := if slot.PublicKeySlot? then PublicKeyAccepted else KeyBundleAccepted;
      if slot.PublicKeySlot? && AllKeyed(filled.participants) && r.row.state == RegistrationOpen {
        var remembered := Remember(filled, k, digest, AcceptedDigest(digest));
        RememberGrows(filled, k, digest, AcceptedDigest(digest));
        GrowsTransitively(r, filled, remembered);
        ThenMoved(r, remembered, KeySetup, client, PublicKeyBarrier, now);
        var moved := Moved(remembered, KeySetup, client, PublicKeyBarrier, now);
        LogGrows(moved, client, event, now);
        GrowsTransitively(r, moved, Log(moved, client, event, now));
      } else {
        RecordedGrows(r, filled, k, digest, AcceptedDigest(digest), client, event, now);
      }
    }
  }

  lemma PlanGrown(r: Round, plan: Plan)
    requires r.plan.None? && r.tasks == map[]
    ensures Grows(r, InstallPlan(r, plan))
  {
    hide InitialTasks, DependencyEdges;
  }

  lemma NoTasksBeforePlan(r: Round)
    requires Inv(r) && r.row.state == KeySetup
    ensures r.plan.None? && r.tasks == map[]
  {
  }

  lemma CrossKeySetupGrows(r: Round, client: ClientId, draw: Draws, now: Time)
    requires r.row.state == KeySetup ==> r.plan.None? && r.tasks == map[]
    ensures Extending(r, CrossKeySetup(r, client, draw, now))
  {
    hide Grows, InstallPlan, PlanFor, AllKeyed, AllCommitted, CommitmentsAgree;
    GrowsReflexively(r);
    if r.row.state == KeySetup && AllCommitted(r.participants) {
      MovedGrows(r, Failed, client, KeyContextMismatched, now);
      MovedGrows(r, UpdateCollection, client, KeySetupBarrier, now);
      if r.row.protocol == V11 && CreateTreePlan(r, draw, now).Success? {
        var plan := PlanFor(r.row.roster, draw).value;
        PlanGrown(r, plan);
        PlanRowInstalled(r, plan);
        var installed := InstallPlan(r, plan);
        LogGrows(installed, "coordinator", TreePlanCommitted, now);
        GrowsTransitively(r, installed, Log(installed, "coordinator", TreePlanCommitted, now));
        ThenMoved(r, Log(installed, "coordinator", TreePlanCommitted, now), KeyAggregation, client, KeySetupBarrier, now);
      }
    }
  }

  lemma KeyCompleteGrows(r: Round, client: ClientId, commitment: string, key: string, digest: string,
                         draw: Draws, now: Time)
    requires client in r.participants
    requires r.row.state == KeySetup ==> r.plan.None? && r.tasks == map[]
    ensures Extending(r, KeyComplete(r, client, commitment, key, digest, draw, now))
  {
    GrowsReflexively(r);
    var k := IdemKey(client, KeyCompleteOp, key);
    var p := r.participants[client];
    if k !in r.idem && (p.commitment.Some? ==> p.commitment == Some(commitment)) {
      var committed := WithParticipant(r, client, Confirmed(p, commitment, now));
      ParticipantGrown(r, client, Confirmed(p, commitment, now));
      hide Grows, CrossKeySetup, ParticipantGrows;
      RecordedGrows(r, committed, k, digest, Accepted, client, KeyContextAccepted, now);
      var logged := Log(Remember(committed, k, digest, Accepted), client, KeyContextAccepted, now);
      CrossKeySetupGrows(logged, client, draw, now);
      var t := CrossKeySetup(logged, client, draw, now);
      if t.Success? {
        GrowsTransitively(r, logged, t.value.round);
      }
    }
  }

  lemma TaskTableGrown(r: Round, after: Round)
    requires after == r.(tasks := after.tasks, taskReceipts := after.taskReceipts, artifacts := after.artifacts)
    requires after.tasks.Keys == r.tasks.Keys && TasksGrow(r.tasks, after.tasks)
    requires Extends(r.taskReceipts, after.taskReceipts) && Extends(r.artifacts, after.artifacts)
    ensures Grows(r, after)
  {
    hide TasksGrow, Extends, ParticipantGrows;
    GrowsReflexively(r);
    hide ParticipantsGrow;
  }

  lemma RecordTaskArtifactGrows(r: Round, client: ClientId, task: TaskKey, stored: Stored, upload: Upload,
                                key: string, digest: string, now: Time)
    requires Inv(r)
    ensures Extending(r, RecordTaskArtifact(r, client, task, stored, upload, key, digest, now))
  {
    hide Inv;
    GrowsReflexively(r);
    var k := IdemKey(client, TaskUploadOp(task), key);
    if k !in r.idem && task in r.tasks && r.tasks[task].state == Ready && stored.objectId !in r.artifacts {
      ReadyHasNoUpload(r, task);
      var a := Artifact(Some(client), TaskFile(task), stored.path, stored.digest, stored.size, now);
      var uploaded := WithUpload(r, task, stored.objectId, a, upload);
      TaskTableGrown(r, uploaded);
      hide Grows;
      RecordedGrows(r, uploaded, k, digest, AcceptedFile(stored.objectId, upload.ciphertextDigest, stored.size),
        client, TreeArtifactAccepted, now);
    }
  }

  lemma ReadyHasNoUpload(r: Round, task: TaskKey)
    requires Inv(r) && task in r.tasks && r.tasks[task].state == Ready
    ensures r.tasks[task].upload.None?
  {
    assert TaskOk(r.tasks, task);
  }

  lemma AcknowledgeTaskGrows(r: Round, client: ClientId, task: TaskKey, artifactDigest: string,
                             key: string, digest: string, now: Time)
    ensures Extending(r, AcknowledgeTask(r, client, task, artifactDigest, key, digest, now))
  {
    GrowsReflexively(r);
    var k := IdemKey(client, TaskAckOp(task), key);
    if k !in r.idem && task in r.tasks && r.tasks[task].state == ArtifactUploaded && task !in r.taskReceipts {
      var acknowledged := WithReceipt(r, task, TaskReceipt(client, artifactDigest, now), now);
      var done := Acknowledged(r.tasks, task, now);
      ActivateFrame(done, r.edges);
      hide Activate;
      assert done.Keys == r.tasks.Keys;
      TaskTableGrown(r, acknowledged);
      hide Grows;
      RecordedGrows(r, acknowledged, k, digest, Accepted, client, TreeTaskCompleted, now);
    }
  }

  lemma FinalTableGrown(r: Round, after: Round)
    requires after == r.(finalKey := after.finalKey, finalReceipts := after.finalReceipts, artifacts := after.artifacts)
    requires Stays(r.finalKey, after.finalKey)
    requires Extends(r.finalReceipts, after.finalReceipts) && Extends(r.artifacts, after.artifacts)
    ensures Grows(r, after)
  {
    hide Extends, ParticipantGrows;
    GrowsReflexively(r);
    hide ParticipantsGrow, TasksGrow;
  }

  lemma RecordFinalKeyGrows(r: Round, client: ClientId, stored: Stored, upload: Upload,
                            key: string, digest: string, now: Time)
    ensures Extending(r, RecordFinalKey(r, client, stored, upload, key, digest, now))
  {
    GrowsReflexively(r);
    var k := IdemKey(client, FinalKeyOp, key);
    if k !in r.idem && r.finalKey.None? && stored.objectId !in r.artifacts {
      var a := Artifact(Some(client), FinalKeyFile, stored.path, stored.digest, stored.size, now);
      var published := WithFinalKey(r, stored.objectId, a, FinalKey(upload.(artifactId := stored.objectId), client, now));
      FinalTableGrown(r, published);
      hide Grows;
      RecordedGrows(r, published, k, digest, AcceptedFile(stored.objectId, upload.ciphertextDigest, stored.size),
        client, FinalKeyPublished, now);
    }
  }

  lemma AcknowledgeFinalKeyGrows(r: Round, client: ClientId, artifactDigest: string, key: string, digest: string, now: Time)
    ensures Extending(r, AcknowledgeFinalKey(r, client, artifactDigest, key, digest, now))
  {
    GrowsReflexively(r);
    var k := IdemKey(client, FinalKeyAckOp, key);
    if k !in r.idem && r.row.state == KeyAggregation && client !in r.finalReceipts {
      var received := WithFinalReceipt(r, client, FinalReceipt(artifactDigest, now));
      FinalTableGrown(r, received);
      hide Grows;
      RecordedGrows(r, received, k, digest, Accepted, client, FinalKeyAcknowledged, now);
      var logged := Log(Remember(received, k, digest, Accepted), client, FinalKeyAcknowledged, now);
      ThenMoved(r, logged, UpdateCollection, client, FinalKeyBarrier, now);
    }
  }

  lemma UpdateGrown(r: Round, client: ClientId, id: string, a: Artifact, slot: UpdateSlot, now: Time)
    requires client in r.participants && r.participants[client].update.None? && id !in r.artifacts
    ensures Grows(r, WithUpdate(r, client, id, a, slot, now))
  {
    var updated := WithParticipant(r, client, Updated(r.participants[client], slot, now));
    ParticipantGrown(r, client, Updated(r.participants[client], slot, now));
    ArtifactGrown(updated, id, a);
    hide Grows;
    GrowsTransitively(r, updated, WithUpdate(r, client, id, a, slot, now));
  }

  lemma FreshUpdateGrows(r: Round, client: ClientId, stored: Stored, tag: string,
                         key: string, digest: string, jobId: string, rowid: nat, now: Time)
    requires client in r.participants && r.participants[client].update.None? && stored.objectId !in r.artifacts
    requires IdemKey(client, UpdateOp, key) !in r.idem
    ensures Extending(r, RecordUpdate(r, client, stored, tag, key, digest, jobId, rowid, now))
  {
    var k := IdemKey(client, UpdateOp, key);
    var a := Artifact(Some(client), UpdateFile, stored.path, stored.digest, stored.size, now);
    var slot := UpdateSlot(stored.objectId, stored.digest, tag);
    var response := AcceptedFile(stored.objectId, stored.digest, stored.size);
    var updated := WithUpdate(r, client, stored.objectId, a, slot, now);
    hide Grows, AllUpdated;
    UpdateGrown(r, client, stored.objectId, a, slot, now);
    RecordedGrows(r, updated, k, digest, response, client, UpdateAccepted, now);
    var logged := Log(Remember(updated, k, digest, response), client, UpdateAccepted, now);
    if AllUpdated(logged.participants) && r.row.state == UpdateCollection && r.job.None? {
      ThenMoved(r, logged, Aggregating, client, UpdateBarrier, now);
      var moved := Moved(logged, Aggregating, client, UpdateBarrier, now);
      JobQueued(moved, NewJob(jobId, rowid));
      GrowsTransitively(r, moved, moved.(job := Some(NewJob(jobId, rowid))));
    }
  }

  lemma JobQueued(r: Round, job: Job)
    requires r.job.None? && job.state == JobReady
    ensures Grows(r, r.(job := Some(job)))
  {
  }

  lemma RecordUpdateGrows(r: Round, client: ClientId, stored: Stored, tag: string,
                          key: string, digest: string, jobId: string, rowid: nat, now: Time)
    requires client in r.participants
    ensures Extending(r, RecordUpdate(r, client, stored, tag, key, digest, jobId, rowid, now))
  {
    hide Grows, AllUpdated;
    GrowsReflexively(r);
    var k := IdemKey(client, UpdateOp, key);
    if k !in r.idem {
      if r.participants[client].update.Some? {
        var id := r.participants[client].update.value.artifactId;
        if IsUpdateOf(r.artifacts, client, id) {
          RememberGrows(r, k, digest, UpdateResponse(r.artifacts, id));
        }
      } else if stored.objectId !in r.artifacts {
        FreshUpdateGrows(r, client, stored, tag, key, digest, jobId, rowid, now);
      }
    }
  }

  lemma ReclaimLeaseGrows(r: Round, now: Time, lease: Time)
    ensures Extending(r, ReclaimLease(r, now, lease))
  {
    GrowsReflexively(r);
    if r.job.Some? && LeaseOver(r.job.value, now, lease) {
      var reopened := r.job.value.(state := JobReady, claimedAt := None, leaseUntil := None, token := None);
      var closed := r.job.value.(state := JobFailed, leaseUntil := None, token := None);
      JobGrown(r, reopened);
      JobGrown(r, closed);
      hide Grows;
      LogGrows(r.(job := Some(reopened)), "worker", LeaseExpired, now);
      GrowsTransitively(r, r.(job := Some(reopened)), Log(r.(job := Some(reopened)), "worker", LeaseExpired, now));
      if r.row.state == Aggregating {
        ThenMoved(r, r.(job := Some(closed)), Failed, "worker", LeaseExhausted, now);
      }
    }
  }

  lemma ClaimJobGrows(r: Round, now: Time, lease: Time, token: string)
    ensures Extending(r, ClaimJob(r, now, lease, token))
  {
    GrowsReflexively(r);
    if Claimable(r, now) {
      JobGrown(r, r.job.value.(state := JobClaimed, attempts := r.job.value.attempts + 1,
        claimedAt := Some(now), leaseUntil := Some(now + lease), token := Some(token)));
    }
    hide Grows;
  }

  lemma RenewJobGrows(r: Round, jobId: string, token: string, lease: Time, now: Time)
    ensures Extending(r, RenewJob(r, jobId, token, lease, now))
  {
    if Owns(r.job, jobId, token) {
      JobGrown(r, r.job.value.(leaseUntil := Some(now + lease)));
    }
    hide Grows;
  }

  lemma FailJobGrows(r: Round, jobId: string, token: string, retryable: bool, now: Time)
    ensures Extending(r, FailJob(r, jobId, token, retryable, now))
  {
    GrowsReflexively(r);
    if Owns(r.job, jobId, token) {
      var closed := r.job.value.(state := JobFailed, leaseUntil := None, token := None);
      JobGrown(r, r.job.value.(state := JobReady, claimedAt := None, leaseUntil := None, token := None));
      JobGrown(r, closed);
      hide Grows;
      if r.row.state == Aggregating {
        ThenMoved(r, r.(job := Some(closed)), Failed, "worker", AggregationFailed, now);
      }
    }
  }

  lemma InsertGrows(r: Round, stored: Stored, now: Time)
    ensures InsertResult(r, stored, now).Success? ==>
      var after := InsertResult(r, stored, now).value;
      Grows(r, after) && after == r.(artifacts := after.artifacts)
  {
    GrowsReflexively(r);
    if stored.objectId !in r.artifacts {
      ArtifactGrown(r, stored.objectId, Artifact(None, ResultFile, stored.path, stored.digest, stored.size, now));
    }
    hide Grows;
  }

  lemma CompleteJobGrows(r: Round, jobId: string, token: string, stored: Stored, tag: string, now: Time)
    ensures Extending(r, CompleteJob(r, jobId, token, stored, tag, now))
  {
    hide InsertResult;
    InsertGrows(r, stored, now);
    if Owns(r.job, jobId, token) && r.row.state == Aggregating && InsertResult(r, stored, now).Success? {
      var inserted := InsertResult(r, stored, now).value;
      var moved := Moved(inserted, ResultReady, "worker", AggregationCompleted, now);
      var done := r.job.value.(state := JobCompleted, leaseUntil := None, token := None, tag := Some(tag));
      JobGrown(moved, done);
      hide Grows;
      ThenMoved(r, inserted, ResultReady, "worker", AggregationCompleted, now);
      GrowsTransitively(r, moved, moved.(job := Some(done)));
    }
    hide Grows;
  }

  lemma EndsGrow(r: Round, actor: string, code: string, now: Time)
    ensures Extending(r, FailRound(r, actor, code, now)) && Extending(r, ReadRound(r, now))
  {
    GrowsReflexively(r);
    hide Grows;
    if !Terminal(r.row.state) {
      MovedGrows(r, Failed, actor, RoundRejected(code), now);
      MovedGrows(r, Expired, "reconciler", DeadlineExceeded, now);
    }
  }

  lemma ExpireRoundGrows(r: Round, now: Time)
    ensures Extending(r, ExpireRound(r, now))
  {
    GrowsReflexively(r);
    if !Terminal(r.row.state) {
      MovedGrows(r, Expired, "reconciler", DeadlineExceeded, now);
      var moved := Moved(r, Expired, "reconciler", DeadlineExceeded, now);
      if moved.job.Some? && moved.job.value.state in {JobReady, JobClaimed} {
        var closed := moved.job.value.(state := JobFailed, leaseUntil := None, token := None);
        JobGrown(moved, closed);
        hide Grows;
        GrowsTransitively(r, moved, moved.(job := Some(closed)));
      }
    }
    hide Grows;
  }

  lemma AbortRoundGrows(r: Round, actor: string, key: string, digest: string, now: Time)
    ensures Extending(r, AbortRound(r, actor, key, digest, now))
  {
    hide Grows;
    GrowsReflexively(r);
    var k := IdemKey(actor, AbortOp, key);
    if k !in r.idem && !Terminal(r.row.state) {
      MovedGrows(r, Aborted, actor, OperatorAbort, now);
      var moved := Moved(r, Aborted, actor, OperatorAbort, now);
      RememberGrows(moved, k, digest, Accepted);
      GrowsTransitively(r, moved, Remember(moved, k, digest, Accepted));
    }
  }

  lemma CompleteParticipantGrows(r: Round, client: ClientId, key: string, digest: string, now: Time)
    requires client in r.participants
    ensures Extending(r, CompleteParticipant(r, client, key, digest, now))
  {
    GrowsReflexively(r);
    var k := IdemKey(client, CompleteOp, key);
    if k !in r.idem {
      var p := Departed(r.participants[client], now);
      var done := WithParticipant(r, client, p);
      ParticipantGrown(r, client, p);
      hide Grows, AllDone, ParticipantGrows;
      RecordedGrows(r, done, k, digest, Accepted, client, ParticipantCompleted, now);
      var logged := Log(Remember(done, k, digest, Accepted), client, ParticipantCompleted, now);
      if r.row.state == ResultReady {
        ThenMoved(r, logged, Completed, client, CompletionBarrier, now);
      }
    }
  }
}
