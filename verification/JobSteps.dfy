/** The update, job and closing transactions keep the round invariant. */
module JobSteps {
  import opened Names
  import opened PlanShape
  import opened RoundInvariant
  import opened RoundSteps
  import opened Rounds
  import opened Sequences
  import opened Shuffling
  import opened States
  import opened TaskSteps
  import opened Wrappers

  // ---- A client's update

  function Updated(p: Participant, slot: UpdateSlot, now: Time): Participant {
    p.(update := Some(slot), state := UpdateSubmitted, lastSeen := now)
  }

  function WithUpdate(r: Round, client: ClientId, id: string, a: Artifact, slot: UpdateSlot, now: Time): Round
    requires client in r.participants
  {
    WithParticipant(r, client, Updated(r.participants[client], slot, now)).(artifacts := r.artifacts[id := a])
  }

  lemma UpdateFiledKeeps(artifacts: map<string, Artifact>, participants: map<ClientId, Participant>,
                         tasks: map<TaskKey, TaskRow>, finalKey: Option<FinalKey>,
                         client: ClientId, id: string, a: Artifact, slot: UpdateSlot, now: Time)
    requires ArtifactsOk(artifacts, participants, tasks, finalKey) && id !in artifacts
    requires client in participants && participants[client].update.None?
    requires a.kind == UpdateFile && a.client == Some(client) && slot.artifactId == id && slot.digest == a.digest
    ensures ArtifactsOk(artifacts[id := a], participants[client := Updated(participants[client], slot, now)], tasks, finalKey)
  {
    var rows, ps := artifacts[id := a], participants[client := Updated(participants[client], slot, now)];
    forall e | e in rows ensures ArtifactOwned(e, rows[e], ps, tasks, finalKey) {
      if e != id {
        assert ArtifactOwned(e, artifacts[e], participants, tasks, finalKey);
      }
    }
  }

  lemma UpdateRemembered(idem: map<IdemKey, IdemRecord>, artifacts: map<string, Artifact>,
                         participants: map<ClientId, Participant>,
                         k: IdemKey, digest: string, id: string, a: Artifact, slot: UpdateSlot, now: Time)
    requires IdemOk(idem, artifacts, participants) && id !in artifacts
    requires k.client in participants && participants[k.client].update.None?
    requires slot.artifactId == id
    ensures IdemOk(idem[k := IdemRecord(digest, AcceptedFile(id, a.digest, a.size))], artifacts[id := a],
                   participants[k.client := Updated(participants[k.client], slot, now)])
  {
  }

  lemma FreshUpdateKeeps(r: Round, k: IdemKey, digest: string, id: string, a: Artifact, slot: UpdateSlot, now: Time)
    requires RowsOk(r) && k.client in r.participants && r.participants[k.client].update.None? && id !in r.artifacts
    requires a.kind == UpdateFile && a.client == Some(k.client) && slot.artifactId == id && slot.digest == a.digest
    ensures RowsOk(Remember(WithUpdate(r, k.client, id, a, slot, now), k, digest, AcceptedFile(id, a.digest, a.size)))
  {
    hide PlanOk, SchedulerOk, ArtifactsOk, ResultOk, IdemOk, AuditOk, VersionOk, JobOk;
    UpdateFiledKeeps(r.artifacts, r.participants, r.tasks, r.finalKey, k.client, id, a, slot, now);
    UpdateRemembered(r.idem, r.artifacts, r.participants, k, digest, id, a, slot, now);
    ResultUntouched(r.artifacts, r.job, id, a);
    assert r.participants[k.client := Updated(r.participants[k.client], slot, now)].Keys == r.participants.Keys;
  }

  lemma UpdatedBarriers(participants: map<ClientId, Participant>, client: ClientId, slot: UpdateSlot, now: Time)
    requires BarriersOk(UpdateCollection, participants) && client in participants
    ensures var after := participants[client := Updated(participants[client], slot, now)];
      BarriersOk(if AllUpdated(after) then Aggregating else UpdateCollection, after)
  {
    var after := participants[client := Updated(participants[client], slot, now)];
    assert after.Keys == participants.Keys;
  }

  lemma NoFreshUpdateLeft(participants: map<ClientId, Participant>, client: ClientId)
    requires BarriersOk(Aggregating, participants) && client in participants
    ensures participants[client].update.Some?
  {
  }

  /** Queueing the job with the move into aggregation. */
  lemma QueueKeeps(r: Round, id: string, rowid: nat)
    requires RowsOk(r) && r.job.None?
    ensures RowsOk(r.(job := Some(NewJob(id, rowid))))
  {
    hide PlanOk, SchedulerOk, ArtifactsOk, IdemOk, AuditOk, VersionOk, RosterOk, FinalOk;
  }

  lemma StageAfterUpdates(protocol: Protocol, members: set<ClientId>, plan: Option<Plan>, tasks: map<TaskKey, TaskRow>,
                          receipts: map<ClientId, FinalReceipt>, job: Option<Job>, id: string, rowid: nat)
    requires StageOk(UpdateCollection, protocol, members, plan, tasks, receipts, job)
    ensures job.None?
    ensures StageOk(Aggregating, protocol, members, plan, tasks, receipts, Some(NewJob(id, rowid)))
  {
  }

  /** A second upload of the same update is answered from the stored one. */
  lemma RepeatedUpdateKeeps(r: Round, k: IdemKey, digest: string)
    requires RowsOk(r) && k.operation == UpdateOp && k.client in r.participants && r.participants[k.client].update.Some?
    ensures IsUpdateOf(r.artifacts, k.client, r.participants[k.client].update.value.artifactId)
    ensures RowsOk(Remember(r, k, digest, UpdateResponse(r.artifacts, r.participants[k.client].update.value.artifactId)))
  {
    hide PlanOk, SchedulerOk, ResultOk, AuditOk, VersionOk, RosterOk, FinalOk, JobOk;
    assert UpdateFiled(r.artifacts, k.client, r.participants[k.client].update.value);
  }

  lemma FreshUpdateRecorded(r: Round, client: ClientId, stored: Stored, tag: string,
                            key: string, digest: string, jobId: string, rowid: nat, now: Time)
    requires Inv(r) && client in r.participants && r.row.state == UpdateCollection
    requires IdemKey(client, UpdateOp, key) !in r.idem && r.participants[client].update.None?
    requires stored.objectId !in r.artifacts
    ensures Keeps(RecordUpdate(r, client, stored, tag, key, digest, jobId, rowid, now), {ConstraintViolated})
  {
    hide RowsOk, BarriersOk, StageOk, AllUpdated;
    var k := IdemKey(client, UpdateOp, key);
    var id := stored.objectId;
    var a := Artifact(Some(client), UpdateFile, stored.path, stored.digest, stored.size, now);
    var slot := UpdateSlot(id, stored.digest, tag);
    FreshUpdateKeeps(r, k, digest, id, a, slot, now);
    var response := AcceptedFile(id, stored.digest, stored.size);
    var remembered := Remember(WithUpdate(r, client, id, a, slot, now), k, digest, response);
    LogKeeps(remembered, client, UpdateAccepted, now);
    var logged := Log(remembered, client, UpdateAccepted, now);
    UpdatedBarriers(r.participants, client, slot, now);
    StageAfterUpdates(r.row.protocol, r.participants.Keys, r.plan, r.tasks, r.finalReceipts, r.job, jobId, rowid);
    if AllUpdated(logged.participants) {
      MoveKeeps(logged, Aggregating, client, UpdateBarrier, now);
      QueueKeeps(Moved(logged, Aggregating, client, UpdateBarrier, now), jobId, rowid);
    }
  }

  lemma RecordUpdateKeeps(r: Round, client: ClientId, stored: Stored, tag: string,
                          key: string, digest: string, jobId: string, rowid: nat, now: Time)
    requires Inv(r) && client in r.participants
    ensures Keeps(RecordUpdate(r, client, stored, tag, key, digest, jobId, rowid, now),
                  {IdempotencyConflict, RoundConflict, ConstraintViolated})
  {
    hide RowsOk, BarriersOk, StageOk, AllUpdated;
    var k := IdemKey(client, UpdateOp, key);
    var p := r.participants[client];
    if k !in r.idem && r.row.state in {UpdateCollection, Aggregating} {
      if p.update.Some? {
        RepeatedUpdateKeeps(r, k, digest);
      } else if stored.objectId !in r.artifacts {
        if r.row.state == Aggregating {
          NoFreshUpdateLeft(r.participants, client);
        } else {
          FreshUpdateRecorded(r, client, stored, tag, key, digest, jobId, rowid, now);
        }
      }
    }
  }

  // ---- The job

  /** The job row may change as long as it neither enters nor leaves the completed state. */
  lemma JobKeeps(r: Round, job: Job)
    requires RowsOk(r) && r.job.Some? && r.job.value.state != JobCompleted && job.state != JobCompleted
    requires JobOk(Some(job))
    ensures RowsOk(r.(job := Some(job)))
  {
    hide PlanOk, SchedulerOk, ArtifactsOk, IdemOk, AuditOk, VersionOk, RosterOk, FinalOk, HasResult;
  }

  lemma JobBounds(r: Round)
    requires Inv(r)
    ensures JobOk(r.job)
  {
  }

  /** An open job in a live round means the round is being aggregated, and aggregation keeps to open jobs. */
  lemma OpenJobStage(s: RoundState, protocol: Protocol, members: set<ClientId>, plan: Option<Plan>,
                     tasks: map<TaskKey, TaskRow>, receipts: map<ClientId, FinalReceipt>, job: Option<Job>, after: Job)
    requires StageOk(s, protocol, members, plan, tasks, receipts, job) && s != Created
    requires job.Some? && job.value.state in {JobReady, JobClaimed} && after.state in {JobReady, JobClaimed}
    ensures s.Aggregating? || !Alive(s)
    ensures StageOk(s, protocol, members, plan, tasks, receipts, Some(after))
  {
  }

  lemma NotCreated(r: Round)
    requires Inv(r)
    ensures r.row.state != Created
  {
  }

  lemma ReopenedKeeps(r: Round, job: Job)
    requires Inv(r) && r.job.Some? && r.job.value.state in {JobReady, JobClaimed} && job.state in {JobReady, JobClaimed}
    requires JobOk(Some(job))
    ensures Inv(r.(job := Some(job)))
  {
    hide RowsOk, BarriersOk, StageOk, JobOk;
    NotCreated(r);
    JobKeeps(r, job);
    OpenJobStage(r.row.state, r.row.protocol, r.participants.Keys, r.plan, r.tasks, r.finalReceipts, r.job, job);
  }

  /** Closing the job for good takes an aggregating round with it. */
  lemma ClosedKeeps(r: Round, job: Job, event: EventType, now: Time)
    requires Inv(r) && r.job.Some? && r.job.value.state == JobClaimed && job.state == JobFailed && JobOk(Some(job))
    requires EventTarget(event, r.row.protocol) == Some(Failed)
    ensures var closed := r.(job := Some(job));
      if r.row.state == Aggregating then Inv(Moved(closed, Failed, "worker", event, now)) else Inv(closed)
  {
    hide RowsOk, BarriersOk, StageOk, JobOk;
    NotCreated(r);
    JobKeeps(r, job);
    OpenJobStage(r.row.state, r.row.protocol, r.participants.Keys, r.plan, r.tasks, r.finalReceipts, r.job, r.job.value);
    if r.row.state == Aggregating {
      CutShort(r.(job := Some(job)), Failed, "worker", event, now);
    } else {
      StageCutShort(r.row.state, r.row.protocol, r.participants.Keys, r.plan, r.tasks, r.finalReceipts, Some(job));
    }
  }

  lemma InvLogged(r: Round, actor: string, event: EventType, now: Time)
    requires Inv(r)
    ensures Inv(Log(r, actor, event, now))
  {
    hide RowsOk, BarriersOk, StageOk;
    LogKeeps(r, actor, event, now);
  }

  lemma ReclaimLeaseKeeps(r: Round, now: Time, lease: Time)
    requires Inv(r)
    ensures Keeps(ReclaimLease(r, now, lease), {})
  {
    hide Inv;
    JobBounds(r);
    if r.job.Some? && LeaseOver(r.job.value, now, lease) {
      if r.job.value.attempts < r.job.value.maxAttempts {
        var job := r.job.value.(state := JobReady, claimedAt := None, leaseUntil := None, token := None);
        ReopenedKeeps(r, job);
        InvLogged(r.(job := Some(job)), "worker", LeaseExpired, now);
      } else {
        ClosedKeeps(r, r.job.value.(state := JobFailed, leaseUntil := None, token := None), LeaseExhausted, now);
      }
    }
  }

  lemma ClaimJobKeeps(r: Round, now: Time, lease: Time, token: string)
    requires Inv(r)
    ensures Keeps(ClaimJob(r, now, lease, token), {LeaseNotPositive})
  {
    hide Inv;
    JobBounds(r);
    if lease > 0.0 && Claimable(r, now) {
      ReopenedKeeps(r, r.job.value.(state := JobClaimed, attempts := r.job.value.attempts + 1,
        claimedAt := Some(now), leaseUntil := Some(now + lease), token := Some(token)));
    }
  }

  lemma RenewJobKeeps(r: Round, jobId: string, token: string, lease: Time, now: Time)
    requires Inv(r)
    ensures Keeps(RenewJob(r, jobId, token, lease, now), {LeaseNotPositive, ClaimLost})
  {
    hide Inv;
    JobBounds(r);
    if lease > 0.0 && Owns(r.job, jobId, token) {
      ReopenedKeeps(r, r.job.value.(leaseUntil := Some(now + lease)));
    }
  }

  lemma FailJobKeeps(r: Round, jobId: string, token: string, retryable: bool, now: Time)
    requires Inv(r)
    ensures Keeps(FailJob(r, jobId, token, retryable, now), {})
  {
    hide Inv;
    JobBounds(r);
    if Owns(r.job, jobId, token) {
      if retryable && r.job.value.attempts < r.job.value.maxAttempts {
        ReopenedKeeps(r, r.job.value.(state := JobReady, claimedAt := None, leaseUntil := None, token := None));
      } else {
        ClosedKeeps(r, r.job.value.(state := JobFailed, leaseUntil := None, token := None), AggregationFailed, now);
      }
    }
  }

  // ---- Publication

  lemma ResultOwned(artifacts: map<string, Artifact>, participants: map<ClientId, Participant>,
                    tasks: map<TaskKey, TaskRow>, finalKey: Option<FinalKey>, id: string, a: Artifact)
    requires ArtifactsOk(artifacts, participants, tasks, finalKey) && id !in artifacts
    requires a.kind == ResultFile && a.client.None?
    ensures ArtifactsOk(artifacts[id := a], participants, tasks, finalKey)
  {
    var rows := artifacts[id := a];
    forall e | e in rows ensures ArtifactOwned(e, rows[e], participants, tasks, finalKey) {
      if e != id {
        assert ArtifactOwned(e, artifacts[e], participants, tasks, finalKey);
      }
    }
  }

  lemma FirstResult(artifacts: map<string, Artifact>, job: Option<Job>, id: string, a: Artifact, done: Job)
    requires ResultOk(artifacts, job) && job.Some? && job.value.state != JobCompleted && id !in artifacts
    requires a.kind == ResultFile && done.state == JobCompleted
    ensures !HasResult(artifacts) && ResultOk(artifacts[id := a], Some(done))
  {
    assert artifacts[id := a][id].kind == ResultFile;
  }

  function WithResult(r: Round, id: string, a: Artifact, done: Job): Round {
    r.(artifacts := r.artifacts[id := a], job := Some(done))
  }

  /** Storing the first result row together with the completed job. */
  lemma PublishKeeps(r: Round, id: string, a: Artifact, done: Job)
    requires RowsOk(r) && r.job.Some? && r.job.value.state != JobCompleted && id !in r.artifacts
    requires a.kind == ResultFile && a.client.None? && done.state == JobCompleted && JobOk(Some(done))
    ensures !HasResult(r.artifacts) && RowsOk(WithResult(r, id, a, done))
  {
    hide PlanOk, SchedulerOk, ArtifactsOk, ResultOk, IdemOk, AuditOk, VersionOk, RosterOk, FinalOk, HasResult, JobOk;
    ResultOwned(r.artifacts, r.participants, r.tasks, r.finalKey, id, a);
    FirstResult(r.artifacts, r.job, id, a, done);
    IdemGrows(r.idem, r.artifacts, r.participants, id, a);
  }

  lemma NoResultYet(r: Round)
    requires Inv(r)
    ensures r.job.Some? && r.job.value.state != JobCompleted ==> !HasResult(r.artifacts)
  {
  }

  lemma BarriersAfterResult(participants: map<ClientId, Participant>)
    requires BarriersOk(Aggregating, participants) && participants.Keys != {}
    ensures BarriersOk(ResultReady, participants)
  {
    var c :| c in participants.Keys;
    assert !participants[c].completed;
  }

  lemma StageAfterResult(protocol: Protocol, members: set<ClientId>, plan: Option<Plan>, tasks: map<TaskKey, TaskRow>,
                         receipts: map<ClientId, FinalReceipt>, job: Option<Job>, done: Job)
    requires StageOk(Aggregating, protocol, members, plan, tasks, receipts, job) && done.state == JobCompleted
    ensures StageOk(ResultReady, protocol, members, plan, tasks, receipts, Some(done))
  {
  }

  lemma SomeMember(r: Round)
    requires RowsOk(r)
    ensures r.participants.Keys != {}
  {
    assert r.row.roster[0] in r.participants;
  }

  /** Publication makes an aggregating round ready. */
  lemma PublishedKeeps(r: Round, id: string, a: Artifact, done: Job, now: Time)
    requires Inv(r) && r.row.state == Aggregating && r.job.Some? && r.job.value.state != JobCompleted && id !in r.artifacts
    requires a.kind == ResultFile && a.client.None? && done.state == JobCompleted && JobOk(Some(done))
    ensures Inv(Moved(WithResult(r, id, a, done), ResultReady, "worker", AggregationCompleted, now))
  {
    hide RowsOk, BarriersOk, StageOk, HasResult, JobOk;
    PublishKeeps(r, id, a, done);
    MoveKeeps(WithResult(r, id, a, done), ResultReady, "worker", AggregationCompleted, now);
    SomeMember(r);
    BarriersAfterResult(r.participants);
    StageAfterResult(r.row.protocol, r.participants.Keys, r.plan, r.tasks, r.finalReceipts, r.job, done);
  }

  lemma FirstInsert(r: Round, stored: Stored, now: Time)
    requires !HasResult(r.artifacts)
    ensures match InsertResult(r, stored, now)
      case Failure(e) => e == ConstraintViolated
      case Success(after) => stored.objectId !in r.artifacts && after == r.(artifacts :=
        r.artifacts[stored.objectId := Artifact(None, ResultFile, stored.path, stored.digest, stored.size, now)])
  {
  }

  lemma CompleteJobKeeps(r: Round, jobId: string, token: string, stored: Stored, tag: string, now: Time)
    requires Inv(r)
    ensures Keeps(CompleteJob(r, jobId, token, stored, tag, now), {ClaimLost, ConstraintViolated})
  {
    hide Inv, HasResult, InsertResult;
    JobBounds(r);
    NoResultYet(r);
    if Owns(r.job, jobId, token) {
      FirstInsert(r, stored, now);
      if r.row.state == Aggregating && InsertResult(r, stored, now).Success? {
        var a := Artifact(None, ResultFile, stored.path, stored.digest, stored.size, now);
        var done := r.job.value.(state := JobCompleted, leaseUntil := None, token := None, tag := Some(tag));
        PublishedKeeps(r, stored.objectId, a, done, now);
      }
    }
  }

  // ---- Ending a round

  lemma EndKeeps(r: Round, target: RoundState, actor: string, event: EventType, now: Time)
    requires Inv(r) && !Terminal(r.row.state) && target in {Failed, Aborted, Expired}
    requires EventTarget(event, r.row.protocol) == Some(target)
    ensures Inv(Moved(r, target, actor, event, now))
  {
    NotCreated(r);
    hide RowsOk, BarriersOk, StageOk;
    CutShort(r, target, actor, event, now);
  }

  lemma FailRoundKeeps(r: Round, actor: string, code: string, now: Time)
    requires Inv(r)
    ensures Keeps(FailRound(r, actor, code, now), {})
  {
    hide Inv;
    if !Terminal(r.row.state) {
      EndKeeps(r, Failed, actor, RoundRejected(code), now);
    }
  }

  lemma ReadRoundKeeps(r: Round, now: Time)
    requires Inv(r)
    ensures Keeps(ReadRound(r, now), {})
  {
    hide Inv;
    if !Terminal(r.row.state) {
      EndKeeps(r, Expired, "reconciler", DeadlineExceeded, now);
    }
  }

  lemma ExpireRoundKeeps(r: Round, now: Time)
    requires Inv(r)
    ensures Keeps(ExpireRound(r, now), {})
  {
    hide RowsOk, BarriersOk, StageOk, JobOk;
    JobBounds(r);
    if !Terminal(r.row.state) {
      EndKeeps(r, Expired, "reconciler", DeadlineExceeded, now);
      var moved := Moved(r, Expired, "reconciler", DeadlineExceeded, now);
      if r.job.Some? && r.job.value.state in {JobReady, JobClaimed} {
        var job := r.job.value.(state := JobFailed, leaseUntil := None, token := None);
        ClosedJobOk(r.job.value);
        JobKeeps(moved, job);
        StageCutShort(Expired, r.row.protocol, r.participants.Keys, r.plan, r.tasks, r.finalReceipts, Some(job));
      }
    }
  }

  lemma ClosedJobOk(job: Job)
    requires JobOk(Some(job)) && job.state in {JobReady, JobClaimed}
    ensures JobOk(Some(job.(state := JobFailed, leaseUntil := None, token := None)))
  {
  }

  lemma AbortRoundKeeps(r: Round, actor: string, key: string, digest: string, now: Time)
    requires Inv(r)
    ensures Keeps(AbortRound(r, actor, key, digest, now), {IdempotencyConflict, RoundConflict})
  {
    hide RowsOk, BarriersOk, StageOk;
    if IdemKey(actor, AbortOp, key) !in r.idem && !Terminal(r.row.state) {
      EndKeeps(r, Aborted, actor, OperatorAbort, now);
      RememberKeeps(Moved(r, Aborted, actor, OperatorAbort, now), IdemKey(actor, AbortOp, key), digest, Accepted);
    }
  }

  function Departed(p: Participant, now: Time): Participant {
    p.(completed := true, state := ParticipantDone, lastSeen := now)
  }

  lemma DepartedBarriers(s: RoundState, participants: map<ClientId, Participant>, client: ClientId, now: Time)
    requires BarriersOk(s, participants) && client in participants && PastAggregation(s)
    ensures var after := participants[client := Departed(participants[client], now)];
      BarriersOk(if s.ResultReady? && AllDone(after) then Completed else s, after)
  {
    var after := participants[client := Departed(participants[client], now)];
    assert after.Keys == participants.Keys;
  }

  lemma StageAfterAll(protocol: Protocol, members: set<ClientId>, plan: Option<Plan>, tasks: map<TaskKey, TaskRow>,
                      receipts: map<ClientId, FinalReceipt>, job: Option<Job>)
    requires StageOk(ResultReady, protocol, members, plan, tasks, receipts, job)
    ensures StageOk(Completed, protocol, members, plan, tasks, receipts, job)
  {
  }

  lemma CompleteParticipantKeeps(r: Round, client: ClientId, key: string, digest: string, now: Time)
    requires Inv(r) && client in r.participants
    ensures Keeps(CompleteParticipant(r, client, key, digest, now), {IdempotencyConflict, RoundConflict})
  {
    hide RowsOk, BarriersOk, StageOk, AllDone;
    var k := IdemKey(client, CompleteOp, key);
    if r.row.state in {ResultReady, Completed} && k !in r.idem {
      var p := Departed(r.participants[client], now);
      ParticipantKeeps(r, client, p);
      var done := WithParticipant(r, client, p);
      RememberKeeps(done, k, digest, Accepted);
      LogKeeps(Remember(done, k, digest, Accepted), client, ParticipantCompleted, now);
      var logged := Log(Remember(done, k, digest, Accepted), client, ParticipantCompleted, now);
      DepartedBarriers(r.row.state, r.participants, client, now);
      if AllDone(logged.participants) && r.row.state == ResultReady {
        MoveKeeps(logged, Completed, client, CompletionBarrier, now);
        StageAfterAll(r.row.protocol, r.participants.Keys, r.plan, r.tasks, r.finalReceipts, r.job);
      }
    }
  }

  // ---- A new round

  /** A round over at least three different clients starts out well. */
  lemma NewRoundStarts(federation: string, protocol: Protocol, roster: seq<ClientId>, ttl: Time, retention: Time,
                       actor: string, now: Time)
    requires 3 <= |roster| <= DRAW_LIMIT && Distinct(roster)
    ensures Inv(NewRound(federation, protocol, roster, ttl, retention, actor, now))
  {
    var r := NewRound(federation, protocol, roster, ttl, retention, actor, now);
    assert roster[0] in r.participants;
    assert Versions(r.audit, 0) == 0;
    assert r.participants.Keys == SetOf(roster);
  }
}
