/** Exactly when each transaction is rolled back, and with which error, in any state a round can be in. */
module Refusals {
  import opened JobSteps
  import opened Names
  import opened PlanShape
  import opened Publication
  import opened Replay
  import opened RoundInvariant
  import opened Rounds
  import opened RoundSteps
  import opened Runs
  import opened Scheduler
  import opened Shuffling
  import opened States
  import opened TaskSteps
  import opened Topology
  import opened Wrappers

  function Unless(fine: bool, e: Error): Option<Error> {
    if fine then None else Some(e)
  }

  /** What is left to go wrong for a new request that is not barred: a file already on record, a second receipt, a lost claim. */
  function LateRefusal(r: Round, op: Op): Option<Error>
    requires Admitted(r, op)
  {
    match op
    case UploadTask(_, _, stored, _, _, _) => Unless(Insertable(r.artifacts, stored), ConstraintViolated)
    case PublishFinal(_, stored, _, _, _) => Unless(Insertable(r.artifacts, stored) && r.finalKey.None?, ConstraintViolated)
    case AckFinal(c, _, _, _) => Unless(c !in r.finalReceipts, ConstraintViolated)
    case PutUpdate(c, stored, _, _, _, _, _) =>
      Unless(r.participants[c].update.Some? || Insertable(r.artifacts, stored), ConstraintViolated)
    case Claim(lease, _) => Unless(lease > 0.0, LeaseNotPositive)
    case Renew(jobId, token, lease) =>
      if lease <= 0.0 then Some(LeaseNotPositive) else Unless(Owns(r.job, jobId, token), ClaimLost)
    case Publish(jobId, token, stored, _) =>
      if !Owns(r.job, jobId, token) then Some(ClaimLost)
      else if !Insertable(r.artifacts, stored) then Some(ConstraintViolated)
      else Unless(r.row.state == Aggregating, ClaimLost)
    case _ => None
  }

  /** Why a request is refused, if it is. */
  function Refusal(r: Round, op: Op): Option<Error> {
    if !Admitted(r, op) then Some(NotAParticipant)
    else if Conflicts(r, op) then Some(RoundConflict)
    else if Remembered(r, op) then Unless(r.idem[Identity(op).value.0].digest == Identity(op).value.1, IdempotencyConflict)
    else LateRefusal(r, op)
  }

  ghost predicate RefusedFor(t: Transaction, refusal: Option<Error>) {
    if refusal.Some? then t == Failure(refusal.value) else t.Success?
  }

  lemma NoUpdateFileYet(r: Round, client: ClientId)
    requires Inv(r) && client in r.participants && r.participants[client].update.None?
    ensures !SlotTaken(r.artifacts, Some(client), UpdateFile)
  {
    hide RosterOk, PlanOk, FinalOk, JobOk, ResultOk, AuditOk, VersionOk, IdemOk, BarriersOk, StageOk, SchedulerOk;
    forall id | id in r.artifacts ensures ArtifactOwned(id, r.artifacts[id], r.participants, r.tasks, r.finalKey) {
    }
  }

  lemma UpdateStage(r: Round, client: ClientId)
    requires Inv(r) && client in r.participants && r.participants[client].update.None?
    ensures r.row.state != Aggregating && (r.row.state == UpdateCollection ==> r.job.None?)
  {
    hide RowsOk;
  }

  lemma FirstUpdateRefused(r: Round, step: Step, draw: Draws)
    requires Inv(r) && step.op.PutUpdate? && Admitted(r, step.op) && !Conflicts(r, step.op) && !Remembered(r, step.op)
    requires r.participants[step.op.client].update.None?
    ensures RefusedFor(Transact(r, step, draw), LateRefusal(r, step.op))
  {
    hide Inv, SlotTaken, Insertable, AllUpdated, MovedRow;
    NoUpdateFileYet(r, step.op.client);
    UpdateStage(r, step.op.client);
  }

  lemma LaterUpdateRefused(r: Round, step: Step, draw: Draws)
    requires Inv(r) && step.op.PutUpdate? && Admitted(r, step.op) && !Conflicts(r, step.op) && !Remembered(r, step.op)
    requires r.participants[step.op.client].update.Some?
    ensures RefusedFor(Transact(r, step, draw), None)
  {
    hide RowsOk, BarriersOk, StageOk, AcceptUpdate;
    RepeatedUpdateKeeps(r, Identity(step.op).value.0, step.op.digest);
  }

  lemma UploadRefused(r: Round, step: Step, draw: Draws)
    requires Inv(r) && step.op.UploadTask? && Admitted(r, step.op) && !Conflicts(r, step.op) && !Remembered(r, step.op)
    ensures RefusedFor(Transact(r, step, draw), LateRefusal(r, step.op))
  {
    hide Inv, SlotTaken, Insertable;
    NoFileBeforeUpload(r, step.op.task, Some(step.op.client));
  }

  lemma AckRefused(r: Round, step: Step, draw: Draws)
    requires Inv(r) && step.op.AckTask? && Admitted(r, step.op) && !Conflicts(r, step.op) && !Remembered(r, step.op)
    ensures RefusedFor(Transact(r, step, draw), None)
  {
    hide Inv, Activate;
    NoReceiptBeforeAck(r, step.op.task);
  }

  lemma FinalKeyRefused(r: Round, step: Step, draw: Draws)
    requires Inv(r) && step.op.PublishFinal? && Admitted(r, step.op) && !Conflicts(r, step.op) && !Remembered(r, step.op)
    ensures RefusedFor(Transact(r, step, draw), LateRefusal(r, step.op))
  {
    hide Inv, SlotTaken, Insertable, AllTasksCompleted;
    if r.finalKey.None? {
      NoFinalFileYet(r, Some(step.op.client));
    }
  }

  lemma PublicationRefused(r: Round, step: Step, draw: Draws)
    requires Inv(r) && step.op.Publish?
    ensures RefusedFor(Transact(r, step, draw), LateRefusal(r, step.op))
  {
    hide Inv, HasResult, Insertable;
    NoResultYet(r);
    if Owns(r.job, step.op.jobId, step.op.token) {
      FirstInsert(r, step.op.stored, step.now);
      FirstInsertable(r, step.op.stored, step.now);
      FirstInsertError(r, step.op.stored, step.now);
    }
    hide InsertResult;
  }

  lemma FirstInsertError(r: Round, stored: Stored, now: Time)
    requires !HasResult(r.artifacts)
    ensures InsertResult(r, stored, now).Failure? ==> InsertResult(r, stored, now).error == ConstraintViolated
  {
  }

  /** Everything a new request still meets after the checks of its round. */
  lemma NewRequestRefused(r: Round, step: Step, draw: Draws)
    requires Inv(r) && Productive(draw) && Identity(step.op).Some?
    requires Admitted(r, step.op) && !Conflicts(r, step.op) && !Remembered(r, step.op)
    ensures RefusedFor(Transact(r, step, draw), LateRefusal(r, step.op))
  {
    if step.op.UploadTask? {
      UploadRefused(r, step, draw);
    } else if step.op.AckTask? {
      AckRefused(r, step, draw);
    } else if step.op.PublishFinal? {
      FinalKeyRefused(r, step, draw);
    } else if step.op.PutUpdate? {
      if r.participants[step.op.client].update.Some? {
        LaterUpdateRefused(r, step, draw);
      } else {
        FirstUpdateRefused(r, step, draw);
      }
    } else {
      OtherNewRefused(r, step, draw);
    }
    hide Transact, Conflicts, Admitted, Identity, Inv;
  }

  lemma OtherNewRefused(r: Round, step: Step, draw: Draws)
    requires Inv(r) && Productive(draw) && Identity(step.op).Some?
    requires Admitted(r, step.op) && !Conflicts(r, step.op) && !Remembered(r, step.op)
    requires !step.op.UploadTask? && !step.op.AckTask? && !step.op.PublishFinal? && !step.op.PutUpdate?
    ensures RefusedFor(Transact(r, step, draw), LateRefusal(r, step.op))
  {
    hide Inv;
    ConflictsExactly(r, step, draw);
    OnlyConflicts(r, step, draw);
    hide Transact, Conflicts, Admitted, Identity;
  }

  /** Registration, confirmation, the final receipt, departure and abortion fail for nothing else. */
  lemma OnlyConflicts(r: Round, step: Step, draw: Draws)
    requires Inv(r) && Productive(draw) && Admitted(r, step.op) && !Remembered(r, step.op)
    requires step.op.PutJson? || step.op.ConfirmKeys? || step.op.AckFinal? || step.op.Leave? || step.op.Abort?
    ensures var t := Transact(r, step, draw);
      if t.Failure? then
        t.error == RoundConflict || (t.error == ConstraintViolated && step.op.AckFinal? && step.op.client in r.finalReceipts)
      else step.op.AckFinal? ==> step.op.client !in r.finalReceipts
  {
    hide Inv, RecordJsonSlot, KeyComplete, CompleteParticipant, AbortRound;
    match step.op
    case PutJson(c, slot, body, key, digest) =>
      RecordJsonSlotKeeps(r, c, slot, body, key, digest, step.now);
      NewJsonSlot(r, step);
    case ConfirmKeys(c, commitment, key, digest) =>
      KeyCompleteKeeps(r, c, commitment, key, digest, draw, step.now);
      NewConfirmation(r, step, draw);
    case AckFinal(c, artifact, key, digest) => hide MovedRow;
    case Leave(c, key, digest) =>
      CompleteParticipantKeeps(r, c, key, digest, step.now);
      NewDeparture(r, step);
    case Abort(actor, key, digest) =>
      AbortRoundKeeps(r, actor, key, digest, step.now);
      NewAbortion(r, step);
  }

  lemma NewJsonSlot(r: Round, step: Step)
    requires step.op.PutJson? && step.op.client in r.participants && !Remembered(r, step.op)
    ensures RecordJsonSlot(r, step.op.client, step.op.slot, step.op.body, step.op.key, step.op.digest, step.now)
      != Failure(IdempotencyConflict)
  {
    hide AllKeyed, FillSlot, MovedRow;
  }

  lemma NewConfirmation(r: Round, step: Step, draw: Draws)
    requires step.op.ConfirmKeys? && step.op.client in r.participants && !Remembered(r, step.op)
    ensures KeyComplete(r, step.op.client, step.op.commitment, step.op.key, step.op.digest, draw, step.now)
      != Failure(IdempotencyConflict)
  {
    hide PlanFor, InstallPlan, AllCommitted, CommitmentsAgree, AllKeyed, MovedRow;
  }

  lemma NewDeparture(r: Round, step: Step)
    requires step.op.Leave? && step.op.client in r.participants && !Remembered(r, step.op)
    ensures CompleteParticipant(r, step.op.client, step.op.key, step.op.digest, step.now) != Failure(IdempotencyConflict)
  {
    hide AllDone, MovedRow;
  }

  lemma NewAbortion(r: Round, step: Step)
    requires step.op.Abort? && !Remembered(r, step.op)
    ensures AbortRound(r, step.op.actor, step.op.key, step.op.digest, step.now) != Failure(IdempotencyConflict)
  {
  }

  /** A request on record is refused only for other content, or when it finishes a round whose result is not out. */
  lemma RememberedRefused(r: Round, step: Step, draw: Draws)
    requires Admitted(r, step.op) && Remembered(r, step.op) && !Conflicts(r, step.op)
    ensures RefusedFor(Transact(r, step, draw), Refusal(r, step.op))
  {
    RecordedTransaction(r, step, draw);
    hide Transact, LateRefusal, Admitted, Identity;
  }

  lemma RecordedTransaction(r: Round, step: Step, draw: Draws)
    requires Admitted(r, step.op) && Remembered(r, step.op) && (step.op.Leave? ==> r.row.state in {ResultReady, Completed})
    ensures Transact(r, step, draw) == if r.idem[Identity(step.op).value.0].digest == Identity(step.op).value.1
      then Replayed(r, r.idem[Identity(step.op).value.0].response) else Failure(IdempotencyConflict)
  {
    hide CrossKeySetup, AcceptUpdate, Activate, AllKeyed, AllDone, FillSlot, Log, Moved, InsertArtifact, Transition;
  }

  /** Reading, expiring, rejecting, taking back a lease and giving up never fail. */
  lemma NeverRefused(r: Round, step: Step, draw: Draws)
    requires Inv(r) && (step.op.Reject? || step.op.Read? || step.op.Sweep? || step.op.Reclaim? || step.op.GiveUp?)
    ensures Transact(r, step, draw).Success?
  {
    hide Inv, FailRound, ReadRound, ExpireRound, ReclaimLease, FailJob;
    if step.op.Reject? {
      FailRoundKeeps(r, step.op.actor, step.op.code, step.now);
    } else if step.op.Read? {
      ReadRoundKeeps(r, step.now);
    } else if step.op.Sweep? {
      ExpireRoundKeeps(r, step.now);
    } else if step.op.Reclaim? {
      ReclaimLeaseKeeps(r, step.now, step.op.lease);
    } else {
      FailJobKeeps(r, step.op.jobId, step.op.token, step.op.retryable, step.now);
    }
  }

  lemma ClaimRefused(r: Round, step: Step, draw: Draws)
    requires step.op.Claim? || step.op.Renew?
    ensures RefusedFor(Transact(r, step, draw), LateRefusal(r, step.op))
  {
    hide Claimable;
  }

  /** What the workers and the sweeps ask. */
  lemma InternalRefused(r: Round, step: Step, draw: Draws)
    requires Inv(r) && Identity(step.op).None? && Admitted(r, step.op)
    ensures RefusedFor(Transact(r, step, draw), LateRefusal(r, step.op))
  {
    hide Inv, Transact;
    if step.op.Publish? {
      PublicationRefused(r, step, draw);
    } else if step.op.Claim? || step.op.Renew? {
      ClaimRefused(r, step, draw);
    } else {
      NeverRefused(r, step, draw);
    }
  }

  /** In any state a round can be in, a transaction is rolled back with exactly the error foreseen, and commits otherwise. */
  lemma RefusedExactlyWhen(r: Round, step: Step, draw: Draws)
    requires Inv(r) && Productive(draw)
    ensures RefusedFor(Transact(r, step, draw), Refusal(r, step.op))
  {
    hide Inv, Admitted, Identity, LateRefusal, RefusedFor, Barred;
    if !Admitted(r, step.op) {
      TurnedAway(r, step, draw);
    } else if Conflicts(r, step.op) {
      ConflictsExactly(r, step, draw);
      Conflicting(r, step, draw);
    } else if Remembered(r, step.op) {
      RememberedRefused(r, step, draw);
    } else if Identity(step.op).Some? {
      NewRequestRefused(r, step, draw);
    } else {
      InternalRefused(r, step, draw);
    }
    hide Transact;
  }

  lemma TurnedAway(r: Round, step: Step, draw: Draws)
    requires !Admitted(r, step.op)
    ensures RefusedFor(Transact(r, step, draw), Some(NotAParticipant))
  {
    hide Admitted;
  }

  lemma Conflicting(r: Round, step: Step, draw: Draws)
    requires Transact(r, step, draw) == Failure(RoundConflict)
    ensures RefusedFor(Transact(r, step, draw), Some(RoundConflict))
  {
    hide Transact;
  }
}
