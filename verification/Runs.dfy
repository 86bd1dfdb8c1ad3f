/** Runs of a round: any sequence of transactions by any callers, and what holds in every state they reach. */
module Runs {
  import opened Growth
  import opened JobSteps
  import opened Names
  import opened PlanShape
  import opened RoundInvariant
  import opened Rounds
  import opened RoundSteps
  import opened Sequences
  import opened Shuffling
  import opened States
  import opened TaskSteps
  import opened Topology
  import opened Wrappers

  /** What the API, the workers and the sweeps ask of the database about one round. */
  datatype Op =
    | PutJson(client: ClientId, slot: JsonSlot, body: string, key: string, digest: string)
    | ConfirmKeys(client: ClientId, commitment: string, key: string, digest: string)
    | UploadTask(client: ClientId, task: TaskKey, stored: Stored, upload: Upload, key: string, digest: string)
    | AckTask(client: ClientId, task: TaskKey, artifactDigest: string, key: string, digest: string)
    | PublishFinal(client: ClientId, stored: Stored, upload: Upload, key: string, digest: string)
    | AckFinal(client: ClientId, artifactDigest: string, key: string, digest: string)
    | PutUpdate(client: ClientId, stored: Stored, tag: string, key: string, digest: string, jobId: string, rowid: nat)
    | Leave(client: ClientId, key: string, digest: string)
    | Abort(actor: string, key: string, digest: string)
    | Reject(actor: string, code: string)
    | Read
    | Sweep
    | Reclaim(lease: Time)
    | Claim(lease: Time, token: string)
    | Renew(jobId: string, token: string, lease: Time)
    | Publish(jobId: string, token: string, stored: Stored, tag: string)
    | GiveUp(jobId: string, token: string, retryable: bool)

  datatype Step = Step(op: Op, now: Time)

  /** The member on whose behalf a request is made; the API turns away callers that are not participants. */
  function Caller(op: Op): Option<ClientId> {
    if op.PutJson? || op.ConfirmKeys? || op.UploadTask? || op.AckTask? || op.PublishFinal? || op.AckFinal?
      || op.PutUpdate? || op.Leave?
    then Some(op.client) else None
  }

  predicate Admitted(r: Round, op: Op) {
    Caller(op).Some? ==> Caller(op).value in r.participants
  }

  ghost function Transact(r: Round, step: Step, draw: Draws): Transaction
  {
    if !Admitted(r, step.op) then Failure(NotAParticipant)
    else match step.op
      case PutJson(c, slot, body, key, digest) => RecordJsonSlot(r, c, slot, body, key, digest, step.now)
      case ConfirmKeys(c, commitment, key, digest) => KeyComplete(r, c, commitment, key, digest, draw, step.now)
      case UploadTask(c, task, stored, upload, key, digest) =>
        RecordTaskArtifact(r, c, task, stored, upload, key, digest, step.now)
      case AckTask(c, task, artifact, key, digest) => AcknowledgeTask(r, c, task, artifact, key, digest, step.now)
      case PublishFinal(c, stored, upload, key, digest) => RecordFinalKey(r, c, stored, upload, key, digest, step.now)
      case AckFinal(c, artifact, key, digest) => AcknowledgeFinalKey(r, c, artifact, key, digest, step.now)
      case PutUpdate(c, stored, tag, key, digest, jobId, rowid) =>
        RecordUpdate(r, c, stored, tag, key, digest, jobId, rowid, step.now)
      case Leave(c, key, digest) => CompleteParticipant(r, c, key, digest, step.now)
      case Abort(actor, key, digest) => AbortRound(r, actor, key, digest, step.now)
      case Reject(actor, code) => FailRound(r, actor, code, step.now)
      case Read => ReadRound(r, step.now)
      case Sweep => ExpireRound(r, step.now)
      case Reclaim(lease) => ReclaimLease(r, step.now, lease)
      case Claim(lease, token) => ClaimJob(r, step.now, lease, token)
      case Renew(jobId, token, lease) => RenewJob(r, jobId, token, lease, step.now)
      case Publish(jobId, token, stored, tag) => CompleteJob(r, jobId, token, stored, tag, step.now)
      case GiveUp(jobId, token, retryable) => FailJob(r, jobId, token, retryable, step.now)
  }

  /** The key a request is remembered under and the digest of its content. */
  function Identity(op: Op): Option<(IdemKey, string)> {
    match op
    case PutJson(c, slot, _, key, digest) => Some((IdemKey(c, SlotOperation(slot), key), digest))
    case ConfirmKeys(c, _, key, digest) => Some((IdemKey(c, KeyCompleteOp, key), digest))
    case UploadTask(c, task, _, _, key, digest) => Some((IdemKey(c, TaskUploadOp(task), key), digest))
    case AckTask(c, task, _, key, digest) => Some((IdemKey(c, TaskAckOp(task), key), digest))
    case PublishFinal(c, _, _, key, digest) => Some((IdemKey(c, FinalKeyOp, key), digest))
    case AckFinal(c, _, key, digest) => Some((IdemKey(c, FinalKeyAckOp, key), digest))
    case PutUpdate(c, _, _, key, digest, _, _) => Some((IdemKey(c, UpdateOp, key), digest))
    case Leave(c, key, digest) => Some((IdemKey(c, CompleteOp, key), digest))
    case Abort(actor, key, digest) => Some((IdemKey(actor, AbortOp, key), digest))
    case _ => None
  }

  /** The answer to the request is on record. */
  predicate Remembered(r: Round, op: Op) {
    Identity(op).Some? && Identity(op).value.0 in r.idem
  }

  predicate TaskBarred(r: Round, client: ClientId, task: TaskKey, state: TaskState) {
    r.row.state != KeyAggregation || task !in r.tasks || r.tasks[task].task.sender != client || r.tasks[task].state != state
  }

  /** What a new request is refused for with a conflict: the state of the round, or what is recorded differently. */
  predicate Barred(r: Round, op: Op)
    requires Admitted(r, op)
  {
    match op
    case PutJson(c, slot, body, _, _) =>
      || !(r.row.state == KeySetup || (slot.PublicKeySlot? && r.row.state == RegistrationOpen))
      || SlotValue(r.participants[c], slot) !in {None, Some(body)}
    case ConfirmKeys(c, commitment, _, _) => ConfirmationBarred(r, c, commitment)
    case UploadTask(c, task, _, _, _, _) => TaskBarred(r, c, task, Ready)
    case AckTask(c, task, artifact, _, _) =>
      || TaskBarred(r, c, task, ArtifactUploaded)
      || r.tasks[task].upload.None? || r.tasks[task].upload.value.ciphertextDigest != artifact
    case PublishFinal(c, _, _, _, _) =>
      r.row.state != KeyAggregation || r.plan.None? || r.plan.value.rootClient != c || !AllTasksCompleted(r.tasks)
    case AckFinal(_, artifact, _, _) =>
      r.row.state != KeyAggregation || r.finalKey.None? || r.finalKey.value.upload.ciphertextDigest != artifact
    case PutUpdate(c, stored, tag, _, _, _, _) =>
      || r.row.state !in {UpdateCollection, Aggregating}
      || (r.participants[c].update.Some?
        && (r.participants[c].update.value.digest != stored.digest || r.participants[c].update.value.tag != tag))
    case Abort(_, _, _) => Terminal(r.row.state)
    case _ => false
  }

  /** When the answer is a conflict with the round; finishing looks at the state before the record, all others after it. */
  predicate Conflicts(r: Round, op: Op) {
    Admitted(r, op) && if op.Leave? then r.row.state !in {ResultReady, Completed} else !Remembered(r, op) && Barred(r, op)
  }

  const ROLLBACKS: set<Error> := {
    IdempotencyConflict, RoundConflict, ConstraintViolated, NotAParticipant, ClaimLost, LeaseNotPositive}

  lemma MemberConflicts(r: Round, step: Step, draw: Draws)
    requires step.op.PutJson? || step.op.PutUpdate? || step.op.Leave?
    ensures Transact(r, step, draw) == Failure(RoundConflict) <==> Conflicts(r, step.op)
  {
    hide AllKeyed, AllUpdated, AllDone, FillSlot, MovedRow, SlotTaken, Insertable;
  }

  lemma TreeConflicts(r: Round, step: Step, draw: Draws)
    requires step.op.UploadTask? || step.op.AckTask? || step.op.PublishFinal? || step.op.AckFinal?
    ensures Transact(r, step, draw) == Failure(RoundConflict) <==> Conflicts(r, step.op)
  {
    hide AllTasksCompleted, Activate, MovedRow, SlotTaken, Insertable;
  }

  lemma AbortConflicts(r: Round, step: Step, draw: Draws)
    requires step.op.Abort?
    ensures Transact(r, step, draw) == Failure(RoundConflict) <==> Conflicts(r, step.op)
  {
  }

  lemma EndsNeverConflict(r: Round, step: Step, draw: Draws)
    requires step.op.Reject? || step.op.Read? || step.op.Sweep?
    ensures Transact(r, step, draw) != Failure(RoundConflict) && !Conflicts(r, step.op)
  {
    hide MovedRow, TransitionAllowed;
  }

  lemma WorkNeverConflicts(r: Round, step: Step, draw: Draws)
    requires Caller(step.op).None? && !step.op.Abort? && !step.op.Reject? && !step.op.Read? && !step.op.Sweep?
    ensures Transact(r, step, draw) != Failure(RoundConflict) && !Conflicts(r, step.op)
  {
    hide MovedRow, LeaseOver, Claimable, HasResult, SlotTaken, Insertable, TransitionAllowed;
  }

  /** A conflict is reported exactly when the request is barred: no guarded state change inside a transaction ever fails. */
  lemma ConflictsExactly(r: Round, step: Step, draw: Draws)
    requires Inv(r) && Productive(draw)
    ensures Transact(r, step, draw) == Failure(RoundConflict) <==> Conflicts(r, step.op)
  {
    hide Inv;
    if step.op.ConfirmKeys? {
      hide KeyComplete;
      if Admitted(r, step.op) {
        KeyCompleteKeeps(r, step.op.client, step.op.commitment, step.op.key, step.op.digest, draw, step.now);
      }
    } else {
      hide Transact, Conflicts;
      if step.op.PutJson? || step.op.PutUpdate? || step.op.Leave? {
        MemberConflicts(r, step, draw);
      } else if step.op.UploadTask? || step.op.AckTask? || step.op.PublishFinal? || step.op.AckFinal? {
        TreeConflicts(r, step, draw);
      } else if step.op.Abort? {
        AbortConflicts(r, step, draw);
      } else if step.op.Reject? || step.op.Read? || step.op.Sweep? {
        EndsNeverConflict(r, step, draw);
      } else {
        WorkNeverConflicts(r, step, draw);
      }
    }
  }

  lemma RolledBackOnlyFor(r: Round, step: Step, draw: Draws)
    requires Inv(r) && Productive(draw)
    ensures Keeps(Transact(r, step, draw), ROLLBACKS)
  {
    hide Inv, RecordJsonSlot, KeyComplete, RecordTaskArtifact, AcknowledgeTask, RecordFinalKey, AcknowledgeFinalKey,
      RecordUpdate, CompleteParticipant, AbortRound, FailRound, ReadRound, ExpireRound, ReclaimLease, ClaimJob,
      RenewJob, CompleteJob, FailJob;
    var now := step.now;
    if Admitted(r, step.op) {
      match step.op
      case PutJson(c, slot, body, key, digest) => RecordJsonSlotKeeps(r, c, slot, body, key, digest, now);
      case ConfirmKeys(c, commitment, key, digest) => KeyCompleteKeeps(r, c, commitment, key, digest, draw, now);
      case UploadTask(c, task, stored, upload, key, digest) =>
        RecordTaskArtifactKeeps(r, c, task, stored, upload, key, digest, now);
      case AckTask(c, task, artifact, key, digest) => AcknowledgeTaskKeeps(r, c, task, artifact, key, digest, now);
      case PublishFinal(c, stored, upload, key, digest) => RecordFinalKeyKeeps(r, c, stored, upload, key, digest, now);
      case AckFinal(c, artifact, key, digest) => AcknowledgeFinalKeyKeeps(r, c, artifact, key, digest, now);
      case PutUpdate(c, stored, tag, key, digest, jobId, rowid) =>
        RecordUpdateKeeps(r, c, stored, tag, key, digest, jobId, rowid, now);
      case Leave(c, key, digest) => CompleteParticipantKeeps(r, c, key, digest, now);
      case Abort(actor, key, digest) => AbortRoundKeeps(r, actor, key, digest, now);
      case Reject(actor, code) => FailRoundKeeps(r, actor, code, now);
      case Read => ReadRoundKeeps(r, now);
      case Sweep => ExpireRoundKeeps(r, now);
      case Reclaim(lease) => ReclaimLeaseKeeps(r, now, lease);
      case Claim(lease, token) => ClaimJobKeeps(r, now, lease, token);
      case Renew(jobId, token, lease) => RenewJobKeeps(r, jobId, token, lease, now);
      case Publish(jobId, token, stored, tag) => CompleteJobKeeps(r, jobId, token, stored, tag, now);
      case GiveUp(jobId, token, retryable) => FailJobKeeps(r, jobId, token, retryable, now);
    }
  }

  /**
   * Every transaction keeps the invariant. It rolls back only for the errors listed: no state change is ever illegal,
   * the key-setup barrier never finds a key missing, and the plan can always be derived. A conflict is reported exactly
   * when the request is barred, so no source state a transaction assumes is ever the wrong one.
   */
  lemma TransactKeeps(r: Round, step: Step, draw: Draws)
    requires Inv(r) && Productive(draw)
    ensures Keeps(Transact(r, step, draw), ROLLBACKS)
    ensures Transact(r, step, draw) == Failure(RoundConflict) <==> Conflicts(r, step.op)
  {
    hide Inv, Transact, Conflicts;
    RolledBackOnlyFor(r, step, draw);
    ConflictsExactly(r, step, draw);
  }

  /** Every transaction leaves recorded rows as they are. */
  lemma TransactGrows(r: Round, step: Step, draw: Draws)
    requires Inv(r)
    ensures Extending(r, Transact(r, step, draw))
  {
    hide Inv, Grows, RecordJsonSlot, KeyComplete, RecordTaskArtifact, AcknowledgeTask, RecordFinalKey, AcknowledgeFinalKey,
      RecordUpdate, CompleteParticipant, AbortRound, FailRound, ReadRound, ExpireRound, ReclaimLease, ClaimJob,
      RenewJob, CompleteJob, FailJob;
    var now := step.now;
    if Admitted(r, step.op) {
      match step.op
      case PutJson(c, slot, body, key, digest) => RecordJsonSlotGrows(r, c, slot, body, key, digest, now);
      case ConfirmKeys(c, commitment, key, digest) =>
        if r.row.state == KeySetup { NoTasksBeforePlan(r); }
        KeyCompleteGrows(r, c, commitment, key, digest, draw, now);
      case UploadTask(c, task, stored, upload, key, digest) =>
        RecordTaskArtifactGrows(r, c, task, stored, upload, key, digest, now);
      case AckTask(c, task, artifact, key, digest) => AcknowledgeTaskGrows(r, c, task, artifact, key, digest, now);
      case PublishFinal(c, stored, upload, key, digest) => RecordFinalKeyGrows(r, c, stored, upload, key, digest, now);
      case AckFinal(c, artifact, key, digest) => AcknowledgeFinalKeyGrows(r, c, artifact, key, digest, now);
      case PutUpdate(c, stored, tag, key, digest, jobId, rowid) =>
        RecordUpdateGrows(r, c, stored, tag, key, digest, jobId, rowid, now);
      case Leave(c, key, digest) => CompleteParticipantGrows(r, c, key, digest, now);
      case Abort(actor, key, digest) => AbortRoundGrows(r, actor, key, digest, now);
      case Reject(actor, code) => EndsGrow(r, actor, code, now);
      case Read => EndsGrow(r, "", "", now);
      case Sweep => ExpireRoundGrows(r, now);
      case Reclaim(lease) => ReclaimLeaseGrows(r, now, lease);
      case Claim(lease, token) => ClaimJobGrows(r, now, lease, token);
      case Renew(jobId, token, lease) => RenewJobGrows(r, jobId, token, lease, now);
      case Publish(jobId, token, stored, tag) => CompleteJobGrows(r, jobId, token, stored, tag, now);
      case GiveUp(jobId, token, retryable) => FailJobGrows(r, jobId, token, retryable, now);
    }
  }

  /** One step: a rollback leaves the round as it was. */
  ghost function Perform(r: Round, step: Step, draw: Draws): Outcome {
    Settle(r, Transact(r, step, draw))
  }

  lemma PerformKeeps(r: Round, step: Step, draw: Draws)
    requires Inv(r) && Productive(draw)
    ensures Inv(Perform(r, step, draw).round) && Grows(r, Perform(r, step, draw).round)
  {
    hide Inv, Grows, Transact;
    TransactKeeps(r, step, draw);
    TransactGrows(r, step, draw);
    GrowsReflexively(r);
  }

  /** The round after the first n steps. */
  ghost function RunTo(r: Round, steps: seq<Step>, n: nat, draw: Draws): Round
    requires n <= |steps|
  {
    if n == 0 then r else Perform(RunTo(r, steps, n - 1, draw), steps[n - 1], draw).round
  }

  lemma {:induction false} RunKeeps(r: Round, steps: seq<Step>, n: nat, draw: Draws)
    requires Inv(r) && Productive(draw) && n <= |steps|
    ensures Inv(RunTo(r, steps, n, draw))
  {
    hide Inv, Grows, Perform;
    if n > 0 {
      RunKeeps(r, steps, n - 1, draw);
      PerformKeeps(RunTo(r, steps, n - 1, draw), steps[n - 1], draw);
    }
  }

  lemma {:induction false} RunGrows(r: Round, steps: seq<Step>, m: nat, n: nat, draw: Draws)
    requires Inv(r) && Productive(draw) && m <= n <= |steps|
    ensures Grows(RunTo(r, steps, m, draw), RunTo(r, steps, n, draw))
    decreases n
  {
    hide Inv, Grows, Perform;
    if m == n {
      GrowsReflexively(RunTo(r, steps, m, draw));
    } else {
      RunGrows(r, steps, m, n - 1, draw);
      RunKeeps(r, steps, n - 1, draw);
      PerformKeeps(RunTo(r, steps, n - 1, draw), steps[n - 1], draw);
      GrowsTransitively(RunTo(r, steps, m, draw), RunTo(r, steps, n - 1, draw), RunTo(r, steps, n, draw));
    }
  }

  /** What a round is created with. */
  datatype Config = Config(
    federation: string, protocol: Protocol, roster: seq<ClientId>, ttl: Time, retention: Time, actor: string, createdAt: Time)

  /** At least three different participants, as the API demands of a new round. */
  ghost predicate Proper(cfg: Config) {
    3 <= |cfg.roster| <= DRAW_LIMIT && Distinct(cfg.roster)
  }

  function Started(cfg: Config): Round {
    NewRound(cfg.federation, cfg.protocol, cfg.roster, cfg.ttl, cfg.retention, cfg.actor, cfg.createdAt)
  }

  lemma StartsWell(cfg: Config)
    requires Proper(cfg)
    ensures Inv(Started(cfg))
  {
    NewRoundStarts(cfg.federation, cfg.protocol, cfg.roster, cfg.ttl, cfg.retention, cfg.actor, cfg.createdAt);
  }

  /** What a round keeps of its configuration. */
  ghost predicate Configured(cfg: Config, r: Round) {
    && r.row.protocol == cfg.protocol && r.row.roster == cfg.roster && r.participants.Keys == SetOf(cfg.roster)
    && r.row.createdAt == cfg.createdAt && r.row.deadlineAt == cfg.createdAt + cfg.ttl
  }

  lemma ConfigurationStays(cfg: Config, r: Round)
    requires Grows(Started(cfg), r)
    ensures Configured(cfg, r)
  {
    assert Started(cfg).participants.Keys == SetOf(cfg.roster);
  }

  /** The state a new round is in after n steps. */
  ghost function Reached(cfg: Config, steps: seq<Step>, n: nat, draw: Draws): Round
    requires n <= |steps|
  {
    RunTo(Started(cfg), steps, n, draw)
  }

  /** What step n of a new round's run is answered. */
  ghost function Answer(cfg: Config, steps: seq<Step>, n: nat, draw: Draws): Result<Reply, Error>
    requires n < |steps|
  {
    Perform(Reached(cfg, steps, n, draw), steps[n], draw).reply
  }

  lemma NextReached(cfg: Config, steps: seq<Step>, n: nat, draw: Draws)
    requires n < |steps|
    ensures Perform(Reached(cfg, steps, n, draw), steps[n], draw)
      == Outcome(Reached(cfg, steps, n + 1, draw), Answer(cfg, steps, n, draw))
  {
    hide Perform, Started;
  }

  lemma AtFirst(cfg: Config, steps: seq<Step>, draw: Draws)
    ensures Reached(cfg, steps, 0, draw) == Started(cfg)
  {
  }

  /** Every reachable state satisfies the invariant and keeps its configuration. */
  lemma ReachedKeeps(cfg: Config, steps: seq<Step>, n: nat, draw: Draws)
    requires Proper(cfg) && Productive(draw) && n <= |steps|
    ensures Inv(Reached(cfg, steps, n, draw)) && Configured(cfg, Reached(cfg, steps, n, draw))
  {
    hide Inv, Grows, Started, Configured, Perform;
    StartsWell(cfg);
    RunKeeps(Started(cfg), steps, n, draw);
    RunGrows(Started(cfg), steps, 0, n, draw);
    ConfigurationStays(cfg, Reached(cfg, steps, n, draw));
  }

  /** Later states of a run keep everything earlier ones recorded. */
  lemma ReachedGrows(cfg: Config, steps: seq<Step>, m: nat, n: nat, draw: Draws)
    requires Proper(cfg) && Productive(draw) && m <= n <= |steps|
    ensures Grows(Reached(cfg, steps, m, draw), Reached(cfg, steps, n, draw))
  {
    hide Inv, Grows, Started, Perform;
    StartsWell(cfg);
    RunGrows(Started(cfg), steps, m, n, draw);
  }
}
