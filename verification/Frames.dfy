/** What each transaction leaves alone. */
module Frames {
  import opened Growth
  import opened Names
  import opened PlanShape
  import opened RoundInvariant
  import opened Rounds
  import opened RoundSteps
  import opened Runs
  import opened Shuffling
  import opened States
  import opened TaskSteps
  import opened Wrappers

  ghost predicate KeepsJob(r: Round, t: Transaction) {
    t.Success? ==> t.value.round.job == r.job
  }

  ghost predicate KeepsTasks(r: Round, t: Transaction) {
    t.Success? ==> t.value.round.tasks == r.tasks && t.value.round.plan == r.plan
  }

  ghost predicate KeepsArtifacts(r: Round, t: Transaction) {
    t.Success? ==> t.value.round.artifacts == r.artifacts
  }

  /** No attempt on the job begins. */
  ghost predicate KeepsAttempts(r: Round, t: Transaction) {
    t.Success? ==> Attempts(t.value.round.job) == Attempts(r.job)
  }

  ghost predicate KeepsAll(r: Round, t: Transaction) {
    KeepsJob(r, t) && KeepsTasks(r, t) && KeepsArtifacts(r, t)
  }

  ghost predicate KeepsButJob(r: Round, t: Transaction) {
    KeepsTasks(r, t) && KeepsArtifacts(r, t) && KeepsAttempts(r, t)
  }

  /** The tasks stay, or a plan is put where there was none. */
  ghost predicate PlansAtMost(r: Round, t: Transaction) {
    KeepsTasks(r, t) || (r.row.state == KeySetup && t.value.round.plan.Some? && NothingUploaded(t.value.round.tasks))
  }

  lemma RecordJsonSlotFrame(r: Round, client: ClientId, slot: JsonSlot, body: string, key: string, digest: string, now: Time)
    requires client in r.participants
    ensures KeepsAll(r, RecordJsonSlot(r, client, slot, body, key, digest, now))
  {
    hide AllKeyed, FillSlot, MovedRow, TransitionAllowed;
  }

  lemma CrossKeySetupKeepsOthers(r: Round, client: ClientId, draw: Draws, now: Time)
    ensures var t := CrossKeySetup(r, client, draw, now); KeepsJob(r, t) && KeepsArtifacts(r, t)
  {
    hide CreateTreePlan, AllCommitted, CommitmentsAgree, NothingUploaded, MovedRow;
    CreateTreePlanFrame(r, draw, now);
    var t := CrossKeySetup(r, client, draw, now);
    if t.Failure? || !AllCommitted(r.participants) {
    } else if !CommitmentsAgree(r.participants) || r.row.state != KeySetup {
    } else if r.row.protocol == V11 {
    }
  }

  lemma CrossKeySetupPlans(r: Round, client: ClientId, draw: Draws, now: Time)
    ensures PlansAtMost(r, CrossKeySetup(r, client, draw, now))
  {
    hide CreateTreePlan, AllCommitted, CommitmentsAgree, NothingUploaded, MovedRow;
    CreateTreePlanFrame(r, draw, now);
    var t := CrossKeySetup(r, client, draw, now);
    if t.Failure? || !AllCommitted(r.participants) {
    } else if !CommitmentsAgree(r.participants) || r.row.state != KeySetup {
    } else if r.row.protocol == V11 {
    }
  }

  lemma CreateTreePlanFrame(r: Round, draw: Draws, now: Time)
    ensures CreateTreePlan(r, draw, now).Success? ==>
      var after := CreateTreePlan(r, draw, now).value;
      after.row == r.row && after.job == r.job && after.artifacts == r.artifacts && after.plan.Some? && NothingUploaded(after.tasks)
  {
    hide AllKeyed;
    if CreateTreePlan(r, draw, now).Success? {
      var after := CreateTreePlan(r, draw, now).value;
      InitialTasksFresh(after.plan.value.tasks, |after.plan.value.tasks|);
    }
  }

  lemma {:induction false} InitialTasksFresh(tasks: seq<Task>, n: nat)
    requires n <= |tasks|
    ensures NothingUploaded(InitialTasks(tasks, n))
  {
    if n > 0 {
      InitialTasksFresh(tasks, n - 1);
    }
  }

  lemma KeyCompleteFrame(r: Round, client: ClientId, commitment: string, key: string, digest: string, draw: Draws, now: Time)
    requires client in r.participants
    ensures var t := KeyComplete(r, client, commitment, key, digest, draw, now);
      KeepsJob(r, t) && KeepsArtifacts(r, t) && PlansAtMost(r, t)
  {
    hide CrossKeySetup, NothingUploaded;
    var k := IdemKey(client, KeyCompleteOp, key);
    var logged := Log(Remember(WithParticipant(r, client, Confirmed(r.participants[client], commitment, now)),
      k, digest, Accepted), client, KeyContextAccepted, now);
    CrossKeySetupKeepsOthers(logged, client, draw, now);
    CrossKeySetupPlans(logged, client, draw, now);
  }

  lemma RecordTaskArtifactFrame(r: Round, client: ClientId, task: TaskKey, stored: Stored, upload: Upload,
                                key: string, digest: string, now: Time)
    ensures KeepsJob(r, RecordTaskArtifact(r, client, task, stored, upload, key, digest, now))
  {
    hide SlotTaken;
  }

  lemma AcknowledgeTaskFrame(r: Round, client: ClientId, task: TaskKey, artifactDigest: string,
                             key: string, digest: string, now: Time)
    ensures var t := AcknowledgeTask(r, client, task, artifactDigest, key, digest, now);
      KeepsJob(r, t) && KeepsArtifacts(r, t)
  {
    hide Activate;
  }

  lemma RecordFinalKeyFrame(r: Round, client: ClientId, stored: Stored, upload: Upload, key: string, digest: string, now: Time)
    ensures var t := RecordFinalKey(r, client, stored, upload, key, digest, now); KeepsJob(r, t) && KeepsTasks(r, t)
  {
    hide SlotTaken, AllTasksCompleted;
  }

  lemma AcknowledgeFinalKeyFrame(r: Round, client: ClientId, artifactDigest: string, key: string, digest: string, now: Time)
    ensures KeepsAll(r, AcknowledgeFinalKey(r, client, artifactDigest, key, digest, now))
  {
  }

  lemma AcceptUpdateFrame(r: Round, client: ClientId, stored: Stored, tag: string,
                          k: IdemKey, digest: string, jobId: string, rowid: nat, now: Time)
    requires client in r.participants
    ensures var t := AcceptUpdate(r, client, stored, tag, k, digest, jobId, rowid, now); KeepsTasks(r, t) && KeepsAttempts(r, t)
  {
    hide SlotTaken, AllUpdated;
  }

  lemma RecordUpdateFrame(r: Round, client: ClientId, stored: Stored, tag: string,
                          key: string, digest: string, jobId: string, rowid: nat, now: Time)
    requires client in r.participants
    ensures var t := RecordUpdate(r, client, stored, tag, key, digest, jobId, rowid, now);
      KeepsTasks(r, t) && KeepsAttempts(r, t)
  {
    hide AcceptUpdate, Attempts;
    AcceptUpdateFrame(r, client, stored, tag, IdemKey(client, UpdateOp, key), digest, jobId, rowid, now);
  }

  lemma CompleteParticipantFrame(r: Round, client: ClientId, key: string, digest: string, now: Time)
    requires client in r.participants
    ensures KeepsAll(r, CompleteParticipant(r, client, key, digest, now))
  {
    hide AllDone, MovedRow, TransitionAllowed;
  }

  lemma EndFrame(r: Round, actor: string, code: string, key: string, digest: string, now: Time)
    ensures KeepsAll(r, AbortRound(r, actor, key, digest, now))
    ensures KeepsAll(r, FailRound(r, actor, code, now))
    ensures KeepsAll(r, ReadRound(r, now))
  {
  }

  lemma ReclaimLeaseFrame(r: Round, now: Time, lease: Time)
    ensures KeepsButJob(r, ReclaimLease(r, now, lease))
  {
    hide MovedRow, LeaseOver;
    if r.job.Some? && LeaseOver(r.job.value, now, lease) {
      if r.job.value.attempts < r.job.value.maxAttempts {
      } else if r.row.state == Aggregating {
      }
    }
  }

  lemma RenewJobFrame(r: Round, jobId: string, token: string, lease: Time, now: Time)
    ensures KeepsButJob(r, RenewJob(r, jobId, token, lease, now))
  {
  }

  lemma FailJobFrame(r: Round, jobId: string, token: string, retryable: bool, now: Time)
    ensures KeepsButJob(r, FailJob(r, jobId, token, retryable, now))
  {
    hide MovedRow;
  }

  lemma ExpireRoundFrame(r: Round, now: Time)
    ensures KeepsButJob(r, ExpireRound(r, now))
  {
    hide MovedRow, TransitionAllowed, Terminal;
  }

  lemma ClaimJobFrame(r: Round, now: Time, lease: Time, token: string)
    ensures var t := ClaimJob(r, now, lease, token); KeepsTasks(r, t) && KeepsArtifacts(r, t)
  {
    hide Claimable;
  }

  lemma CompleteJobFrame(r: Round, jobId: string, token: string, stored: Stored, tag: string, now: Time)
    ensures var t := CompleteJob(r, jobId, token, stored, tag, now); KeepsTasks(r, t) && KeepsAttempts(r, t)
  {
  }

  /** The members and what they sent in stay. */
  ghost predicate KeepsMembers(r: Round, t: Transaction) {
    t.Success? ==>
      && t.value.round.participants == r.participants
      && t.value.round.row.roster == r.row.roster && t.value.round.row.expectedCount == r.row.expectedCount
  }

  lemma ReclaimKeepsMembers(r: Round, now: Time, lease: Time)
    ensures KeepsMembers(r, ReclaimLease(r, now, lease))
  {
    hide LeaseOver;
    if r.job.Some? && LeaseOver(r.job.value, now, lease) {
      if r.job.value.attempts < r.job.value.maxAttempts {
      } else if r.row.state == Aggregating {
      }
    }
  }

  lemma ClaimKeepsMembers(r: Round, now: Time, lease: Time, token: string)
    ensures KeepsMembers(r, ClaimJob(r, now, lease, token))
  {
    hide Claimable;
  }

  // ---- All of them

  predicate TouchesJob(op: Op) {
    op.PutUpdate? || op.Sweep? || op.Reclaim? || op.Claim? || op.Renew? || op.Publish? || op.GiveUp?
  }

  predicate TouchesTasks(op: Op) {
    op.ConfirmKeys? || op.UploadTask? || op.AckTask?
  }

  predicate StoresFile(op: Op) {
    op.UploadTask? || op.PublishFinal? || op.PutUpdate? || op.Publish?
  }

  lemma StepFrame(r: Round, step: Step, draw: Draws)
    ensures var t := Transact(r, step, draw);
      && (!TouchesJob(step.op) ==> KeepsJob(r, t))
      && (!step.op.Claim? ==> KeepsAttempts(r, t))
      && (!TouchesTasks(step.op) ==> KeepsTasks(r, t))
      && (step.op.ConfirmKeys? ==> PlansAtMost(r, t))
      && (!StoresFile(step.op) ==> KeepsArtifacts(r, t))
  {
    hide RecordJsonSlot, KeyComplete, RecordTaskArtifact, AcknowledgeTask, RecordFinalKey, AcknowledgeFinalKey,
      RecordUpdate, CompleteParticipant, AbortRound, FailRound, ReadRound, ExpireRound, ReclaimLease, ClaimJob,
      RenewJob, CompleteJob, FailJob, Attempts, NothingUploaded;
    var now := step.now;
    if Admitted(r, step.op) {
      match step.op
      case PutJson(c, slot, body, key, digest) => RecordJsonSlotFrame(r, c, slot, body, key, digest, now);
      case ConfirmKeys(c, commitment, key, digest) => KeyCompleteFrame(r, c, commitment, key, digest, draw, now);
      case UploadTask(c, task, stored, upload, key, digest) =>
        RecordTaskArtifactFrame(r, c, task, stored, upload, key, digest, now);
      case AckTask(c, task, artifact, key, digest) => AcknowledgeTaskFrame(r, c, task, artifact, key, digest, now);
      case PublishFinal(c, stored, upload, key, digest) => RecordFinalKeyFrame(r, c, stored, upload, key, digest, now);
      case AckFinal(c, artifact, key, digest) => AcknowledgeFinalKeyFrame(r, c, artifact, key, digest, now);
      case PutUpdate(c, stored, tag, key, digest, jobId, rowid) =>
        RecordUpdateFrame(r, c, stored, tag, key, digest, jobId, rowid, now);
      case Leave(c, key, digest) => CompleteParticipantFrame(r, c, key, digest, now);
      case Abort(actor, key, digest) => EndFrame(r, actor, "", key, digest, now);
      case Reject(actor, code) => EndFrame(r, actor, code, "", "", now);
      case Read => EndFrame(r, "", "", "", "", now);
      case Sweep => ExpireRoundFrame(r, now);
      case Reclaim(lease) => ReclaimLeaseFrame(r, now, lease);
      case Claim(lease, token) => ClaimJobFrame(r, now, lease, token);
      case Renew(jobId, token, lease) => RenewJobFrame(r, jobId, token, lease, now);
      case Publish(jobId, token, stored, tag) => CompleteJobFrame(r, jobId, token, stored, tag, now);
      case GiveUp(jobId, token, retryable) => FailJobFrame(r, jobId, token, retryable, now);
    }
  }
}
