/** Exactly-once effect: what answering a request under an already used idempotency key does. */
module Replay {
  import opened Growth
  import opened Names
  import opened PlanShape
  import opened RoundInvariant
  import opened Rounds
  import opened RoundSteps
  import opened RunProperties
  import opened Runs
  import opened Sequences
  import opened Shuffling
  import opened States
  import opened TaskSteps
  import opened Wrappers

  /** A positive answer is on record under its key. */
  ghost predicate Recorded(t: Transaction, k: IdemKey, digest: string) {
    t.Success? && t.value.reply.Success? ==>
      k in t.value.round.idem && t.value.round.idem[k] == IdemRecord(digest, t.value.reply.value.response)
  }

  lemma CrossKeySetupRecords(r: Round, client: ClientId, draw: Draws, now: Time)
    ensures var t := CrossKeySetup(r, client, draw, now);
      t.Success? ==> t.value.round.idem == r.idem && (t.value.reply.Success? ==> t.value.reply.value.response == Accepted)
  {
    hide InitialTasks, DependencyEdges, AllCommitted, CommitmentsAgree, AllKeyed, MovedRow;
    var t := CrossKeySetup(r, client, draw, now);
    if t.Failure? || !AllCommitted(r.participants) {
    } else if !CommitmentsAgree(r.participants) || r.row.state != KeySetup {
    } else if r.row.protocol == V11 {
    }
  }

  lemma RecordJsonSlotRecords(r: Round, client: ClientId, slot: JsonSlot, body: string, key: string, digest: string, now: Time)
    requires client in r.participants && IdemKey(client, SlotOperation(slot), key) !in r.idem
    ensures Recorded(RecordJsonSlot(r, client, slot, body, key, digest, now), IdemKey(client, SlotOperation(slot), key), digest)
  {
    hide AllKeyed, FillSlot;
  }

  lemma KeyCompleteRecords(r: Round, client: ClientId, commitment: string, key: string, digest: string, draw: Draws, now: Time)
    requires client in r.participants && IdemKey(client, KeyCompleteOp, key) !in r.idem
    ensures Recorded(KeyComplete(r, client, commitment, key, digest, draw, now), IdemKey(client, KeyCompleteOp, key), digest)
  {
    var k := IdemKey(client, KeyCompleteOp, key);
    var logged := Log(Remember(WithParticipant(r, client, Confirmed(r.participants[client], commitment, now)),
      k, digest, Accepted), client, KeyContextAccepted, now);
    CrossKeySetupRecords(logged, client, draw, now);
    hide CrossKeySetup;
  }

  lemma RecordTaskArtifactRecords(r: Round, client: ClientId, task: TaskKey, stored: Stored, upload: Upload,
                                  key: string, digest: string, now: Time)
    requires IdemKey(client, TaskUploadOp(task), key) !in r.idem
    ensures Recorded(RecordTaskArtifact(r, client, task, stored, upload, key, digest, now),
                     IdemKey(client, TaskUploadOp(task), key), digest)
  {
    hide SlotTaken;
  }

  lemma AcknowledgeTaskRecords(r: Round, client: ClientId, task: TaskKey, artifactDigest: string,
                               key: string, digest: string, now: Time)
    requires IdemKey(client, TaskAckOp(task), key) !in r.idem
    ensures Recorded(AcknowledgeTask(r, client, task, artifactDigest, key, digest, now),
                     IdemKey(client, TaskAckOp(task), key), digest)
  {
    hide Activate;
  }

  lemma RecordFinalKeyRecords(r: Round, client: ClientId, stored: Stored, upload: Upload,
                              key: string, digest: string, now: Time)
    requires IdemKey(client, FinalKeyOp, key) !in r.idem
    ensures Recorded(RecordFinalKey(r, client, stored, upload, key, digest, now), IdemKey(client, FinalKeyOp, key), digest)
  {
    hide SlotTaken, AllTasksCompleted;
  }

  lemma AcknowledgeFinalKeyRecords(r: Round, client: ClientId, artifactDigest: string, key: string, digest: string, now: Time)
    requires IdemKey(client, FinalKeyAckOp, key) !in r.idem
    ensures Recorded(AcknowledgeFinalKey(r, client, artifactDigest, key, digest, now),
                     IdemKey(client, FinalKeyAckOp, key), digest)
  {
  }

  lemma AcceptUpdateRecords(r: Round, client: ClientId, stored: Stored, tag: string,
                            k: IdemKey, digest: string, jobId: string, rowid: nat, now: Time)
    requires client in r.participants && k !in r.idem
    ensures Recorded(AcceptUpdate(r, client, stored, tag, k, digest, jobId, rowid, now), k, digest)
  {
    hide SlotTaken, AllUpdated;
  }

  lemma RecordUpdateRecords(r: Round, client: ClientId, stored: Stored, tag: string,
                            key: string, digest: string, jobId: string, rowid: nat, now: Time)
    requires client in r.participants && IdemKey(client, UpdateOp, key) !in r.idem
    ensures Recorded(RecordUpdate(r, client, stored, tag, key, digest, jobId, rowid, now), IdemKey(client, UpdateOp, key), digest)
  {
    hide AcceptUpdate;
    AcceptUpdateRecords(r, client, stored, tag, IdemKey(client, UpdateOp, key), digest, jobId, rowid, now);
  }

  lemma CompleteParticipantRecords(r: Round, client: ClientId, key: string, digest: string, now: Time)
    requires client in r.participants && IdemKey(client, CompleteOp, key) !in r.idem
    ensures Recorded(CompleteParticipant(r, client, key, digest, now), IdemKey(client, CompleteOp, key), digest)
  {
    hide AllDone;
  }

  lemma AbortRoundRecords(r: Round, actor: string, key: string, digest: string, now: Time)
    requires IdemKey(actor, AbortOp, key) !in r.idem
    ensures Recorded(AbortRound(r, actor, key, digest, now), IdemKey(actor, AbortOp, key), digest)
  {
  }

  /** Whatever is answered positively is put on record, unless it was answered from the record. */
  lemma TransactRecords(r: Round, step: Step, draw: Draws)
    requires Identity(step.op).Some? && Identity(step.op).value.0 !in r.idem
    ensures Recorded(Transact(r, step, draw), Identity(step.op).value.0, Identity(step.op).value.1)
  {
    hide Recorded, RecordJsonSlot, KeyComplete, RecordTaskArtifact, AcknowledgeTask, RecordFinalKey, AcknowledgeFinalKey,
      RecordUpdate, CompleteParticipant, AbortRound;
    var now := step.now;
    if Admitted(r, step.op) {
      match step.op
      case PutJson(c, slot, body, key, digest) => RecordJsonSlotRecords(r, c, slot, body, key, digest, now);
      case ConfirmKeys(c, commitment, key, digest) => KeyCompleteRecords(r, c, commitment, key, digest, draw, now);
      case UploadTask(c, task, stored, upload, key, digest) =>
        RecordTaskArtifactRecords(r, c, task, stored, upload, key, digest, now);
      case AckTask(c, task, artifact, key, digest) => AcknowledgeTaskRecords(r, c, task, artifact, key, digest, now);
      case PublishFinal(c, stored, upload, key, digest) => RecordFinalKeyRecords(r, c, stored, upload, key, digest, now);
      case AckFinal(c, artifact, key, digest) => AcknowledgeFinalKeyRecords(r, c, artifact, key, digest, now);
      case PutUpdate(c, stored, tag, key, digest, jobId, rowid) =>
        RecordUpdateRecords(r, c, stored, tag, key, digest, jobId, rowid, now);
      case Leave(c, key, digest) => CompleteParticipantRecords(r, c, key, digest, now);
      case Abort(actor, key, digest) => AbortRoundRecords(r, actor, key, digest, now);
    } else {
      NotAdmittedRecords(r, step, draw);
    }
  }

  lemma NotAdmittedRecords(r: Round, step: Step, draw: Draws)
    requires Identity(step.op).Some? && !Admitted(r, step.op)
    ensures Recorded(Transact(r, step, draw), Identity(step.op).value.0, Identity(step.op).value.1)
  {
    hide Identity;
  }

  // ---- Answering from the record

  /** Finishing a round is checked against its state before the record is looked up. */
  predicate Answerable(r: Round, op: Op) {
    op.Leave? ==> r.row.state in {ResultReady, Completed}
  }

  /** A recorded key decides the answer alone: the recorded response for the same content, a conflict for any other. */
  lemma RecordDecides(r: Round, step: Step, draw: Draws)
    requires Identity(step.op).Some? && Identity(step.op).value.0 in r.idem && Admitted(r, step.op)
    ensures var record := r.idem[Identity(step.op).value.0];
      Perform(r, step, draw) == Outcome(r,
        if !Answerable(r, step.op) then Failure(RoundConflict)
        else if record.digest == Identity(step.op).value.1 then Success(Reply(record.response, true))
        else Failure(IdempotencyConflict))
  {
    hide CrossKeySetup, AcceptUpdate, Activate, AllKeyed, AllDone, FillSlot, Log, Moved, InsertArtifact, Transition;
  }

  /** What a step does when its key was recorded with the given digest and response. */
  ghost predicate DecidedBy(r: Round, step: Step, draw: Draws, record: IdemRecord)
    requires Identity(step.op).Some?
  {
    Perform(r, step, draw) == Outcome(r,
      if !Answerable(r, step.op) then Failure(RoundConflict)
      else if record.digest == Identity(step.op).value.1 then Success(Reply(record.response, true))
      else Failure(IdempotencyConflict))
  }

  lemma AnswerRecorded(r: Round, step: Step, draw: Draws)
    requires Identity(step.op).Some? && Perform(r, step, draw).reply.Success?
    ensures var o := Perform(r, step, draw); var (k, digest) := Identity(step.op).value;
      && Admitted(r, step.op) && k in o.round.idem
      && o.round.idem[k] == IdemRecord(digest, o.reply.value.response)
  {
    var (k, digest) := Identity(step.op).value;
    NotAdmitted(r, step, draw);
    if k in r.idem {
      RecordDecides(r, step, draw);
    } else {
      TransactRecords(r, step, draw);
    }
    hide Transact, Identity, Admitted;
  }

  lemma NotAdmitted(r: Round, step: Step, draw: Draws)
    ensures !Admitted(r, step.op) ==> Perform(r, step, draw) == Outcome(r, Failure(NotAParticipant))
  {
    hide Admitted;
  }

  predicate SameRequest(op: Op, later: Op) {
    Identity(op).Some? && Identity(later).Some? && Identity(later).value.0 == Identity(op).value.0
  }

  lemma StillAdmitted(r: Round, op: Op, after: Round, later: Op)
    requires SameRequest(op, later) && Admitted(r, op) && after.participants.Keys == r.participants.Keys
    ensures Admitted(after, later)
  {
  }

  lemma RecordKept(r: Round, after: Round, k: IdemKey)
    requires Grows(r, after) && k in r.idem
    ensures k in after.idem && after.idem[k] == r.idem[k]
  {
  }

  lemma SameMembers(cfg: Config, r: Round, after: Round)
    requires Configured(cfg, r) && Configured(cfg, after)
    ensures after.participants.Keys == r.participants.Keys
  {
  }

  /**
   * A request answered positively at step m takes effect once: at any later step n the same key changes nothing and
   * gets the recorded response for the same content and a conflict for any other. Only finishing a round is answered
   * so exactly while the result is out.
   */
  lemma ExactlyOnce(cfg: Config, steps: seq<Step>, m: nat, n: nat, draw: Draws)
    requires Proper(cfg) && Productive(draw) && m < n < |steps|
    requires SameRequest(steps[m].op, steps[n].op) && Answer(cfg, steps, m, draw).Success?
    ensures DecidedBy(Reached(cfg, steps, n, draw), steps[n], draw,
      IdemRecord(Identity(steps[m].op).value.1, Answer(cfg, steps, m, draw).value.response))
  {
    hide Inv, Perform, Identity, Admitted, Started, Configured, Reached, Grows;
    var r, next, after := Reached(cfg, steps, m, draw), Reached(cfg, steps, m + 1, draw), Reached(cfg, steps, n, draw);
    AnswerRecorded(r, steps[m], draw);
    NextReached(cfg, steps, m, draw);
    ReachedGrows(cfg, steps, m + 1, n, draw);
    RecordKept(next, after, Identity(steps[m].op).value.0);
    ReachedKeeps(cfg, steps, m, draw);
    ReachedKeeps(cfg, steps, n, draw);
    SameMembers(cfg, r, after);
    StillAdmitted(r, steps[m].op, after, steps[n].op);
    RecordDecides(after, steps[n], draw);
  }

  // ---- Updates

  lemma UpdateAnswer(r: Round, k: IdemKey)
    requires Inv(r) && k in r.idem && k.operation == UpdateOp
    ensures k.client in r.participants && r.participants[k.client].update.Some?
    ensures r.participants[k.client].update.value.artifactId in r.artifacts
    ensures r.idem[k].response == UpdateResponse(r.artifacts, r.participants[k.client].update.value.artifactId)
  {
  }

  /** All accepted uploads of one client's update, under whatever keys, get the same answer. */
  lemma OneUpdateAnswer(cfg: Config, steps: seq<Step>, m: nat, n: nat, draw: Draws)
    requires Proper(cfg) && Productive(draw) && m < n < |steps|
    requires steps[m].op.PutUpdate? && steps[n].op.PutUpdate? && steps[m].op.client == steps[n].op.client
    requires Answer(cfg, steps, m, draw).Success? && Answer(cfg, steps, n, draw).Success?
    ensures Answer(cfg, steps, n, draw).value.response == Answer(cfg, steps, m, draw).value.response
  {
    hide Inv, Perform, Identity, Started, Configured, Reached, Grows, Answer;
    var next, last := Reached(cfg, steps, m + 1, draw), Reached(cfg, steps, n + 1, draw);
    var k := AnswerOnRecord(cfg, steps, m, draw);
    var l := AnswerOnRecord(cfg, steps, n, draw);
    ReachedGrows(cfg, steps, m + 1, n + 1, draw);
    ReachedKeeps(cfg, steps, n + 1, draw);
    RecordKept(next, last, k);
    UpdateAnswer(last, k);
    UpdateAnswer(last, l);
  }

  lemma AnswerOnRecord(cfg: Config, steps: seq<Step>, n: nat, draw: Draws) returns (k: IdemKey)
    requires n < |steps| && steps[n].op.PutUpdate? && Answer(cfg, steps, n, draw).Success?
    ensures k == IdemKey(steps[n].op.client, UpdateOp, steps[n].op.key)
    ensures k in Reached(cfg, steps, n + 1, draw).idem
    ensures Reached(cfg, steps, n + 1, draw).idem[k].response == Answer(cfg, steps, n, draw).value.response
  {
    k := IdemKey(steps[n].op.client, UpdateOp, steps[n].op.key);
    assert Identity(steps[n].op) == Some((k, steps[n].op.digest));
    hide Perform, Reached, Started, Identity;
    NextReached(cfg, steps, n, draw);
    AnswerRecorded(Reached(cfg, steps, n, draw), steps[n], draw);
  }
}
