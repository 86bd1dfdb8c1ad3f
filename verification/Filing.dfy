/** Which artifact row a transaction adds: the caller's file exactly when its request is newly accepted. */
module Filing {
  import opened Frames
  import opened Growth
  import opened JobSteps
  import opened Names
  import opened PlanShape
  import opened RoundInvariant
  import opened Rounds
  import opened RoundSteps
  import opened Runs
  import opened Scheduler
  import opened Shuffling
  import opened States
  import opened TaskSteps
  import opened Wrappers

  /** The file an operation brings along. */
  function FileOf(op: Op): Option<Stored> {
    if op.UploadTask? || op.PublishFinal? || op.PutUpdate? || op.Publish? then Some(op.stored) else None
  }

  /** The row a file gets. */
  function RowFor(stored: Stored, client: Option<ClientId>, kind: ArtifactKind, now: Time): Artifact {
    Artifact(client, kind, stored.path, stored.digest, stored.size, now)
  }

  /** The row the operation's file gets. */
  function RowOf(op: Op, now: Time): Artifact
    requires FileOf(op).Some?
  {
    match op
    case UploadTask(c, task, stored, _, _, _) => RowFor(stored, Some(c), TaskFile(task), now)
    case PublishFinal(c, stored, _, _, _) => RowFor(stored, Some(c), FinalKeyFile, now)
    case PutUpdate(c, stored, _, _, _, _, _) => RowFor(stored, Some(c), UpdateFile, now)
    case Publish(_, _, stored, _) => RowFor(stored, None, ResultFile, now)
  }

  /** after has one row more, which describes the file. */
  ghost predicate Adds(before: map<string, Artifact>, after: map<string, Artifact>, stored: Stored, row: Artifact) {
    && stored.objectId !in before && after == before[stored.objectId := row]
    && row.path == stored.path && row.digest == stored.digest && row.size == stored.size
  }

  /** A file is taken into the rows of a live round, or the artifact rows stay as they are. */
  ghost predicate FiledOrNot(r: Round, t: Transaction, stored: Stored, row: Artifact) {
    if t.Success? && Fresh(t.value.reply) then !Terminal(r.row.state) && Adds(r.artifacts, t.value.round.artifacts, stored, row)
    else t.Success? ==> t.value.round.artifacts == r.artifacts
  }

  lemma InsertAdds(r: Round, stored: Stored, client: Option<ClientId>, kind: ArtifactKind, now: Time)
    ensures var t := InsertArtifact(r, stored, client, kind, now);
      t.Success? ==>
        && Adds(r.artifacts, t.value.artifacts, stored, RowFor(stored, client, kind, now))
        && t.value == r.(artifacts := t.value.artifacts)
  {
    hide SlotTaken;
  }

  lemma RecordTaskArtifactFiles(r: Round, client: ClientId, task: TaskKey, stored: Stored, upload: Upload,
                                key: string, digest: string, now: Time)
    ensures FiledOrNot(r, RecordTaskArtifact(r, client, task, stored, upload, key, digest, now), stored,
                       RowFor(stored, Some(client), TaskFile(task), now))
  {
    InsertAdds(r, stored, Some(client), TaskFile(task), now);
    hide InsertArtifact, Adds, RowFor;
  }

  lemma RecordFinalKeyFiles(r: Round, client: ClientId, stored: Stored, upload: Upload, key: string, digest: string, now: Time)
    ensures FiledOrNot(r, RecordFinalKey(r, client, stored, upload, key, digest, now), stored,
                       RowFor(stored, Some(client), FinalKeyFile, now))
  {
    InsertAdds(r, stored, Some(client), FinalKeyFile, now);
    hide InsertArtifact, Adds, AllTasksCompleted, RowFor;
  }

  lemma AcceptUpdateFiles(r: Round, client: ClientId, stored: Stored, tag: string,
                          k: IdemKey, digest: string, jobId: string, rowid: nat, now: Time)
    requires client in r.participants && !Terminal(r.row.state)
    ensures FiledOrNot(r, AcceptUpdate(r, client, stored, tag, k, digest, jobId, rowid, now), stored,
                       RowFor(stored, Some(client), UpdateFile, now))
  {
    InsertAdds(r, stored, Some(client), UpdateFile, now);
    hide InsertArtifact, Adds, AllUpdated, MovedRow, RowFor;
  }

  lemma RecordUpdateFiles(r: Round, client: ClientId, stored: Stored, tag: string,
                          key: string, digest: string, jobId: string, rowid: nat, now: Time)
    requires client in r.participants
    ensures FiledOrNot(r, RecordUpdate(r, client, stored, tag, key, digest, jobId, rowid, now), stored,
                       RowFor(stored, Some(client), UpdateFile, now))
  {
    hide AcceptUpdate, Adds, RowFor;
    if !Terminal(r.row.state) {
      AcceptUpdateFiles(r, client, stored, tag, IdemKey(client, UpdateOp, key), digest, jobId, rowid, now);
    }
  }

  lemma CompleteJobFiles(r: Round, jobId: string, token: string, stored: Stored, tag: string, now: Time)
    requires Inv(r)
    ensures FiledOrNot(r, CompleteJob(r, jobId, token, stored, tag, now), stored, RowFor(stored, None, ResultFile, now))
  {
    hide Inv, HasResult, InsertArtifact, MovedRow, Adds, RowFor;
    NoResultYet(r);
    InsertAdds(r, stored, None, ResultFile, now);
    if Owns(r.job, jobId, token) {
      assert InsertResult(r, stored, now) == InsertArtifact(r, stored, None, ResultFile, now);
      hide InsertResult;
    }
  }

  /** The caller's file gets a row exactly when the request is newly accepted, and a terminal round gains no row. */
  lemma StepFiles(r: Round, step: Step, draw: Draws)
    requires Inv(r) && FileOf(step.op).Some?
    ensures FiledOrNot(r, Transact(r, step, draw), FileOf(step.op).value, RowOf(step.op, step.now))
  {
    hide Inv, FiledOrNot, RowFor, RecordTaskArtifact, RecordFinalKey, RecordUpdate, CompleteJob;
    var now := step.now;
    if !Admitted(r, step.op) {
      RolledBackFiles(r, NotAParticipant, FileOf(step.op).value, RowOf(step.op, now));
    } else {
      match step.op
      case UploadTask(c, task, stored, upload, key, digest) =>
        RecordTaskArtifactFiles(r, c, task, stored, upload, key, digest, now);
      case PublishFinal(c, stored, upload, key, digest) => RecordFinalKeyFiles(r, c, stored, upload, key, digest, now);
      case PutUpdate(c, stored, tag, key, digest, jobId, rowid) =>
        RecordUpdateFiles(r, c, stored, tag, key, digest, jobId, rowid, now);
      case Publish(jobId, token, stored, tag) => CompleteJobFiles(r, jobId, token, stored, tag, now);
    }
  }

  lemma RolledBackFiles(r: Round, e: Error, stored: Stored, row: Artifact)
    ensures FiledOrNot(r, Failure(e), stored, row)
  {
  }

  /** Nothing that brings no file touches the artifact rows. */
  lemma StepWithoutFile(r: Round, step: Step, draw: Draws)
    requires FileOf(step.op).None?
    ensures Perform(r, step, draw).round.artifacts == r.artifacts
  {
    hide Transact;
    StepFrame(r, step, draw);
  }

  /** In terms of the outcome: a row for the file, or unchanged rows. */
  lemma StepArtifacts(r: Round, step: Step, draw: Draws)
    requires Inv(r) && FileOf(step.op).Some?
    ensures var o := Perform(r, step, draw);
      if Fresh(o.reply) then
        !Terminal(r.row.state) && Adds(r.artifacts, o.round.artifacts, FileOf(step.op).value, RowOf(step.op, step.now))
      else o.round.artifacts == r.artifacts
  {
    hide Inv, Transact, Adds, RowOf;
    StepFiles(r, step, draw);
  }
}
