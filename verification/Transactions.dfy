/** The database transactions as sequences of statements, each proved to do what its specification says. */
module Transactions {
  import opened Names
  import opened PlanShape
  import opened RoundInvariant
  import opened Rounds
  import opened RoundSteps
  import opened Sequences
  import opened Shuffling
  import opened States
  import opened Tables
  import opened TaskSteps
  import opened Topology
  import opened Wrappers

  // ---- Counting rows

  function Keyed(ps: map<ClientId, Participant>): set<ClientId> {
    set c | c in ps && ps[c].publicKey.Some?
  }

  /** The expected count is that of the participants, and only they acknowledge the final key. */
  ghost predicate Counts(r: Round) {
    r.row.expectedCount == |r.participants.Keys| && r.finalReceipts.Keys <= r.participants.Keys
  }

  lemma InvCounts(r: Round)
    requires Inv(r)
    ensures Counts(r)
  {
    hide PlanOk, SchedulerOk, ArtifactsOk, JobOk, ResultOk, AuditOk, VersionOk, IdemOk, BarriersOk, StageOk;
    DistinctIffFullSet(r.row.roster);
  }

  function UpdatedBy(ps: map<ClientId, Participant>): set<ClientId> {
    set c | c in ps && ps[c].update.Some?
  }

  function DoneBy(ps: map<ClientId, Participant>): set<ClientId> {
    set c | c in ps && ps[c].completed
  }

  function Commitments(ps: map<ClientId, Participant>): set<Option<string>> {
    set c | c in ps :: ps[c].commitment
  }

  lemma CountKeyed(r: Round, after: map<ClientId, Participant>)
    requires Counts(r) && after.Keys == r.participants.Keys
    ensures |Keyed(after)| == r.row.expectedCount <==> AllKeyed(after)
  {
    FullSubset(Keyed(after), after.Keys);
  }

  lemma CountUpdated(r: Round, after: map<ClientId, Participant>)
    requires Counts(r) && after.Keys == r.participants.Keys
    ensures |UpdatedBy(after)| == r.row.expectedCount <==> AllUpdated(after)
  {
    FullSubset(UpdatedBy(after), after.Keys);
  }

  lemma CountDone(r: Round, after: map<ClientId, Participant>)
    requires Counts(r) && after.Keys == r.participants.Keys
    ensures |DoneBy(after)| == r.row.expectedCount <==> AllDone(after)
  {
    FullSubset(DoneBy(after), after.Keys);
  }

  lemma CountReceipts(r: Round, after: map<ClientId, FinalReceipt>)
    requires Counts(r) && after.Keys <= r.participants.Keys
    ensures |after| == r.row.expectedCount <==> after.Keys == r.participants.Keys
  {
    FullSubset(after.Keys, r.participants.Keys);
    assert |after| == |after.Keys|;
  }

  /** One distinct commitment means that all agree. */
  lemma OneCommitment(ps: map<ClientId, Participant>)
    requires ps.Keys != {}
    ensures |Commitments(ps)| == 1 <==> CommitmentsAgree(ps)
  {
    var c :| c in ps.Keys;
    assert ps[c].commitment in Commitments(ps);
    if CommitmentsAgree(ps) {
      assert Commitments(ps) == {ps[c].commitment};
    } else if |Commitments(ps)| == 1 {
      FullSubset({ps[c].commitment}, Commitments(ps));
      forall d | d in ps ensures ps[d].commitment == ps[c].commitment {
        assert ps[d].commitment in Commitments(ps);
      }
    }
  }

  // ---- Registration and key setup

  method AcceptSlot(db: Connection, id: RoundId, client: ClientId, slot: JsonSlot, body: string,
                    k: IdemKey, digest: string, now: Time) returns (reply: Result<Reply, Error>)
    requires id in db.rounds && Counts(db.RoundOf(id)) && client in db.RoundOf(id).participants
    modifies db
    ensures db.Only(id)
    ensures Outcome(db.RoundOf(id), reply)
      == Settle(old(db.RoundOf(id)), Rounds.AcceptSlot(old(db.RoundOf(id)), client, slot, body, k, digest, now))
  {
    hide Connection.RoundOf, Connection.Others, Connection.ForeignKeys, AllKeyed, FillSlot, MovedRow;
    ghost var r := db.RoundOf(id);
    var row, p := db.SelectRound(id), db.SelectParticipants(id)[client];
    db.UpdateParticipant(id, client, FillSlot(p, slot, body, now));
    var response := AcceptedDigest(digest);
    db.InsertIdempotency(id, k, digest, response);
    var count := |Keyed(db.SelectParticipants(id))|;
    CountKeyed(r, db.SelectParticipants(id));
    if slot.PublicKeySlot? && count == row.expectedCount && row.state == RegistrationOpen {
      var moved := db.Transition(id, RegistrationOpen, KeySetup, client, PublicKeyBarrier, now);
      assert moved.Success?;
    }
    db.InsertAudit(id, client, if slot.PublicKeySlot? then PublicKeyAccepted else KeyBundleAccepted, now);
    return Success(Reply(response, false));
  }

  method RecordJsonSlot(db: Connection, id: RoundId, client: ClientId, slot: JsonSlot, body: string,
                        key: string, digest: string, now: Time) returns (reply: Result<Reply, Error>)
    requires id in db.rounds && Counts(db.RoundOf(id)) && client in db.RoundOf(id).participants
    modifies db
    ensures db.Only(id)
    ensures Outcome(db.RoundOf(id), reply)
      == Settle(old(db.RoundOf(id)), Rounds.RecordJsonSlot(old(db.RoundOf(id)), client, slot, body, key, digest, now))
  {
    hide Connection.RoundOf, Connection.Others, Connection.ForeignKeys, Rounds.AcceptSlot, Counts;
    var k := IdemKey(client, SlotOperation(slot), key);
    var prior := db.SelectIdempotency(id);
    if k in prior {
      if prior[k].digest != digest {
        return Failure(IdempotencyConflict);
      }
      return Success(Reply(prior[k].response, true));
    }
    var row := db.SelectRound(id);
    var required := if slot.PublicKeySlot? then RegistrationOpen else KeySetup;
    if row.state != required && row.state != KeySetup {
      return Failure(RoundConflict);
    }
    var value := SlotValue(db.SelectParticipants(id)[client], slot);
    if value.Some? && value != Some(body) {
      return Failure(RoundConflict);
    }
    reply := AcceptSlot(db, id, client, slot, body, k, digest, now);
  }

  /** Derives the plan and writes its rows; a missing key or an underivable plan is an error before anything is written. */
  method CreateTreePlan(db: Connection, id: RoundId, draw: Draws, now: Time) returns (done: Result<(), Error>)
    requires id in db.rounds && Productive(draw) && |db.RoundOf(id).row.roster| <= DRAW_LIMIT
    requires db.RoundOf(id).tasks == map[] && db.RoundOf(id).edges == {}
    modifies db
    ensures db.Only(id)
    ensures match Rounds.CreateTreePlan(old(db.RoundOf(id)), draw, now)
      case Success(after) => done.Success? && db.RoundOf(id) == after
      case Failure(e) => done == Failure(e) && db.RoundOf(id) == old(db.RoundOf(id))
  {
    hide Connection.RoundOf, Connection.Others, Connection.ForeignKeys, PlanFor;
    var ps := db.SelectParticipants(id);
    if exists c | c in ps :: ps[c].publicKey.None? {
      return Failure(NotReady);
    }
    var plan := DeriveTreePlan(db.SelectRound(id).roster, draw);
    if plan.Failure? {
      return Failure(PlanRejected);
    }
    db.InsertPlan(id, plan.value);
    db.InsertTasks(id, plan.value.tasks);
    db.InsertAudit(id, "coordinator", TreePlanCommitted, now);
    return Success(());
  }

  method CrossKeySetup(db: Connection, id: RoundId, client: ClientId, draw: Draws, now: Time)
    returns (done: Result<Result<Reply, Error>, Error>)
    requires id in db.rounds && Productive(draw) && |db.RoundOf(id).row.roster| <= DRAW_LIMIT
    requires client in db.RoundOf(id).participants
    requires db.RoundOf(id).row.state == KeySetup ==> db.RoundOf(id).tasks == map[] && db.RoundOf(id).edges == {}
    modifies db
    ensures db.Only(id)
    ensures match Rounds.CrossKeySetup(old(db.RoundOf(id)), client, draw, now)
      case Success(c) => done == Success(c.reply) && db.RoundOf(id) == c.round
      case Failure(e) => done == Failure(e)
  {
    hide Connection.RoundOf, Connection.Others, Connection.ForeignKeys, Rounds.CreateTreePlan, MovedRow, CommitmentsAgree;
    var row, ps := db.SelectRound(id), db.SelectParticipants(id);
    if exists c | c in ps :: ps[c].commitment.None? {
      return Success(Success(Reply(Accepted, false)));
    }
    OneCommitment(ps);
    if |Commitments(ps)| != 1 {
      var failed := db.Transition(id, KeySetup, Failed, client, KeyContextMismatched, now);
      if failed.Failure? {
        return Failure(failed.error);
      }
      return Success(Failure(KeyContextMismatch));
    }
    if row.state == KeySetup {
      if row.protocol == V11 {
        var planned := CreateTreePlan(db, id, draw, now);
        if planned.Failure? {
          return Failure(planned.error);
        }
        var moved := db.Transition(id, KeySetup, KeyAggregation, client, KeySetupBarrier, now);
        if moved.Failure? {
          return Failure(moved.error);
        }
      } else {
        var moved := db.Transition(id, KeySetup, UpdateCollection, client, KeySetupBarrier, now);
        if moved.Failure? {
          return Failure(moved.error);
        }
      }
    }
    return Success(Success(Reply(Accepted, false)));
  }

  method AcceptKeys(db: Connection, id: RoundId, client: ClientId, commitment: string,
                    k: IdemKey, digest: string, draw: Draws, now: Time) returns (reply: Result<Reply, Error>)
    requires id in db.rounds && Productive(draw) && |db.RoundOf(id).row.roster| <= DRAW_LIMIT
    requires client in db.RoundOf(id).participants
    requires db.RoundOf(id).row.state == KeySetup ==> db.RoundOf(id).tasks == map[] && db.RoundOf(id).edges == {}
    modifies db
    ensures db.Only(id)
    ensures Outcome(db.RoundOf(id), reply)
      == Settle(old(db.RoundOf(id)), Rounds.AcceptKeys(old(db.RoundOf(id)), client, commitment, k, digest, draw, now))
  {
    hide Connection.RoundOf, Connection.Others, Connection.ForeignKeys, Rounds.CrossKeySetup, Connection.Begin, Confirmed;
    var start := db.Begin();
    db.UpdateParticipant(id, client, Confirmed(db.SelectParticipants(id)[client], commitment, now));
    db.InsertIdempotency(id, k, digest, Accepted);
    db.InsertAudit(id, client, KeyContextAccepted, now);
    var crossed := CrossKeySetup(db, id, client, draw, now);
    if crossed.Failure? {
      db.Rollback(start);
      db.RolledBack(id);
      return Failure(crossed.error);
    }
    return crossed.value;
  }

  method KeyComplete(db: Connection, id: RoundId, client: ClientId, commitment: string, key: string, digest: string,
                     draw: Draws, now: Time) returns (reply: Result<Reply, Error>)
    requires id in db.rounds && Productive(draw) && |db.RoundOf(id).row.roster| <= DRAW_LIMIT
    requires client in db.RoundOf(id).participants
    requires db.RoundOf(id).row.state == KeySetup ==> db.RoundOf(id).tasks == map[] && db.RoundOf(id).edges == {}
    modifies db
    ensures db.Only(id)
    ensures Outcome(db.RoundOf(id), reply)
      == Settle(old(db.RoundOf(id)), Rounds.KeyComplete(old(db.RoundOf(id)), client, commitment, key, digest, draw, now))
  {
    hide Connection.RoundOf, Connection.Others, Connection.ForeignKeys, Rounds.AcceptKeys;
    var k := IdemKey(client, KeyCompleteOp, key);
    var prior := db.SelectIdempotency(id);
    if k in prior {
      if prior[k].digest != digest {
        return Failure(IdempotencyConflict);
      }
      return Success(Reply(prior[k].response, true));
    }
    if db.SelectRound(id).state !in {KeySetup, KeyAggregation, UpdateCollection} {
      return Failure(RoundConflict);
    }
    var existing := db.SelectParticipants(id)[client].commitment;
    if existing.Some? && existing != Some(commitment) {
      return Failure(RoundConflict);
    }
    reply := AcceptKeys(db, id, client, commitment, k, digest, draw, now);
  }

  // ---- Key aggregation

  method AcceptTaskArtifact(db: Connection, id: RoundId, client: ClientId, task: TaskKey, stored: Stored, upload: Upload,
                            k: IdemKey, digest: string, now: Time) returns (reply: Result<Reply, Error>)
    requires id in db.rounds && task in db.RoundOf(id).tasks
    modifies db
    ensures db.Only(id)
    ensures Outcome(db.RoundOf(id), reply)
      == Settle(old(db.RoundOf(id)), IfNew(old(db.NewElsewhere(stored, id)),
        Rounds.AcceptTaskArtifact(old(db.RoundOf(id)), client, task, stored, upload, k, digest, now)))
  {
    hide Connection.RoundOf, Connection.Others, Connection.ForeignKeys, Rounds.InsertArtifact, Connection.NewElsewhere;
    InsertionAdds(db.RoundOf(id), stored, Some(client), TaskFile(task), now);
    var inserted := db.InsertArtifact(id, stored, Some(client), TaskFile(task), now);
    if inserted.Failure? {
      return Failure(inserted.error);
    }
    var row := db.SelectTasks(id)[task];
    db.UpdateTask(id, task, row.(state := ArtifactUploaded, upload := Some(upload.(artifactId := stored.objectId))));
    var response := AcceptedFile(stored.objectId, upload.ciphertextDigest, stored.size);
    db.InsertIdempotency(id, k, digest, response);
    db.InsertAudit(id, client, TreeArtifactAccepted, now);
    return Success(Reply(response, false));
  }

  /** A request that would newly be accepted is refused if its file is on record for another round. */
  ghost function IfNew(isNew: bool, t: Transaction): Transaction {
    if isNew || t.Failure? || t.value.reply.Failure? || t.value.reply.value.replay then t else Failure(ConstraintViolated)
  }

  lemma InsertionAdds(r: Round, stored: Stored, client: Option<ClientId>, kind: ArtifactKind, now: Time)
    ensures var t := Rounds.InsertArtifact(r, stored, client, kind, now);
      if t.Success? then t.value == r.(artifacts := t.value.artifacts) else t.error == ConstraintViolated
  {
  }

  method RecordTaskArtifact(db: Connection, id: RoundId, client: ClientId, task: TaskKey, stored: Stored, upload: Upload,
                            key: string, digest: string, now: Time) returns (reply: Result<Reply, Error>)
    requires id in db.rounds
    modifies db
    ensures db.Only(id)
    ensures Outcome(db.RoundOf(id), reply)
      == Settle(old(db.RoundOf(id)), IfNew(old(db.NewElsewhere(stored, id)),
        Rounds.RecordTaskArtifact(old(db.RoundOf(id)), client, task, stored, upload, key, digest, now)))
  {
    hide Connection.RoundOf, Connection.Others, Connection.ForeignKeys, Rounds.AcceptTaskArtifact, Connection.NewElsewhere;
    var k := IdemKey(client, TaskUploadOp(task), key);
    var prior := db.SelectIdempotency(id);
    if k in prior {
      if prior[k].digest != digest {
        return Failure(IdempotencyConflict);
      }
      return Success(Reply(prior[k].response, true));
    }
    var tasks := db.SelectTasks(id);
    if db.SelectRound(id).state != KeyAggregation || task !in tasks || tasks[task].task.sender != client
      || tasks[task].state != Ready
    {
      return Failure(RoundConflict);
    }
    reply := AcceptTaskArtifact(db, id, client, task, stored, upload, k, digest, now);
  }

  method AcceptTask(db: Connection, id: RoundId, client: ClientId, task: TaskKey, artifactDigest: string,
                    k: IdemKey, digest: string, now: Time) returns (reply: Result<Reply, Error>)
    requires id in db.rounds && task in db.RoundOf(id).tasks
    modifies db
    ensures db.Only(id)
    ensures Outcome(db.RoundOf(id), reply)
      == Settle(old(db.RoundOf(id)), Rounds.AcceptTask(old(db.RoundOf(id)), client, task, artifactDigest, k, digest, now))
  {
    hide Connection.RoundOf, Connection.Others, Connection.ForeignKeys, Connection.Begin, Activate;
    var start := db.Begin();
    var row := db.SelectTasks(id)[task];
    db.UpdateTask(id, task, row.(state := TaskCompleted, completedAt := Some(now)));
    var received := db.InsertTaskReceipt(id, task, TaskReceipt(client, artifactDigest, now));
    if received.Failure? {
      db.Rollback(start);
      db.RolledBack(id);
      return Failure(received.error);
    }
    db.ActivateTasks(id);
    db.InsertIdempotency(id, k, digest, Accepted);
    db.InsertAudit(id, client, TreeTaskCompleted, now);
    return Success(Reply(Accepted, false));
  }

  method AcknowledgeTask(db: Connection, id: RoundId, client: ClientId, task: TaskKey, artifactDigest: string,
                         key: string, digest: string, now: Time) returns (reply: Result<Reply, Error>)
    requires id in db.rounds
    modifies db
    ensures db.Only(id)
    ensures Outcome(db.RoundOf(id), reply)
      == Settle(old(db.RoundOf(id)), Rounds.AcknowledgeTask(old(db.RoundOf(id)), client, task, artifactDigest, key, digest, now))
  {
    hide Connection.RoundOf, Connection.Others, Connection.ForeignKeys, Rounds.AcceptTask;
    var k := IdemKey(client, TaskAckOp(task), key);
    var prior := db.SelectIdempotency(id);
    if k in prior {
      if prior[k].digest != digest {
        return Failure(IdempotencyConflict);
      }
      return Success(Reply(prior[k].response, true));
    }
    var tasks := db.SelectTasks(id);
    if task !in tasks || db.SelectRound(id).state != KeyAggregation || tasks[task].task.sender != client
      || tasks[task].state != ArtifactUploaded || tasks[task].upload.None?
      || tasks[task].upload.value.ciphertextDigest != artifactDigest
    {
      return Failure(RoundConflict);
    }
    reply := AcceptTask(db, id, client, task, artifactDigest, k, digest, now);
  }

  method AcceptFinalKey(db: Connection, id: RoundId, client: ClientId, stored: Stored, upload: Upload,
                        k: IdemKey, digest: string, now: Time) returns (reply: Result<Reply, Error>)
    requires id in db.rounds
    modifies db
    ensures db.Only(id)
    ensures Outcome(db.RoundOf(id), reply)
      == Settle(old(db.RoundOf(id)), IfNew(old(db.NewElsewhere(stored, id)),
        Rounds.AcceptFinalKey(old(db.RoundOf(id)), client, stored, upload, k, digest, now)))
  {
    hide Connection.RoundOf, Connection.Others, Connection.ForeignKeys, Connection.Begin, Rounds.InsertArtifact,
      Connection.NewElsewhere;
    var start := db.Begin();
    InsertionAdds(db.RoundOf(id), stored, Some(client), FinalKeyFile, now);
    var inserted := db.InsertArtifact(id, stored, Some(client), FinalKeyFile, now);
    if inserted.Failure? {
      return Failure(inserted.error);
    }
    var published := db.InsertFinalKey(id, FinalKey(upload.(artifactId := stored.objectId), client, now));
    if published.Failure? {
      db.Rollback(start);
      db.RolledBack(id);
      return Failure(published.error);
    }
    var response := AcceptedFile(stored.objectId, upload.ciphertextDigest, stored.size);
    db.InsertIdempotency(id, k, digest, response);
    db.InsertAudit(id, client, FinalKeyPublished, now);
    return Success(Reply(response, false));
  }

  method RecordFinalKey(db: Connection, id: RoundId, client: ClientId, stored: Stored, upload: Upload,
                        key: string, digest: string, now: Time) returns (reply: Result<Reply, Error>)
    requires id in db.rounds
    modifies db
    ensures db.Only(id)
    ensures Outcome(db.RoundOf(id), reply)
      == Settle(old(db.RoundOf(id)), IfNew(old(db.NewElsewhere(stored, id)),
        Rounds.RecordFinalKey(old(db.RoundOf(id)), client, stored, upload, key, digest, now)))
  {
    hide Connection.RoundOf, Connection.Others, Connection.ForeignKeys, Rounds.AcceptFinalKey, Connection.NewElsewhere;
    var k := IdemKey(client, FinalKeyOp, key);
    var prior := db.SelectIdempotency(id);
    if k in prior {
      if prior[k].digest != digest {
        return Failure(IdempotencyConflict);
      }
      return Success(Reply(prior[k].response, true));
    }
    var plan, tasks := db.SelectPlan(id), db.SelectTasks(id);
    var incomplete := |set t | t in tasks && tasks[t].state != TaskCompleted|;
    NoneIncomplete(tasks);
    if plan.None? || db.SelectRound(id).state != KeyAggregation || plan.value.rootClient != client || incomplete > 0 {
      return Failure(RoundConflict);
    }
    reply := AcceptFinalKey(db, id, client, stored, upload, k, digest, now);
  }

  lemma NoneIncomplete(tasks: map<TaskKey, TaskRow>)
    ensures |set t | t in tasks && tasks[t].state != TaskCompleted| == 0 <==> AllTasksCompleted(tasks)
  {
    var incomplete := set t | t in tasks && tasks[t].state != TaskCompleted;
    if AllTasksCompleted(tasks) {
      assert incomplete == {};
    } else {
      var t :| t in tasks && tasks[t].state != TaskCompleted;
      assert t in incomplete;
    }
  }

  method AcceptFinalReceipt(db: Connection, id: RoundId, client: ClientId, artifactDigest: string,
                            k: IdemKey, digest: string, now: Time) returns (reply: Result<Reply, Error>)
    requires id in db.rounds && Counts(db.RoundOf(id)) && client in db.RoundOf(id).participants
    modifies db
    ensures db.Only(id)
    ensures Outcome(db.RoundOf(id), reply)
      == Settle(old(db.RoundOf(id)), Rounds.AcceptFinalReceipt(old(db.RoundOf(id)), client, artifactDigest, k, digest, now))
  {
    hide Connection.RoundOf, Connection.Others, Connection.ForeignKeys, Connection.Begin, MovedRow;
    ghost var r := db.RoundOf(id);
    var start := db.Begin();
    var received := db.InsertFinalReceipt(id, client, FinalReceipt(artifactDigest, now));
    if received.Failure? {
      return Failure(received.error);
    }
    db.InsertIdempotency(id, k, digest, Accepted);
    db.InsertAudit(id, client, FinalKeyAcknowledged, now);
    CountReceipts(r, db.SelectFinalReceipts(id));
    if |db.SelectFinalReceipts(id)| == db.SelectRound(id).expectedCount {
      var moved := db.Transition(id, KeyAggregation, UpdateCollection, client, FinalKeyBarrier, now);
      if moved.Failure? {
        db.Rollback(start);
        db.RolledBack(id);
        return Failure(moved.error);
      }
    }
    return Success(Reply(Accepted, false));
  }

  method AcknowledgeFinalKey(db: Connection, id: RoundId, client: ClientId, artifactDigest: string,
                             key: string, digest: string, now: Time) returns (reply: Result<Reply, Error>)
    requires id in db.rounds && Counts(db.RoundOf(id)) && client in db.RoundOf(id).participants
    modifies db
    ensures db.Only(id)
    ensures Outcome(db.RoundOf(id), reply)
      == Settle(old(db.RoundOf(id)), Rounds.AcknowledgeFinalKey(old(db.RoundOf(id)), client, artifactDigest, key, digest, now))
  {
    hide Connection.RoundOf, Connection.Others, Connection.ForeignKeys, Rounds.AcceptFinalReceipt, Counts;
    var k := IdemKey(client, FinalKeyAckOp, key);
    var prior := db.SelectIdempotency(id);
    if k in prior {
      if prior[k].digest != digest {
        return Failure(IdempotencyConflict);
      }
      return Success(Reply(prior[k].response, true));
    }
    var final := db.SelectFinalKey(id);
    if db.SelectRound(id).state != KeyAggregation || final.None? || final.value.upload.ciphertextDigest != artifactDigest {
      return Failure(RoundConflict);
    }
    reply := AcceptFinalReceipt(db, id, client, artifactDigest, k, digest, now);
  }

  // ---- Update collection

  method NoteUpdate(db: Connection, id: RoundId, client: ClientId, stored: Stored, tag: string,
                    k: IdemKey, digest: string, now: Time)
    requires id in db.rounds && client in db.RoundOf(id).participants
    modifies db
    ensures db.Only(id)
    ensures db.RoundOf(id) == Rounds.NoteUpdate(old(db.RoundOf(id)), client, stored, tag, k, digest, now)
  {
    hide Connection.RoundOf, Connection.Others, Connection.ForeignKeys;
    var p := db.SelectParticipants(id)[client];
    var slot := UpdateSlot(stored.objectId, stored.digest, tag);
    db.UpdateParticipant(id, client, p.(update := Some(slot), state := UpdateSubmitted, lastSeen := now));
    db.InsertIdempotency(id, k, digest, AcceptedFile(stored.objectId, stored.digest, stored.size));
    db.InsertAudit(id, client, UpdateAccepted, now);
  }

  /** A first update is newly accepted, or refused by a constraint. */
  lemma AcceptedUpdateIsNew(r: Round, client: ClientId, stored: Stored, tag: string,
                            k: IdemKey, digest: string, jobId: string, rowid: nat, now: Time)
    requires client in r.participants
    ensures IfNew(false, Rounds.AcceptUpdate(r, client, stored, tag, k, digest, jobId, rowid, now)) == Failure(ConstraintViolated)
  {
    hide AllUpdated, MovedRow, Insertable, SlotTaken;
  }

  method AcceptUpdate(db: Connection, id: RoundId, client: ClientId, stored: Stored, tag: string,
                      k: IdemKey, digest: string, jobId: string, rowid: nat, now: Time) returns (reply: Result<Reply, Error>)
    requires id in db.rounds
    requires Counts(db.RoundOf(id)) && client in db.RoundOf(id).participants
    modifies db
    ensures db.Only(id)
    ensures Outcome(db.RoundOf(id), reply)
      == Settle(old(db.RoundOf(id)), IfNew(old(db.NewElsewhere(stored, id)),
        Rounds.AcceptUpdate(old(db.RoundOf(id)), client, stored, tag, k, digest, jobId, rowid, now)))
  {
    hide Connection.RoundOf, Connection.Others, Connection.ForeignKeys, Connection.Begin, Rounds.InsertArtifact,
      Connection.NewElsewhere, AllUpdated, MovedRow, Rounds.NoteUpdate;
    ghost var r := db.RoundOf(id);
    var start, row := db.Begin(), db.SelectRound(id);
    InsertionAdds(r, stored, Some(client), UpdateFile, now);
    AcceptedUpdateIsNew(r, client, stored, tag, k, digest, jobId, rowid, now);
    var inserted := db.InsertArtifact(id, stored, Some(client), UpdateFile, now);
    if inserted.Failure? {
      return Failure(inserted.error);
    }
    UpdateNoted(db.RoundOf(id), client, stored, tag, k, digest, now);
    NoteUpdate(db, id, client, stored, tag, k, digest, now);
    CountUpdated(r, db.SelectParticipants(id));
    if |UpdatedBy(db.SelectParticipants(id))| == row.expectedCount && row.state == UpdateCollection {
      var queued := StartAggregation(db, id, client, jobId, rowid, now);
      if queued.Failure? {
        db.Rollback(start);
        db.RolledBack(id);
        return Failure(queued.error);
      }
    }
    return Success(Reply(AcceptedFile(stored.objectId, stored.digest, stored.size), false));
  }

  lemma UpdateNoted(r: Round, client: ClientId, stored: Stored, tag: string, k: IdemKey, digest: string, now: Time)
    requires client in r.participants
    ensures var after := Rounds.NoteUpdate(r, client, stored, tag, k, digest, now);
      after.row == r.row && after.job == r.job && after.participants.Keys == r.participants.Keys
  {
  }

  function Started(r: Round, client: ClientId, jobId: string, rowid: nat, now: Time): Round {
    Moved(r, Aggregating, client, UpdateBarrier, now).(job := Some(NewJob(jobId, rowid)))
  }

  /** The move into aggregation with its queued job. */
  method StartAggregation(db: Connection, id: RoundId, client: ClientId, jobId: string, rowid: nat, now: Time)
    returns (done: Result<(), Error>)
    requires id in db.rounds && db.RoundOf(id).row.state == UpdateCollection
    modifies db
    ensures db.Only(id)
    ensures var r := old(db.RoundOf(id));
      if r.job.Some? then done == Failure(ConstraintViolated) else done.Success? && db.RoundOf(id) == Started(r, client, jobId, rowid, now)
  {
    hide Connection.RoundOf, Connection.Others, Connection.ForeignKeys, MovedRow;
    var moved := db.Transition(id, UpdateCollection, Aggregating, client, UpdateBarrier, now);
    assert moved.Success?;
    done := db.InsertJob(id, NewJob(jobId, rowid));
  }

  method RecordUpdate(db: Connection, id: RoundId, client: ClientId, stored: Stored, tag: string,
                      key: string, digest: string, jobId: string, rowid: nat, now: Time) returns (reply: Result<Reply, Error>)
    requires id in db.rounds
    requires Counts(db.RoundOf(id)) && client in db.RoundOf(id).participants
    modifies db
    ensures db.Only(id)
    ensures Outcome(db.RoundOf(id), reply)
      == Settle(old(db.RoundOf(id)), IfNew(old(db.NewElsewhere(stored, id)),
        Rounds.RecordUpdate(old(db.RoundOf(id)), client, stored, tag, key, digest, jobId, rowid, now)))
  {
    hide Connection.RoundOf, Connection.Others, Connection.ForeignKeys, Rounds.AcceptUpdate, Counts, Connection.NewElsewhere;
    var k := IdemKey(client, UpdateOp, key);
    var prior := db.SelectIdempotency(id);
    if k in prior {
      if prior[k].digest != digest {
        return Failure(IdempotencyConflict);
      }
      return Success(Reply(prior[k].response, true));
    }
    if db.SelectRound(id).state !in {UpdateCollection, Aggregating} {
      return Failure(RoundConflict);
    }
    var update, artifacts := db.SelectParticipants(id)[client].update, db.SelectArtifacts(id);
    if update.Some? {
      if update.value.digest != stored.digest || update.value.tag != tag {
        return Failure(RoundConflict);
      }
      if !IsUpdateOf(artifacts, client, update.value.artifactId) {
        return Failure(NotReady);
      }
      var response := UpdateResponse(artifacts, update.value.artifactId);
      db.InsertIdempotency(id, k, digest, response);
      return Success(Reply(response, true));
    }
    reply := AcceptUpdate(db, id, client, stored, tag, k, digest, jobId, rowid, now);
  }

  // ---- The job lease

  method ReclaimLease(db: Connection, id: RoundId, now: Time, lease: Time) returns (reply: Result<Reply, Error>)
    requires id in db.rounds
    modifies db
    ensures db.Only(id)
    ensures Outcome(db.RoundOf(id), reply) == Settle(old(db.RoundOf(id)), Rounds.ReclaimLease(old(db.RoundOf(id)), now, lease))
  {
    hide Connection.RoundOf, Connection.Others, Connection.ForeignKeys, MovedRow, LeaseOver;
    var job := db.SelectJob(id);
    if job.None? || !LeaseOver(job.value, now, lease) {
      return Success(Reply(Accepted, false));
    }
    if job.value.attempts < job.value.maxAttempts {
      db.UpdateJob(id, job.value.(state := JobReady, claimedAt := None, leaseUntil := None, token := None));
      db.InsertAudit(id, "worker", LeaseExpired, now);
    } else {
      db.UpdateJob(id, job.value.(state := JobFailed, leaseUntil := None, token := None));
      if db.SelectRound(id).state == Aggregating {
        var moved := db.Transition(id, Aggregating, Failed, "worker", LeaseExhausted, now);
        assert moved.Success?;
      }
    }
    return Success(Reply(Accepted, false));
  }

  /** Taking one queued job, once it is known to be claimable. */
  method ClaimJob(db: Connection, id: RoundId, now: Time, lease: Time, token: string) returns (reply: Result<Reply, Error>)
    requires id in db.rounds
    modifies db
    ensures db.Only(id)
    ensures Outcome(db.RoundOf(id), reply) == Settle(old(db.RoundOf(id)), Rounds.ClaimJob(old(db.RoundOf(id)), now, lease, token))
  {
    hide Connection.RoundOf, Connection.Others, Connection.ForeignKeys;
    if lease <= 0.0 {
      return Failure(LeaseNotPositive);
    }
    var job, row := db.SelectJob(id), db.SelectRound(id);
    if job.None? || job.value.state != JobReady || job.value.attempts >= job.value.maxAttempts
      || row.state != Aggregating || row.deadlineAt <= now
    {
      return Success(Reply(Ignored, false));
    }
    db.UpdateJob(id, job.value.(state := JobClaimed, attempts := job.value.attempts + 1,
      claimedAt := Some(now), leaseUntil := Some(now + lease), token := Some(token)));
    return Success(Reply(Accepted, false));
  }

  method RenewJob(db: Connection, id: RoundId, jobId: string, token: string, lease: Time, now: Time)
    returns (reply: Result<Reply, Error>)
    requires id in db.rounds
    modifies db
    ensures db.Only(id)
    ensures Outcome(db.RoundOf(id), reply)
      == Settle(old(db.RoundOf(id)), Rounds.RenewJob(old(db.RoundOf(id)), jobId, token, lease, now))
  {
    hide Connection.RoundOf, Connection.Others, Connection.ForeignKeys;
    if lease <= 0.0 {
      return Failure(LeaseNotPositive);
    }
    var job := db.SelectJob(id);
    if !Owns(job, jobId, token) {
      return Failure(ClaimLost);
    }
    db.UpdateJob(id, job.value.(leaseUntil := Some(now + lease)));
    return Success(Reply(Accepted, false));
  }

  /** A result on record for another round is refused before the state of the round is looked at. */
  ghost function CompletionIfNew(isNew: bool, r: Round, jobId: string, token: string, stored: Stored, tag: string, now: Time)
    : Transaction
  {
    if isNew || !Owns(r.job, jobId, token) || HasResult(r.artifacts) then Rounds.CompleteJob(r, jobId, token, stored, tag, now)
    else Failure(ConstraintViolated)
  }

  /** A result row is inserted before the state of the round is looked at, and taken back if that has moved on. */
  method CompleteJob(db: Connection, id: RoundId, jobId: string, token: string, stored: Stored, tag: string, now: Time)
    returns (reply: Result<Reply, Error>)
    requires id in db.rounds
    modifies db
    ensures db.Only(id)
    ensures Outcome(db.RoundOf(id), reply)
      == Settle(old(db.RoundOf(id)),
        CompletionIfNew(old(db.NewElsewhere(stored, id)), old(db.RoundOf(id)), jobId, token, stored, tag, now))
  {
    hide Connection.RoundOf, Connection.Others, Connection.ForeignKeys, Connection.Begin, InsertResult, MovedRow,
      Connection.NewElsewhere;
    var start := db.Begin();
    var job := db.SelectJob(id);
    if !Owns(job, jobId, token) {
      return Failure(ClaimLost);
    }
    var inserted := StoreResult(db, id, stored, now);
    if inserted.Failure? {
      return Failure(inserted.error);
    }
    if db.SelectRound(id).state != Aggregating {
      db.Rollback(start);
      db.RolledBack(id);
      return Failure(ClaimLost);
    }
    var moved := db.Transition(id, Aggregating, ResultReady, "worker", AggregationCompleted, now);
    assert moved.Success?;
    db.UpdateJob(id, job.value.(state := JobCompleted, leaseUntil := None, token := None, tag := Some(tag)));
    return Success(Reply(Accepted, false));
  }

  method StoreResult(db: Connection, id: RoundId, stored: Stored, now: Time) returns (done: Result<(), Error>)
    requires id in db.rounds
    modifies db
    ensures db.Only(id)
    ensures match (if old(db.NewElsewhere(stored, id)) || HasResult(old(db.RoundOf(id)).artifacts)
        then InsertResult(old(db.RoundOf(id)), stored, now) else Failure(ConstraintViolated))
      case Success(after) => done.Success? && db.RoundOf(id) == after && after == old(db.RoundOf(id)).(artifacts := after.artifacts)
      case Failure(e) => done == Failure(e) && db.RoundOf(id) == old(db.RoundOf(id))
  {
    hide Connection.RoundOf, Connection.Others, Connection.ForeignKeys, Rounds.InsertArtifact, Connection.NewElsewhere;
    var existing := db.SelectArtifacts(id);
    if exists a | a in existing :: existing[a].kind == ResultFile {
      if exists a | a in existing :: existing[a].kind == ResultFile && existing[a].digest != stored.digest {
        return Failure(ResultConflict);
      }
      return Success(());
    }
    InsertionAdds(old(db.RoundOf(id)), stored, None, ResultFile, now);
    done := db.InsertArtifact(id, stored, None, ResultFile, now);
  }

  method FailJob(db: Connection, id: RoundId, jobId: string, token: string, retryable: bool, now: Time)
    returns (reply: Result<Reply, Error>)
    requires id in db.rounds
    modifies db
    ensures db.Only(id)
    ensures Outcome(db.RoundOf(id), reply)
      == Settle(old(db.RoundOf(id)), Rounds.FailJob(old(db.RoundOf(id)), jobId, token, retryable, now))
  {
    hide Connection.RoundOf, Connection.Others, Connection.ForeignKeys, MovedRow;
    var job := db.SelectJob(id);
    if !Owns(job, jobId, token) {
      return Success(Reply(Ignored, false));
    }
    if retryable && job.value.attempts < job.value.maxAttempts {
      db.UpdateJob(id, job.value.(state := JobReady, claimedAt := None, leaseUntil := None, token := None));
    } else {
      db.UpdateJob(id, job.value.(state := JobFailed, leaseUntil := None, token := None));
      if db.SelectRound(id).state == Aggregating {
        var moved := db.Transition(id, Aggregating, Failed, "worker", AggregationFailed, now);
        assert moved.Success?;
      }
    }
    return Success(Reply(Accepted, false));
  }

  // ---- Ending a round

  method FailRound(db: Connection, id: RoundId, actor: string, code: string, now: Time) returns (reply: Result<Reply, Error>)
    requires id in db.rounds
    modifies db
    ensures db.Only(id)
    ensures Outcome(db.RoundOf(id), reply) == Settle(old(db.RoundOf(id)), Rounds.FailRound(old(db.RoundOf(id)), actor, code, now))
  {
    hide Connection.RoundOf, Connection.Others, Connection.ForeignKeys, MovedRow;
    var state := db.SelectRound(id).state;
    if !Terminal(state) {
      var moved := db.Transition(id, state, Failed, actor, RoundRejected(code), now);
      assert moved.Success?;
    }
    return Success(Reply(Accepted, false));
  }

  method ReadRound(db: Connection, id: RoundId, now: Time) returns (reply: Result<Reply, Error>)
    requires id in db.rounds
    modifies db
    ensures db.Only(id)
    ensures Outcome(db.RoundOf(id), reply) == Settle(old(db.RoundOf(id)), Rounds.ReadRound(old(db.RoundOf(id)), now))
  {
    hide Connection.RoundOf, Connection.Others, Connection.ForeignKeys, MovedRow;
    var row := db.SelectRound(id);
    if !Terminal(row.state) && now > row.deadlineAt {
      var moved := db.Transition(id, row.state, Expired, "reconciler", DeadlineExceeded, now);
      assert moved.Success?;
    }
    return Success(Reply(Accepted, false));
  }

  /** One round of the deadline sweep. */
  method ExpireRound(db: Connection, id: RoundId, now: Time) returns (reply: Result<Reply, Error>)
    requires id in db.rounds
    modifies db
    ensures db.Only(id)
    ensures Outcome(db.RoundOf(id), reply) == Settle(old(db.RoundOf(id)), Rounds.ExpireRound(old(db.RoundOf(id)), now))
  {
    hide Connection.RoundOf, Connection.Others, Connection.ForeignKeys, MovedRow;
    var row := db.SelectRound(id);
    if row.deadlineAt < now && !Terminal(row.state) {
      var moved := db.Transition(id, row.state, Expired, "reconciler", DeadlineExceeded, now);
      assert moved.Success?;
      var job := db.SelectJob(id);
      if job.Some? && job.value.state in {JobReady, JobClaimed} {
        db.UpdateJob(id, job.value.(state := JobFailed, leaseUntil := None, token := None));
      }
    }
    return Success(Reply(Accepted, false));
  }

  method AcceptDeparture(db: Connection, id: RoundId, client: ClientId, k: IdemKey, digest: string, now: Time)
    returns (reply: Result<Reply, Error>)
    requires id in db.rounds && Counts(db.RoundOf(id)) && client in db.RoundOf(id).participants
    modifies db
    ensures db.Only(id)
    ensures Outcome(db.RoundOf(id), reply)
      == Settle(old(db.RoundOf(id)), Rounds.AcceptDeparture(old(db.RoundOf(id)), client, k, digest, now))
  {
    hide Connection.RoundOf, Connection.Others, Connection.ForeignKeys, MovedRow, AllDone;
    ghost var r := db.RoundOf(id);
    var row, p := db.SelectRound(id), db.SelectParticipants(id)[client];
    db.UpdateParticipant(id, client, p.(completed := true, state := ParticipantDone, lastSeen := now));
    db.InsertIdempotency(id, k, digest, Accepted);
    db.InsertAudit(id, client, ParticipantCompleted, now);
    CountDone(r, db.SelectParticipants(id));
    if |DoneBy(db.SelectParticipants(id))| == row.expectedCount && row.state == ResultReady {
      var moved := db.Transition(id, ResultReady, Completed, client, CompletionBarrier, now);
      assert moved.Success?;
    }
    return Success(Reply(Accepted, false));
  }

  method CompleteParticipant(db: Connection, id: RoundId, client: ClientId, key: string, digest: string, now: Time)
    returns (reply: Result<Reply, Error>)
    requires id in db.rounds && Counts(db.RoundOf(id)) && client in db.RoundOf(id).participants
    modifies db
    ensures db.Only(id)
    ensures Outcome(db.RoundOf(id), reply)
      == Settle(old(db.RoundOf(id)), Rounds.CompleteParticipant(old(db.RoundOf(id)), client, key, digest, now))
  {
    hide Connection.RoundOf, Connection.Others, Connection.ForeignKeys, Rounds.AcceptDeparture, Counts;
    if db.SelectRound(id).state !in {ResultReady, Completed} {
      return Failure(RoundConflict);
    }
    var k := IdemKey(client, CompleteOp, key);
    var prior := db.SelectIdempotency(id);
    if k in prior {
      if prior[k].digest != digest {
        return Failure(IdempotencyConflict);
      }
      return Success(Reply(prior[k].response, true));
    }
    reply := AcceptDeparture(db, id, client, k, digest, now);
  }

  method AbortRound(db: Connection, id: RoundId, actor: string, key: string, digest: string, now: Time)
    returns (reply: Result<Reply, Error>)
    requires id in db.rounds
    modifies db
    ensures db.Only(id)
    ensures Outcome(db.RoundOf(id), reply) == Settle(old(db.RoundOf(id)), Rounds.AbortRound(old(db.RoundOf(id)), actor, key, digest, now))
  {
    hide Connection.RoundOf, Connection.Others, Connection.ForeignKeys, MovedRow;
    var k := IdemKey(actor, AbortOp, key);
    var prior := db.SelectIdempotency(id);
    if k in prior {
      if prior[k].digest != digest {
        return Failure(IdempotencyConflict);
      }
      return Success(Reply(prior[k].response, true));
    }
    var state := db.SelectRound(id).state;
    if Terminal(state) {
      return Failure(RoundConflict);
    }
    var moved := db.Transition(id, state, Aborted, actor, OperatorAbort, now);
    assert moved.Success?;
    db.InsertIdempotency(id, k, digest, Accepted);
    return Success(Reply(Accepted, false));
  }
}
