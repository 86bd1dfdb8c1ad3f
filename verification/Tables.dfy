/** The database tables, partitioned by round, and the SQL statements the transactions are made of. */
module Tables {
  import opened Growth
  import opened Names
  import opened PlanShape
  import opened Rounds
  import opened Sequences
  import opened Shuffling
  import opened States
  import opened Topology
  import opened Wrappers

  type RoundId = string

  /** The rows of a table that belong to a round. */
  function Rows<K, V>(table: map<RoundId, map<K, V>>, id: RoundId): map<K, V> {
    if id in table then table[id] else map[]
  }

  function Row<V>(table: map<RoundId, V>, id: RoundId): Option<V> {
    if id in table then Some(table[id]) else None
  }

  /** The columns a state change sets. */
  method ChangeState(row: RoundRow, target: RoundState, event: EventType, now: Time) returns (after: RoundRow)
    ensures after == MovedRow(row, target, event, now) && after.version == row.version + 1
  {
    after := row.(state := target, version := row.version + 1);
    if Terminal(target) {
      after := after.(completedAt := Some(now), retentionAt := now + (row.retentionAt - row.createdAt));
    }
    if target in {Failed, Aborted, Expired} {
      after := after.(failureCode := Some(event));
    }
  }

  /** All rows at the start of a transaction, to return to when it is rolled back. */
  datatype Snapshot = Snapshot(
    rounds: map<RoundId, RoundRow>, participants: map<RoundId, map<ClientId, Participant>>,
    artifacts: map<RoundId, map<string, Artifact>>, idempotency: map<RoundId, map<IdemKey, IdemRecord>>,
    jobs: map<RoundId, Job>, auditEvents: map<RoundId, seq<AuditEvent>>, treePlans: map<RoundId, Plan>,
    keyTasks: map<RoundId, map<TaskKey, TaskRow>>, taskDependencies: map<RoundId, set<(TaskKey, TaskKey)>>,
    taskReceipts: map<RoundId, map<TaskKey, TaskReceipt>>, finalKeys: map<RoundId, FinalKey>,
    finalKeyReceipts: map<RoundId, map<ClientId, FinalReceipt>>)

  /** Inserting a file's row where it may be on record for another round. */
  ghost function InsertionIfNew(isNew: bool, r: Round, stored: Stored, client: Option<ClientId>, kind: ArtifactKind, now: Time)
    : Result<Round, Error>
  {
    if isNew then Rounds.InsertArtifact(r, stored, client, kind, now) else Failure(ConstraintViolated)
  }

  class Connection {
    var rounds: map<RoundId, RoundRow>
    var participants: map<RoundId, map<ClientId, Participant>>
    var artifacts: map<RoundId, map<string, Artifact>>
    var idempotency: map<RoundId, map<IdemKey, IdemRecord>>
    var jobs: map<RoundId, Job>
    var auditEvents: map<RoundId, seq<AuditEvent>>
    var treePlans: map<RoundId, Plan>
    var keyTasks: map<RoundId, map<TaskKey, TaskRow>>
    var taskDependencies: map<RoundId, set<(TaskKey, TaskKey)>>
    var taskReceipts: map<RoundId, map<TaskKey, TaskReceipt>>
    var finalKeys: map<RoundId, FinalKey>
    var finalKeyReceipts: map<RoundId, map<ClientId, FinalReceipt>>

    constructor ()
      ensures rounds == map[] && ForeignKeys()
    {
      rounds, participants, artifacts, idempotency, jobs, auditEvents := map[], map[], map[], map[], map[], map[];
      treePlans, keyTasks, taskDependencies, taskReceipts, finalKeys, finalKeyReceipts := map[], map[], map[], map[], map[], map[];
    }

    /** No row refers to a round that does not exist. */
    ghost predicate ForeignKeys()
      reads this
    {
      && participants.Keys <= rounds.Keys && artifacts.Keys <= rounds.Keys && idempotency.Keys <= rounds.Keys
      && jobs.Keys <= rounds.Keys && auditEvents.Keys <= rounds.Keys && treePlans.Keys <= rounds.Keys
      && keyTasks.Keys <= rounds.Keys && taskDependencies.Keys <= rounds.Keys && taskReceipts.Keys <= rounds.Keys
      && finalKeys.Keys <= rounds.Keys && finalKeyReceipts.Keys <= rounds.Keys
    }

    /** Every row that names the round. */
    ghost function RoundOf(id: RoundId): Round
      requires id in rounds
      reads this
    {
      Round(
        rounds[id], Rows(participants, id), Rows(artifacts, id), Rows(idempotency, id), Row(jobs, id),
        if id in auditEvents then auditEvents[id] else [], Row(treePlans, id), Rows(keyTasks, id),
        if id in taskDependencies then taskDependencies[id] else {}, Rows(taskReceipts, id),
        Row(finalKeys, id), Rows(finalKeyReceipts, id))
    }

    /** The rows of all other rounds. */
    ghost function Others(id: RoundId): map<RoundId, Round>
      reads this
    {
      map other | other in rounds && other != id :: RoundOf(other)
    }

    ghost function All(): map<RoundId, Round>
      reads this
    {
      map id | id in rounds :: RoundOf(id)
    }

    /** All rows are those of one round and of the others. */
    lemma AllRows(id: RoundId)
      ensures All().Keys == rounds.Keys
      ensures if id in rounds then All() == Others(id)[id := RoundOf(id)] && All()[id] == RoundOf(id) else All() == Others(id)
    {
    }

    lemma OthersWithout(id: RoundId)
      ensures Others(id) == All() - {id}
    {
    }

    /** Only rows of the given round have changed. */
    twostate predicate Only(id: RoundId)
      reads this
    {
      && rounds.Keys == old(rounds.Keys) && Others(id) == old(Others(id))
      && (old(ForeignKeys()) ==> ForeignKeys())
    }

    // ---- Reading the rows of a round

    function SelectRound(id: RoundId): (row: RoundRow)
      requires id in rounds
      reads this
      ensures row == RoundOf(id).row
    {
      rounds[id]
    }

    function SelectParticipants(id: RoundId): (rows: map<ClientId, Participant>)
      requires id in rounds
      reads this
      ensures rows == RoundOf(id).participants
    {
      Rows(participants, id)
    }

    function SelectArtifacts(id: RoundId): (rows: map<string, Artifact>)
      requires id in rounds
      reads this
      ensures rows == RoundOf(id).artifacts
    {
      Rows(artifacts, id)
    }

    function SelectIdempotency(id: RoundId): (rows: map<IdemKey, IdemRecord>)
      requires id in rounds
      reads this
      ensures rows == RoundOf(id).idem
    {
      Rows(idempotency, id)
    }

    function SelectJob(id: RoundId): (row: Option<Job>)
      requires id in rounds
      reads this
      ensures row == RoundOf(id).job
    {
      Row(jobs, id)
    }

    function SelectPlan(id: RoundId): (row: Option<Plan>)
      requires id in rounds
      reads this
      ensures row == RoundOf(id).plan
    {
      Row(treePlans, id)
    }

    function SelectTasks(id: RoundId): (rows: map<TaskKey, TaskRow>)
      requires id in rounds
      reads this
      ensures rows == RoundOf(id).tasks
    {
      Rows(keyTasks, id)
    }

    function SelectFinalKey(id: RoundId): (row: Option<FinalKey>)
      requires id in rounds
      reads this
      ensures row == RoundOf(id).finalKey
    {
      Row(finalKeys, id)
    }

    function SelectFinalReceipts(id: RoundId): (rows: map<ClientId, FinalReceipt>)
      requires id in rounds
      reads this
      ensures rows == RoundOf(id).finalReceipts
    {
      Rows(finalKeyReceipts, id)
    }

    // ---- Beginning and undoing a transaction

    function Begin(): Snapshot
      reads this
    {
      Snapshot(rounds, participants, artifacts, idempotency, jobs, auditEvents, treePlans,
               keyTasks, taskDependencies, taskReceipts, finalKeys, finalKeyReceipts)
    }

    method RestoreRound(start: Snapshot)
      modifies this`rounds, this`participants, this`artifacts, this`idempotency, this`jobs, this`auditEvents
      ensures rounds == start.rounds && participants == start.participants && artifacts == start.artifacts
      ensures idempotency == start.idempotency && jobs == start.jobs && auditEvents == start.auditEvents
    {
      rounds, participants, artifacts := start.rounds, start.participants, start.artifacts;
      idempotency, jobs, auditEvents := start.idempotency, start.jobs, start.auditEvents;
    }

    method RestoreTree(start: Snapshot)
      modifies this`treePlans, this`keyTasks, this`taskDependencies, this`taskReceipts, this`finalKeys, this`finalKeyReceipts
      ensures treePlans == start.treePlans && keyTasks == start.keyTasks && taskDependencies == start.taskDependencies
      ensures taskReceipts == start.taskReceipts && finalKeys == start.finalKeys && finalKeyReceipts == start.finalKeyReceipts
    {
      treePlans, keyTasks, taskDependencies := start.treePlans, start.keyTasks, start.taskDependencies;
      taskReceipts, finalKeys, finalKeyReceipts := start.taskReceipts, start.finalKeys, start.finalKeyReceipts;
    }

    method Rollback(start: Snapshot)
      modifies this
      ensures Begin() == start
    {
      RestoreRound(start);
      RestoreTree(start);
    }

    /** Tables as they were hold the rows they held. */
    twostate lemma RolledBack(id: RoundId)
      requires id in old(rounds) && Begin() == old(Begin())
      ensures id in rounds && RoundOf(id) == old(RoundOf(id)) && Only(id)
    {
    }

    /** The same for all rounds. */
    twostate lemma SameRows()
      requires Begin() == old(Begin())
      ensures All() == old(All())
    {
      forall id | id in rounds ensures RoundOf(id) == old(RoundOf(id)) {
      }
    }

    // ---- Statements on one round

    method InsertEvent(id: RoundId, event: AuditEvent)
      requires id in rounds
      modifies this`auditEvents
      ensures Only(id) && RoundOf(id) == old(RoundOf(id)).(audit := old(RoundOf(id)).audit + [event])
    {
      var events := if id in auditEvents then auditEvents[id] else [];
      auditEvents := auditEvents[id := events + [event]];
    }

    method UpdateRound(id: RoundId, row: RoundRow)
      requires id in rounds
      modifies this`rounds
      ensures Only(id) && RoundOf(id) == old(RoundOf(id)).(row := row)
    {
      rounds := rounds[id := row];
    }

    method InsertAudit(id: RoundId, actor: string, event: EventType, now: Time)
      requires id in rounds
      modifies this`auditEvents
      ensures Only(id) && RoundOf(id) == Log(old(RoundOf(id)), actor, event, now)
    {
      InsertEvent(id, AuditEvent(actor, event, None, now));
    }

    method InsertIdempotency(id: RoundId, key: IdemKey, digest: string, response: Response)
      requires id in rounds
      modifies this`idempotency
      ensures Only(id) && RoundOf(id) == Remember(old(RoundOf(id)), key, digest, response)
    {
      idempotency := idempotency[id := Rows(idempotency, id)[key := IdemRecord(digest, response)]];
    }

    method UpdateParticipant(id: RoundId, client: ClientId, p: Participant)
      requires id in rounds && client in Rows(participants, id)
      modifies this`participants
      ensures Only(id) && RoundOf(id) == WithParticipant(old(RoundOf(id)), client, p)
    {
      participants := participants[id := Rows(participants, id)[client := p]];
    }

    method Transition(id: RoundId, source: RoundState, target: RoundState, actor: string, event: EventType, now: Time)
      returns (done: Result<(), Error>)
      requires id in rounds
      modifies this`rounds, this`auditEvents
      ensures Only(id)
      ensures match Rounds.Transition(old(RoundOf(id)), source, target, actor, event, now)
        case Success(after) => done.Success? && RoundOf(id) == after
        case Failure(e) => done == Failure(e) && RoundOf(id) == old(RoundOf(id))
    {
      hide MovedRow, ForeignKeys, TransitionAllowed;
      if !TransitionAllowed(source, target) {
        return Failure(IllegalTransition);
      }
      if rounds[id].state != source {
        return Failure(RoundConflict);
      }
      var row := ChangeState(rounds[id], target, event, now);
      UpdateRound(id, row);
      InsertEvent(id, AuditEvent(actor, event, Some(rounds[id].version), now));
      return Success(());
    }

    // ---- Artifacts

    /** The file is not on record for any other round. */
    ghost predicate NewElsewhere(stored: Stored, id: RoundId)
      reads this
    {
      forall other | other in artifacts && other != id :: Insertable(artifacts[other], stored)
    }

    /**
     * Names and paths are unique in the whole table, and kinds for each client of a round. A file on record for another
     * round is refused like one on record for this.
     */
    method InsertArtifact(id: RoundId, stored: Stored, client: Option<ClientId>, kind: ArtifactKind, now: Time)
      returns (done: Result<(), Error>)
      requires id in rounds
      modifies this`artifacts
      ensures Only(id)
      ensures match InsertionIfNew(old(NewElsewhere(stored, id)), old(RoundOf(id)), stored, client, kind, now)
        case Success(after) => done.Success? && RoundOf(id) == after
        case Failure(e) => done == Failure(e) && RoundOf(id) == old(RoundOf(id))
    {
      if exists other | other in artifacts :: !Insertable(artifacts[other], stored) {
        return Failure(ConstraintViolated);
      }
      if SlotTaken(Rows(artifacts, id), client, kind) {
        return Failure(ConstraintViolated);
      }
      artifacts := artifacts[id := Rows(artifacts, id)[stored.objectId :=
        Artifact(client, kind, stored.path, stored.digest, stored.size, now)]];
      return Success(());
    }

    // ---- The plan and its tasks

    method InsertPlan(id: RoundId, plan: Plan)
      requires id in rounds
      modifies this`treePlans
      ensures Only(id) && RoundOf(id) == old(RoundOf(id)).(plan := Some(plan))
    {
      treePlans := treePlans[id := plan];
    }

    method InsertTask(id: RoundId, t: Task)
      requires id in rounds
      modifies this`keyTasks
      ensures Only(id) && RoundOf(id) == old(RoundOf(id)).(tasks := old(RoundOf(id)).tasks[t.id := InitialTask(t)])
    {
      var state := if t.dependencies == [] then Ready else Waiting;
      keyTasks := keyTasks[id := Rows(keyTasks, id)[t.id := TaskRow(t, state, None, None)]];
    }

    method InsertDependenciesOf(id: RoundId, t: Task)
      requires id in rounds
      modifies this`taskDependencies
      ensures Only(id) && RoundOf(id) == old(RoundOf(id)).(edges := old(RoundOf(id)).edges + EdgesOf(t))
    {
      var edges := if id in taskDependencies then taskDependencies[id] else {};
      taskDependencies := taskDependencies[id := edges + set d | d in t.dependencies :: (t.id, d)];
    }

    /** One row per task, then one per dependency of each, in the order of the plan. */
    method InsertTasks(id: RoundId, tasks: seq<Task>)
      requires id in rounds && RoundOf(id).tasks == map[] && RoundOf(id).edges == {}
      modifies this`keyTasks, this`taskDependencies
      ensures Only(id)
      ensures RoundOf(id) == old(RoundOf(id)).(
        tasks := InitialTasks(tasks, |tasks|), edges := DependencyEdges(tasks, |tasks|))
    {
      hide InitialTask, EdgesOf, ForeignKeys;
      var n := 0;
      while n < |tasks|
        invariant n <= |tasks| && Only(id)
        invariant RoundOf(id) == old(RoundOf(id)).(tasks := InitialTasks(tasks, n))
      {
        InsertTask(id, tasks[n]);
        n := n + 1;
      }
      n := 0;
      while n < |tasks|
        invariant n <= |tasks| && Only(id)
        invariant RoundOf(id) == old(RoundOf(id)).(tasks := InitialTasks(tasks, |tasks|), edges := DependencyEdges(tasks, n))
      {
        InsertDependenciesOf(id, tasks[n]);
        n := n + 1;
      }
    }

    method UpdateTask(id: RoundId, k: TaskKey, row: TaskRow)
      requires id in rounds && k in Rows(keyTasks, id)
      modifies this`keyTasks
      ensures Only(id) && RoundOf(id) == old(RoundOf(id)).(tasks := old(RoundOf(id)).tasks[k := row])
    {
      keyTasks := keyTasks[id := Rows(keyTasks, id)[k := row]];
    }

    /** Waiting tasks none of whose dependency rows leads to an uncompleted task become ready. */
    method ActivateTasks(id: RoundId)
      requires id in rounds
      modifies this`keyTasks
      ensures Only(id)
      ensures var before := old(RoundOf(id)); RoundOf(id) == before.(tasks := Activate(before.tasks, before.edges))
    {
      var tasks := Rows(keyTasks, id);
      var edges := if id in taskDependencies then taskDependencies[id] else {};
      keyTasks := keyTasks[id := Activate(tasks, edges)];
    }

    method InsertTaskReceipt(id: RoundId, k: TaskKey, receipt: TaskReceipt) returns (done: Result<(), Error>)
      requires id in rounds
      modifies this`taskReceipts
      ensures Only(id)
      ensures var before := old(RoundOf(id));
        if k in before.taskReceipts then done == Failure(ConstraintViolated) && RoundOf(id) == before
        else done.Success? && RoundOf(id) == before.(taskReceipts := before.taskReceipts[k := receipt])
    {
      if k in Rows(taskReceipts, id) {
        return Failure(ConstraintViolated);
      }
      taskReceipts := taskReceipts[id := Rows(taskReceipts, id)[k := receipt]];
      return Success(());
    }

    // ---- The final key

    method InsertFinalKey(id: RoundId, key: FinalKey) returns (done: Result<(), Error>)
      requires id in rounds
      modifies this`finalKeys
      ensures Only(id)
      ensures var before := old(RoundOf(id));
        if before.finalKey.Some? then done == Failure(ConstraintViolated) && RoundOf(id) == before
        else done.Success? && RoundOf(id) == before.(finalKey := Some(key))
    {
      if id in finalKeys {
        return Failure(ConstraintViolated);
      }
      finalKeys := finalKeys[id := key];
      return Success(());
    }

    method InsertFinalReceipt(id: RoundId, client: ClientId, receipt: FinalReceipt) returns (done: Result<(), Error>)
      requires id in rounds
      modifies this`finalKeyReceipts
      ensures Only(id)
      ensures var before := old(RoundOf(id));
        if client in before.finalReceipts then done == Failure(ConstraintViolated) && RoundOf(id) == before
        else done.Success? && RoundOf(id) == before.(finalReceipts := before.finalReceipts[client := receipt])
    {
      if client in Rows(finalKeyReceipts, id) {
        return Failure(ConstraintViolated);
      }
      finalKeyReceipts := finalKeyReceipts[id := Rows(finalKeyReceipts, id)[client := receipt]];
      return Success(());
    }

    // ---- The job

    method InsertJob(id: RoundId, job: Job) returns (done: Result<(), Error>)
      requires id in rounds
      modifies this`jobs
      ensures Only(id)
      ensures var before := old(RoundOf(id));
        if before.job.Some? then done == Failure(ConstraintViolated) && RoundOf(id) == before
        else done.Success? && RoundOf(id) == before.(job := Some(job))
    {
      if id in jobs {
        return Failure(ConstraintViolated);
      }
      jobs := jobs[id := job];
      return Success(());
    }

    method UpdateJob(id: RoundId, job: Job)
      requires id in rounds && RoundOf(id).job.Some?
      modifies this`jobs
      ensures Only(id) && RoundOf(id) == old(RoundOf(id)).(job := Some(job))
    {
      jobs := jobs[id := job];
    }

    // ---- Deleting a round; each statement needs what the foreign keys demand

    method DeleteJobs(id: RoundId)
      modifies this`jobs
      ensures jobs == old(jobs) - {id}
    {
      jobs := jobs - {id};
    }

    method DeleteFinalReceipts(id: RoundId)
      modifies this`finalKeyReceipts
      ensures finalKeyReceipts == old(finalKeyReceipts) - {id}
    {
      finalKeyReceipts := finalKeyReceipts - {id};
    }

    method DeleteFinalKeys(id: RoundId)
      modifies this`finalKeys
      ensures finalKeys == old(finalKeys) - {id}
    {
      finalKeys := finalKeys - {id};
    }

    method DeleteTaskReceipts(id: RoundId)
      modifies this`taskReceipts
      ensures taskReceipts == old(taskReceipts) - {id}
    {
      taskReceipts := taskReceipts - {id};
    }

    method DeleteDependencies(id: RoundId)
      modifies this`taskDependencies
      ensures taskDependencies == old(taskDependencies) - {id}
    {
      taskDependencies := taskDependencies - {id};
    }

    method DeleteTasks(id: RoundId)
      requires id !in taskReceipts && id !in taskDependencies
      modifies this`keyTasks
      ensures keyTasks == old(keyTasks) - {id}
    {
      keyTasks := keyTasks - {id};
    }

    method DeletePlans(id: RoundId)
      modifies this`treePlans
      ensures treePlans == old(treePlans) - {id}
    {
      treePlans := treePlans - {id};
    }

    method DeleteArtifacts(id: RoundId)
      requires id !in finalKeys && id !in keyTasks
      modifies this`artifacts
      ensures artifacts == old(artifacts) - {id}
    {
      artifacts := artifacts - {id};
    }

    method DeleteParticipants(id: RoundId)
      modifies this`participants
      ensures participants == old(participants) - {id}
    {
      participants := participants - {id};
    }

    method DeleteEvents(id: RoundId)
      modifies this`auditEvents
      ensures auditEvents == old(auditEvents) - {id}
    {
      auditEvents := auditEvents - {id};
    }

    method DeleteIdempotency(id: RoundId)
      modifies this`idempotency
      ensures idempotency == old(idempotency) - {id}
    {
      idempotency := idempotency - {id};
    }

    method DeleteRound(id: RoundId)
      requires id !in jobs && id !in finalKeyReceipts && id !in finalKeys && id !in keyTasks
      requires id !in treePlans && id !in artifacts && id !in participants
      modifies this`rounds
      ensures rounds == old(rounds) - {id}
    {
      rounds := rounds - {id};
    }

    /** No table has a row of the round. */
    ghost predicate Absent(id: RoundId)
      reads this
    {
      && id !in rounds && id !in participants && id !in artifacts && id !in idempotency && id !in jobs
      && id !in auditEvents && id !in treePlans && id !in keyTasks && id !in taskDependencies
      && id !in taskReceipts && id !in finalKeys && id !in finalKeyReceipts
    }

    /** The tables are what they were, without the round. */
    twostate predicate Deleted(id: RoundId)
      reads this
    {
      && jobs == old(jobs) - {id} && finalKeyReceipts == old(finalKeyReceipts) - {id} && finalKeys == old(finalKeys) - {id}
      && taskReceipts == old(taskReceipts) - {id} && taskDependencies == old(taskDependencies) - {id}
      && keyTasks == old(keyTasks) - {id} && treePlans == old(treePlans) - {id} && artifacts == old(artifacts) - {id}
      && participants == old(participants) - {id} && auditEvents == old(auditEvents) - {id}
      && idempotency == old(idempotency) - {id} && rounds == old(rounds) - {id}
    }

    twostate lemma DeletedOnly(id: RoundId)
      requires old(ForeignKeys()) && Deleted(id)
      ensures Absent(id) && ForeignKeys() && rounds.Keys == old(rounds.Keys) - {id}
      ensures Others(id) == old(Others(id))
    {
      assert rounds.Keys == old(rounds.Keys) - {id};
      forall other | other in rounds ensures RoundOf(other) == old(RoundOf(other)) {
      }
    }

    method DeleteJobAndTree(id: RoundId)
      modifies this`jobs, this`finalKeyReceipts, this`finalKeys, this`taskReceipts, this`taskDependencies, this`keyTasks, this`treePlans
      ensures jobs == old(jobs) - {id} && finalKeyReceipts == old(finalKeyReceipts) - {id}
      ensures finalKeys == old(finalKeys) - {id} && taskReceipts == old(taskReceipts) - {id}
      ensures taskDependencies == old(taskDependencies) - {id} && keyTasks == old(keyTasks) - {id}
      ensures treePlans == old(treePlans) - {id}
    {
      DeleteJobs(id);
      DeleteFinalReceipts(id);
      DeleteFinalKeys(id);
      DeleteTaskReceipts(id);
      DeleteDependencies(id);
      DeleteTasks(id);
      DeletePlans(id);
    }

    /** All rows of a round, table by table in an order the foreign keys allow. */
    method DeleteRows(id: RoundId)
      requires ForeignKeys()
      modifies this
      ensures Absent(id) && ForeignKeys()
      ensures rounds.Keys == old(rounds.Keys) - {id} && Others(id) == old(Others(id))
    {
      hide Connection.ForeignKeys, Connection.Others, Connection.RoundOf, Connection.Absent;
      DeleteJobAndTree(id);
      DeleteArtifacts(id);
      DeleteParticipants(id);
      DeleteEvents(id);
      DeleteIdempotency(id);
      DeleteRound(id);
      DeletedOnly(id);
    }

    // ---- Creating a round

    method InsertRound(id: RoundId, row: RoundRow)
      requires Absent(id) && ForeignKeys()
      modifies this`rounds
      ensures rounds.Keys == old(rounds.Keys) + {id} && ForeignKeys() && Others(id) == old(Others(id))
      ensures RoundOf(id) == Round(row, map[], map[], map[], None, [], None, map[], {}, map[], None, map[])
    {
      rounds := rounds[id := row];
    }

    method InsertParticipant(id: RoundId, client: ClientId, now: Time)
      requires id in rounds
      modifies this`participants
      ensures Only(id)
      ensures RoundOf(id) == old(RoundOf(id)).(participants := old(RoundOf(id)).participants[client := NewParticipant(now)])
    {
      participants := participants[id := Rows(participants, id)[client := NewParticipant(now)]];
    }

    method InsertParticipants(id: RoundId, clients: seq<ClientId>, now: Time)
      requires id in rounds && RoundOf(id).participants == map[]
      modifies this`participants
      ensures Only(id)
      ensures RoundOf(id) == old(RoundOf(id)).(participants := map c | c in clients :: NewParticipant(now))
    {
      hide Connection.ForeignKeys, Connection.Others, Connection.RoundOf, NewParticipant;
      var n := 0;
      while n < |clients|
        invariant n <= |clients| && Only(id)
        invariant RoundOf(id) == old(RoundOf(id)).(participants := map c | c in clients[..n] :: NewParticipant(now))
      {
        InsertParticipant(id, clients[n], now);
        assert clients[..n + 1] == clients[..n] + [clients[n]];
        n := n + 1;
      }
      assert clients[..n] == clients;
    }
  }
}
