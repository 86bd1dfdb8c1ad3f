/** One round's rows, and what each database transaction does to them. */
module Rounds {
  import opened Names
  import opened PlanShape
  import opened Sequences
  import opened Shuffling
  import opened States
  import opened Topology
  import opened Wrappers

  type Time = real

  // ---- Rows

  datatype RoundRow = RoundRow(
    federation: string, protocol: Protocol, roster: seq<ClientId>, expectedCount: nat,
    state: RoundState, version: nat, createdAt: Time, deadlineAt: Time,
    completedAt: Option<Time>, retentionAt: Time, failureCode: Option<EventType>)

  datatype ParticipantState =
    | AwaitingPublicKey | PublicKeySubmitted | KeyBundleSubmitted
    | ReadyForUpdate | UpdateSubmitted | ParticipantDone

  datatype UpdateSlot = UpdateSlot(artifactId: string, digest: string, tag: string)

  datatype Participant = Participant(
    state: ParticipantState, publicKey: Option<string>, keyBundle: Option<string>,
    commitment: Option<string>, update: Option<UpdateSlot>, completed: bool, lastSeen: Time)

  datatype ArtifactKind = UpdateFile | ResultFile | TaskFile(task: TaskKey) | FinalKeyFile

  datatype Artifact = Artifact(
    client: Option<ClientId>, kind: ArtifactKind, path: string, digest: string, size: nat, createdAt: Time)

  datatype Operation =
    | CreateOp | PublicKeyOp | KeyBundleOp | KeyCompleteOp | TaskUploadOp(task: TaskKey) | TaskAckOp(task: TaskKey)
    | FinalKeyOp | FinalKeyAckOp | UpdateOp | CompleteOp | AbortOp

  datatype IdemKey = IdemKey(client: string, operation: Operation, key: string)

  datatype Response =
    | Accepted
    | Ignored
    | AcceptedDigest(digest: string)
    | AcceptedFile(artifactId: string, fileDigest: string, size: nat)

  datatype IdemRecord = IdemRecord(digest: string, response: Response)

  datatype JobState = JobReady | JobClaimed | JobCompleted | JobFailed

  datatype Job = Job(
    id: string, rowid: nat, state: JobState, attempts: nat, maxAttempts: nat,
    claimedAt: Option<Time>, leaseUntil: Option<Time>, token: Option<string>, tag: Option<string>)

  datatype EventType =
    | RoundCreated | PublicKeyBarrier | KeySetupBarrier | FinalKeyBarrier | UpdateBarrier
    | AggregationCompleted | CompletionBarrier
    | KeyContextMismatched | AggregationFailed | LeaseExhausted | OperatorAbort | DeadlineExceeded
    | RoundRejected(code: string)
    | PublicKeyAccepted | KeyBundleAccepted | KeyContextAccepted | TreePlanCommitted
    | TreeArtifactAccepted | TreeTaskCompleted | FinalKeyPublished | FinalKeyAcknowledged
    | UpdateAccepted | LeaseExpired | ParticipantCompleted

  /** An audit row; only state transitions carry a version. */
  datatype AuditEvent = AuditEvent(actor: string, event: EventType, version: Option<nat>, at: Time)

  datatype TaskState = Waiting | Ready | ArtifactUploaded | TaskCompleted

  datatype Upload = Upload(artifactId: string, ciphertextDigest: string, nonce: string, signature: string)

  datatype TaskRow = TaskRow(task: Task, state: TaskState, upload: Option<Upload>, completedAt: Option<Time>)

  datatype TaskReceipt = TaskReceipt(actor: ClientId, digest: string, at: Time)

  datatype FinalKey = FinalKey(upload: Upload, sender: ClientId, createdAt: Time)

  datatype FinalReceipt = FinalReceipt(digest: string, at: Time)

  /** Every row that names one round. */
  datatype Round = Round(
    row: RoundRow,
    participants: map<ClientId, Participant>,
    artifacts: map<string, Artifact>,
    idem: map<IdemKey, IdemRecord>,
    job: Option<Job>,
    audit: seq<AuditEvent>,
    plan: Option<Plan>,
    tasks: map<TaskKey, TaskRow>,
    edges: set<(TaskKey, TaskKey)>,
    taskReceipts: map<TaskKey, TaskReceipt>,
    finalKey: Option<FinalKey>,
    finalReceipts: map<ClientId, FinalReceipt>)

  /** A file the artifact store has written. */
  datatype Stored = Stored(objectId: string, path: string, digest: string, size: nat)

  // ---- Outcomes

  datatype Error =
    | IdempotencyConflict | RoundConflict | RoundNotFound | NotReady | KeyContextMismatch
    | IllegalTransition | ConstraintViolated | PlanRejected | NotAParticipant
    | ClaimLost | ResultConflict | LeaseNotPositive

  datatype Reply = Reply(response: Response, replay: bool)

  /** A committed transaction: the new rows, and what the caller is told, which may still be an error. */
  datatype Commit = Commit(round: Round, reply: Result<Reply, Error>)

  /** A transaction either commits or is rolled back with an error. */
  type Transaction = Result<Commit, Error>

  function Committed(r: Round, response: Response): Transaction {
    Success(Commit(r, Success(Reply(response, false))))
  }

  function Replayed(r: Round, response: Response): Transaction {
    Success(Commit(r, Success(Reply(response, true))))
  }

  datatype Outcome = Outcome(round: Round, reply: Result<Reply, Error>)

  /** Rolling back leaves the rows as they were. */
  function Settle(r: Round, t: Transaction): Outcome {
    match t
    case Success(c) => Outcome(c.round, c.reply)
    case Failure(e) => Outcome(r, Failure(e))
  }

  // ---- Statements shared by the transactions

  function Log(r: Round, actor: string, event: EventType, now: Time): Round {
    r.(audit := r.audit + [AuditEvent(actor, event, None, now)])
  }

  function Remember(r: Round, key: IdemKey, digest: string, response: Response): Round {
    r.(idem := r.idem[key := IdemRecord(digest, response)])
  }

  function WithParticipant(r: Round, client: ClientId, p: Participant): (after: Round)
    requires client in r.participants
    ensures after.participants.Keys == r.participants.Keys
  {
    r.(participants := r.participants[client := p])
  }

  function MovedRow(row: RoundRow, target: RoundState, event: EventType, now: Time): RoundRow {
    row.(state := target, version := row.version + 1,
         completedAt := if Terminal(target) then Some(now) else row.completedAt,
         retentionAt := if Terminal(target) then now + (row.retentionAt - row.createdAt) else row.retentionAt,
         failureCode := if Alive(target) then row.failureCode else Some(event))
  }

  function Moved(r: Round, target: RoundState, actor: string, event: EventType, now: Time): Round {
    r.(row := MovedRow(r.row, target, event, now),
       audit := r.audit + [AuditEvent(actor, event, Some(r.row.version + 1), now)])
  }

  /** The guarded state change: it must be allowed, and the round must still be in the source state. */
  function Transition(r: Round, source: RoundState, target: RoundState, actor: string, event: EventType, now: Time)
    : Result<Round, Error>
  {
    if !TransitionAllowed(source, target) then Failure(IllegalTransition)
    else if r.row.state != source then Failure(RoundConflict)
    else Success(Moved(r, target, actor, event, now))
  }

  predicate SlotTaken(artifacts: map<string, Artifact>, client: Option<ClientId>, kind: ArtifactKind) {
    client.Some? && exists id | id in artifacts :: artifacts[id].client == client && artifacts[id].kind == kind
  }

  /** The file is new to the table. */
  predicate Insertable(artifacts: map<string, Artifact>, stored: Stored) {
    stored.objectId !in artifacts && forall id | id in artifacts :: artifacts[id].path != stored.path
  }

  /** Inserting an artifact row: the id and path are new, and a client has one artifact of a kind. */
  function InsertArtifact(r: Round, stored: Stored, client: Option<ClientId>, kind: ArtifactKind, now: Time)
    : Result<Round, Error>
  {
    if !Insertable(r.artifacts, stored) || SlotTaken(r.artifacts, client, kind) then Failure(ConstraintViolated)
    else Success(r.(artifacts :=
      r.artifacts[stored.objectId := Artifact(client, kind, stored.path, stored.digest, stored.size, now)]))
  }

  predicate AllKeyed(participants: map<ClientId, Participant>) {
    forall c | c in participants :: participants[c].publicKey.Some?
  }

  predicate AllCommitted(participants: map<ClientId, Participant>) {
    forall c | c in participants :: participants[c].commitment.Some?
  }

  predicate CommitmentsAgree(participants: map<ClientId, Participant>) {
    forall c, d | c in participants && d in participants :: participants[c].commitment == participants[d].commitment
  }

  predicate AllUpdated(participants: map<ClientId, Participant>) {
    forall c | c in participants :: participants[c].update.Some?
  }

  predicate AllDone(participants: map<ClientId, Participant>) {
    forall c | c in participants :: participants[c].completed
  }

  predicate AllTasksCompleted(tasks: map<TaskKey, TaskRow>) {
    forall k | k in tasks :: tasks[k].state == TaskCompleted
  }

  // ---- Registration and key setup

  datatype JsonSlot = PublicKeySlot | KeyBundleSlot

  function SlotOperation(slot: JsonSlot): Operation {
    if slot.PublicKeySlot? then PublicKeyOp else KeyBundleOp
  }

  function SlotValue(p: Participant, slot: JsonSlot): Option<string> {
    if slot.PublicKeySlot? then p.publicKey else p.keyBundle
  }

  function FillSlot(p: Participant, slot: JsonSlot, body: string, now: Time): Participant {
    if slot.PublicKeySlot? then p.(publicKey := Some(body), state := PublicKeySubmitted, lastSeen := now)
    else p.(keyBundle := Some(body), state := KeyBundleSubmitted, lastSeen := now)
  }

  function RecordJsonSlot(r: Round, client: ClientId, slot: JsonSlot, body: string,
                          key: string, digest: string, now: Time): Transaction
    requires client in r.participants
  {
    var k := IdemKey(client, SlotOperation(slot), key);
    if k in r.idem then
      if r.idem[k].digest != digest then Failure(IdempotencyConflict) else Replayed(r, r.idem[k].response)
    else if !(r.row.state == KeySetup || (slot.PublicKeySlot? && r.row.state == RegistrationOpen)) then
      Failure(RoundConflict)
    else if SlotValue(r.participants[client], slot).Some? && SlotValue(r.participants[client], slot) != Some(body) then
      Failure(RoundConflict)
    else AcceptSlot(r, client, slot, body, k, digest, now)
  }

  /** The slot is filled; the last public key missing ends the registration. */
  function AcceptSlot(r: Round, client: ClientId, slot: JsonSlot, body: string,
                      k: IdemKey, digest: string, now: Time): Transaction
    requires client in r.participants
  {
    var response := AcceptedDigest(digest);
    var filled := WithParticipant(r, client, FillSlot(r.participants[client], slot, body, now));
    var remembered := Remember(filled, k, digest, response);
    var moved :- if slot.PublicKeySlot? && AllKeyed(filled.participants) && r.row.state == RegistrationOpen
      then Transition(remembered, RegistrationOpen, KeySetup, client, PublicKeyBarrier, now)
      else Success(remembered);
    Committed(Log(moved, client, if slot.PublicKeySlot? then PublicKeyAccepted else KeyBundleAccepted, now), response)
  }

  /**
   * The plan of the participants in their shuffled order, every task without dependencies being ready. Draws that
   * never settle the shuffle give no plan.
   */
  ghost function CreateTreePlan(r: Round, draw: Draws, now: Time): Result<Round, Error>
  {
    if !AllKeyed(r.participants) then Failure(NotReady)
    else if |r.row.roster| > DRAW_LIMIT || !Productive(draw) then Failure(PlanRejected)
    else match PlanFor(r.row.roster, draw)
      case Failure(_) => Failure(PlanRejected)
      case Success(plan) => Success(Log(InstallPlan(r, plan), "coordinator", TreePlanCommitted, now))
  }

  function InstallPlan(r: Round, plan: Plan): Round {
    var n := |plan.tasks|;
    r.(plan := Some(plan), tasks := InitialTasks(plan.tasks, n), edges := DependencyEdges(plan.tasks, n))
  }

  function InitialTask(t: Task): TaskRow {
    TaskRow(t, if t.dependencies == [] then Ready else Waiting, None, None)
  }

  /** The task rows of the first n tasks. */
  function InitialTasks(tasks: seq<Task>, n: nat): map<TaskKey, TaskRow>
    requires n <= |tasks|
  {
    if n == 0 then map[] else InitialTasks(tasks, n - 1)[tasks[n - 1].id := InitialTask(tasks[n - 1])]
  }

  function EdgesOf(t: Task): set<(TaskKey, TaskKey)> {
    set d | d in t.dependencies :: (t.id, d)
  }

  /** The dependency rows of the first n tasks. */
  function DependencyEdges(tasks: seq<Task>, n: nat): set<(TaskKey, TaskKey)>
    requires n <= |tasks|
  {
    if n == 0 then {} else DependencyEdges(tasks, n - 1) + EdgesOf(tasks[n - 1])
  }

  function Confirmed(p: Participant, commitment: string, now: Time): Participant {
    p.(commitment := Some(commitment), state := ReadyForUpdate, lastSeen := now)
  }

  ghost function KeyComplete(r: Round, client: ClientId, commitment: string, key: string, digest: string,
                             draw: Draws, now: Time): Transaction
    requires client in r.participants
  {
    var k := IdemKey(client, KeyCompleteOp, key);
    var p := r.participants[client];
    if k in r.idem then
      if r.idem[k].digest != digest then Failure(IdempotencyConflict) else Replayed(r, r.idem[k].response)
    else if r.row.state !in {KeySetup, KeyAggregation, UpdateCollection} then Failure(RoundConflict)
    else if p.commitment.Some? && p.commitment != Some(commitment) then Failure(RoundConflict)
    else AcceptKeys(r, client, commitment, k, digest, draw, now)
  }

  ghost function AcceptKeys(r: Round, client: ClientId, commitment: string, k: IdemKey, digest: string,
                            draw: Draws, now: Time): Transaction
    requires client in r.participants
  {
    var committed := WithParticipant(r, client, Confirmed(r.participants[client], commitment, now));
    var logged := Log(Remember(committed, k, digest, Accepted), client, KeyContextAccepted, now);
    CrossKeySetup(logged, client, draw, now)
  }

  /** Once everybody committed: agreeing participants end the key setup, disagreeing ones fail the round. */
  ghost function CrossKeySetup(r: Round, client: ClientId, draw: Draws, now: Time): Transaction
  {
    if !AllCommitted(r.participants) then Committed(r, Accepted)
    else if !CommitmentsAgree(r.participants) then
      var failed :- Transition(r, KeySetup, Failed, client, KeyContextMismatched, now);
      Success(Commit(failed, Failure(KeyContextMismatch)))
    else if r.row.state != KeySetup then Committed(r, Accepted)
    else if r.row.protocol == V11 then
      var planned :- CreateTreePlan(r, draw, now);
      var moved :- Transition(planned, KeySetup, KeyAggregation, client, KeySetupBarrier, now);
      Committed(moved, Accepted)
    else
      var moved :- Transition(r, KeySetup, UpdateCollection, client, KeySetupBarrier, now);
      Committed(moved, Accepted)
  }

  // ---- Key aggregation

  function RecordTaskArtifact(r: Round, client: ClientId, task: TaskKey, stored: Stored, upload: Upload,
                              key: string, digest: string, now: Time): Transaction
  {
    var k := IdemKey(client, TaskUploadOp(task), key);
    if k in r.idem then
      if r.idem[k].digest != digest then Failure(IdempotencyConflict) else Replayed(r, r.idem[k].response)
    else if r.row.state != KeyAggregation || task !in r.tasks
      || r.tasks[task].task.sender != client || r.tasks[task].state != Ready then Failure(RoundConflict)
    else AcceptTaskArtifact(r, client, task, stored, upload, k, digest, now)
  }

  function AcceptTaskArtifact(r: Round, client: ClientId, task: TaskKey, stored: Stored, upload: Upload,
                              k: IdemKey, digest: string, now: Time): Transaction
    requires task in r.tasks
  {
    var inserted :- InsertArtifact(r, stored, Some(client), TaskFile(task), now);
    var row := r.tasks[task].(state := ArtifactUploaded, upload := Some(upload.(artifactId := stored.objectId)));
    var response := AcceptedFile(stored.objectId, upload.ciphertextDigest, stored.size);
    var uploaded := inserted.(tasks := inserted.tasks[task := row]);
    Committed(Log(Remember(uploaded, k, digest, response), client, TreeArtifactAccepted, now), response)
  }

  /** No dependency of the task is left uncompleted. */
  predicate Unblocked(tasks: map<TaskKey, TaskRow>, edges: set<(TaskKey, TaskKey)>, task: TaskKey) {
    forall e | e in edges :: e.0 == task && e.1 in tasks ==> tasks[e.1].state == TaskCompleted
  }

  /** Every waiting task whose dependencies are all completed becomes ready. */
  function Activate(tasks: map<TaskKey, TaskRow>, edges: set<(TaskKey, TaskKey)>): map<TaskKey, TaskRow> {
    map k | k in tasks ::
      if tasks[k].state == Waiting && Unblocked(tasks, edges, k) then tasks[k].(state := Ready) else tasks[k]
  }

  function AcknowledgeTask(r: Round, client: ClientId, task: TaskKey, artifactDigest: string,
                           key: string, digest: string, now: Time): Transaction
  {
    var k := IdemKey(client, TaskAckOp(task), key);
    if k in r.idem then
      if r.idem[k].digest != digest then Failure(IdempotencyConflict) else Replayed(r, r.idem[k].response)
    else if task !in r.tasks || r.row.state != KeyAggregation || r.tasks[task].task.sender != client
      || r.tasks[task].state != ArtifactUploaded || r.tasks[task].upload.None?
      || r.tasks[task].upload.value.ciphertextDigest != artifactDigest then Failure(RoundConflict)
    else AcceptTask(r, client, task, artifactDigest, k, digest, now)
  }

  /** The task is completed under a receipt, and what it unblocks becomes ready. */
  function AcceptTask(r: Round, client: ClientId, task: TaskKey, artifactDigest: string,
                      k: IdemKey, digest: string, now: Time): Transaction
    requires task in r.tasks
  {
    if task in r.taskReceipts then Failure(ConstraintViolated)
    else
      var done := r.tasks[task := r.tasks[task].(state := TaskCompleted, completedAt := Some(now))];
      var acknowledged := r.(
        tasks := Activate(done, r.edges),
        taskReceipts := r.taskReceipts[task := TaskReceipt(client, artifactDigest, now)]);
      Committed(Log(Remember(acknowledged, k, digest, Accepted), client, TreeTaskCompleted, now), Accepted)
  }

  function RecordFinalKey(r: Round, client: ClientId, stored: Stored, upload: Upload,
                          key: string, digest: string, now: Time): Transaction
  {
    var k := IdemKey(client, FinalKeyOp, key);
    if k in r.idem then
      if r.idem[k].digest != digest then Failure(IdempotencyConflict) else Replayed(r, r.idem[k].response)
    else if r.plan.None? || r.row.state != KeyAggregation || r.plan.value.rootClient != client
      || !AllTasksCompleted(r.tasks) then Failure(RoundConflict)
    else AcceptFinalKey(r, client, stored, upload, k, digest, now)
  }

  function AcceptFinalKey(r: Round, client: ClientId, stored: Stored, upload: Upload,
                          k: IdemKey, digest: string, now: Time): Transaction
  {
    var inserted :- InsertArtifact(r, stored, Some(client), FinalKeyFile, now);
    if r.finalKey.Some? then Failure(ConstraintViolated)
    else
      var response := AcceptedFile(stored.objectId, upload.ciphertextDigest, stored.size);
      var published := inserted.(finalKey := Some(FinalKey(upload.(artifactId := stored.objectId), client, now)));
      Committed(Log(Remember(published, k, digest, response), client, FinalKeyPublished, now), response)
  }

  function AcknowledgeFinalKey(r: Round, client: ClientId, artifactDigest: string,
                               key: string, digest: string, now: Time): Transaction
  {
    var k := IdemKey(client, FinalKeyAckOp, key);
    if k in r.idem then
      if r.idem[k].digest != digest then Failure(IdempotencyConflict) else Replayed(r, r.idem[k].response)
    else if r.row.state != KeyAggregation || r.finalKey.None?
      || r.finalKey.value.upload.ciphertextDigest != artifactDigest then Failure(RoundConflict)
    else AcceptFinalReceipt(r, client, artifactDigest, k, digest, now)
  }

  /** The last receipt missing opens the update collection. */
  function AcceptFinalReceipt(r: Round, client: ClientId, artifactDigest: string, k: IdemKey, digest: string, now: Time)
    : Transaction
  {
    if client in r.finalReceipts then Failure(ConstraintViolated)
    else
      var received := r.(finalReceipts := r.finalReceipts[client := FinalReceipt(artifactDigest, now)]);
      var logged := Log(Remember(received, k, digest, Accepted), client, FinalKeyAcknowledged, now);
      var moved :- if logged.finalReceipts.Keys == logged.participants.Keys
        then Transition(logged, KeyAggregation, UpdateCollection, client, FinalKeyBarrier, now)
        else Success(logged);
      Committed(moved, Accepted)
  }

  // ---- Update collection

  function UpdateResponse(artifacts: map<string, Artifact>, id: string): Response
    requires id in artifacts
  {
    AcceptedFile(id, artifacts[id].digest, artifacts[id].size)
  }

  /** The client's update row. */
  predicate IsUpdateOf(artifacts: map<string, Artifact>, client: ClientId, id: string) {
    id in artifacts && artifacts[id].client == Some(client) && artifacts[id].kind == UpdateFile
  }

  function RecordUpdate(r: Round, client: ClientId, stored: Stored, tag: string,
                        key: string, digest: string, jobId: string, rowid: nat, now: Time): Transaction
    requires client in r.participants
  {
    var k := IdemKey(client, UpdateOp, key);
    var p := r.participants[client];
    if k in r.idem then
      if r.idem[k].digest != digest then Failure(IdempotencyConflict) else Replayed(r, r.idem[k].response)
    else if r.row.state !in {UpdateCollection, Aggregating} then Failure(RoundConflict)
    else if p.update.Some? then
      if p.update.value.digest != stored.digest || p.update.value.tag != tag then Failure(RoundConflict)
      else if !IsUpdateOf(r.artifacts, client, p.update.value.artifactId) then Failure(NotReady)
      else
        var response := UpdateResponse(r.artifacts, p.update.value.artifactId);
        Replayed(Remember(r, k, digest, response), response)
    else AcceptUpdate(r, client, stored, tag, k, digest, jobId, rowid, now)
  }

  /** The rows of a newly filed update, beside its artifact. */
  function NoteUpdate(r: Round, client: ClientId, stored: Stored, tag: string, k: IdemKey, digest: string, now: Time): Round
    requires client in r.participants
  {
    var slot := UpdateSlot(stored.objectId, stored.digest, tag);
    var updated := WithParticipant(r, client,
      r.participants[client].(update := Some(slot), state := UpdateSubmitted, lastSeen := now));
    var response := AcceptedFile(stored.objectId, stored.digest, stored.size);
    Log(Remember(updated, k, digest, response), client, UpdateAccepted, now)
  }

  /** A first update is filed; the last one missing starts the aggregation and queues its job. */
  function AcceptUpdate(r: Round, client: ClientId, stored: Stored, tag: string,
                        k: IdemKey, digest: string, jobId: string, rowid: nat, now: Time): Transaction
    requires client in r.participants
  {
    var inserted :- InsertArtifact(r, stored, Some(client), UpdateFile, now);
    var logged := NoteUpdate(inserted, client, stored, tag, k, digest, now);
    var response := AcceptedFile(stored.objectId, stored.digest, stored.size);
    if AllUpdated(logged.participants) && r.row.state == UpdateCollection then
      var moved :- Transition(logged, UpdateCollection, Aggregating, client, UpdateBarrier, now);
      if r.job.Some? then Failure(ConstraintViolated)
      else Committed(moved.(job := Some(NewJob(jobId, rowid))), response)
    else Committed(logged, response)
  }

  const MAX_ATTEMPTS: nat := 3

  function NewJob(id: string, rowid: nat): Job {
    Job(id, rowid, JobReady, 0, MAX_ATTEMPTS, None, None, None, None)
  }

  // ---- The job lease

  predicate LeaseOver(job: Job, now: Time, lease: Time) {
    job.state == JobClaimed
    && ((job.leaseUntil.Some? && job.leaseUntil.value <= now)
      || (job.leaseUntil.None? && job.claimedAt.Some? && job.claimedAt.value <= now - lease))
  }

  /** A claim whose lease ran out goes back to the queue, or fails for good after the last attempt. */
  function ReclaimLease(r: Round, now: Time, lease: Time): Transaction {
    if r.job.None? || !LeaseOver(r.job.value, now, lease) then Committed(r, Accepted)
    else if r.job.value.attempts < r.job.value.maxAttempts then
      var job := r.job.value.(state := JobReady, claimedAt := None, leaseUntil := None, token := None);
      Committed(Log(r.(job := Some(job)), "worker", LeaseExpired, now), Accepted)
    else
      var closed := r.(job := Some(r.job.value.(state := JobFailed, leaseUntil := None, token := None)));
      if r.row.state == Aggregating then
        var moved :- Transition(closed, Aggregating, Failed, "worker", LeaseExhausted, now);
        Committed(moved, Accepted)
      else Committed(closed, Accepted)
  }

  predicate Queued(job: Option<Job>, row: RoundRow, now: Time) {
    job.Some? && job.value.state == JobReady && job.value.attempts < job.value.maxAttempts
    && row.state == Aggregating && row.deadlineAt > now
  }

  predicate Claimable(r: Round, now: Time) {
    Queued(r.job, r.row, now)
  }

  function ClaimJob(r: Round, now: Time, lease: Time, token: string): Transaction {
    if lease <= 0.0 then Failure(LeaseNotPositive)
    else if !Claimable(r, now) then Committed(r, Ignored)
    else
      var job := r.job.value;
      Committed(r.(job := Some(job.(state := JobClaimed, attempts := job.attempts + 1,
        claimedAt := Some(now), leaseUntil := Some(now + lease), token := Some(token)))), Accepted)
  }

  /** The job is claimed under exactly this token. */
  predicate Owns(job: Option<Job>, jobId: string, token: string) {
    job.Some? && job.value.id == jobId && job.value.state == JobClaimed && job.value.token == Some(token)
  }

  function RenewJob(r: Round, jobId: string, token: string, lease: Time, now: Time): Transaction {
    if lease <= 0.0 then Failure(LeaseNotPositive)
    else if !Owns(r.job, jobId, token) then Failure(ClaimLost)
    else Committed(r.(job := Some(r.job.value.(leaseUntil := Some(now + lease)))), Accepted)
  }

  predicate HasResult(artifacts: map<string, Artifact>) {
    exists id | id in artifacts :: artifacts[id].kind == ResultFile
  }

  /** The first result is stored; a later one must have the same content. */
  function InsertResult(r: Round, stored: Stored, now: Time): Result<Round, Error> {
    if !HasResult(r.artifacts) then InsertArtifact(r, stored, None, ResultFile, now)
    else if exists id | id in r.artifacts :: r.artifacts[id].kind == ResultFile && r.artifacts[id].digest != stored.digest
    then Failure(ResultConflict)
    else Success(r)
  }

  function CompleteJob(r: Round, jobId: string, token: string, stored: Stored, tag: string, now: Time): Transaction {
    if !Owns(r.job, jobId, token) then Failure(ClaimLost)
    else
      var inserted :- InsertResult(r, stored, now);
      if r.row.state != Aggregating then Failure(ClaimLost)
      else
        var moved :- Transition(inserted, Aggregating, ResultReady, "worker", AggregationCompleted, now);
        Committed(moved.(job := Some(r.job.value.(state := JobCompleted, leaseUntil := None, token := None,
          tag := Some(tag)))), Accepted)
  }

  function FailJob(r: Round, jobId: string, token: string, retryable: bool, now: Time): Transaction {
    if !Owns(r.job, jobId, token) then Committed(r, Ignored)
    else if retryable && r.job.value.attempts < r.job.value.maxAttempts then
      Committed(r.(job := Some(r.job.value.(state := JobReady, claimedAt := None, leaseUntil := None, token := None))),
        Accepted)
    else
      var closed := r.(job := Some(r.job.value.(state := JobFailed, leaseUntil := None, token := None)));
      if r.row.state == Aggregating then
        var moved :- Transition(closed, Aggregating, Failed, "worker", AggregationFailed, now);
        Committed(moved, Accepted)
      else Committed(closed, Accepted)
  }

  // ---- Ending a round

  function FailRound(r: Round, actor: string, code: string, now: Time): Transaction {
    if Terminal(r.row.state) then Committed(r, Accepted)
    else
      var moved :- Transition(r, r.row.state, Failed, actor, RoundRejected(code), now);
      Committed(moved, Accepted)
  }

  /** The deadline sweep: an overdue round expires, and its open job is closed. */
  function ExpireRound(r: Round, now: Time): Transaction {
    if !(r.row.deadlineAt < now) || Terminal(r.row.state) then Committed(r, Accepted)
    else
      var moved :- Transition(r, r.row.state, Expired, "reconciler", DeadlineExceeded, now);
      var job := if moved.job.Some? && moved.job.value.state in {JobReady, JobClaimed}
        then Some(moved.job.value.(state := JobFailed, leaseUntil := None, token := None)) else moved.job;
      Committed(moved.(job := job), Accepted)
  }

  /** Reading a round past its deadline expires it too, but leaves its job alone. */
  function ReadRound(r: Round, now: Time): Transaction {
    if Terminal(r.row.state) || now <= r.row.deadlineAt then Committed(r, Accepted)
    else
      var moved :- Transition(r, r.row.state, Expired, "reconciler", DeadlineExceeded, now);
      Committed(moved, Accepted)
  }

  function CompleteParticipant(r: Round, client: ClientId, key: string, digest: string, now: Time): Transaction
    requires client in r.participants
  {
    var k := IdemKey(client, CompleteOp, key);
    if r.row.state !in {ResultReady, Completed} then Failure(RoundConflict)
    else if k in r.idem then
      if r.idem[k].digest != digest then Failure(IdempotencyConflict) else Replayed(r, r.idem[k].response)
    else AcceptDeparture(r, client, k, digest, now)
  }

  /** The last participant to finish completes the round. */
  function AcceptDeparture(r: Round, client: ClientId, k: IdemKey, digest: string, now: Time): Transaction
    requires client in r.participants
  {
    var done := WithParticipant(r, client,
      r.participants[client].(completed := true, state := ParticipantDone, lastSeen := now));
    var logged := Log(Remember(done, k, digest, Accepted), client, ParticipantCompleted, now);
    var moved :- if AllDone(logged.participants) && r.row.state == ResultReady
      then Transition(logged, ResultReady, Completed, client, CompletionBarrier, now)
      else Success(logged);
    Committed(moved, Accepted)
  }

  function AbortRound(r: Round, actor: string, key: string, digest: string, now: Time): Transaction {
    var k := IdemKey(actor, AbortOp, key);
    if k in r.idem then
      if r.idem[k].digest != digest then Failure(IdempotencyConflict) else Replayed(r, r.idem[k].response)
    else if Terminal(r.row.state) then Failure(RoundConflict)
    else
      var moved :- Transition(r, r.row.state, Aborted, actor, OperatorAbort, now);
      Committed(Remember(moved, k, digest, Accepted), Accepted)
  }

  // ---- A new round

  function NewParticipant(now: Time): Participant {
    Participant(AwaitingPublicKey, None, None, None, None, false, now)
  }

  function NewRound(federation: string, protocol: Protocol, roster: seq<ClientId>, ttl: Time, retention: Time,
                    actor: string, now: Time): Round
  {
    Round(
      RoundRow(federation, protocol, roster, |roster|, RegistrationOpen, 1, now, now + ttl, None, now + retention, None),
      map c | c in roster :: NewParticipant(now), map[], map[], None,
      [AuditEvent(actor, RoundCreated, Some(1), now)], None, map[], {}, map[], None, map[])
  }
}
