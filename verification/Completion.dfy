/**
 * Every round that is not cut short can still be completed, unless its participants have committed to different keys or
 * its job is unclaimed at the deadline; if participants look at it first, unless it is overdue.
 */
module Completion {
  import opened Confirmations
  import opened Database
  import opened Filing
  import opened Frames
  import opened Growth
  import opened JobSteps
  import opened Names
  import opened PlanShape
  import opened Publication
  import opened Queries
  import opened Refusals
  import opened RoundInvariant
  import opened Rounds
  import opened RoundSteps
  import opened Runs
  import opened Scheduler
  import opened Sequences
  import opened Shuffling
  import opened States
  import opened TaskSteps
  import opened Topology
  import opened Wrappers

  // ---- Fresh names

  lemma {:induction false} LongerString(used: set<string>) returns (s: string)
    ensures forall u | u in used :: |u| < |s|
  {
    if used == {} {
      s := "";
    } else {
      var u :| u in used;
      var t := LongerString(used - {u});
      s := if |u| < |t| then t else u + "x";
      forall v | v in used ensures |v| < |s| {
        assert v == u || v in used - {u};
      }
    }
  }

  lemma FreshKey(idem: map<IdemKey, IdemRecord>) returns (key: string)
    ensures forall client, operation :: IdemKey(client, operation, key) !in idem
  {
    var used := set k | k in idem :: k.key;
    key := LongerString(used);
    forall k | k in idem ensures k.key != key {
      assert k.key in used;
    }
  }

  lemma FreshFile(artifacts: map<string, Artifact>) returns (stored: Stored)
    ensures Insertable(artifacts, stored)
  {
    var paths := set a | a in artifacts :: artifacts[a].path;
    var name := LongerString(artifacts.Keys + paths);
    stored := Stored(name, name, "", 0);
    forall a | a in artifacts ensures artifacts[a].path != name && a != name {
      assert artifacts[a].path in paths;
    }
  }

  // ---- How much is left to do

  /** What a participant owes the barrier of a stage. */
  datatype Duty = KeyDuty | CommitmentDuty | UpdateDuty | DepartureDuty

  predicate Met(duty: Duty, p: Participant) {
    match duty
    case KeyDuty => p.publicKey.Some?
    case CommitmentDuty => p.commitment.Some?
    case UpdateDuty => p.update.Some?
    case DepartureDuty => p.completed
  }

  function Owing(ps: map<ClientId, Participant>, duty: Duty): set<ClientId> {
    set c | c in ps && !Met(duty, ps[c])
  }

  lemma OneFewerOwing(ps: map<ClientId, Participant>, duty: Duty, client: ClientId, p: Participant)
    requires client in Owing(ps, duty) && Met(duty, p)
    ensures |Owing(ps[client := p], duty)| < |Owing(ps, duty)|
  {
    assert Owing(ps[client := p], duty) == Owing(ps, duty) - {client};
  }

  lemma FewerMissing(all: set<ClientId>, some: set<ClientId>, client: ClientId)
    requires client in all - some
    ensures |all - (some + {client})| < |all - some|
  {
    assert all - (some + {client}) == (all - some) - {client};
  }

  /** Everything that is left of key aggregation: task steps, the final key, receipts. */
  ghost function TreeLeft(r: Round): int {
    (if r.plan.Some? then 2 * |r.plan.value.tasks| - Advanced(r) else 0)
    + (if r.finalKey.None? then 1 else 0) + |r.participants.Keys - r.finalReceipts.Keys|
  }

  ghost function LeftInStage(r: Round): int {
    match r.row.state
    case RegistrationOpen => |Owing(r.participants, KeyDuty)|
    case KeySetup => |Owing(r.participants, CommitmentDuty)|
    case KeyAggregation => TreeLeft(r)
    case UpdateCollection => |Owing(r.participants, UpdateDuty)|
    case Aggregating => if Holder(r.job).None? then 1 else 0
    case ResultReady => |Owing(r.participants, DepartureDuty)|
    case _ => 0
  }

  function StagesLeft(s: RoundState): nat {
    7 - Stage(s, V11)
  }

  ghost predicate Closer(r: Round, after: Round) {
    || StagesLeft(after.row.state) < StagesLeft(r.row.state)
    || (after.row.state == r.row.state && LeftInStage(after) < LeftInStage(r))
  }

  lemma LeftBounded(r: Round)
    requires Inv(r)
    ensures 0 <= LeftInStage(r)
  {
    hide Inv, Advanced;
    if r.row.state == KeyAggregation && r.plan.Some? {
      CompletedExactly(r);
    }
  }

  // ---- What can be completed

  /** No two participants have committed to different keys. */
  ghost predicate Compatible(ps: map<ClientId, Participant>) {
    forall c, d | c in ps && d in ps && ps[c].commitment.Some? && ps[d].commitment.Some? ::
      ps[c].commitment == ps[d].commitment
  }

  ghost predicate Hopeful(r: Round) {
    Alive(r.row.state) && Compatible(r.participants)
  }

  /** It is before the deadline, or there is no job left to be claimed. */
  ghost predicate InTime(r: Round, t: Time) {
    t < r.row.deadlineAt || Holder(r.job).Some? || PastAggregation(r.row.state)
  }

  ghost predicate SameCommitments(ps: map<ClientId, Participant>, after: map<ClientId, Participant>) {
    after.Keys == ps.Keys && forall c | c in ps :: after[c].commitment == ps[c].commitment
  }

  lemma StaysCompatible(ps: map<ClientId, Participant>, after: map<ClientId, Participant>)
    requires Compatible(ps) && SameCommitments(ps, after)
    ensures Compatible(after)
  {
  }

  /** One more step at time t, after which the round is still hopeful and closer to its completion. */
  ghost predicate StepsCloser(r: Round, step: Step, t: Time, draw: Draws) {
    var after := Perform(r, step, draw).round;
    step.now == t && Hopeful(after) && Closer(r, after)
  }

  lemma Taken(r: Round, step: Step, draw: Draws)
    requires Inv(r) && Productive(draw) && Refusal(r, step.op).None?
    ensures Transact(r, step, draw).Success? && Perform(r, step, draw).round == Transact(r, step, draw).value.round
  {
    hide Inv, Transact, Refusal;
    RefusedExactlyWhen(r, step, draw);
  }

  // ---- Registration

  lemma KeyNotRefused(r: Round, op: Op)
    requires op.PutJson? && op.slot.PublicKeySlot? && Admitted(r, op) && !Remembered(r, op)
    requires r.row.state == RegistrationOpen && r.participants[op.client].publicKey.None?
    ensures Refusal(r, op).None?
  {
  }

  lemma KeyTaken(r: Round, step: Step, draw: Draws)
    requires step.op.PutJson? && step.op.slot.PublicKeySlot? && r.row.state == RegistrationOpen
    requires Transact(r, step, draw).Success? && Admitted(r, step.op) && !Remembered(r, step.op)
    ensures var after := Perform(r, step, draw).round;
      var c := step.op.client;
      && after.participants == r.participants[c := FillSlot(r.participants[c], PublicKeySlot, step.op.body, step.now)]
      && after.row.state == if AllKeyed(after.participants) then KeySetup else RegistrationOpen
  {
    hide AllKeyed;
  }

  lemma RegistersCloser(r: Round, t: Time, draw: Draws) returns (step: Step)
    requires Inv(r) && Productive(draw) && Hopeful(r) && r.row.state == RegistrationOpen
    ensures StepsCloser(r, step, t, draw)
    ensures NoneCommitted(Perform(r, step, draw).round.participants)
    ensures Perform(r, step, draw).round.row.state in {RegistrationOpen, KeySetup}
  {
    hide Inv, AllKeyed, Perform, Transact, Refusal;
    RegistrationOpenRows(r);
    var c :| c in Owing(r.participants, KeyDuty);
    var key := FreshKey(r.idem);
    step := Step(PutJson(c, PublicKeySlot, "", key, ""), t);
    KeyNotRefused(r, step.op);
    Taken(r, step, draw);
    KeyTaken(r, step, draw);
    var after := Perform(r, step, draw).round;
    OneFewerOwing(r.participants, KeyDuty, c, after.participants[c]);
    StaysCompatible(r.participants, after.participants);
  }

  lemma RegistrationOpenRows(r: Round)
    requires Inv(r) && r.row.state == RegistrationOpen
    ensures Owing(r.participants, KeyDuty) != {} && NoneCommitted(r.participants)
  {
    hide RowsOk, StageOk;
    var c :| c in r.participants && r.participants[c].publicKey.None?;
    assert c in Owing(r.participants, KeyDuty);
  }

  // ---- Key setup

  /** The commitment everybody who has committed agrees on. */
  lemma CommonCommitment(ps: map<ClientId, Participant>) returns (commitment: string)
    requires Compatible(ps)
    ensures forall c | c in ps && ps[c].commitment.Some? :: ps[c].commitment == Some(commitment)
  {
    if c :| c in ps && ps[c].commitment.Some? {
      commitment := ps[c].commitment.value;
    } else {
      commitment := "";
    }
  }

  lemma SetupRows(r: Round)
    requires Inv(r) && r.row.state == KeySetup
    ensures Owing(r.participants, CommitmentDuty) != {}
  {
    hide RowsOk, StageOk;
    var c :| c in r.participants && r.participants[c].commitment.None?;
    assert c in Owing(r.participants, CommitmentDuty);
  }

  /** A participant that has not committed yet commits to what all others agree on. */
  lemma ConfirmsWithOthers(r: Round, c: ClientId, commitment: string, t: Time, draw: Draws) returns (step: Step)
    requires Inv(r) && Productive(draw) && r.row.state == KeySetup && c in Owing(r.participants, CommitmentDuty)
    requires forall d | d in r.participants && r.participants[d].commitment.Some? :: r.participants[d].commitment == Some(commitment)
    ensures var after := Perform(r, step, draw).round;
      && step.now == t && after.row.state == StateAfterConfirmation(r, c)
      && (exists p: Participant :: p.commitment == Some(commitment) && after.participants == r.participants[c := p])
  {
    var key := FreshKey(r.idem);
    step := Step(ConfirmKeys(c, commitment, key, ""), t);
    hide Inv, Perform;
    ConfirmAcceptedIff(r, step, draw);
    var p := Confirmed(r.participants[c], commitment, step.now);
    assert Perform(r, step, draw).round.participants == r.participants[c := p];
  }

  lemma ConfirmsCloser(r: Round, t: Time, draw: Draws) returns (step: Step)
    requires Inv(r) && Productive(draw) && Hopeful(r) && r.row.state == KeySetup
    ensures StepsCloser(r, step, t, draw)
  {
    hide Inv, Perform;
    SetupRows(r);
    var c :| c in Owing(r.participants, CommitmentDuty);
    var commitment := CommonCommitment(r.participants);
    step := ConfirmsWithOthers(r, c, commitment, t, draw);
    var after := Perform(r, step, draw).round;
    var p: Participant :| p.commitment == Some(commitment) && after.participants == r.participants[c := p];
    OneFewerOwing(r.participants, CommitmentDuty, c, p);
  }

  // ---- Key aggregation

  ghost predicate TreeFrame(r: Round, after: Round) {
    && after.row == r.row && after.participants == r.participants && after.plan == r.plan
    && after.finalReceipts == r.finalReceipts
  }

  lemma TaskStepFrame(r: Round, step: Step, draw: Draws)
    requires IsTaskStep(step.op)
    ensures var after := Perform(r, step, draw).round; TreeFrame(r, after) && after.finalKey == r.finalKey
  {
    hide SlotTaken, Insertable, Activate;
    if step.op.UploadTask? {
    }
  }

  lemma FinalKeyFrame(r: Round, step: Step, draw: Draws)
    requires step.op.PublishFinal?
    ensures var after := Perform(r, step, draw).round; TreeFrame(r, after) && after.tasks == r.tasks
  {
    FinalKeyRecorded(r, step.op.client, step.op.stored, step.op.upload, step.op.key, step.op.digest, step.now);
    hide RecordFinalKey;
  }

  lemma FinalKeyRecorded(r: Round, client: ClientId, stored: Stored, upload: Upload, key: string, digest: string, now: Time)
    ensures var t := RecordFinalKey(r, client, stored, upload, key, digest, now);
      t.Success? ==> TreeFrame(r, t.value.round) && t.value.round.tasks == r.tasks
  {
    hide SlotTaken, Insertable, AllTasksCompleted;
  }

  lemma OpenTask(r: Round) returns (k: TaskKey)
    requires Inv(r) && !AllTasksCompleted(r.tasks)
    ensures Open(r.tasks, k) && r.tasks[k].task.sender in r.participants
    ensures r.tasks[k].state == ArtifactUploaded ==> r.tasks[k].upload.Some?
  {
    hide Inv, RankedTasks, SchedulerOk;
    var j :| j in r.tasks && r.tasks[j].state != TaskCompleted;
    TasksRanked(r);
    TasksScheduled(r);
    k := OpenTaskBelow(r.tasks, r.taskReceipts, j);
    TaskSenderIsParticipant(r, k);
    if r.tasks[k].state == ArtifactUploaded {
      UploadedHasUpload(r, k);
    }
  }

  lemma TasksScheduled(r: Round)
    requires Inv(r)
    ensures SchedulerOk(r.tasks, r.taskReceipts)
  {
  }

  lemma UploadedHasUpload(r: Round, k: TaskKey)
    requires Inv(r) && k in r.tasks && r.tasks[k].state == ArtifactUploaded
    ensures r.tasks[k].upload.Some?
  {
    assert TaskOk(r.tasks, k);
  }

  lemma UploadsCloser(r: Round, k: TaskKey, t: Time, draw: Draws) returns (step: Step)
    requires Inv(r) && Productive(draw) && Hopeful(r) && r.row.state == KeyAggregation && r.plan.Some?
    requires k in r.tasks && r.tasks[k].state == Ready && r.tasks[k].task.sender in r.participants
    ensures StepsCloser(r, step, t, draw)
  {
    hide Inv, Perform, Advanced, Insertable, Compatible;
    var key := FreshKey(r.idem);
    var stored := FreshFile(r.artifacts);
    step := Step(UploadTask(r.tasks[k].task.sender, k, stored, Upload("", "", "", ""), key, ""), t);
    UploadAcceptedIff(r, step, draw);
    UploadAdvances(r, step, draw);
    TaskStepFrame(r, step, draw);
  }

  lemma AcksCloser(r: Round, k: TaskKey, t: Time, draw: Draws) returns (step: Step)
    requires Inv(r) && Productive(draw) && Hopeful(r) && r.row.state == KeyAggregation && r.plan.Some?
    requires k in r.tasks && r.tasks[k].state == ArtifactUploaded && r.tasks[k].upload.Some?
    requires r.tasks[k].task.sender in r.participants
    ensures StepsCloser(r, step, t, draw)
  {
    hide Inv, Perform, Advanced, Activate, Compatible;
    var key := FreshKey(r.idem);
    step := Step(AckTask(r.tasks[k].task.sender, k, r.tasks[k].upload.value.ciphertextDigest, key, ""), t);
    AckAcceptedIff(r, step, draw);
    AckAdvances(r, step, draw);
    TaskStepFrame(r, step, draw);
  }

  lemma SameAdvance(r: Round, after: Round)
    requires after.plan == r.plan && after.tasks == r.tasks
    ensures Advanced(after) == Advanced(r)
  {
  }

  lemma PublishesCloser(r: Round, t: Time, draw: Draws) returns (step: Step)
    requires Inv(r) && Productive(draw) && Hopeful(r) && r.row.state == KeyAggregation && r.plan.Some?
    requires AllTasksCompleted(r.tasks) && r.finalKey.None?
    ensures StepsCloser(r, step, t, draw)
  {
    hide Inv, Perform, Advanced, Insertable, AllTasksCompleted, Compatible;
    var key := FreshKey(r.idem);
    var stored := FreshFile(r.artifacts);
    RootClientIsParticipant(r);
    step := Step(PublishFinal(r.plan.value.rootClient, stored, Upload("", "", "", ""), key, ""), t);
    FinalKeyAcceptedIff(r, step, draw);
    FinalKeyFrame(r, step, draw);
    SameAdvance(r, Perform(r, step, draw).round);
  }

  lemma ReceiptNotRefused(r: Round, op: Op)
    requires op.AckFinal? && Admitted(r, op) && !Remembered(r, op) && r.row.state == KeyAggregation
    requires r.finalKey.Some? && r.finalKey.value.upload.ciphertextDigest == op.artifactDigest && op.client !in r.finalReceipts
    ensures Refusal(r, op).None?
  {
  }

  lemma ReceiptTaken(r: Round, step: Step, draw: Draws)
    requires step.op.AckFinal? && Transact(r, step, draw).Success? && Admitted(r, step.op) && !Remembered(r, step.op)
    ensures var after := Perform(r, step, draw).round;
      && after.participants == r.participants && after.tasks == r.tasks && after.plan == r.plan && after.finalKey == r.finalKey
      && after.finalReceipts.Keys == r.finalReceipts.Keys + {step.op.client}
      && after.row.state in {KeyAggregation, UpdateCollection}
  {
  }

  lemma FewerReceiptsMissing(r: Round, after: Round, client: ClientId)
    requires r.row.state == KeyAggregation && client in r.participants && client !in r.finalReceipts
    requires after.participants == r.participants && after.tasks == r.tasks && after.plan == r.plan && after.finalKey == r.finalKey
    requires after.finalReceipts.Keys == r.finalReceipts.Keys + {client} && after.row.state in {KeyAggregation, UpdateCollection}
    ensures Closer(r, after)
  {
    hide Advanced;
    FewerMissing(r.participants.Keys, r.finalReceipts.Keys, client);
    SameAdvance(r, after);
  }

  lemma AcknowledgesCloser(r: Round, t: Time, draw: Draws) returns (step: Step)
    requires Inv(r) && Productive(draw) && Hopeful(r) && r.row.state == KeyAggregation && r.plan.Some?
    requires r.finalKey.Some?
    ensures StepsCloser(r, step, t, draw)
  {
    hide Inv, Closer, Transact, Perform, Refusal, Compatible;
    FinalKeyPending(r);
    var c :| c in r.participants && c !in r.finalReceipts;
    var key := FreshKey(r.idem);
    step := Step(AckFinal(c, r.finalKey.value.upload.ciphertextDigest, key, ""), t);
    ReceiptNotRefused(r, step.op);
    Taken(r, step, draw);
    ReceiptTaken(r, step, draw);
    FewerReceiptsMissing(r, Perform(r, step, draw).round, c);
  }

  lemma AggregatesKeysCloser(r: Round, t: Time, draw: Draws) returns (step: Step)
    requires Inv(r) && Productive(draw) && Hopeful(r) && r.row.state == KeyAggregation
    ensures StepsCloser(r, step, t, draw)
  {
    hide Inv, AllTasksCompleted, StepsCloser, Hopeful;
    FinalKeyPending(r);
    if !AllTasksCompleted(r.tasks) {
      var k := OpenTask(r);
      if r.tasks[k].state == Ready {
        step := UploadsCloser(r, k, t, draw);
      } else {
        step := AcksCloser(r, k, t, draw);
      }
    } else if r.finalKey.None? {
      step := PublishesCloser(r, t, draw);
    } else {
      step := AcknowledgesCloser(r, t, draw);
    }
  }

  // ---- Updates, aggregation and departure

  lemma UpdateNotRefused(r: Round, op: Op)
    requires op.PutUpdate? && Admitted(r, op) && !Remembered(r, op) && r.row.state == UpdateCollection
    requires r.participants[op.client].update.None? && Insertable(r.artifacts, op.stored)
    ensures Refusal(r, op).None?
  {
    hide Insertable;
  }

  lemma UpdateTaken(r: Round, step: Step, draw: Draws)
    requires step.op.PutUpdate? && Transact(r, step, draw).Success? && Admitted(r, step.op) && !Remembered(r, step.op)
    requires r.row.state == UpdateCollection && r.participants[step.op.client].update.None?
    ensures var after := Perform(r, step, draw).round;
      var c := step.op.client;
      && c in after.participants && after.participants == r.participants[c := after.participants[c]]
      && after.participants[c].update.Some? && after.participants[c].commitment == r.participants[c].commitment
      && after.row.state in {UpdateCollection, Aggregating}
  {
    hide AllUpdated, SlotTaken, Insertable;
  }

  lemma CollectionRows(r: Round)
    requires Inv(r) && r.row.state == UpdateCollection
    ensures Owing(r.participants, UpdateDuty) != {}
  {
    hide RowsOk, StageOk;
    var c :| c in r.participants && r.participants[c].update.None?;
    assert c in Owing(r.participants, UpdateDuty);
  }

  lemma UpdatesCloser(r: Round, t: Time, draw: Draws) returns (step: Step)
    requires Inv(r) && Productive(draw) && Hopeful(r) && r.row.state == UpdateCollection
    ensures StepsCloser(r, step, t, draw)
  {
    hide Inv, Insertable, Perform, Transact, Refusal;
    CollectionRows(r);
    var c :| c in Owing(r.participants, UpdateDuty);
    var key := FreshKey(r.idem);
    var stored := FreshFile(r.artifacts);
    step := Step(PutUpdate(c, stored, "", key, "", "", 0), t);
    UpdateNotRefused(r, step.op);
    Taken(r, step, draw);
    UpdateTaken(r, step, draw);
    var after := Perform(r, step, draw).round;
    OneFewerOwing(r.participants, UpdateDuty, c, after.participants[c]);
    StaysCompatible(r.participants, after.participants);
  }

  lemma AggregatingRows(r: Round)
    requires Inv(r) && r.row.state == Aggregating
    ensures r.job.Some? && JobOk(r.job) && r.job.value.state in {JobReady, JobClaimed}
  {
    hide RosterOk, PlanOk, SchedulerOk, FinalOk, ArtifactsOk, ResultOk, AuditOk, VersionOk, IdemOk, BarriersOk;
  }

  lemma ClaimKeepsRest(r: Round, step: Step, draw: Draws)
    requires step.op.Claim?
    ensures var after := Perform(r, step, draw).round; after.participants == r.participants && after.row == r.row
  {
    hide Claimable;
  }

  lemma PublicationKeepsMembers(r: Round, step: Step, draw: Draws)
    requires step.op.Publish?
    ensures Perform(r, step, draw).round.participants == r.participants
  {
    hide HasResult, Insertable;
  }

  lemma ClaimsCloser(r: Round, t: Time, draw: Draws) returns (step: Step)
    requires Hopeful(r) && r.row.state == Aggregating && r.job.Some? && r.job.value.state == JobReady
    requires r.job.value.attempts < r.job.value.maxAttempts && t < r.row.deadlineAt
    ensures StepsCloser(r, step, t, draw)
  {
    hide Perform, Compatible;
    step := Step(Claim(1.0, ""), t);
    ClaimTakes(r, step, draw);
    ClaimKeepsRest(r, step, draw);
  }

  lemma ResultCloser(r: Round, t: Time, draw: Draws) returns (step: Step)
    requires Inv(r) && Hopeful(r) && r.row.state == Aggregating && r.job.Some? && r.job.value.state == JobClaimed
    requires r.job.value.token.Some?
    ensures StepsCloser(r, step, t, draw)
  {
    hide Inv, Perform, Compatible, Insertable;
    var stored := FreshFile(r.artifacts);
    step := Step(Publish(r.job.value.id, r.job.value.token.value, stored, ""), t);
    PublishedExactlyWhen(r, step, draw);
    PublicationKeepsMembers(r, step, draw);
  }

  lemma AggregatesCloser(r: Round, t: Time, draw: Draws) returns (step: Step)
    requires Inv(r) && Productive(draw) && Hopeful(r) && r.row.state == Aggregating && InTime(r, t)
    ensures StepsCloser(r, step, t, draw)
  {
    hide Inv, StepsCloser, Hopeful;
    AggregatingRows(r);
    if r.job.value.state == JobReady {
      step := ClaimsCloser(r, t, draw);
    } else {
      step := ResultCloser(r, t, draw);
    }
  }

  lemma DepartureNotRefused(r: Round, op: Op)
    requires op.Leave? && Admitted(r, op) && !Remembered(r, op) && r.row.state == ResultReady
    ensures Refusal(r, op).None?
  {
  }

  lemma DepartureTaken(r: Round, step: Step, draw: Draws)
    requires step.op.Leave? && r.row.state == ResultReady
    requires Transact(r, step, draw).Success? && Admitted(r, step.op) && !Remembered(r, step.op)
    ensures var after := Perform(r, step, draw).round;
      var c := step.op.client;
      && c in after.participants && after.participants == r.participants[c := after.participants[c]]
      && after.participants[c].completed && after.participants[c].commitment == r.participants[c].commitment
      && after.row.state in {ResultReady, Completed}
  {
    hide AllDone;
  }

  lemma ResultRows(r: Round)
    requires Inv(r) && r.row.state == ResultReady
    ensures Owing(r.participants, DepartureDuty) != {}
  {
    hide RowsOk, StageOk;
    var c :| c in r.participants && !r.participants[c].completed;
    assert c in Owing(r.participants, DepartureDuty);
  }

  lemma DepartsCloser(r: Round, t: Time, draw: Draws) returns (step: Step)
    requires Inv(r) && Productive(draw) && Hopeful(r) && r.row.state == ResultReady
    ensures StepsCloser(r, step, t, draw)
  {
    hide Inv, Perform, Transact, Refusal;
    ResultRows(r);
    var c :| c in Owing(r.participants, DepartureDuty);
    var key := FreshKey(r.idem);
    step := Step(Leave(c, key, ""), t);
    DepartureNotRefused(r, step.op);
    Taken(r, step, draw);
    DepartureTaken(r, step, draw);
    var after := Perform(r, step, draw).round;
    OneFewerOwing(r.participants, DepartureDuty, c, after.participants[c]);
    StaysCompatible(r.participants, after.participants);
  }

  // ---- All the way

  /** In every stage there is a step that brings the round closer to its completion; only a claim has to be in time. */
  lemma SomeStepCloser(r: Round, t: Time, draw: Draws) returns (step: Step)
    requires Inv(r) && Productive(draw) && Hopeful(r) && r.row.state != Completed
    requires r.row.state == Aggregating ==> InTime(r, t)
    ensures StepsCloser(r, step, t, draw)
  {
    NotCreated(r);
    hide Inv, StepsCloser, Compatible;
    match r.row.state
    case RegistrationOpen => step := RegistersCloser(r, t, draw);
    case KeySetup => step := ConfirmsCloser(r, t, draw);
    case KeyAggregation => step := AggregatesKeysCloser(r, t, draw);
    case UpdateCollection => step := UpdatesCloser(r, t, draw);
    case Aggregating => step := AggregatesCloser(r, t, draw);
    case ResultReady => step := DepartsCloser(r, t, draw);
  }

  /** Running one step and then the others. */
  lemma {:induction false} RunFrom(r: Round, steps: seq<Step>, more: seq<Step>, n: nat, draw: Draws)
    requires n <= |more|
    ensures RunTo(r, steps + more, |steps| + n, draw) == RunTo(RunTo(r, steps, |steps|, draw), more, n, draw)
  {
    hide Perform;
    if n == 0 {
      SameStart(r, steps, steps + more, |steps|, draw);
    } else {
      RunFrom(r, steps, more, n - 1, draw);
      assert (steps + more)[|steps| + n - 1] == more[n - 1];
    }
  }

  lemma OneThenMore(r: Round, step: Step, more: seq<Step>, draw: Draws)
    ensures RunTo(r, [step] + more, |[step] + more|, draw) == RunTo(Perform(r, step, draw).round, more, |more|, draw)
  {
    hide Perform;
    RunFrom(r, [step], more, |more|, draw);
    assert RunTo(r, [step], 0, draw) == r;
  }

  lemma SameDeadline(r: Round, after: Round)
    requires Grows(r, after)
    ensures after.row.deadlineAt == r.row.deadlineAt
  {
    hide ParticipantsGrow, TasksGrow, JobGrows;
  }

  lemma StaysInTime(r: Round, after: Round, t: Time)
    requires Inv(r) && Grows(r, after) && Hopeful(after) && Closer(r, after) && InTime(r, t)
    ensures InTime(after, t)
  {
    hide Grows, RowsOk, BarriersOk, Compatible, TreeLeft, Owing;
    SameDeadline(r, after);
    NotCreated(r);
    assert r.row.state.Aggregating? && after.row.state.Aggregating? ==> LeftInStage(after) >= 0;
  }

  lemma OneStepAhead(r: Round, t: Time, draw: Draws) returns (step: Step)
    requires Inv(r) && Productive(draw) && Hopeful(r) && r.row.state != Completed
    requires r.row.state == Aggregating ==> InTime(r, t)
    ensures var after := Perform(r, step, draw).round;
      Inv(after) && Hopeful(after) && step.now == t && (InTime(r, t) ==> InTime(after, t))
      && (StagesLeft(after.row.state) < StagesLeft(r.row.state)
          || (StagesLeft(after.row.state) == StagesLeft(r.row.state) && 0 <= LeftInStage(after) < LeftInStage(r)))
  {
    hide Inv, Perform, LeftInStage, Hopeful, InTime, Grows;
    step := SomeStepCloser(r, t, draw);
    var after := Perform(r, step, draw).round;
    PerformKeeps(r, step, draw);
    LeftBounded(r);
    LeftBounded(after);
    if InTime(r, t) {
      StaysInTime(r, after, t);
    }
  }

  /** Steps at time t that lead a round on until at most so many stages are left. */
  lemma {:induction false} AdvancingSteps(r: Round, t: Time, draw: Draws, left: nat) returns (steps: seq<Step>)
    requires Inv(r) && Productive(draw) && Hopeful(r) && (InTime(r, t) || StagesLeft(Aggregating) <= left)
    ensures var end := RunTo(r, steps, |steps|, draw);
      Inv(end) && Hopeful(end) && StagesLeft(end.row.state) <= left
    ensures forall s | s in steps :: s.now == t
    decreases StagesLeft(r.row.state), LeftInStage(r)
  {
    hide Inv, Perform, LeftInStage, Hopeful, InTime;
    if StagesLeft(r.row.state) <= left {
      steps := [];
    } else {
      var step := OneStepAhead(r, t, draw);
      var more := AdvancingSteps(Perform(r, step, draw).round, t, draw, left);
      OneThenMore(r, step, more, draw);
      steps := [step] + more;
    }
  }

  // ---- Too late

  /** Nobody holds the job, and from t on nobody can claim it. */
  ghost predicate Late(r: Round, t: Time) {
    Holder(r.job).None? && !PastAggregation(r.row.state) && r.row.deadlineAt <= t
  }

  lemma UnfinishedJob(r: Round)
    requires Inv(r) && !PastAggregation(r.row.state) && !Terminal(r.row.state)
    ensures !HasResult(r.artifacts)
  {
    NotCreated(r);
    hide RosterOk, PlanOk, SchedulerOk, FinalOk, ArtifactsOk, AuditOk, VersionOk, IdemOk, BarriersOk, HasResult;
  }

  lemma FinishedJob(r: Round)
    requires Inv(r) && PastAggregation(r.row.state)
    ensures HasResult(r.artifacts)
  {
    hide RosterOk, PlanOk, SchedulerOk, FinalOk, ArtifactsOk, AuditOk, VersionOk, IdemOk, BarriersOk, HasResult;
  }

  /** Only publication brings a result. */
  lemma ResultIsPublished(r: Round, step: Step, draw: Draws)
    requires Inv(r) && !HasResult(r.artifacts) && HasResult(Perform(r, step, draw).round.artifacts)
    ensures Holder(r.job).Some?
  {
    hide Inv, Perform, Insertable;
    if FileOf(step.op).None? {
      StepWithoutFile(r, step, draw);
    } else {
      StepArtifacts(r, step, draw);
      var a :| a in Perform(r, step, draw).round.artifacts && Perform(r, step, draw).round.artifacts[a].kind == ResultFile;
      assert a !in r.artifacts;
      PublishedExactlyWhen(r, step, draw);
    }
  }

  lemma StaysLate(r: Round, step: Step, t: Time, draw: Draws)
    requires Inv(r) && Productive(draw) && Late(r, t) && t <= step.now
    ensures Late(Perform(r, step, draw).round, t)
  {
    var after := Perform(r, step, draw).round;
    hide Inv, Perform, HasResult, ParticipantsGrow, TasksGrow, JobGrows;
    PerformKeeps(r, step, draw);
    StepAttempts(r, step, draw);
    if PastAggregation(after.row.state) {
      FinishedJob(after);
      UnfinishedJob(r);
      ResultIsPublished(r, step, draw);
    }
  }

  lemma {:induction false} NeverInTime(r: Round, steps: seq<Step>, n: nat, t: Time, draw: Draws)
    requires Inv(r) && Productive(draw) && Late(r, t) && n <= |steps| && forall i | 0 <= i < |steps| :: t <= steps[i].now
    ensures Late(RunTo(r, steps, n, draw), t)
  {
    hide Inv, Perform, Late;
    if n > 0 {
      NeverInTime(r, steps, n - 1, t, draw);
      RunKeeps(r, steps, n - 1, draw);
      StaysLate(RunTo(r, steps, n - 1, draw), steps[n - 1], t, draw);
    }
  }

  // ---- Exactly when

  /** The clock does not go back, and starts no earlier than from. */
  ghost predicate Chronological(from: Time, steps: seq<Step>) {
    && (forall i | 0 <= i < |steps| :: from <= steps[i].now)
    && forall i, j | 0 <= i < j < |steps| :: steps[i].now <= steps[j].now
  }

  lemma CompletedAgree(r: Round, after: Round)
    requires Inv(after) && Grows(r, after) && after.row.state == Completed
    ensures Hopeful(r)
  {
    hide RowsOk, StageOk;
    forall c, d | c in r.participants && d in r.participants
      && r.participants[c].commitment.Some? && r.participants[d].commitment.Some?
      ensures r.participants[c].commitment == r.participants[d].commitment
    {
      assert ParticipantGrows(r.participants[c], after.participants[c]);
      assert ParticipantGrows(r.participants[d], after.participants[d]);
    }
  }

  lemma CompletedInTime(r: Round, steps: seq<Step>, t: Time, draw: Draws)
    requires Inv(r) && Productive(draw) && Chronological(t, steps) && RunTo(r, steps, |steps|, draw).row.state == Completed
    ensures Hopeful(r) && InTime(r, t)
  {
    hide Inv, Grows, Hopeful, Perform, RunTo;
    RunKeeps(r, steps, |steps|, draw);
    assert RunTo(r, steps, 0, draw) == r by {
      RunStart(r, steps, draw);
    }
    RunGrows(r, steps, 0, |steps|, draw);
    CompletedAgree(r, RunTo(r, steps, |steps|, draw));
    if !InTime(r, t) {
      NeverInTime(r, steps, |steps|, t, draw);
    }
  }

  lemma RunStart(r: Round, steps: seq<Step>, draw: Draws)
    ensures RunTo(r, steps, 0, draw) == r
  {
  }

  /** What follows takes place from t on and completes the round. */
  ghost predicate Completes(cfg: Config, steps: seq<Step>, more: seq<Step>, t: Time, draw: Draws) {
    && Chronological(cfg.createdAt, steps + more) && Chronological(t, more)
    && Reached(cfg, steps + more, |steps + more|, draw).row.state == Completed
  }

  /**
   * At time t, from every state reached by then, some continuation completes the round, the whole key tree included,
   * exactly if the round was not cut short, no two participants have committed to different keys, and the deadline is
   * still to come or no job is left to be claimed. These are runs of transactions: a participant's request that looks at
   * an overdue round first expires it.
   */
  lemma CompletableFrom(cfg: Config, steps: seq<Step>, t: Time, draw: Draws)
    requires Proper(cfg) && Productive(draw)
    requires Chronological(cfg.createdAt, steps) && cfg.createdAt <= t && forall s | s in steps :: s.now <= t
    ensures var r := Reached(cfg, steps, |steps|, draw);
      (exists more: seq<Step> :: Completes(cfg, steps, more, t, draw))
        <==> Alive(r.row.state) && Compatible(r.participants) && InTime(r, t)
  {
    hide Inv, Started, RunTo, Compatible, Configured, InTime;
    var r := Reached(cfg, steps, |steps|, draw);
    ReachedKeeps(cfg, steps, |steps|, draw);
    if Hopeful(r) && InTime(r, t) {
      var more := AdvancingSteps(r, t, draw, 0);
      RunFrom(Started(cfg), steps, more, |more|, draw);
      assert Completes(cfg, steps, more, t, draw);
    }
    if more: seq<Step> :| Completes(cfg, steps, more, t, draw) {
      RunFrom(Started(cfg), steps, more, |more|, draw);
      CompletedInTime(r, more, t, draw);
    }
  }

  // ---- Participants look first

  /** Participants' requests come after a look at the round. */
  ghost predicate Looked(steps: seq<Step>) {
    forall i | 0 <= i < |steps| && Caller(steps[i].op).Some? :: LookedBefore(steps, i)
  }

  ghost predicate LookedBefore(steps: seq<Step>, n: nat) {
    exists j :: 0 <= j < n && j < |steps| && steps[j].op.Read?
  }

  lemma EndingIsNotCompleting(r: Round, step: Step, draw: Draws)
    requires r.row.state != Completed && (step.op.Abort? || step.op.Reject? || step.op.Read? || step.op.Sweep?)
    ensures Perform(r, step, draw).round.row.state != Completed
  {
  }

  lemma ReclaimingIsNotCompleting(r: Round, step: Step, draw: Draws)
    requires r.row.state != Completed && (step.op.Reclaim?)
    ensures Perform(r, step, draw).round.row.state != Completed
  {
  }

  lemma HoldingIsNotCompleting(r: Round, step: Step, draw: Draws)
    requires r.row.state != Completed && (step.op.Claim? || step.op.Renew?)
    ensures Perform(r, step, draw).round.row.state != Completed
  {
  }

  lemma GivingUpIsNotCompleting(r: Round, step: Step, draw: Draws)
    requires r.row.state != Completed && (step.op.GiveUp?)
    ensures Perform(r, step, draw).round.row.state != Completed
  {
  }

  lemma PublishingIsNotCompleting(r: Round, step: Step, draw: Draws)
    requires r.row.state != Completed && (step.op.Publish?)
    ensures Perform(r, step, draw).round.row.state != Completed
  {
    hide Insertable, SlotTaken;
  }

  lemma OnlyLeavingCompletes(r: Round, step: Step, draw: Draws)
    requires r.row.state != Completed && Caller(step.op).None?
    ensures Perform(r, step, draw).round.row.state != Completed
  {
    hide Perform;
    match step.op
    case Reclaim(_) => ReclaimingIsNotCompleting(r, step, draw);
    case Claim(_, _) => HoldingIsNotCompleting(r, step, draw);
    case Renew(_, _, _) => HoldingIsNotCompleting(r, step, draw);
    case GiveUp(_, _, _) => GivingUpIsNotCompleting(r, step, draw);
    case Publish(_, _, _, _) => PublishingIsNotCompleting(r, step, draw);
    case _ => EndingIsNotCompleting(r, step, draw);
  }

  lemma LookingIsReading(r: Round, step: Step, draw: Draws)
    requires step.op.Read?
    ensures Perform(r, step, draw) == Settle(r, ReadRound(r, step.now))
  {
    hide ReadRound, Settle;
  }

  lemma LookingExpires(r: Round, step: Step, draw: Draws)
    requires Inv(r) && !Terminal(r.row.state) && step.op.Read? && r.row.deadlineAt < step.now
    ensures Perform(r, step, draw).round.row.state == Expired
  {
    hide Inv, Perform;
    NotCreated(r);
    LookingIsReading(r, step, draw);
  }

  lemma TerminalRowStays(r: Round, after: Round)
    requires Grows(r, after) && Terminal(r.row.state)
    ensures after.row == r.row
  {
    hide ParticipantsGrow, TasksGrow, JobGrows;
  }

  /** Past the deadline the first look ends the round, and nobody but a participant completes it. */
  lemma {:induction false} NeverLookedInTime(r: Round, steps: seq<Step>, n: nat, t: Time, draw: Draws)
    requires Inv(r) && Productive(draw) && r.row.state != Completed && r.row.deadlineAt < t && n <= |steps|
    requires Looked(steps) && forall i | 0 <= i < |steps| :: t <= steps[i].now
    ensures var end := RunTo(r, steps, n, draw);
      end.row.state != Completed && end.row.deadlineAt == r.row.deadlineAt && (Terminal(end.row.state) || !LookedBefore(steps, n))
  {
    hide Inv, Perform, Grows;
    if n > 0 {
      NeverLookedInTime(r, steps, n - 1, t, draw);
      RunKeeps(r, steps, n - 1, draw);
      var before, step := RunTo(r, steps, n - 1, draw), steps[n - 1];
      PerformKeeps(before, step, draw);
      SameDeadline(before, Perform(before, step, draw).round);
      if Terminal(before.row.state) {
        TerminalRowStays(before, Perform(before, step, draw).round);
      } else {
        OnlyLeavingCompletes(before, step, draw);
        if step.op.Read? {
          LookingExpires(before, step, draw);
        }
      }
    }
  }

  lemma LookingInTime(r: Round, t: Time, draw: Draws)
    requires t <= r.row.deadlineAt
    ensures Perform(r, Step(Read, t), draw).round == r
  {
    hide Perform;
    LookingIsReading(r, Step(Read, t), draw);
  }

  /**
   * The same when participants' requests come after a look at the round, as those through the API do: the first look
   * expires an overdue round, so unless it is completed already, the deadline must not have passed, whoever holds the job.
   */
  lemma CompletableByRequests(cfg: Config, steps: seq<Step>, t: Time, draw: Draws)
    requires Proper(cfg) && Productive(draw)
    requires Chronological(cfg.createdAt, steps) && cfg.createdAt <= t && forall s | s in steps :: s.now <= t
    ensures var r := Reached(cfg, steps, |steps|, draw);
      (exists more: seq<Step> :: Looked(more) && Completes(cfg, steps, more, t, draw))
        <==> (r.row.state == Completed
          || (Alive(r.row.state) && Compatible(r.participants) && InTime(r, t) && t <= r.row.deadlineAt))
  {
    hide Inv, Started, RunTo, Compatible, Configured, InTime;
    var r := Reached(cfg, steps, |steps|, draw);
    ReachedKeeps(cfg, steps, |steps|, draw);
    if r.row.state == Completed {
      assert steps + [] == steps;
      assert Looked([]) && Completes(cfg, steps, [], t, draw);
    } else if Hopeful(r) && InTime(r, t) && t <= r.row.deadlineAt {
      var more := AdvancingSteps(r, t, draw, 0);
      LookingInTime(r, t, draw);
      OneThenMore(r, Step(Read, t), more, draw);
      var all := [Step(Read, t)] + more;
      RunFrom(Started(cfg), steps, all, |all|, draw);
      assert Completes(cfg, steps, all, t, draw);
      assert all[0].op.Read?;
      assert Looked(all);
    }
    if more: seq<Step> :| Looked(more) && Completes(cfg, steps, more, t, draw) {
      RunFrom(Started(cfg), steps, more, |more|, draw);
      CompletedInTime(r, more, t, draw);
      if r.row.state != Completed && r.row.deadlineAt < t {
        NeverLookedInTime(r, more, |more|, t, draw);
      }
    }
  }

  lemma AggregatedTree(r: Round)
    requires Inv(r) && PastKeyAggregation(r.row.state) && r.row.protocol == V11
    ensures r.plan.Some? && AllTasksCompleted(r.tasks)
  {
    hide RowsOk, BarriersOk;
  }

  /** Every new round of protocol 1.1 has a run that completes its key tree, at any time from its creation on. */
  lemma TreeCompletable(cfg: Config, t: Time, draw: Draws) returns (steps: seq<Step>)
    requires Proper(cfg) && Productive(draw) && cfg.protocol == V11 && cfg.createdAt <= t
    ensures Chronological(cfg.createdAt, steps) && forall s | s in steps :: s.now == t
    ensures var r := Reached(cfg, steps, |steps|, draw); r.plan.Some? && AllTasksCompleted(r.tasks)
  {
    StartsUncommitted(cfg);
    hide Inv, Started, RunTo, AllTasksCompleted;
    StartsWell(cfg);
    steps := AdvancingSteps(Started(cfg), t, draw, StagesLeft(UpdateCollection));
    ReachedKeeps(cfg, steps, |steps|, draw);
    AggregatedTree(Reached(cfg, steps, |steps|, draw));
  }

  // ---- The mismatch can happen

  ghost predicate CommittedTo(ps: map<ClientId, Participant>, commitment: string) {
    forall c | c in ps && ps[c].commitment.Some? :: ps[c].commitment == Some(commitment)
  }

  /** The last step is a confirmation that is committed and reveals that the commitments differ. */
  ghost predicate EndsInMismatch(r: Round, steps: seq<Step>, draw: Draws) {
    && |steps| > 0
    && var before := RunTo(r, steps, |steps| - 1, draw); var op := steps[|steps| - 1].op;
      Confirms(before, op) && Mismatched(before, op.client, op.commitment)
  }

  lemma PrependedMismatch(r: Round, step: Step, more: seq<Step>, draw: Draws)
    requires EndsInMismatch(Perform(r, step, draw).round, more, draw)
    ensures EndsInMismatch(r, [step] + more, draw)
  {
    hide Perform, Confirms, Mismatched;
    RunFrom(r, [step], more, |more| - 1, draw);
    assert RunTo(r, [step], 0, draw) == r;
  }

  lemma LastDiffers(r: Round, c: ClientId, commitment: string, other: string)
    requires Inv(r) && r.row.state == KeySetup && CommittedTo(r.participants, commitment) && other != commitment
    requires Owing(r.participants, CommitmentDuty) == {c}
    ensures Mismatched(r, c, other)
  {
    hide BarriersOk, StageOk;
    forall d | d in r.participants && d != c ensures r.participants[d].commitment == Some(commitment) {
      assert d !in Owing(r.participants, CommitmentDuty);
    }
    var d := if r.row.roster[0] == c then r.row.roster[1] else r.row.roster[0];
    assert d in r.participants && d != c;
  }

  lemma {:induction false} MismatchingSteps(r: Round, t: Time, draw: Draws) returns (steps: seq<Step>)
    requires Inv(r) && Productive(draw) && r.row.state == KeySetup && CommittedTo(r.participants, "a")
    ensures EndsInMismatch(r, steps, draw) && forall s | s in steps :: s.now == t
    decreases |Owing(r.participants, CommitmentDuty)|
  {
    hide Inv, Perform, Mismatched;
    SetupRows(r);
    var c :| c in Owing(r.participants, CommitmentDuty);
    if Owing(r.participants, CommitmentDuty) == {c} {
      var key := FreshKey(r.idem);
      steps := [Step(ConfirmKeys(c, "b", key, ""), t)];
      LastDiffers(r, c, "a", "b");
      assert RunTo(r, steps, 0, draw) == r;
    } else {
      var step := ConfirmsWithOthers(r, c, "a", t, draw);
      var after := Perform(r, step, draw).round;
      var p: Participant :| p.commitment == Some("a") && after.participants == r.participants[c := p];
      var d :| d in Owing(r.participants, CommitmentDuty) && d != c;
      assert !OthersCommitted(r.participants, c);
      OneFewerOwing(r.participants, CommitmentDuty, c, p);
      PerformKeeps(r, step, draw);
      var more := MismatchingSteps(after, t, draw);
      PrependedMismatch(r, step, more, draw);
      steps := [step] + more;
    }
  }

  lemma {:induction false} MismatchFromRegistration(r: Round, t: Time, draw: Draws) returns (steps: seq<Step>)
    requires Inv(r) && Productive(draw) && r.row.state in {RegistrationOpen, KeySetup} && NoneCommitted(r.participants)
    ensures EndsInMismatch(r, steps, draw) && forall s | s in steps :: s.now == t
    decreases StagesLeft(r.row.state), LeftInStage(r)
  {
    if r.row.state == KeySetup {
      steps := MismatchingSteps(r, t, draw);
    } else {
      var step := RegistersCloser(r, t, draw);
      hide Inv, Perform, LeftInStage, Confirms, Mismatched, NoneCommitted;
      var after := Perform(r, step, draw).round;
      PerformKeeps(r, step, draw);
      LeftBounded(r);
      LeftBounded(after);
      var more := MismatchFromRegistration(after, t, draw);
      PrependedMismatch(r, step, more, draw);
      steps := [step] + more;
    }
  }

  /**
   * In every new round, whoever its participants are and at any time from its creation on, some run ends in the
   * confirmation answered with the mismatch.
   */
  lemma MismatchReachable(cfg: Config, t: Time, draw: Draws) returns (steps: seq<Step>)
    requires Proper(cfg) && Productive(draw) && cfg.createdAt <= t
    ensures Chronological(cfg.createdAt, steps) && forall s | s in steps :: s.now == t
    ensures |steps| > 0 && Answer(cfg, steps, |steps| - 1, draw) == Failure(KeyContextMismatch)
    ensures Confirms(Reached(cfg, steps, |steps| - 1, draw), steps[|steps| - 1].op)
    ensures Reached(cfg, steps, |steps|, draw).row.state == Failed
  {
    StartsUncommitted(cfg);
    hide Inv, Started, Perform, RunTo, Configured, Mismatched, ConfirmationBarred, StateAfterConfirmation;
    StartsWell(cfg);
    steps := MismatchFromRegistration(Started(cfg), t, draw);
    var n := |steps| - 1;
    ReachedKeeps(cfg, steps, n, draw);
    ConfirmAcceptedIff(Reached(cfg, steps, n, draw), steps[n], draw);
    NextReached(cfg, steps, n, draw);
  }

  lemma StartsUncommitted(cfg: Config)
    ensures Started(cfg).row.state == RegistrationOpen && NoneCommitted(Started(cfg).participants)
  {
  }

  lemma ZeroIsProductive()
    ensures Productive((n: nat) => 0)
  {
    var draw := (n: nat) => 0;
    forall counter: nat, modulus: nat | 0 < modulus <= DRAW_LIMIT ensures AcceptedFrom(draw, counter, modulus) {
      assert Shuffling.Accepted(draw, counter, modulus);
    }
  }

  lemma ThreeClients() returns (cfg: Config)
    ensures Proper(cfg) && cfg.roster == ["ann", "bob", "cyd"]
  {
    cfg := Config("federation", V10, ["ann", "bob", "cyd"], 1.0, 1.0, "operator", 0.0);
    assert "ann"[0] != "bob"[0] && "bob"[0] != "cyd"[0] && "cyd"[0] != "ann"[0];
  }

  /** Three participants of whom the last to confirm disagrees; its repetition is accepted all the same. */
  lemma MismatchOfThree() returns (cfg: Config, steps: seq<Step>, draw: Draws)
    ensures Proper(cfg) && cfg.roster == ["ann", "bob", "cyd"] && Productive(draw)
    ensures |steps| > 1 && Chronological(cfg.createdAt, steps)
    ensures steps[|steps| - 1] == steps[|steps| - 2]
    ensures Answer(cfg, steps, |steps| - 2, draw) == Failure(KeyContextMismatch)
    ensures Answer(cfg, steps, |steps| - 1, draw) == Success(Reply(Accepted, true))
  {
    hide Perform, RunTo, Started, Confirms, Productive, Mismatched, Identity;
    cfg := ThreeClients();
    draw := (n: nat) => 0;
    ZeroIsProductive();
    var run := MismatchReachable(cfg, cfg.createdAt, draw);
    var n := |run| - 1;
    steps := run + [run[n]];
    SameStart(Started(cfg), run, steps, n, draw);
    assert Answer(cfg, steps, n, draw) == Answer(cfg, run, n, draw);
    MismatchRepeatedIsAccepted(cfg, steps, n, n + 1, draw);
  }
}
