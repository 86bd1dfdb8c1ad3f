/** Every transaction keeps the round invariant. */
module RoundSteps {
  import opened Names
  import opened PlanShape
  import opened PlanTree
  import opened RoundInvariant
  import opened Rounds
  import opened Sequences
  import opened Shuffling
  import opened States
  import opened Topology
  import opened Wrappers

  /** What is committed satisfies the invariant; a rollback is for one of the errors. */
  ghost predicate Keeps(t: Transaction, errors: set<Error>) {
    match t
    case Success(c) => Inv(c.round)
    case Failure(e) => e in errors
  }

  // ---- The audit log grows

  lemma {:induction false} VersionsPrefix(audit: seq<AuditEvent>, e: AuditEvent, n: nat)
    requires n <= |audit|
    ensures Versions(audit + [e], n) == Versions(audit, n)
  {
    if n > 0 {
      VersionsPrefix(audit, e, n - 1);
    }
  }

  lemma {:induction false} StatePrefix(audit: seq<AuditEvent>, e: AuditEvent, n: nat, protocol: Protocol)
    requires n <= |audit|
    ensures StateAfter(audit + [e], n, protocol) == StateAfter(audit, n, protocol)
  {
    if n > 0 {
      StatePrefix(audit, e, n - 1, protocol);
    }
  }

  lemma AuditLogged(row: RoundRow, audit: seq<AuditEvent>, actor: string, event: EventType, now: Time)
    requires AuditOk(row, audit)
    ensures AuditOk(row, audit + [AuditEvent(actor, event, None, now)])
  {
    var e := AuditEvent(actor, event, None, now);
    forall i | 0 <= i <= |audit| ensures Versions(audit + [e], i) == Versions(audit, i) {
      VersionsPrefix(audit, e, i);
    }
    StatePrefix(audit, e, |audit|, row.protocol);
  }

  lemma AuditMoved(row: RoundRow, audit: seq<AuditEvent>, target: RoundState, actor: string, event: EventType, now: Time)
    requires AuditOk(row, audit) && EventTarget(event, row.protocol) == Some(target)
    ensures AuditOk(MovedRow(row, target, event, now), audit + [AuditEvent(actor, event, Some(row.version + 1), now)])
  {
    var e := AuditEvent(actor, event, Some(row.version + 1), now);
    forall i | 0 <= i <= |audit| ensures Versions(audit + [e], i) == Versions(audit, i) {
      VersionsPrefix(audit, e, i);
    }
  }

  lemma VersionMoved(row: RoundRow, target: RoundState, event: EventType, now: Time)
    requires VersionOk(row) && TransitionAllowed(row.state, target)
    requires row.state.KeySetup? && Alive(target) ==>
      target == if row.protocol == V11 then KeyAggregation else UpdateCollection
    ensures VersionOk(MovedRow(row, target, event, now))
  {
  }

  // ---- Single statements

  lemma LogKeeps(r: Round, actor: string, event: EventType, now: Time)
    requires RowsOk(r)
    ensures RowsOk(Log(r, actor, event, now))
  {
    hide RosterOk, PlanOk, SchedulerOk, FinalOk, ArtifactsOk, JobOk, ResultOk, AuditOk, IdemOk, VersionOk;
    AuditLogged(r.row, r.audit, actor, event, now);
  }

  lemma RememberKeeps(r: Round, k: IdemKey, digest: string, response: Response)
    requires RowsOk(r) && k.operation != UpdateOp
    ensures RowsOk(Remember(r, k, digest, response))
  {
    hide RosterOk, PlanOk, SchedulerOk, FinalOk, ArtifactsOk, JobOk, ResultOk, AuditOk, VersionOk;
  }

  lemma MoveKeeps(r: Round, target: RoundState, actor: string, event: EventType, now: Time)
    requires RowsOk(r) && TransitionAllowed(r.row.state, target)
    requires EventTarget(event, r.row.protocol) == Some(target)
    requires r.row.state.KeySetup? && Alive(target) ==>
      target == if r.row.protocol == V11 then KeyAggregation else UpdateCollection
    ensures RowsOk(Moved(r, target, actor, event, now))
  {
    hide RosterOk, PlanOk, SchedulerOk, FinalOk, ArtifactsOk, JobOk, ResultOk, IdemOk, AuditOk, VersionOk;
    AuditMoved(r.row, r.audit, target, actor, event, now);
    VersionMoved(r.row, target, event, now);
  }

  /** Changing anything of a participant but the update leaves the other tables consistent. */
  lemma ParticipantKeeps(r: Round, client: ClientId, p: Participant)
    requires RowsOk(r) && client in r.participants && p.update == r.participants[client].update
    ensures RowsOk(WithParticipant(r, client, p))
  {
    hide PlanOk, SchedulerOk, JobOk, ResultOk, AuditOk, VersionOk;
    var after := r.participants[client := p];
    assert after.Keys == r.participants.Keys;
    assert forall c | c in after :: after[c].update == r.participants[c].update;
    assert ArtifactsOk(r.artifacts, after, r.tasks, r.finalKey) by {
      forall id | id in r.artifacts ensures ArtifactOwned(id, r.artifacts[id], after, r.tasks, r.finalKey) {
        assert ArtifactOwned(id, r.artifacts[id], r.participants, r.tasks, r.finalKey);
      }
    }
  }

  /** Cutting a round short claims nothing new of its rows. */
  lemma CutShort(r: Round, target: RoundState, actor: string, event: EventType, now: Time)
    requires RowsOk(r) && !Terminal(r.row.state) && target in {Failed, Aborted, Expired}
    requires EventTarget(event, r.row.protocol) == Some(target)
    requires r.row.state != Created
    ensures Inv(Moved(r, target, actor, event, now))
  {
    hide RowsOk, BarriersOk, StageOk;
    MoveKeeps(r, target, actor, event, now);
    BarriersCutShort(target, r.participants);
    StageCutShort(target, r.row.protocol, r.participants.Keys, r.plan, r.tasks, r.finalReceipts, r.job);
  }

  lemma BarriersCutShort(s: RoundState, participants: map<ClientId, Participant>)
    requires !Alive(s)
    ensures BarriersOk(s, participants)
  {
  }

  lemma StageCutShort(s: RoundState, protocol: Protocol, members: set<ClientId>, plan: Option<Plan>,
                      tasks: map<TaskKey, TaskRow>, receipts: map<ClientId, FinalReceipt>, job: Option<Job>)
    requires !Alive(s)
    ensures StageOk(s, protocol, members, plan, tasks, receipts, job)
  {
  }

  // ---- Registration and key setup

  lemma FilledBarriers(s: RoundState, ps: map<ClientId, Participant>, client: ClientId, slot: JsonSlot, body: string, now: Time)
    requires client in ps && BarriersOk(s, ps) && (s.KeySetup? || (slot.PublicKeySlot? && s.RegistrationOpen?))
    ensures var after := ps[client := FillSlot(ps[client], slot, body, now)];
      if s.RegistrationOpen? && AllKeyed(after) then BarriersOk(KeySetup, after) else BarriersOk(s, after)
  {
    var after := ps[client := FillSlot(ps[client], slot, body, now)];
    assert after.Keys == ps.Keys;
    assert client in after;
  }

  lemma StageAfterRegistration(protocol: Protocol, members: set<ClientId>, plan: Option<Plan>, tasks: map<TaskKey, TaskRow>,
                               receipts: map<ClientId, FinalReceipt>, job: Option<Job>)
    requires StageOk(RegistrationOpen, protocol, members, plan, tasks, receipts, job)
    ensures StageOk(KeySetup, protocol, members, plan, tasks, receipts, job)
  {
  }

  lemma RecordJsonSlotKeeps(r: Round, client: ClientId, slot: JsonSlot, body: string,
                            key: string, digest: string, now: Time)
    requires Inv(r) && client in r.participants
    ensures Keeps(RecordJsonSlot(r, client, slot, body, key, digest, now), {IdempotencyConflict, RoundConflict})
  {
    hide RowsOk, BarriersOk, StageOk, AllKeyed;
    var k := IdemKey(client, SlotOperation(slot), key);
    var t := RecordJsonSlot(r, client, slot, body, key, digest, now);
    if k !in r.idem && t.Success? {
      var p := FillSlot(r.participants[client], slot, body, now);
      ParticipantKeeps(r, client, p);
      FilledBarriers(r.row.state, r.participants, client, slot, body, now);
      var filled := WithParticipant(r, client, p);
      RememberKeeps(filled, k, digest, AcceptedDigest(digest));
      var remembered := Remember(filled, k, digest, AcceptedDigest(digest));
      var event := if slot.PublicKeySlot? then PublicKeyAccepted else KeyBundleAccepted;
      if slot.PublicKeySlot? && AllKeyed(filled.participants) && r.row.state == RegistrationOpen {
        MoveKeeps(remembered, KeySetup, client, PublicKeyBarrier, now);
        LogKeeps(Moved(remembered, KeySetup, client, PublicKeyBarrier, now), client, event, now);
        StageAfterRegistration(r.row.protocol, r.participants.Keys, r.plan, r.tasks, r.finalReceipts, r.job);
      } else {
        LogKeeps(remembered, client, event, now);
      }
    }
  }

  // ---- The key-setup barrier and the plan

  lemma CommittedBarriers(s: RoundState, ps: map<ClientId, Participant>, client: ClientId, commitment: string, now: Time)
    requires client in ps && BarriersOk(s, ps) && s in {KeySetup, KeyAggregation, UpdateCollection}
    requires ps[client].commitment.Some? ==> ps[client].commitment == Some(commitment)
    ensures var after := ps[client := Confirmed(ps[client], commitment, now)];
      && (if s != KeySetup then AllCommitted(after) && CommitmentsAgree(after) && BarriersOk(s, after)
          else if !AllCommitted(after) then BarriersOk(s, after)
          else if !CommitmentsAgree(after) then BarriersOk(Failed, after)
          else BarriersOk(KeyAggregation, after) && BarriersOk(UpdateCollection, after))
  {
    var after := ps[client := Confirmed(ps[client], commitment, now)];
    assert after.Keys == ps.Keys;
    assert client in after;
  }

  lemma {:induction false} InitialTaskRows(groups: Groups, tasks: seq<Task>, n: nat)
    requires WellGrouped(groups) && n <= |tasks|
    requires forall t | t in tasks :: IsTask(groups, t.id) && t == TaskOf(groups, t.id)
    ensures forall k | k in InitialTasks(tasks, n) ::
      IsTask(groups, k) && InitialTasks(tasks, n)[k] == InitialTask(TaskOf(groups, k))
    ensures forall i | 0 <= i < n :: tasks[i].id in InitialTasks(tasks, n)
  {
    hide TaskOf, IsTask;
    if n > 0 {
      InitialTaskRows(groups, tasks, n - 1);
      assert tasks[n - 1] in tasks;
    }
  }

  lemma {:induction false} DependencyRows(groups: Groups, tasks: seq<Task>, n: nat)
    requires WellGrouped(groups) && n <= |tasks|
    requires forall t | t in tasks :: IsTask(groups, t.id) && t == TaskOf(groups, t.id)
    ensures forall k, d | (k, d) in DependencyEdges(tasks, n) :: IsTask(groups, k) && d in TaskOf(groups, k).dependencies
    ensures forall i, d | 0 <= i < n && d in tasks[i].dependencies :: (tasks[i].id, d) in DependencyEdges(tasks, n)
  {
    hide TaskOf, IsTask;
    if n > 0 {
      DependencyRows(groups, tasks, n - 1);
      assert tasks[n - 1] in tasks;
    }
  }

  lemma PlanRows(groups: Groups)
    requires WellGrouped(groups)
    ensures var tasks, n := PlanTasks(groups), |PlanTasks(groups)|; var rows := InitialTasks(tasks, n);
      && (forall k :: k in rows <==> IsTask(groups, k))
      && (forall k | k in rows :: rows[k] == InitialTask(TaskOf(groups, k)))
  {
    var tasks, n := PlanTasks(groups), |PlanTasks(groups)|;
    PlanTasksExact(groups);
    hide PlanTasks, TaskOf, IsTask;
    InitialTaskRows(groups, tasks, n);
    hide InitialTasks;
    forall k | IsTask(groups, k) ensures k in InitialTasks(tasks, n) {
      var t :| t in tasks && t.id == k;
      var i :| 0 <= i < n && tasks[i] == t;
    }
  }

  lemma PlanEdges(groups: Groups)
    requires WellGrouped(groups)
    ensures var tasks, n := PlanTasks(groups), |PlanTasks(groups)|; var edges := DependencyEdges(tasks, n);
      forall k, d :: (k, d) in edges <==> IsTask(groups, k) && d in TaskOf(groups, k).dependencies
  {
    var tasks, n := PlanTasks(groups), |PlanTasks(groups)|;
    PlanTasksExact(groups);
    hide PlanTasks, TaskOf, IsTask;
    DependencyRows(groups, tasks, n);
    hide DependencyEdges;
    forall k, d | IsTask(groups, k) && d in TaskOf(groups, k).dependencies ensures (k, d) in DependencyEdges(tasks, n) {
      var t :| t in tasks && t.id == k;
      var i :| 0 <= i < n && tasks[i] == t;
    }
  }

  /** The rows written for a fresh plan are exactly its tasks and dependencies, and the tasks without dependencies are ready. */
  lemma PlanInstalled(plan: Plan, roster: seq<ClientId>)
    requires Partitions(plan.groups, roster) && plan == PlanOf(plan.participants, plan.groups)
    ensures var n := |plan.tasks|; var tasks := InitialTasks(plan.tasks, n);
      TasksOfPlan(plan, roster, tasks, DependencyEdges(plan.tasks, n)) && SchedulerOk(tasks, map[])
  {
    hide TaskOf, IsTask, InitialTasks, DependencyEdges, PlanTasks, SchedulerOk, MembersDistinct;
    PlanRows(plan.groups);
    InitiallyScheduled(plan.groups, InitialTasks(plan.tasks, |plan.tasks|));
    PlanEdges(plan.groups);
  }

  lemma InitiallyScheduled(groups: Groups, tasks: map<TaskKey, TaskRow>)
    requires WellGrouped(groups) && forall k :: k in tasks <==> IsTask(groups, k)
    requires forall k | k in tasks :: tasks[k] == InitialTask(TaskOf(groups, k))
    ensures SchedulerOk(tasks, map[])
  {
    hide IsTask, Sender, Receiver;
    forall k | k in tasks ensures TaskOk(tasks, k) {
      DependenciesAreTasks(groups, k);
      hide Dependencies;
      var d := Dependencies(groups, k);
      assert d != [] ==> d[0] in d;
    }
  }

  predicate NothingUploaded(tasks: map<TaskKey, TaskRow>) {
    forall k | k in tasks :: tasks[k].upload.None? && tasks[k].state in {Waiting, Ready}
  }

  lemma FreshTasks(plan: Plan, roster: seq<ClientId>)
    requires Partitions(plan.groups, roster) && plan == PlanOf(plan.participants, plan.groups)
    ensures NothingUploaded(InitialTasks(plan.tasks, |plan.tasks|))
  {
    hide TaskOf, IsTask, InitialTasks, PlanTasks, MembersDistinct;
    PlanRows(plan.groups);
  }

  /** Installing a plan of the roster where there was none. */
  lemma InstallKeeps(r: Round, plan: Plan)
    requires RowsOk(r) && r.plan.None? && r.row.protocol == V11
    requires Partitions(plan.groups, r.row.roster) && plan == PlanOf(plan.participants, plan.groups)
    ensures RowsOk(InstallPlan(r, plan))
  {
    hide TasksOfPlan, InitialTasks, DependencyEdges, Partitions, PlanOf, AuditOk, IdemOk, ResultOk, JobOk, VersionOk, RosterOk;
    PlanInstalled(plan, r.row.roster);
    FreshTasks(plan, r.row.roster);
    hide PlanTasks, TaskOk;
    var after := InstallPlan(r, plan);
    assert r.taskReceipts == map[];
    assert FinalOk(after.participants, after.plan, after.tasks, after.finalKey, after.finalReceipts);
    assert ArtifactsOk(after.artifacts, after.participants, after.tasks, after.finalKey) by {
      hide SchedulerOk;
      forall id | id in r.artifacts
        ensures ArtifactOwned(id, r.artifacts[id], after.participants, after.tasks, after.finalKey)
      {
        assert ArtifactOwned(id, r.artifacts[id], r.participants, r.tasks, r.finalKey);
      }
    }
  }

  lemma BeforePlan(r: Round)
    requires RowsOk(r)
    requires StageOk(KeySetup, r.row.protocol, r.participants.Keys, r.plan, r.tasks, r.finalReceipts, r.job)
    ensures r.plan.None? && r.finalReceipts == map[] && r.participants.Keys != {}
    ensures 3 <= |r.row.roster| <= DRAW_LIMIT && Distinct(r.row.roster)
  {
    hide PlanOk, SchedulerOk, ArtifactsOk, AuditOk, IdemOk, ResultOk, JobOk, VersionOk;
    assert r.row.roster[0] in r.participants;
  }

  /** Nobody holds a final key before there is a plan, so key aggregation starts without receipts. */
  lemma StageAfterKeySetup(r: Round, plan: Option<Plan>, tasks: map<TaskKey, TaskRow>)
    requires RowsOk(r) && r.row.state.KeySetup?
    requires StageOk(KeySetup, r.row.protocol, r.participants.Keys, r.plan, r.tasks, r.finalReceipts, r.job)
    requires plan.Some? || r.row.protocol == V10
    ensures StageOk(if r.row.protocol == V11 then KeyAggregation else UpdateCollection,
                    r.row.protocol, r.participants.Keys, plan, tasks, r.finalReceipts, r.job)
  {
    BeforePlan(r);
    hide RowsOk;
  }

  lemma KeyedInAggregation(participants: map<ClientId, Participant>)
    requires BarriersOk(KeyAggregation, participants)
    ensures AllKeyed(participants)
  {
  }

  /** The plan of the confirmed round, and the move into key aggregation. */
  lemma PlannedKeeps(r: Round, plan: Plan, client: ClientId, now: Time)
    requires RowsOk(r) && r.row.state == KeySetup && r.row.protocol == V11
    requires StageOk(KeySetup, V11, r.participants.Keys, r.plan, r.tasks, r.finalReceipts, r.job)
    requires BarriersOk(KeyAggregation, r.participants)
    requires Partitions(plan.groups, r.row.roster) && plan == PlanOf(plan.participants, plan.groups)
    ensures Inv(Moved(Log(InstallPlan(r, plan), "coordinator", TreePlanCommitted, now),
                      KeyAggregation, client, KeySetupBarrier, now))
  {
    hide RowsOk, BarriersOk, StageOk, Partitions, PlanOf, InstallPlan;
    var installed := InstallPlan(r, plan);
    PlanRowInstalled(r, plan);
    BeforePlan(r);
    StageAfterKeySetup(r, installed.plan, installed.tasks);
    InstallKeeps(r, plan);
    LogKeeps(installed, "coordinator", TreePlanCommitted, now);
    MoveKeeps(Log(installed, "coordinator", TreePlanCommitted, now), KeyAggregation, client, KeySetupBarrier, now);
  }

  lemma PlanRowInstalled(r: Round, plan: Plan)
    ensures var after := InstallPlan(r, plan);
      && after.row == r.row && after.participants == r.participants && after.plan == Some(plan)
      && after.finalReceipts == r.finalReceipts && after.job == r.job
  {
  }

  lemma CrossKeySetupKeeps(r: Round, client: ClientId, draw: Draws, now: Time)
    requires RowsOk(r) && r.row.state == KeySetup && Productive(draw)
    requires StageOk(KeySetup, r.row.protocol, r.participants.Keys, r.plan, r.tasks, r.finalReceipts, r.job)
    requires if !AllCommitted(r.participants) then BarriersOk(KeySetup, r.participants)
      else CommitmentsAgree(r.participants) ==>
        BarriersOk(KeyAggregation, r.participants) && BarriersOk(UpdateCollection, r.participants)
    ensures Keeps(CrossKeySetup(r, client, draw, now), {})
  {
    hide RowsOk, BarriersOk, StageOk, AllCommitted, CommitmentsAgree, AllKeyed, PlanFor, PlanOf, Partitions, InstallPlan;
    if AllCommitted(r.participants) {
      BeforePlan(r);
      if !CommitmentsAgree(r.participants) {
        CutShort(r, Failed, client, KeyContextMismatched, now);
      } else if r.row.protocol == V11 {
        KeyedInAggregation(r.participants);
        DerivedPlanPartitions(r.row.roster, draw);
        var plan := PlanFor(r.row.roster, draw).value;
        PlanRowInstalled(r, plan);
        PlannedKeeps(r, plan, client, now);
      } else {
        StageAfterKeySetup(r, r.plan, r.tasks);
        MoveKeeps(r, UpdateCollection, client, KeySetupBarrier, now);
      }
    }
  }

  /** The round takes no confirmation now, or the participant committed to something else before. */
  predicate ConfirmationBarred(r: Round, client: ClientId, commitment: string)
    requires client in r.participants
  {
    || r.row.state !in {KeySetup, KeyAggregation, UpdateCollection}
    || (r.participants[client].commitment.Some? && r.participants[client].commitment != Some(commitment))
  }

  /**
   * A confirmation keeps the invariant. It is rolled back only for other content under its key, or when it is barred;
   * once it passes these checks it is committed, whatever it reveals.
   */
  lemma KeyCompleteKeeps(r: Round, client: ClientId, commitment: string, key: string, digest: string,
                         draw: Draws, now: Time)
    requires Inv(r) && client in r.participants && Productive(draw)
    ensures Keeps(KeyComplete(r, client, commitment, key, digest, draw, now), {IdempotencyConflict, RoundConflict})
    ensures KeyComplete(r, client, commitment, key, digest, draw, now) == Failure(RoundConflict)
      <==> IdemKey(client, KeyCompleteOp, key) !in r.idem && ConfirmationBarred(r, client, commitment)
  {
    hide RowsOk, BarriersOk, StageOk, AllCommitted, CommitmentsAgree, AllKeyed;
    var k := IdemKey(client, KeyCompleteOp, key);
    var p := r.participants[client];
    if k !in r.idem && r.row.state in {KeySetup, KeyAggregation, UpdateCollection}
      && (p.commitment.Some? ==> p.commitment == Some(commitment))
    {
      ParticipantKeeps(r, client, Confirmed(p, commitment, now));
      CommittedBarriers(r.row.state, r.participants, client, commitment, now);
      var committed := WithParticipant(r, client, Confirmed(p, commitment, now));
      RememberKeeps(committed, k, digest, Accepted);
      LogKeeps(Remember(committed, k, digest, Accepted), client, KeyContextAccepted, now);
      if r.row.state == KeySetup {
        var logged := Log(Remember(committed, k, digest, Accepted), client, KeyContextAccepted, now);
        hide CrossKeySetup;
        CrossKeySetupKeeps(logged, client, draw, now);
      }
    }
  }
}
