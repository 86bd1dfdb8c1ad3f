/** Barriers, the audit log, terminal states, frozen inputs and retention, over whole runs. */
module RunProperties {
  import opened Growth
  import opened JobSteps
  import opened Names
  import opened PlanShape
  import opened RoundInvariant
  import opened Rounds
  import opened RoundSteps
  import opened Runs
  import opened Sequences
  import opened Shuffling
  import opened States
  import opened TaskSteps
  import opened Topology
  import opened Wrappers

  // ---- Barriers

  predicate AllCommittedTo(participants: map<ClientId, Participant>, m: string) {
    forall c | c in participants :: participants[c].commitment == Some(m)
  }

  /** Everybody has contributed to each barrier behind the round. */
  ghost predicate BarriersPassed(cfg: Config, r: Round) {
    var s, ps := r.row.state, r.participants;
    && ps.Keys == SetOf(cfg.roster)
    && (PastRegistration(s) ==> AllKeyed(ps))
    && (PastKeySetup(s) ==> exists m: string :: AllCommittedTo(ps, m))
    && (cfg.protocol == V11 && PastKeySetup(s) ==> r.plan.Some?)
    && (cfg.protocol == V11 && PastKeyAggregation(s) ==>
          AllTasksCompleted(r.tasks) && r.finalReceipts.Keys == SetOf(cfg.roster))
    && (PastCollection(s) ==> AllUpdated(ps))
    && (s.Completed? ==> AllDone(ps))
  }

  /** In every reachable state, everybody has contributed to each barrier the round has passed. */
  lemma BarriersHold(cfg: Config, steps: seq<Step>, n: nat, draw: Draws)
    requires Proper(cfg) && Productive(draw) && n <= |steps|
    ensures BarriersPassed(cfg, Reached(cfg, steps, n, draw))
  {
    ReachedKeeps(cfg, steps, n, draw);
    var r := Reached(cfg, steps, n, draw);
    hide Reached, RowsOk;
    if PastKeySetup(r.row.state) {
      AgreedCommitment(r.participants, cfg.roster);
    }
  }

  lemma AgreedCommitment(participants: map<ClientId, Participant>, roster: seq<ClientId>)
    requires roster != [] && participants.Keys == SetOf(roster)
    requires AllCommitted(participants) && CommitmentsAgree(participants)
    ensures exists m: string :: AllCommittedTo(participants, m)
  {
    assert roster[0] in participants;
    assert AllCommittedTo(participants, participants[roster[0]].commitment.value);
  }

  // ---- The audit log

  lemma {:induction false} EveryVersionLogged(audit: seq<AuditEvent>, n: nat, v: nat) returns (i: nat)
    requires n <= |audit| && 1 <= v <= Versions(audit, n)
    ensures i < n && audit[i].version.Some? && Versions(audit, i + 1) == v
  {
    if Versions(audit, n - 1) < v {
      i := n - 1;
    } else {
      i := EveryVersionLogged(audit, n - 1, v);
    }
  }

  lemma {:induction false} VersionsGrow(audit: seq<AuditEvent>, m: nat, n: nat)
    requires m <= n <= |audit|
    ensures Versions(audit, m) <= Versions(audit, n)
    decreases n
  {
    if m < n {
      VersionsGrow(audit, m, n - 1);
    }
  }

  /** The versioned events carry the numbers 1 to state_version, each once and in order. */
  ghost predicate Numbered(audit: seq<AuditEvent>, version: nat) {
    && (forall v | 1 <= v <= version :: exists i :: 0 <= i < |audit| && audit[i].version == Some(v))
    && (forall i | 0 <= i < |audit| && audit[i].version.Some? :: 1 <= audit[i].version.value <= version)
    && (forall i, j | 0 <= i < j < |audit| && audit[i].version.Some? && audit[j].version.Some? ::
          audit[i].version.value < audit[j].version.value)
  }

  lemma AuditNumbered(row: RoundRow, audit: seq<AuditEvent>)
    requires AuditOk(row, audit)
    ensures Numbered(audit, row.version)
  {
    forall v | 1 <= v <= row.version ensures exists i :: 0 <= i < |audit| && audit[i].version == Some(v) {
      var i := EveryVersionLogged(audit, |audit|, v);
    }
    forall i | 0 <= i < |audit| && audit[i].version.Some? ensures 1 <= audit[i].version.value <= row.version {
      VersionsGrow(audit, i + 1, |audit|);
    }
    forall i, j | 0 <= i < j < |audit| && audit[i].version.Some? && audit[j].version.Some?
      ensures audit[i].version.value < audit[j].version.value
    {
      VersionsGrow(audit, i + 1, j);
    }
  }

  /** The audit log gives the state of the round, which never has more than a fixed number of versions. */
  ghost predicate Replayable(cfg: Config, r: Round) {
    && Numbered(r.audit, r.row.version)
    && StateAfter(r.audit, |r.audit|, cfg.protocol) == r.row.state
    && 1 <= r.row.version <= if cfg.protocol == V11 then 7 else 6
  }

  /**
   * In every reachable state the versioned events are numbered 1 to state_version, replaying them gives
   * the state, and no round goes through more than seven versions, or six under protocol 1.0.
   */
  lemma AuditDeterminesState(cfg: Config, steps: seq<Step>, n: nat, draw: Draws)
    requires Proper(cfg) && Productive(draw) && n <= |steps|
    ensures Replayable(cfg, Reached(cfg, steps, n, draw))
  {
    hide Reached, Inv, AuditOk, VersionOk, StateAfter, Numbered;
    ReachedKeeps(cfg, steps, n, draw);
    AuditHolds(cfg, Reached(cfg, steps, n, draw));
  }

  lemma AuditHolds(cfg: Config, r: Round)
    requires Inv(r) && Configured(cfg, r)
    ensures Replayable(cfg, r)
  {
    hide RosterOk, PlanOk, SchedulerOk, FinalOk, ArtifactsOk, JobOk, ResultOk, IdemOk, BarriersOk, StageOk, Numbered;
    AuditNumbered(r.row, r.audit);
  }

  /** Once a round is terminal its row never changes again, and every event logged later is unversioned. */
  lemma TerminalStays(cfg: Config, steps: seq<Step>, m: nat, n: nat, draw: Draws)
    requires Proper(cfg) && Productive(draw) && m <= n <= |steps|
    requires Terminal(Reached(cfg, steps, m, draw).row.state)
    ensures var r, after := Reached(cfg, steps, m, draw), Reached(cfg, steps, n, draw);
      && after.row == r.row && r.audit <= after.audit
      && forall i | |r.audit| <= i < |after.audit| :: after.audit[i].version.None?
  {
    hide Reached, Configured;
    ReachedGrows(cfg, steps, m, n, draw);
    ReachedKeeps(cfg, steps, m, draw);
    ReachedKeeps(cfg, steps, n, draw);
    var r, after := Reached(cfg, steps, m, draw), Reached(cfg, steps, n, draw);
    NothingVersionedLater(r.audit, after.audit, |after.audit|);
  }

  lemma {:induction false} NothingVersionedLater(before: seq<AuditEvent>, after: seq<AuditEvent>, n: nat)
    requires before <= after && |before| <= n <= |after|
    requires Versions(after, n) <= Versions(before, |before|)
    ensures forall i | |before| <= i < n :: after[i].version.None?
    decreases n
  {
    PrefixVersions(before, after, |before|);
    if |before| < n {
      VersionsGrow(after, |before|, n - 1);
      NothingVersionedLater(before, after, n - 1);
    }
  }

  lemma {:induction false} PrefixVersions(before: seq<AuditEvent>, after: seq<AuditEvent>, n: nat)
    requires before <= after && n <= |before|
    ensures Versions(after, n) == Versions(before, n)
  {
    if n > 0 {
      PrefixVersions(before, after, n - 1);
    }
  }

  // ---- Retention

  /** The retention window is measured once: from creation until the round ends, and from its end ever after. */
  lemma RetentionMeasuredOnce(cfg: Config, steps: seq<Step>, n: nat, draw: Draws)
    requires Proper(cfg) && Productive(draw) && n <= |steps|
    ensures var row := Reached(cfg, steps, n, draw).row;
      if Terminal(row.state) then row.completedAt.Some? && row.retentionAt == row.completedAt.value + cfg.retention
      else row.completedAt.None? && row.retentionAt == cfg.createdAt + cfg.retention
  {
    hide Reached, Configured, Inv;
    ReachedGrows(cfg, steps, 0, n, draw);
    AtFirst(cfg, steps, draw);
  }

  // ---- The inputs of the aggregation

  function UpdateRows(r: Round): set<string> {
    set id | id in r.artifacts && r.artifacts[id].kind == UpdateFile
  }

  /** The update rows are one per client of the roster. */
  ghost predicate OneUpdateEach(r: Round, roster: seq<ClientId>) {
    && (forall c | c in roster :: exists id :: IsUpdateOf(r.artifacts, c, id))
    && (forall c, a, b :: IsUpdateOf(r.artifacts, c, a) && IsUpdateOf(r.artifacts, c, b) ==> a == b)
    && (forall id | id in UpdateRows(r) :: r.artifacts[id].client.Some? && r.artifacts[id].client.value in roster)
    && |UpdateRows(r)| == |roster|
  }

  lemma UpdatesCounted(r: Round)
    requires Inv(r) && AllUpdated(r.participants)
    ensures OneUpdateEach(r, r.row.roster) && r.row.expectedCount == |r.row.roster|
  {
    hide PlanOk, SchedulerOk, FinalOk, JobOk, ResultOk, AuditOk, VersionOk, IdemOk, BarriersOk, StageOk, OneUpdateEach;
    CountUpdates(r, r.row.roster);
  }

  lemma CountUpdates(r: Round, roster: seq<ClientId>)
    requires Distinct(roster) && r.participants.Keys == SetOf(roster) && AllUpdated(r.participants)
    requires ArtifactsOk(r.artifacts, r.participants, r.tasks, r.finalKey)
    ensures OneUpdateEach(r, roster)
  {
    var ps := r.participants;
    assert forall c :: c in roster <==> c in ps;
    UpdatesOwned(r);
    var ids := seq(|roster|, i requires 0 <= i < |roster| => ps[roster[i]].update.value.artifactId);
    forall i | 0 <= i < |roster| ensures IsUpdateOf(r.artifacts, roster[i], ids[i]) {
      assert UpdateFiled(r.artifacts, roster[i], ps[roster[i]].update.value);
    }
    hide ArtifactsOk;
    forall id | id in UpdateRows(r) ensures id in ids {
      var c := r.artifacts[id].client.value;
      assert IsUpdateOf(r.artifacts, c, id) && c in roster;
      var i :| 0 <= i < |roster| && roster[i] == c;
      assert ids[i] == id;
    }
    assert SetOf(ids) == UpdateRows(r);
    assert Distinct(ids);
    DistinctIffFullSet(ids);
  }

  /** An update row belongs to a participant, whose slot names it. */
  lemma UpdatesOwned(r: Round)
    requires ArtifactsOk(r.artifacts, r.participants, r.tasks, r.finalKey)
    ensures forall c, id | IsUpdateOf(r.artifacts, c, id) ::
      c in r.participants && r.participants[c].update.Some? && r.participants[c].update.value.artifactId == id
    ensures forall id | id in UpdateRows(r) :: r.artifacts[id].client.Some? && r.artifacts[id].client.value in r.participants
  {
    assert forall id | id in UpdateRows(r) :: ArtifactOwned(id, r.artifacts[id], r.participants, r.tasks, r.finalKey);
  }

  /** The worker's input: what is stored for each client once the round is being aggregated. */
  ghost predicate SameInputs(r: Round, after: Round) {
    && UpdateRows(after) == UpdateRows(r)
    && (forall id | id in UpdateRows(r) :: id in after.artifacts && after.artifacts[id] == r.artifacts[id])
    && after.participants.Keys == r.participants.Keys
    && (forall c | c in r.participants :: after.participants[c].update == r.participants[c].update)
  }

  lemma UpdateStored(r: Round, c: ClientId)
    requires Inv(r) && c in r.participants && r.participants[c].update.Some?
    ensures UpdateFiled(r.artifacts, c, r.participants[c].update.value)
  {
  }

  lemma GrownInputs(r: Round, after: Round)
    requires Inv(r) && Inv(after) && Grows(r, after) && AllUpdated(r.participants)
    ensures SameInputs(r, after)
  {
    hide PlanOk, SchedulerOk, FinalOk, JobOk, ResultOk, AuditOk, VersionOk, IdemOk, BarriersOk, StageOk, RosterOk,
      TasksGrow, JobGrows, RowGrows;
    UpdatesOwned(r);
    UpdatesOwned(after);
    assert forall c | c in r.participants :: ParticipantGrows(r.participants[c], after.participants[c]);
    hide ArtifactsOk;
    forall id | id in UpdateRows(after) ensures id in UpdateRows(r) {
      var c := after.artifacts[id].client.value;
      assert IsUpdateOf(after.artifacts, c, id);
      UpdateStored(r, c);
    }
  }

  /**
   * From the update barrier on there is exactly one update row for each of the expected participants, and neither the
   * rows nor the tags beside them ever change, so the worker's count check cannot fail.
   */
  lemma InputsFrozen(cfg: Config, steps: seq<Step>, m: nat, n: nat, draw: Draws)
    requires Proper(cfg) && Productive(draw) && m <= n <= |steps|
    requires PastCollection(Reached(cfg, steps, m, draw).row.state)
    ensures OneUpdateEach(Reached(cfg, steps, n, draw), cfg.roster)
    ensures SameInputs(Reached(cfg, steps, m, draw), Reached(cfg, steps, n, draw))
  {
    hide Reached, Inv, SameInputs, OneUpdateEach;
    ReachedKeeps(cfg, steps, m, draw);
    ReachedKeeps(cfg, steps, n, draw);
    ReachedGrows(cfg, steps, m, n, draw);
    var r, after := Reached(cfg, steps, m, draw), Reached(cfg, steps, n, draw);
    AllUpdatedBehindBarrier(r, after);
    hide Grows;
    GrownInputs(r, after);
    UpdatesCounted(after);
  }

  lemma AllUpdatedBehindBarrier(r: Round, after: Round)
    requires Inv(r) && Grows(r, after) && PastCollection(r.row.state)
    ensures AllUpdated(r.participants) && AllUpdated(after.participants)
  {
    hide RowsOk, StageOk, TasksGrow, JobGrows, RowGrows;
  }
}
