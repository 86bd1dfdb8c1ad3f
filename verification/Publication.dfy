/** The job lease over whole runs: bounded attempts, one publication by the last claimant, no orphaned round. */
module Publication {
  import opened Frames
  import opened Growth
  import opened JobSteps
  import opened Names
  import opened PlanShape
  import opened RoundInvariant
  import opened Rounds
  import opened RoundSteps
  import opened Runs
  import opened Sequences
  import opened Shuffling
  import opened States
  import opened TaskSteps
  import opened Wrappers

  // ---- Only a claim is an attempt

  predicate ClaimAccepted(r: Round, step: Step) {
    step.op.Claim? && step.op.lease > 0.0 && Claimable(r, step.now)
  }

  /** An accepted claim takes a queued job for its token; it is answered differently from finding nothing. */
  lemma ClaimTakes(r: Round, step: Step, draw: Draws)
    requires step.op.Claim?
    ensures var o := Perform(r, step, draw);
      && (o.reply == Success(Reply(Accepted, false)) <==> ClaimAccepted(r, step))
      && (if ClaimAccepted(r, step) then
            Attempts(o.round.job) == Attempts(r.job) + 1 && Holder(r.job) == None && Holder(o.round.job) == Some(step.op.token)
          else o.round == r)
  {
  }

  // ---- Over a run

  ghost predicate ClaimedAt(cfg: Config, steps: seq<Step>, n: nat, draw: Draws)
    requires n < |steps|
  {
    ClaimAccepted(Reached(cfg, steps, n, draw), steps[n])
  }

  /** How many claims succeeded in the first n steps. */
  ghost function Claims(cfg: Config, steps: seq<Step>, n: nat, draw: Draws): nat
    requires n <= |steps|
  {
    if n == 0 then 0 else Claims(cfg, steps, n - 1, draw) + if ClaimedAt(cfg, steps, n - 1, draw) then 1 else 0
  }

  /** The token of the last claim that succeeded in the first n steps. */
  ghost function LastToken(cfg: Config, steps: seq<Step>, n: nat, draw: Draws): Option<string>
    requires n <= |steps|
  {
    if n == 0 then None
    else if ClaimedAt(cfg, steps, n - 1, draw) then Some(steps[n - 1].op.token)
    else LastToken(cfg, steps, n - 1, draw)
  }

  lemma JobGrown(r: Round, after: Round)
    requires Grows(r, after)
    ensures JobGrows(r.job, after.job)
  {
    hide JobGrows;
  }

  lemma StepAttempts(r: Round, step: Step, draw: Draws)
    requires Inv(r) && Productive(draw)
    ensures var after := Perform(r, step, draw).round;
      if ClaimAccepted(r, step) then Attempts(after.job) == Attempts(r.job) + 1 && Holder(after.job) == Some(step.op.token)
      else Attempts(after.job) == Attempts(r.job) && Holder(after.job) in {None, Holder(r.job)}
  {
    hide Inv, Grows, Transact, Claimable, KeepsJob, KeepsTasks, KeepsArtifacts;
    PerformKeeps(r, step, draw);
    JobGrown(r, Perform(r, step, draw).round);
    if step.op.Claim? {
      ClaimTakes(r, step, draw);
    } else {
      StepFrame(r, step, draw);
    }
  }

  /** The attempts of the job are the successful claims, and whoever holds it made the last of them. */
  lemma {:induction false} HeldByLastClaimant(cfg: Config, steps: seq<Step>, n: nat, draw: Draws)
    requires Proper(cfg) && Productive(draw) && n <= |steps|
    ensures var job := Reached(cfg, steps, n, draw).job;
      && Attempts(job) == Claims(cfg, steps, n, draw) <= MAX_ATTEMPTS
      && Holder(job) in {None, LastToken(cfg, steps, n, draw)}
  {
    hide Inv, Reached, Perform, ClaimAccepted, Configured;
    ReachedKeeps(cfg, steps, n, draw);
    AttemptsBounded(Reached(cfg, steps, n, draw));
    if n == 0 {
      AtFirst(cfg, steps, draw);
    } else {
      HeldByLastClaimant(cfg, steps, n - 1, draw);
      ReachedKeeps(cfg, steps, n - 1, draw);
      NextReached(cfg, steps, n - 1, draw);
      StepAttempts(Reached(cfg, steps, n - 1, draw), steps[n - 1], draw);
    }
  }

  lemma AttemptsBounded(r: Round)
    requires Inv(r)
    ensures Attempts(r.job) <= MAX_ATTEMPTS
  {
  }

  // ---- Publication

  /**
   * A publication succeeds exactly when its token holds the job, the round is still being aggregated and the stored
   * file is new. The lease does not matter: a claim that ran out but was not reclaimed may still publish.
   */
  lemma PublishedExactlyWhen(r: Round, step: Step, draw: Draws)
    requires Inv(r) && step.op.Publish?
    ensures var o := Perform(r, step, draw);
      && (o.reply.Success? <==>
            && Owns(r.job, step.op.jobId, step.op.token) && r.row.state == Aggregating
            && Insertable(r.artifacts, step.op.stored))
      && (o.reply.Success? ==>
            && o.reply.value == Reply(Accepted, false)
            && o.round.job.Some? && o.round.job.value.state == JobCompleted && o.round.job.value.tag == Some(step.op.tag)
            && o.round.row.state == ResultReady
            && step.op.stored.objectId in o.round.artifacts
            && o.round.artifacts[step.op.stored.objectId].kind == ResultFile)
      && (o.reply.Failure? ==> o.round == r)
  {
    hide Inv, HasResult, InsertResult;
    NoResultYet(r);
    if Owns(r.job, step.op.jobId, step.op.token) {
      FirstInsert(r, step.op.stored, step.now);
      FirstInsertable(r, step.op.stored, step.now);
    }
  }

  lemma FirstInsertable(r: Round, stored: Stored, now: Time)
    requires !HasResult(r.artifacts)
    ensures InsertResult(r, stored, now).Success? <==> Insertable(r.artifacts, stored)
  {
  }

  ghost predicate PublishedAt(cfg: Config, steps: seq<Step>, n: nat, draw: Draws)
    requires n < |steps|
  {
    steps[n].op.Publish? && Answer(cfg, steps, n, draw).Success?
  }

  lemma ClosedJobStays(r: Round, after: Round)
    requires Grows(r, after) && r.job.Some? && r.job.value.state == JobCompleted
    ensures after.job == r.job
  {
  }

  /** What is published was published by the last client to claim the job, while the round was being aggregated. */
  lemma PublishedByLastClaimant(cfg: Config, steps: seq<Step>, n: nat, draw: Draws)
    requires Proper(cfg) && Productive(draw) && n < |steps| && PublishedAt(cfg, steps, n, draw)
    ensures LastToken(cfg, steps, n, draw) == Some(steps[n].op.token)
    ensures Reached(cfg, steps, n, draw).row.state == Aggregating
    ensures Reached(cfg, steps, n + 1, draw).row.state == ResultReady
  {
    hide Inv, Reached, Perform, ClaimAccepted, Configured, LastToken, Claims;
    ReachedKeeps(cfg, steps, n, draw);
    HeldByLastClaimant(cfg, steps, n, draw);
    NextReached(cfg, steps, n, draw);
    PublishedExactlyWhen(Reached(cfg, steps, n, draw), steps[n], draw);
  }

  /** At most one publication succeeds: every other one, by whatever worker and token, is turned away. */
  lemma PublishedAtMostOnce(cfg: Config, steps: seq<Step>, m: nat, n: nat, draw: Draws)
    requires Proper(cfg) && Productive(draw) && m < |steps| && n < |steps|
    requires PublishedAt(cfg, steps, m, draw) && PublishedAt(cfg, steps, n, draw)
    ensures m == n
  {
    if m < n {
      LaterPublicationFails(cfg, steps, m, n, draw);
    } else if n < m {
      LaterPublicationFails(cfg, steps, n, m, draw);
    }
  }

  lemma LaterPublicationFails(cfg: Config, steps: seq<Step>, m: nat, n: nat, draw: Draws)
    requires Proper(cfg) && Productive(draw) && m < n < |steps|
    requires PublishedAt(cfg, steps, m, draw) && steps[n].op.Publish?
    ensures Answer(cfg, steps, n, draw).Failure?
  {
    hide Inv, Reached, Perform, Configured, Grows;
    ReachedKeeps(cfg, steps, m, draw);
    ReachedKeeps(cfg, steps, n, draw);
    NextReached(cfg, steps, m, draw);
    NextReached(cfg, steps, n, draw);
    PublishedExactlyWhen(Reached(cfg, steps, m, draw), steps[m], draw);
    PublishedExactlyWhen(Reached(cfg, steps, n, draw), steps[n], draw);
    ReachedGrows(cfg, steps, m + 1, n, draw);
    ClosedJobStays(Reached(cfg, steps, m + 1, draw), Reached(cfg, steps, n, draw));
  }

  // ---- No orphaned round

  /** The job and result rows agree with the state of the round. */
  ghost predicate Attended(r: Round) {
    && (r.row.state.Aggregating? ==>
          && r.job.Some?
          && (r.job.value.state == JobClaimed
            || (r.job.value.state == JobReady && r.job.value.attempts < r.job.value.maxAttempts)))
    && (r.job.Some? ==> r.job.value.attempts <= r.job.value.maxAttempts == MAX_ATTEMPTS)
    && (PastAggregation(r.row.state) ==>
          && r.job.Some? && r.job.value.state == JobCompleted && r.job.value.tag.Some?
          && exists id | id in r.artifacts :: r.artifacts[id].kind == ResultFile)
    && (forall a, b | a in r.artifacts && b in r.artifacts ::
          r.artifacts[a].kind == ResultFile && r.artifacts[b].kind == ResultFile ==> a == b)
  }

  /**
   * In every reachable state a round being aggregated has a job that is claimed or can still be, a round past
   * aggregation has its completed job with the tag and its result, and no round has two results.
   */
  lemma NeverOrphaned(cfg: Config, steps: seq<Step>, n: nat, draw: Draws)
    requires Proper(cfg) && Productive(draw) && n <= |steps|
    ensures Attended(Reached(cfg, steps, n, draw))
  {
    ReachedKeeps(cfg, steps, n, draw);
    var r := Reached(cfg, steps, n, draw);
    hide Reached, RosterOk, PlanOk, SchedulerOk, FinalOk, ArtifactsOk, AuditOk, VersionOk, IdemOk, BarriersOk;
  }

  /** Before the deadline an aggregating round can be claimed, at once or after its lapsed claim is taken back. */
  lemma ClaimableAgain(r: Round, now: Time, lease: Time, token: string, draw: Draws)
    requires Inv(r) && r.row.state == Aggregating && now < r.row.deadlineAt && lease > 0.0
    requires r.job.value.state == JobClaimed ==> LeaseOver(r.job.value, now, lease)
    ensures var reclaimed := Perform(r, Step(Reclaim(lease), now), draw).round;
      var claimed := Perform(reclaimed, Step(Claim(lease, token), now), draw).round;
      if r.job.value.state == JobClaimed && r.job.value.attempts == MAX_ATTEMPTS then reclaimed.row.state == Failed
      else Holder(claimed.job) == Some(token) && claimed.row.state == Aggregating
  {
    hide RowsOk, BarriersOk;
    JobBounds(r);
  }
}
