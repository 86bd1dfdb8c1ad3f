/** The database as its callers see it: every round's rows are always what some run of that round reaches. */
module Database {
  import opened Files
  import opened Filing
  import opened Growth
  import opened Names
  import opened PlanShape
  import opened RoundInvariant
  import opened Rounds
  import opened RoundSteps
  import opened Runs
  import opened Sequences
  import opened Shuffling
  import opened States
  import opened Tables
  import T = Transactions
  import opened TaskSteps
  import opened Topology
  import opened Wrappers

  /** What a create request is remembered under. */
  datatype CreationKey = CreationKey(actor: string, federation: string, key: string)
  datatype Creation = Creation(digest: string, roundId: RoundId)

  /** The rows are those the run reaches. */
  ghost predicate Faithful(cfg: Config, steps: seq<Step>, draw: Draws, r: Round) {
    Proper(cfg) && Productive(draw) && r == Reached(cfg, steps, |steps|, draw)
  }

  lemma {:induction false} SameStart(r: Round, steps: seq<Step>, more: seq<Step>, n: nat, draw: Draws)
    requires n <= |steps| && steps <= more
    ensures RunTo(r, more, n, draw) == RunTo(r, steps, n, draw)
  {
    hide Perform;
    if n > 0 {
      SameStart(r, steps, more, n - 1, draw);
    }
  }

  lemma OneMore(cfg: Config, steps: seq<Step>, draw: Draws, r: Round, step: Step)
    requires Faithful(cfg, steps, draw, r)
    ensures Faithful(cfg, steps + [step], draw, Perform(r, step, draw).round)
  {
    hide Perform, Started;
    SameStart(Started(cfg), steps, steps + [step], |steps|, draw);
  }

  /** What the transactions rely on. */
  ghost predicate Served(r: Round) {
    && T.Counts(r) && |r.row.roster| <= DRAW_LIMIT
    && (r.row.state == KeySetup ==> r.tasks == map[] && r.edges == {})
  }

  lemma FaithfulServed(cfg: Config, steps: seq<Step>, draw: Draws, r: Round)
    requires Faithful(cfg, steps, draw, r)
    ensures Inv(r) && Served(r)
  {
    hide Reached, Configured, Inv, T.Counts;
    ReachedKeeps(cfg, steps, |steps|, draw);
    T.InvCounts(r);
    SetupEmpty(r);
  }

  lemma SetupEmpty(r: Round)
    requires Inv(r)
    ensures |r.row.roster| <= DRAW_LIMIT
    ensures r.row.state == KeySetup ==> r.tasks == map[] && r.edges == {}
  {
  }

  // ---- Row numbers

  ghost function MaxOf(s: set<nat>): (m: nat)
    ensures if s == {} then m == 0 else m in s
    ensures forall x | x in s :: x <= m
  {
    if s == {} then 0
    else
      var x :| x in s;
      var rest := MaxOf(s - {x});
      assert forall y | y in s :: y == x || y in s - {x};
      if x < rest then rest else x
  }

  ghost function RowNumbers(rows: map<RoundId, Round>): set<nat> {
    set id | id in rows && rows[id].job.Some? :: rows[id].job.value.rowid
  }

  /** The row number the next job gets: one more than the largest there is. */
  ghost function NextRow(rows: map<RoundId, Round>): nat {
    MaxOf(RowNumbers(rows)) + 1
  }

  /** What a caller is told about a round that does not exist. */
  function Missing(op: Op): Result<Reply, Error> {
    match op
    case PutJson(_, _, _, _, _) => Failure(RoundNotFound)
    case Abort(_, _, _) => Failure(RoundNotFound)
    case Read => Failure(RoundNotFound)
    case Reject(_, _) => Success(Reply(Ignored, false))
    case GiveUp(_, _, _) => Success(Reply(Ignored, false))
    case Renew(_, _, lease) => Failure(if lease <= 0.0 then LeaseNotPositive else ClaimLost)
    case Publish(_, _, _, _) => Failure(ClaimLost)
    case Sweep => Success(Reply(Ignored, false))
    case Reclaim(_) => Success(Reply(Ignored, false))
    case Claim(lease, _) => if lease <= 0.0 then Failure(LeaseNotPositive) else Success(Reply(Ignored, false))
    case _ => Failure(RoundConflict)
  }

  /** The request brings a file that is on record for another round. */
  ghost predicate Elsewhere(db: Connection, id: RoundId, op: Op)
    reads db
  {
    FileOf(op).Some? && !db.NewElsewhere(FileOf(op).value, id)
  }

  predicate Taken(reply: Result<Reply, Error>) {
    reply.Success? && !reply.value.replay
  }

  /**
   * What a file on record for another round stands in the way of: anything that would newly be accepted, and a first
   * result even of a round that has moved on, as its row is inserted before the state is looked at.
   */
  ghost predicate Clashes(r: Round, step: Step, draw: Draws) {
    if step.op.Publish? then Owns(r.job, step.op.jobId, step.op.token) && !HasResult(r.artifacts)
    else Taken(Perform(r, step, draw).reply)
  }

  /** The round takes the step, unless a file on record for another round violates a constraint. */
  ghost function ServedAs(r: Round, step: Step, draw: Draws, elsewhere: bool): Outcome {
    if elsewhere && Clashes(r, step, draw) then Outcome(r, Failure(ConstraintViolated)) else Perform(r, step, draw)
  }

  lemma SettledIfNew(r: Round, isNew: bool, t: Transaction)
    ensures Settle(r, T.IfNew(isNew, t))
      == if !isNew && Taken(Settle(r, t).reply) then Outcome(r, Failure(ConstraintViolated)) else Settle(r, t)
  {
  }

  lemma CompletedIfNew(r: Round, isNew: bool, jobId: string, token: string, stored: Stored, tag: string, now: Time)
    ensures Settle(r, T.CompletionIfNew(isNew, r, jobId, token, stored, tag, now))
      == if !isNew && Owns(r.job, jobId, token) && !HasResult(r.artifacts) then Outcome(r, Failure(ConstraintViolated))
         else Settle(r, CompleteJob(r, jobId, token, stored, tag, now))
  {
    hide CompleteJob, HasResult;
  }

  /** A participant's request. */
  method ExecuteFor(db: Connection, id: RoundId, step: Step, draw: Draws) returns (reply: Result<Reply, Error>)
    requires id in db.rounds && Served(db.RoundOf(id)) && Productive(draw)
    requires Caller(step.op).Some? && Admitted(db.RoundOf(id), step.op)
    modifies db
    ensures db.Only(id)
    ensures Outcome(db.RoundOf(id), reply) == ServedAs(old(db.RoundOf(id)), step, draw, old(Elsewhere(db, id, step.op)))
  {
    hide Connection.RoundOf, Connection.Others, Connection.ForeignKeys, Connection.NewElsewhere, T.Counts;
    hide RecordJsonSlot, KeyComplete, RecordTaskArtifact, AcknowledgeTask, RecordFinalKey, AcknowledgeFinalKey,
      RecordUpdate, CompleteParticipant, Settle, T.IfNew, Taken;
    var now := step.now;
    ghost var r := db.RoundOf(id);
    ghost var isNew := !Elsewhere(db, id, step.op);
    match step.op
    case PutJson(c, slot, body, key, digest) => reply := T.RecordJsonSlot(db, id, c, slot, body, key, digest, now);
    case ConfirmKeys(c, commitment, key, digest) => reply := T.KeyComplete(db, id, c, commitment, key, digest, draw, now);
    case UploadTask(c, task, stored, upload, key, digest) =>
      SettledIfNew(r, isNew, RecordTaskArtifact(r, c, task, stored, upload, key, digest, now));
      reply := T.RecordTaskArtifact(db, id, c, task, stored, upload, key, digest, now);
    case AckTask(c, task, artifact, key, digest) => reply := T.AcknowledgeTask(db, id, c, task, artifact, key, digest, now);
    case PublishFinal(c, stored, upload, key, digest) =>
      SettledIfNew(r, isNew, RecordFinalKey(r, c, stored, upload, key, digest, now));
      reply := T.RecordFinalKey(db, id, c, stored, upload, key, digest, now);
    case AckFinal(c, artifact, key, digest) => reply := T.AcknowledgeFinalKey(db, id, c, artifact, key, digest, now);
    case PutUpdate(c, stored, tag, key, digest, jobId, rowid) =>
      SettledIfNew(r, isNew, RecordUpdate(r, c, stored, tag, key, digest, jobId, rowid, now));
      reply := T.RecordUpdate(db, id, c, stored, tag, key, digest, jobId, rowid, now);
    case Leave(c, key, digest) => reply := T.CompleteParticipant(db, id, c, key, digest, now);
  }

  /** A request of an operator, a sweep or a worker. */
  method ExecuteInternal(db: Connection, id: RoundId, step: Step, draw: Draws) returns (reply: Result<Reply, Error>)
    requires id in db.rounds && Served(db.RoundOf(id)) && Productive(draw) && Caller(step.op).None?
    modifies db
    ensures db.Only(id)
    ensures Outcome(db.RoundOf(id), reply) == ServedAs(old(db.RoundOf(id)), step, draw, old(Elsewhere(db, id, step.op)))
  {
    hide Connection.RoundOf, Connection.Others, Connection.ForeignKeys, Connection.NewElsewhere, T.Counts;
    hide AbortRound, FailRound, ReadRound, ExpireRound, ReclaimLease, ClaimJob, RenewJob, CompleteJob, FailJob, Settle,
      T.CompletionIfNew, HasResult, Taken;
    var now := step.now;
    ghost var r := db.RoundOf(id);
    ghost var isNew := !Elsewhere(db, id, step.op);
    match step.op
    case Abort(actor, key, digest) => reply := T.AbortRound(db, id, actor, key, digest, now);
    case Reject(actor, code) => reply := T.FailRound(db, id, actor, code, now);
    case Read => reply := T.ReadRound(db, id, now);
    case Sweep => reply := T.ExpireRound(db, id, now);
    case Reclaim(lease) => reply := T.ReclaimLease(db, id, now, lease);
    case Claim(lease, token) => reply := T.ClaimJob(db, id, now, lease, token);
    case Renew(jobId, token, lease) => reply := T.RenewJob(db, id, jobId, token, lease, now);
    case Publish(jobId, token, stored, tag) =>
      CompletedIfNew(r, isNew, jobId, token, stored, tag, now);
      reply := T.CompleteJob(db, id, jobId, token, stored, tag, now);
    case GiveUp(jobId, token, retryable) => reply := T.FailJob(db, id, jobId, token, retryable, now);
  }

  /**
   * One transaction on an existing round, behind the API's membership check, refused by a constraint for a file on record
   * for another round exactly where it would have filed it.
   */
  method Execute(db: Connection, id: RoundId, step: Step, draw: Draws) returns (reply: Result<Reply, Error>)
    requires id in db.rounds && Served(db.RoundOf(id)) && Productive(draw)
    modifies db
    ensures db.Only(id)
    ensures Outcome(db.RoundOf(id), reply) == ServedAs(old(db.RoundOf(id)), step, draw, old(Elsewhere(db, id, step.op)))
  {
    hide Connection.RoundOf, Connection.Others, Connection.ForeignKeys, Connection.NewElsewhere, T.Counts, Perform, Elsewhere, Served, HasResult;
    TurnedAway(db.RoundOf(id), step, draw);
    if Caller(step.op).None? {
      reply := ExecuteInternal(db, id, step, draw);
    } else if Caller(step.op).value in db.SelectParticipants(id) {
      reply := ExecuteFor(db, id, step, draw);
    } else {
      reply := Failure(NotAParticipant);
    }
  }

  lemma TurnedAway(r: Round, step: Step, draw: Draws)
    ensures !Admitted(r, step.op) ==> Perform(r, step, draw) == Outcome(r, Failure(NotAParticipant))
  {
    hide Admitted;
  }

  /** Each round's rows are those its history of steps reaches from its creation. */
  ghost predicate Histories(rows: map<RoundId, Round>, configs: map<RoundId, Config>, history: map<RoundId, seq<Step>>,
                            draws: RoundId -> Draws) {
    && configs.Keys == rows.Keys && history.Keys == rows.Keys
    && forall id | id in rows :: Faithful(configs[id], history[id], draws(id), rows[id])
  }

  lemma HistoryGrows(rows: map<RoundId, Round>, configs: map<RoundId, Config>, history: map<RoundId, seq<Step>>,
                     draws: RoundId -> Draws, id: RoundId, step: Step)
    requires Histories(rows, configs, history, draws) && id in rows
    ensures Histories(rows[id := Perform(rows[id], step, draws(id)).round], configs,
                      history[id := history[id] + [step]], draws)
  {
    hide Faithful, Perform;
    OneMore(configs[id], history[id], draws(id), rows[id], step);
  }

  class Database {
    const db: Connection
    const draws: RoundId -> Draws
    var creations: map<CreationKey, Creation>
    ghost var configs: map<RoundId, Config>
    ghost var history: map<RoundId, seq<Step>>

    /** An empty database; draws are the numbers the hash of a round's identity yields, from which its plan is shuffled. */
    constructor (draws: RoundId -> Draws)
      requires forall id: RoundId :: Productive(draws(id))
      ensures Valid() && fresh(db) && db.rounds == map[]
    {
      db := new Connection();
      this.draws := draws;
      creations, configs, history := map[], map[], map[];
      new;
      db.AllRows("");
    }

    ghost predicate Valid()
      reads this, db
    {
      && db.ForeignKeys() && Histories(db.All(), configs, history, draws)
      && (forall id: RoundId :: Productive(draws(id)))
      && forall k | k in creations :: creations[k].roundId in db.rounds
    }

    lemma HistoryServed(id: RoundId)
      requires Valid() && id in db.rounds
      ensures Served(db.RoundOf(id)) && Productive(draws(id)) && id in history
    {
      hide Faithful, Inv, Served, Connection.RoundOf, Connection.All, Connection.Others, Productive;
      db.AllRows(id);
      FaithfulServed(configs[id], history[id], draws(id), db.RoundOf(id));
    }

    lemma RoundValid(id: RoundId)
      requires Valid() && id in db.rounds
      ensures Inv(db.RoundOf(id))
    {
      hide Faithful, Inv, Served, Connection.RoundOf, Connection.All, Connection.Others;
      db.AllRows(id);
      FaithfulServed(configs[id], history[id], draws(id), db.RoundOf(id));
    }

    /** Serves one request about one round. */
    method Serve(id: RoundId, step: Step) returns (reply: Result<Reply, Error>)
      requires Valid()
      modifies this`history, db
      ensures Valid() && db.Others(id) == old(db.Others(id)) && db.rounds.Keys == old(db.rounds.Keys)
      ensures id in old(db.rounds) ==>
        && Outcome(db.RoundOf(id), reply) == ServedAs(old(db.RoundOf(id)), step, draws(id), old(Elsewhere(db, id, step.op)))
        && history == if Outcome(db.RoundOf(id), reply) == Perform(old(db.RoundOf(id)), step, draws(id))
           then old(history)[id := old(history[id]) + [step]] else old(history)
      ensures id !in old(db.rounds) ==> reply == Missing(step.op) && db.Begin() == old(db.Begin()) && history == old(history)
    {
      hide Faithful, Perform, Served, Connection.RoundOf, Connection.Others, Connection.ForeignKeys, Connection.NewElsewhere,
        Connection.All, Histories, Elsewhere, Productive, Missing, Clashes;
      if id !in db.rounds {
        return Missing(step.op);
      }
      db.AllRows(id);
      HistoryServed(id);
      HistoryGrows(db.All(), configs, history, draws, id, step);
      ghost var r := db.RoundOf(id);
      reply := Execute(db, id, step, draws(id));
      db.AllRows(id);
      assert db.All() == old(db.All())[id := db.RoundOf(id)];
      if Outcome(db.RoundOf(id), reply) == Perform(r, step, draws(id)) {
        history := history[id := history[id] + [step]];
      }
    }

    // ---- Creating rounds

    /** A create request makes a round once; its repetition under the same key is answered with that round. */
    method CreateRound(cfg: Config, key: string, digest: string, newId: RoundId) returns (reply: Result<(RoundId, bool), Error>)
      requires Valid() && Proper(cfg) && newId !in db.rounds
      modifies this, db
      ensures Valid()
      ensures var k := CreationKey(cfg.actor, cfg.federation, key);
        if k in old(creations) then
          && reply == (if old(creations)[k].digest == digest then Success((old(creations)[k].roundId, true))
                       else Failure(IdempotencyConflict))
          && db.Begin() == old(db.Begin()) && creations == old(creations) && history == old(history)
        else
          && reply == Success((newId, false)) && newId in db.rounds && db.RoundOf(newId) == Started(cfg)
          && db.Others(newId) == old(db.Others(newId)) && db.rounds.Keys == old(db.rounds.Keys) + {newId}
          && creations == old(creations)[k := Creation(digest, newId)]
          && configs == old(configs)[newId := cfg] && history == old(history)[newId := []]
    {
      hide Faithful, Connection.RoundOf, Connection.Others, Connection.ForeignKeys, Connection.All, Proper, Histories;
      var k := CreationKey(cfg.actor, cfg.federation, key);
      if k in creations {
        if creations[k].digest != digest {
          return Failure(IdempotencyConflict);
        }
        return Success((creations[k].roundId, true));
      }
      db.AllRows(newId);
      NewHistory(db.All(), configs, history, draws, newId, cfg);
      InsertNewRound(db, newId, cfg);
      creations := creations[k := Creation(digest, newId)];
      configs, history := configs[newId := cfg], history[newId := []];
      db.AllRows(newId);
      return Success((newId, false));
    }

    // ---- Sweeps over many rounds

    /** The same as serving, in terms of the rows of all rounds. */
    method StepRound(id: RoundId, step: Step) returns (reply: Result<Reply, Error>)
      requires Valid() && id in db.All()
      requires FileOf(step.op).Some? ==> db.NewElsewhere(FileOf(step.op).value, id)
      modifies this`history, db
      ensures Valid() && reply == Perform(old(db.All())[id], step, draws(id)).reply
      ensures db.All() == old(db.All())[id := Perform(old(db.All())[id], step, draws(id)).round]
    {
      hide Faithful, Perform, Connection.RoundOf, Connection.Others, Connection.ForeignKeys, Connection.All,
        Connection.NewElsewhere, Histories;
      db.AllRows(id);
      reply := Serve(id, step);
      db.AllRows(id);
    }

    /** The same internal step on each of the given rounds, one after another. */
    method ServeEach(ids: set<RoundId>, step: Step)
      requires Valid() && ids <= db.All().Keys && FileOf(step.op).None?
      modifies this`history, db
      ensures Valid()
      ensures Stepped(old(db.All()), db.All(), ids, step, draws)
    {
      hide Perform, Connection.All, Valid, Stepped;
      ghost var rows := db.All();
      var todo := ids;
      NotStepped(rows, step, draws);
      assert ids - todo == {};
      while todo != {}
        invariant Valid() && todo <= ids && ids <= rows.Keys
        invariant Stepped(rows, db.All(), ids - todo, step, draws)
        decreases |todo|
      {
        var id :| id in todo;
        OneMoreStepped(rows, db.All(), ids - todo, id, step, draws);
        var _ := StepRound(id, step);
        assert ids - (todo - {id}) == ids - todo + {id};
        todo := todo - {id};
      }
      assert ids - todo == ids;
    }

    /** Every overdue round that has not ended expires; how many is counted. */
    method ExpireRounds(now: Time) returns (count: nat)
      requires Valid()
      modifies this`history, db
      ensures Valid()
      ensures Stepped(old(db.All()), db.All(), db.All().Keys, Step(Sweep, now), draws)
      ensures count == |set id | id in old(db.rounds) && Overdue(old(db.rounds)[id], now)|
    {
      var overdue := set id | id in db.rounds && Overdue(db.rounds[id], now);
      count := |overdue|;
      ghost var rows := db.All();
      assert forall id :: id in overdue <==> id in rows && Overdue(rows[id].row, now);
      assert overdue <= rows.Keys;
      hide Valid, Connection.All, Overdue, Perform, Stepped;
      ServeEach(overdue, Step(Sweep, now));
      SweepTouchesOverdue(rows, db.All(), overdue, now, draws);
    }

    /** The rounds whose job is held by a claim that ran out. */
    method StaleJobs(now: Time, lease: Time) returns (stale: set<RoundId>)
      ensures forall id :: id in stale <==> id in db.All() && Lapsed(db.All()[id], now, lease)
    {
      stale := set id | id in db.rounds && db.SelectJob(id).Some? && LeaseOver(db.SelectJob(id).value, now, lease);
      hide LeaseOver;
    }

    /** The row number the table gives the next job. */
    method NextRowNumber() returns (n: nat)
      ensures n == NextRow(db.All())
    {
      var todo, most := db.jobs.Keys * db.rounds.Keys, 0;
      ghost var numbers := RowNumbers(db.All());
      while todo != {}
        invariant todo <= db.jobs.Keys * db.rounds.Keys
        invariant forall id | id in db.jobs && id in db.rounds && id !in todo :: db.jobs[id].rowid <= most
        invariant most == 0 || most in numbers
        decreases |todo|
      {
        var id :| id in todo;
        assert db.All()[id].job == Some(db.jobs[id]);
        most := if most < db.jobs[id].rowid then db.jobs[id].rowid else most;
        todo := todo - {id};
      }
      assert forall id | id in db.All() && db.All()[id].job.Some? :: id in db.jobs;
      return most + 1;
    }

    /** The rounds that can be claimed, with the row numbers of their jobs. */
    method QueuedJobs(now: Time) returns (queue: map<RoundId, nat>)
      ensures IsQueue(db.All(), now, queue)
    {
      queue := map id | id in db.rounds && Queued(db.SelectJob(id), db.rounds[id], now) :: db.SelectJob(id).value.rowid;
    }

    /**
     * A worker's claim: lapsed leases are taken back first, then the oldest queued job of a round that can still be
     * aggregated in time is handed out under the token.
     */
    method ClaimJob(now: Time, lease: Time, token: string) returns (claimed: Result<Option<RoundId>, Error>)
      requires Valid()
      modifies this`history, db
      ensures Valid()
      ensures lease <= 0.0 ==> claimed == Failure(LeaseNotPositive) && db.All() == old(db.All())
      ensures lease > 0.0 ==> claimed.Success?
      ensures lease > 0.0 ==> HandedOut(Swept(old(db.All()), Step(Reclaim(lease), now), draws), db.All(),
        Step(Claim(lease, token), now), claimed.value, draws)
    {
      hide Valid, Perform, Stepped, Connection.RoundOf, Connection.All, Lapsed, Swept, Claimable;
      if lease <= 0.0 {
        return Failure(LeaseNotPositive);
      }
      ghost var rows := db.All();
      var stale := StaleJobs(now, lease);
      ServeEach(stale, Step(Reclaim(lease), now));
      ReclaimTouchesStale(rows, db.All(), stale, now, lease, draws);
      var queue := QueuedJobs(now);
      var id := Oldest(queue);
      OldestIsFirst(db.All(), now, queue, id);
      if id.Some? {
        var _ := StepRound(id.value, Step(Claim(lease, token), now));
      }
      return Success(id);
    }

    // ---- Retention

    /** The terminal rounds whose retention window is over, with the paths of their artifacts. */
    method RetentionCandidates(now: Time) returns (candidates: map<RoundId, set<string>>)
      ensures forall id :: id in candidates <==> id in db.All() && Purgeable(db.All()[id].row, now)
      ensures forall id | id in candidates :: id in db.All() && candidates[id] == Paths(db.All()[id].artifacts)
    {
      candidates := map id | id in db.rounds && Purgeable(db.rounds[id], now) :: Paths(db.SelectArtifacts(id));
    }

    /** Deletes the create records of a round, one by one. */
    method DeleteCreations(id: RoundId)
      modifies this`creations
      ensures creations == map k | k in old(creations) && old(creations)[k].roundId != id :: old(creations)[k]
    {
      var todo := creations.Keys;
      while todo != {}
        invariant todo <= old(creations).Keys
        invariant creations == map k | k in old(creations) && (k in todo || old(creations)[k].roundId != id) :: old(creations)[k]
        decreases |todo|
      {
        var k :| k in todo;
        if creations[k].roundId == id {
          creations := creations - {k};
        }
        todo := todo - {k};
      }
    }

    /**
     * Purging removes a terminal round whose retention is over from every table, its create records included, and
     * nothing else; any other round is refused, and a round that is gone already is not an error.
     */
    method PurgeRound(id: RoundId, now: Time) returns (done: Result<(), Error>)
      requires Valid()
      modifies this, db
      ensures Valid()
      ensures id !in old(db.rounds) || !Purgeable(old(db.rounds)[id], now) ==>
        db.Begin() == old(db.Begin()) && creations == old(creations) && history == old(history)
      ensures done.Failure? <==> id in old(db.rounds) && !Purgeable(old(db.rounds)[id], now)
      ensures done.Failure? ==> done.error == RoundConflict
      ensures id in old(db.rounds) && Purgeable(old(db.rounds)[id], now) ==>
        && db.Absent(id) && (forall k | k in creations :: creations[k].roundId != id)
        && db.All() == old(db.All()) - {id}
        && (forall k | k in old(creations) && old(creations)[k].roundId != id :: k in creations && creations[k] == old(creations)[k])
    {
      hide Faithful, Connection.RoundOf, Connection.Others, Connection.ForeignKeys, Connection.All, Connection.Absent, Histories;
      if id !in db.rounds {
        return Success(());
      }
      if !Purgeable(db.rounds[id], now) {
        return Failure(RoundConflict);
      }
      db.AllRows(id);
      HistoryEnds(db.All(), configs, history, draws, id);
      db.OthersWithout(id);
      DeleteCreations(id);
      db.DeleteRows(id);
      configs, history := configs - {id}, history - {id};
      db.AllRows(id);
      return Success(());
    }
  }

  /** The round is terminal and its retention window is over. */
  predicate Purgeable(row: RoundRow, now: Time) {
    Terminal(row.state) && row.retentionAt <= now
  }

  lemma HistoryEnds(rows: map<RoundId, Round>, configs: map<RoundId, Config>, history: map<RoundId, seq<Step>>,
                    draws: RoundId -> Draws, id: RoundId)
    requires Histories(rows, configs, history, draws) && id in rows
    ensures Histories(rows - {id}, configs - {id}, history - {id}, draws)
  {
    hide Faithful;
  }

  /** queue has the claimable rounds with the row numbers of their jobs. */
  ghost predicate IsQueue(rows: map<RoundId, Round>, now: Time, queue: map<RoundId, nat>) {
    && (forall id | id in rows && Claimable(rows[id], now) :: id in queue)
    && (forall id | id in queue :: id in rows && Claimable(rows[id], now) && queue[id] == rows[id].job.value.rowid)
  }

  /** The key with the least number. */
  method Oldest(queue: map<RoundId, nat>) returns (first: Option<RoundId>)
    ensures first.None? <==> queue == map[]
    ensures first.Some? ==> first.value in queue && forall id | id in queue :: queue[first.value] <= queue[id]
  {
    first := None;
    var todo := queue.Keys;
    while todo != {}
      invariant todo <= queue.Keys && (first.None? <==> todo == queue.Keys) && (first.Some? ==> first.value in queue)
      invariant first.Some? ==> forall id | id in queue && id !in todo :: queue[first.value] <= queue[id]
      decreases |todo|
    {
      var id :| id in todo;
      if first.None? || queue[id] < queue[first.value] {
        first := Some(id);
      }
      todo := todo - {id};
    }
  }

  /** No claimable round, or the one whose job has the least row number. */
  ghost predicate First(rows: map<RoundId, Round>, now: Time, first: Option<RoundId>) {
    match first
    case None => forall id | id in rows :: !Claimable(rows[id], now)
    case Some(a) =>
      && a in rows && Claimable(rows[a], now)
      && forall id | id in rows && Claimable(rows[id], now) :: rows[a].job.value.rowid <= rows[id].job.value.rowid
  }

  lemma OldestIsFirst(rows: map<RoundId, Round>, now: Time, queue: map<RoundId, nat>, first: Option<RoundId>)
    requires IsQueue(rows, now, queue)
    requires first.None? <==> queue == map[]
    requires first.Some? ==> first.value in queue && forall id | id in queue :: queue[first.value] <= queue[id]
    ensures First(rows, now, first)
  {
    if first.None? {
      forall id | id in rows ensures !Claimable(rows[id], now) {
        assert id !in queue;
      }
    }
  }

  /** Every round after the step. */
  ghost function Swept(rows: map<RoundId, Round>, step: Step, draws: RoundId -> Draws): map<RoundId, Round> {
    map id | id in rows :: Perform(rows[id], step, draws(id)).round
  }

  /** What a claim does to the rows left after lapsed leases were taken back. */
  ghost predicate HandedOut(rows: map<RoundId, Round>, after: map<RoundId, Round>, step: Step, claimed: Option<RoundId>,
                            draws: RoundId -> Draws) {
    && First(rows, step.now, claimed)
    && after == (if claimed.Some? then rows[claimed.value := Perform(rows[claimed.value], step, draws(claimed.value)).round] else rows)
  }

  predicate Lapsed(r: Round, now: Time, lease: Time) {
    r.job.Some? && LeaseOver(r.job.value, now, lease)
  }

  lemma ReclaimLeaves(r: Round, now: Time, lease: Time, draw: Draws)
    requires !Lapsed(r, now, lease)
    ensures Perform(r, Step(Reclaim(lease), now), draw).round == r
  {
  }

  lemma ReclaimTouchesStale(rows: map<RoundId, Round>, after: map<RoundId, Round>, ids: set<RoundId>, now: Time, lease: Time,
                            draws: RoundId -> Draws)
    requires Stepped(rows, after, ids, Step(Reclaim(lease), now), draws)
    requires forall id :: id in ids <==> id in rows && Lapsed(rows[id], now, lease)
    ensures after == Swept(rows, Step(Reclaim(lease), now), draws)
  {
    hide Perform, Lapsed;
    forall id | id in rows ensures after[id] == Perform(rows[id], Step(Reclaim(lease), now), draws(id)).round {
      if id !in ids {
        ReclaimLeaves(rows[id], now, lease, draws(id));
      }
    }
  }

  predicate Overdue(row: RoundRow, now: Time) {
    row.deadlineAt < now && !Terminal(row.state)
  }

  /** Exactly the given rounds have taken the step. */
  ghost predicate Stepped(rows: map<RoundId, Round>, after: map<RoundId, Round>, ids: set<RoundId>, step: Step,
                          draws: RoundId -> Draws) {
    && after.Keys == rows.Keys
    && forall id | id in rows :: after[id] == if id in ids then Perform(rows[id], step, draws(id)).round else rows[id]
  }

  lemma NotStepped(rows: map<RoundId, Round>, step: Step, draws: RoundId -> Draws)
    ensures Stepped(rows, rows, {}, step, draws)
  {
    hide Perform;
  }

  lemma OneMoreStepped(rows: map<RoundId, Round>, before: map<RoundId, Round>, ids: set<RoundId>, id: RoundId, step: Step,
                       draws: RoundId -> Draws)
    requires Stepped(rows, before, ids, step, draws) && id in rows && id !in ids
    ensures id in before
    ensures Stepped(rows, before[id := Perform(before[id], step, draws(id)).round], ids + {id}, step, draws)
  {
    hide Perform;
  }

  lemma SweepLeaves(r: Round, now: Time, draw: Draws)
    requires !Overdue(r.row, now)
    ensures Perform(r, Step(Sweep, now), draw).round == r
  {
  }

  lemma SweepTouchesOverdue(rows: map<RoundId, Round>, after: map<RoundId, Round>, ids: set<RoundId>, now: Time,
                            draws: RoundId -> Draws)
    requires Stepped(rows, after, ids, Step(Sweep, now), draws)
    requires forall id :: id in ids <==> id in rows && Overdue(rows[id].row, now)
    ensures after.Keys == rows.Keys && Stepped(rows, after, rows.Keys, Step(Sweep, now), draws)
  {
    hide Perform, Overdue;
    forall id | id in rows ensures after[id] == Perform(rows[id], Step(Sweep, now), draws(id)).round {
      if id !in ids {
        SweepLeaves(rows[id], now, draws(id));
      }
    }
  }

  method InsertNewRound(db: Connection, id: RoundId, cfg: Config)
    requires id !in db.rounds && db.ForeignKeys()
    modifies db
    ensures db.ForeignKeys() && db.rounds.Keys == old(db.rounds.Keys) + {id}
    ensures db.RoundOf(id) == Started(cfg) && db.Others(id) == old(db.Others(id))
  {
    assert db.Absent(id);
    hide Connection.RoundOf, Connection.Others, Connection.ForeignKeys, Connection.Absent, NewParticipant;
    var now := cfg.createdAt;
    db.InsertRound(id, RoundRow(cfg.federation, cfg.protocol, cfg.roster, |cfg.roster|, RegistrationOpen, 1,
      now, now + cfg.ttl, None, now + cfg.retention, None));
    db.InsertParticipants(id, cfg.roster, now);
    db.InsertEvent(id, AuditEvent(cfg.actor, RoundCreated, Some(1), now));
  }

  lemma NewHistory(rows: map<RoundId, Round>, configs: map<RoundId, Config>, history: map<RoundId, seq<Step>>,
                   draws: RoundId -> Draws, id: RoundId, cfg: Config)
    requires Histories(rows, configs, history, draws) && id !in rows && Proper(cfg) && Productive(draws(id))
    ensures Histories(rows[id := Started(cfg)], configs[id := cfg], history[id := []], draws)
  {
    AtFirst(cfg, [], draws(id));
    hide Reached, Proper, Productive, Started;
    assert Faithful(cfg, [], draws(id), Started(cfg));
    hide Faithful;
  }
}
