/** Jobs are handed out in the order they were queued in. */
module Queue {
  import opened Database
  import opened Files
  import opened Filing
  import opened Frames
  import opened Ledgers
  import opened Names
  import opened RoundInvariant
  import opened Rounds
  import opened Runs
  import opened Shuffling
  import opened States
  import opened Store
  import opened Tables
  import opened Wrappers

  /** A job keeps its row number, and only an update queues one, under the number the request carries. */
  ghost predicate JobRowKept(job: Option<Job>, after: Option<Job>, op: Op) {
    if job.Some? then after.Some? && after.value.rowid == job.value.rowid
    else after.Some? ==> op.PutUpdate? && after.value.rowid == op.rowid
  }

  lemma UpdateKeepsJobRow(r: Round, step: Step, draw: Draws)
    requires step.op.PutUpdate?
    ensures JobRowKept(r.job, Perform(r, step, draw).round.job, step.op)
  {
    hide AllUpdated, SlotTaken, Insertable, MovedRow, IsUpdateOf;
  }

  /** No job comes or goes, and none gets another row number. */
  ghost predicate KeepsRow(r: Round, t: Transaction) {
    t.Success? ==>
      if r.job.Some? then t.value.round.job.Some? && t.value.round.job.value.rowid == r.job.value.rowid
      else t.value.round.job.None?
  }

  lemma ReclaimKeepsRow(r: Round, now: Time, lease: Time)
    ensures KeepsRow(r, ReclaimLease(r, now, lease))
  {
    hide LeaseOver, MovedRow;
    if r.job.Some? && LeaseOver(r.job.value, now, lease) {
      if r.job.value.attempts < r.job.value.maxAttempts {
      } else if r.row.state == Aggregating {
      }
    }
  }

  lemma ClaimKeepsRow(r: Round, now: Time, lease: Time, token: string)
    ensures KeepsRow(r, ClaimJob(r, now, lease, token))
  {
  }

  lemma RenewKeepsRow(r: Round, jobId: string, token: string, lease: Time, now: Time)
    ensures KeepsRow(r, RenewJob(r, jobId, token, lease, now))
  {
  }

  lemma SweepKeepsRow(r: Round, now: Time)
    ensures KeepsRow(r, ExpireRound(r, now))
  {
    hide MovedRow, TransitionAllowed, Terminal;
  }

  lemma PublishKeepsRow(r: Round, jobId: string, token: string, stored: Stored, tag: string, now: Time)
    ensures KeepsRow(r, CompleteJob(r, jobId, token, stored, tag, now))
  {
    hide MovedRow, InsertResult, TransitionAllowed;
  }

  lemma GiveUpKeepsRow(r: Round, jobId: string, token: string, retryable: bool, now: Time)
    ensures KeepsRow(r, FailJob(r, jobId, token, retryable, now))
  {
    hide MovedRow;
  }

  lemma LeaseKeepsJobRow(r: Round, step: Step, draw: Draws)
    requires step.op.Reclaim? || step.op.Claim? || step.op.Renew? || step.op.Sweep? || step.op.Publish? || step.op.GiveUp?
    ensures JobRowKept(r.job, Perform(r, step, draw).round.job, step.op)
  {
    hide ReclaimLease, ClaimJob, RenewJob, ExpireRound, CompleteJob, FailJob;
    match step.op
    case Reclaim(lease) => ReclaimKeepsRow(r, step.now, lease);
    case Claim(lease, token) => ClaimKeepsRow(r, step.now, lease, token);
    case Renew(jobId, token, lease) => RenewKeepsRow(r, jobId, token, lease, step.now);
    case Sweep => SweepKeepsRow(r, step.now);
    case Publish(jobId, token, stored, tag) => PublishKeepsRow(r, jobId, token, stored, tag, step.now);
    case GiveUp(jobId, token, retryable) => GiveUpKeepsRow(r, jobId, token, retryable, step.now);
  }

  lemma StepKeepsJobRow(r: Round, step: Step, draw: Draws)
    ensures JobRowKept(r.job, Perform(r, step, draw).round.job, step.op)
  {
    if step.op.PutUpdate? {
      UpdateKeepsJobRow(r, step, draw);
    } else if TouchesJob(step.op) {
      LeaseKeepsJobRow(r, step, draw);
    } else {
      hide Transact;
      StepFrame(r, step, draw);
    }
    hide Perform;
  }

  /** Round i has its job under number x or is gone for good, and any job of round j has a greater number. */
  ghost predicate Ahead(l: Ledger, i: RoundId, x: nat, j: RoundId) {
    && (if i in l.rows then l.rows[i].job.Some? && l.rows[i].job.value.rowid == x else i in l.doomed)
    && (i in l.rows && j in l.rows && l.rows[j].job.Some? ==> x < l.rows[j].job.value.rowid)
  }

  lemma NextIsGreater(rows: map<RoundId, Round>, i: RoundId)
    requires i in rows && rows[i].job.Some?
    ensures rows[i].job.value.rowid < NextRow(rows)
  {
    assert rows[i].job.value.rowid in RowNumbers(rows);
  }

  lemma MoveKeepsAhead(l: Ledger, m: Move, draws: RoundId -> Draws, hash: Bytes -> string, i: RoundId, x: nat, j: RoundId)
    requires Allowed(l, m, hash) && i != j && Ahead(l, i, x, j)
    ensures Ahead(After(l, m, draws), i, x, j)
  {
    hide Perform, Paths, IsNewName, Deletable, Flying, Started, NextRow, Purgeable;
    match m
    case Ask(id, step) =>
      if id in l.rows {
        StepKeepsJobRow(l.rows[id], step, draws(id));
        if i in l.rows {
          NextIsGreater(l.rows, i);
        }
      }
    case Each(step) =>
      forall id | id in l.rows ensures JobRowKept(l.rows[id].job, Perform(l.rows[id], step, draws(id)).round.job, step.op) {
        StepKeepsJobRow(l.rows[id], step, draws(id));
      }
    case Open(id, cfg) => StartsJobless(cfg);
    case _ =>
  }

  lemma StartsJobless(cfg: Config)
    ensures Started(cfg).job.None?
  {
  }

  lemma {:induction false} AheadOver(l: Ledger, moves: seq<Move>, m: nat, n: nat, draws: RoundId -> Draws, hash: Bytes -> string,
                                     i: RoundId, x: nat, j: RoundId)
    requires Run(l, moves, draws, hash) && m <= n <= |moves| && i != j && Ahead(LedgerAt(l, moves, m, draws), i, x, j)
    ensures Ahead(LedgerAt(l, moves, n, draws), i, x, j)
    decreases n
  {
    hide Balanced, After, Allowed, Drawn, Ahead;
    if m < n {
      AheadOver(l, moves, m, n - 1, draws, hash, i, x, j);
      MoveKeepsAhead(LedgerAt(l, moves, n - 1, draws), moves[n - 1], draws, hash, i, x, j);
    }
  }

  ghost predicate HasJob(rows: map<RoundId, Round>, id: RoundId) {
    id in rows && rows[id].job.Some?
  }

  /**
   * If one round's job was queued while another had none, then over any sequence of steps its row number stays the
   * smaller one, and a claim never hands out the other's job while it is claimable itself.
   */
  lemma QueuedFirstClaimedFirst(l: Ledger, moves: seq<Move>, m: nat, n: nat, draws: RoundId -> Draws, hash: Bytes -> string,
                                i: RoundId, j: RoundId, now: Time)
    requires Run(l, moves, draws, hash) && m <= n <= |moves|
    requires HasJob(LedgerAt(l, moves, m, draws).rows, i) && !HasJob(LedgerAt(l, moves, m, draws).rows, j)
    ensures var rows := LedgerAt(l, moves, n, draws).rows;
      HasJob(rows, i) && HasJob(rows, j) ==>
        && rows[i].job.value.rowid < rows[j].job.value.rowid
        && (Claimable(rows[i], now) ==> !First(rows, now, Some(j)))
  {
    hide Run, LedgerAt;
    AheadOver(l, moves, m, n, draws, hash, i, LedgerAt(l, moves, m, draws).rows[i].job.value.rowid, j);
  }
}
