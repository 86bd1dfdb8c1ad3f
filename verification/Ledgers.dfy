/** Rows and files together: the small steps of the service, and what holds over any sequence of them by anybody. */
module Ledgers {
  import opened Database
  import opened Files
  import opened Filing
  import opened Frames
  import opened Growth
  import opened Names
  import opened RoundInvariant
  import opened Rounds
  import opened RoundSteps
  import opened Runs
  import opened Scheduler
  import opened Sequences
  import opened Shuffling
  import opened States
  import opened Store
  import opened Tables
  import opened Wrappers

  /**
   * The rows of every round, the files, which of them are on their way to a row, the rounds whose files are being or
   * have been deleted, and the paths of the rounds that are gone.
   */
  datatype Ledger = Ledger(rows: map<RoundId, Round>, files: map<string, Bytes>, inFlight: map<string, Stored>,
                           doomed: set<RoundId>, removed: set<string>)

  function RecordsOf(rows: map<RoundId, Round>): Records {
    map id | id in rows :: rows[id].artifacts
  }

  /** The rounds whose files are being deleted have ended. */
  ghost predicate OnlyEnded(rows: map<RoundId, Round>, doomed: set<RoundId>) {
    forall id | id in doomed && id in rows :: Terminal(rows[id].row.state)
  }

  /** If the file is there, its content is the one described. */
  ghost predicate Genuine(files: map<string, Bytes>, path: string, digest: string, size: nat, hash: Bytes -> string) {
    path in files ==> hash(files[path]) == digest && |files[path]| == size
  }

  ghost predicate GenuineRows(files: map<string, Bytes>, artifacts: map<string, Artifact>, hash: Bytes -> string) {
    forall a | a in artifacts :: Genuine(files, artifacts[a].path, artifacts[a].digest, artifacts[a].size, hash)
  }

  /** Every file is what its row, or whoever is bringing it, says it is. */
  ghost predicate Contents(rows: map<RoundId, Round>, files: map<string, Bytes>, inFlight: map<string, Stored>, hash: Bytes -> string) {
    && (forall p | p in inFlight :: Genuine(files, p, inFlight[p].digest, inFlight[p].size, hash))
    && forall id | id in rows :: GenuineRows(files, rows[id].artifacts, hash)
  }

  ghost predicate Sound(rows: map<RoundId, Round>) {
    forall id | id in rows :: Inv(rows[id])
  }

  ghost predicate Books(l: Ledger) {
    Conserved(RecordsOf(l.rows), l.files.Keys, l.inFlight, l.doomed, l.removed)
  }

  /** The files are exactly those on record and on their way, up to rounds being removed, and all have their content. */
  ghost predicate Balanced(l: Ledger, hash: Bytes -> string) {
    Books(l) && OnlyEnded(l.rows, l.doomed) && Contents(l.rows, l.files, l.inFlight, hash) && Sound(l.rows)
  }

  // ---- The small steps

  datatype Move =
    | Arrive(stored: Stored, data: Bytes)
    | Drop(path: string)
    | Ask(id: RoundId, step: Step)
    | Open(id: RoundId, cfg: Config)
    | Each(step: Step)
    | Doom(ids: set<RoundId>, now: Time)
    | Delete(id: RoundId, path: string)
    | Purge(id: RoundId, now: Time)

  /** The file is on its way as described. */
  ghost predicate Flying(l: Ledger, stored: Stored) {
    stored.path in l.inFlight && l.inFlight[stored.path] == stored
  }

  /** A job the request may queue gets the next row number. */
  ghost predicate Numbered(rows: map<RoundId, Round>, op: Op) {
    op.PutUpdate? ==> op.rowid == NextRow(rows)
  }

  ghost predicate IsNewName(l: Ledger, stored: Stored) {
    NewName(RecordsOf(l.rows), l.files.Keys, l.inFlight, l.removed, stored)
  }

  /** A file a round being removed owns, or owned. */
  ghost predicate Deletable(l: Ledger, id: RoundId, path: string) {
    path in l.removed || (id in l.doomed && id in l.rows && path in Paths(l.rows[id].artifacts))
  }

  ghost predicate PurgeableNow(l: Ledger, id: RoundId, now: Time) {
    id in l.rows && Purgeable(l.rows[id].row, now)
  }

  /** What the service sees to before it takes a step. */
  ghost predicate Allowed(l: Ledger, m: Move, hash: Bytes -> string) {
    match m
    case Arrive(stored, data) => IsNewName(l, stored) && stored.digest == hash(data) && stored.size == |data|
    case Drop(path) => path in l.inFlight
    case Ask(_, step) => (FileOf(step.op).Some? ==> Flying(l, FileOf(step.op).value)) && Numbered(l.rows, step.op)
    case Open(id, cfg) => id !in l.rows && id !in l.doomed && Proper(cfg)
    case Each(step) => FileOf(step.op).None?
    case Doom(ids, now) => forall id | id in ids :: PurgeableNow(l, id, now)
    case Delete(id, path) => Deletable(l, id, path)
    case Purge(id, now) => PurgeableNow(l, id, now) ==> Paths(l.rows[id].artifacts) !! l.files.Keys
  }

  /** A request of one round. Its file goes on record exactly if it is newly accepted. */
  ghost function Asked(l: Ledger, id: RoundId, step: Step, draws: RoundId -> Draws): Ledger {
    if id !in l.rows then l
    else
      var o := Perform(l.rows[id], step, draws(id));
      l.(rows := l.rows[id := o.round],
         inFlight := if FileOf(step.op).Some? && Fresh(o.reply) then l.inFlight - {FileOf(step.op).value.path} else l.inFlight)
  }

  /** What the request is answered. */
  ghost function AnswerTo(l: Ledger, id: RoundId, step: Step, draws: RoundId -> Draws): Result<Reply, Error> {
    if id in l.rows then Perform(l.rows[id], step, draws(id)).reply else Missing(step.op)
  }

  ghost function Arrived(l: Ledger, stored: Stored, data: Bytes): Ledger {
    l.(files := l.files[stored.path := data], inFlight := l.inFlight[stored.path := stored])
  }

  function Dropped(l: Ledger, path: string): Ledger {
    l.(files := l.files - {path}, inFlight := l.inFlight - {path})
  }

  ghost function Purged(l: Ledger, id: RoundId, now: Time): Ledger {
    if PurgeableNow(l, id, now) then
      l.(rows := l.rows - {id}, doomed := l.doomed + {id}, removed := l.removed + Paths(l.rows[id].artifacts))
    else l
  }

  ghost function After(l: Ledger, m: Move, draws: RoundId -> Draws): Ledger {
    match m
    case Arrive(stored, data) => Arrived(l, stored, data)
    case Drop(path) => Dropped(l, path)
    case Ask(id, step) => Asked(l, id, step, draws)
    case Open(id, cfg) => l.(rows := l.rows[id := Started(cfg)])
    case Each(step) => l.(rows := Swept(l.rows, step, draws))
    case Doom(ids, _) => l.(doomed := l.doomed + ids)
    case Delete(_, path) => l.(files := l.files - {path})
    case Purge(id, now) => Purged(l, id, now)
  }

  ghost predicate Drawn(draws: RoundId -> Draws) {
    forall id: RoundId :: Productive(draws(id))
  }

  // ---- Every step keeps the books

  lemma FewerFiles(l: Ledger, hash: Bytes -> string, gone: set<string>)
    requires Contents(l.rows, l.files, l.inFlight, hash)
    ensures Contents(l.rows, l.files - gone, l.inFlight, hash)
    ensures Contents(l.rows, l.files - gone, l.inFlight - gone, hash)
  {
    hide Inv;
    forall id | id in l.rows ensures GenuineRows(l.files - gone, l.rows[id].artifacts, hash) {
    }
  }

  lemma NewFileContents(l: Ledger, stored: Stored, data: Bytes, hash: Bytes -> string)
    requires Books(l) && Contents(l.rows, l.files, l.inFlight, hash)
    requires IsNewName(l, stored) && stored.digest == hash(data) && stored.size == |data|
    ensures Contents(l.rows, l.files[stored.path := data], l.inFlight[stored.path := stored], hash)
  {
    var files := l.files[stored.path := data];
    FlyingAreFiles(RecordsOf(l.rows), l.files.Keys, l.inFlight, l.doomed, l.removed);
    hide Conserved;
    forall id | id in l.rows ensures GenuineRows(files, l.rows[id].artifacts, hash) {
      assert Insertable(RecordsOf(l.rows)[id], stored);
    }
  }

  lemma ArriveKeeps(l: Ledger, stored: Stored, data: Bytes, hash: Bytes -> string)
    requires Balanced(l, hash) && IsNewName(l, stored) && stored.digest == hash(data) && stored.size == |data|
    ensures Balanced(Arrived(l, stored, data), hash) && stored.path !in l.inFlight
  {
    hide Conserved, NewName, Contents, OnlyEnded, Sound;
    NewFileContents(l, stored, data, hash);
    FlyingAreFiles(RecordsOf(l.rows), l.files.Keys, l.inFlight, l.doomed, l.removed);
    NotAFile(l, stored);
    FileArrives(RecordsOf(l.rows), l.files.Keys, l.inFlight, l.doomed, l.removed, stored);
    assert l.files[stored.path := data].Keys == l.files.Keys + {stored.path};
  }

  lemma NotAFile(l: Ledger, stored: Stored)
    requires IsNewName(l, stored)
    ensures stored.path !in l.files
  {
  }

  lemma DropKeeps(l: Ledger, path: string, hash: Bytes -> string)
    requires Balanced(l, hash) && path in l.inFlight
    ensures Balanced(Dropped(l, path), hash)
  {
    hide Conserved, Contents, OnlyEnded, Sound;
    Discarded(RecordsOf(l.rows), l.files.Keys, l.inFlight, l.doomed, l.removed, path);
    FewerFiles(l, hash, {path});
    assert (l.files - {path}).Keys == l.files.Keys - {path};
  }

  lemma EndedStays(r: Round, step: Step, draw: Draws)
    requires Inv(r) && Productive(draw)
    ensures Terminal(r.row.state) ==> Perform(r, step, draw).round.row == r.row
  {
    hide Inv, Perform, Terminal;
    PerformKeeps(r, step, draw);
    hide ParticipantsGrow, TasksGrow, JobGrows;
  }

  /** Only the row of one round changes, which stays ended if it is. */
  lemma OneRoundSteps(l: Ledger, id: RoundId, step: Step, draws: RoundId -> Draws)
    requires OnlyEnded(l.rows, l.doomed) && Sound(l.rows) && Drawn(draws) && id in l.rows
    ensures var after := l.rows[id := Perform(l.rows[id], step, draws(id)).round];
      OnlyEnded(after, l.doomed) && Sound(after)
  {
    hide Inv, Perform, Grows;
    PerformKeeps(l.rows[id], step, draws(id));
    EndedStays(l.rows[id], step, draws(id));
  }

  lemma SameContents(l: Ledger, rows: map<RoundId, Round>, hash: Bytes -> string)
    requires Contents(l.rows, l.files, l.inFlight, hash) && RecordsOf(rows) == RecordsOf(l.rows)
    ensures Contents(rows, l.files, l.inFlight, hash)
  {
    hide Inv;
    forall id | id in rows ensures GenuineRows(l.files, rows[id].artifacts, hash) {
      assert RecordsOf(rows)[id] == RecordsOf(l.rows)[id];
    }
  }

  lemma SameRecords(rows: map<RoundId, Round>, id: RoundId, after: Round)
    requires id in rows && after.artifacts == rows[id].artifacts
    ensures RecordsOf(rows[id := after]) == RecordsOf(rows)
  {
  }

  lemma NewRowContents(l: Ledger, id: RoundId, after: Round, path: string, row: Artifact, hash: Bytes -> string)
    requires Contents(l.rows, l.files, l.inFlight, hash) && id in l.rows && path in l.inFlight && l.inFlight[path].path == path
    requires Adds(l.rows[id].artifacts, after.artifacts, l.inFlight[path], row)
    ensures Contents(l.rows[id := after], l.files, l.inFlight - {path}, hash)
  {
    hide Inv;
    var rows := l.rows[id := after];
    forall i | i in rows ensures GenuineRows(l.files, rows[i].artifacts, hash) {
      if i == id {
        assert GenuineRows(l.files, l.rows[id].artifacts, hash);
      }
    }
  }

  lemma FlyingPath(l: Ledger, path: string)
    requires Books(l) && path in l.inFlight
    ensures l.inFlight[path].path == path && path in l.files
  {
  }

  /** A request that brings a file. */
  lemma FileAskKeeps(l: Ledger, id: RoundId, step: Step, draws: RoundId -> Draws, hash: Bytes -> string)
    requires Balanced(l, hash) && Drawn(draws) && id in l.rows
    requires FileOf(step.op).Some? && Flying(l, FileOf(step.op).value)
    ensures Balanced(Asked(l, id, step, draws), hash)
  {
    hide Inv, Perform, Conserved, Contents, OnlyEnded, Sound, Adds, Fresh;
    var o, path := Perform(l.rows[id], step, draws(id)), FileOf(step.op).value.path;
    RoundSound(l.rows, id);
    OneRoundSteps(l, id, step, draws);
    StepArtifacts(l.rows[id], step, draws(id));
    FlyingPath(l, path);
    if Fresh(o.reply) {
      assert RecordsOf(l.rows[id := o.round]) == RecordsOf(l.rows)[id := o.round.artifacts];
      PutOnRecord(RecordsOf(l.rows), l.files.Keys, l.inFlight, l.doomed, l.removed, id, o.round.artifacts, path,
        RowOf(step.op, step.now));
      NewRowContents(l, id, o.round, path, RowOf(step.op, step.now), hash);
    } else {
      SameRecords(l.rows, id, o.round);
      SameContents(l, l.rows[id := o.round], hash);
    }
  }

  lemma RoundSound(rows: map<RoundId, Round>, id: RoundId)
    requires Sound(rows) && id in rows
    ensures Inv(rows[id])
  {
    hide Inv;
  }

  lemma PlainAskKeeps(l: Ledger, id: RoundId, step: Step, draws: RoundId -> Draws, hash: Bytes -> string)
    requires Balanced(l, hash) && Drawn(draws) && id in l.rows && FileOf(step.op).None?
    ensures Balanced(Asked(l, id, step, draws), hash)
    ensures RecordsOf(Asked(l, id, step, draws).rows) == RecordsOf(l.rows)
  {
    hide Inv, Perform, Conserved, Contents, OnlyEnded, Sound;
    OneRoundSteps(l, id, step, draws);
    StepWithoutFile(l.rows[id], step, draws(id));
    SameRecords(l.rows, id, Perform(l.rows[id], step, draws(id)).round);
    SameContents(l, Asked(l, id, step, draws).rows, hash);
  }

  lemma OpenKeeps(l: Ledger, id: RoundId, cfg: Config, hash: Bytes -> string)
    requires Balanced(l, hash) && id !in l.rows && id !in l.doomed && Proper(cfg)
    ensures Balanced(l.(rows := l.rows[id := Started(cfg)]), hash)
  {
    hide Inv, Conserved, Contents, Started, Proper;
    StartsEmpty(cfg);
    StartsWell(cfg);
    NoRowContents(l, id, Started(cfg), hash);
    RoundAdded(RecordsOf(l.rows), l.files.Keys, l.inFlight, l.doomed, l.removed, id);
    assert RecordsOf(l.rows[id := Started(cfg)]) == RecordsOf(l.rows)[id := map[]];
  }

  lemma NoRowContents(l: Ledger, id: RoundId, r: Round, hash: Bytes -> string)
    requires Contents(l.rows, l.files, l.inFlight, hash) && r.artifacts == map[]
    ensures Contents(l.rows[id := r], l.files, l.inFlight, hash)
  {
    hide Inv;
    var after := l.rows[id := r];
    forall i | i in after ensures GenuineRows(l.files, after[i].artifacts, hash) {
      if i != id {
        assert GenuineRows(l.files, l.rows[i].artifacts, hash);
      }
    }
  }

  lemma StartsEmpty(cfg: Config)
    ensures Started(cfg).artifacts == map[]
  {
  }

  lemma EachKeeps(l: Ledger, step: Step, draws: RoundId -> Draws, hash: Bytes -> string)
    requires Balanced(l, hash) && Drawn(draws) && FileOf(step.op).None?
    ensures Balanced(l.(rows := Swept(l.rows, step, draws)), hash) && RecordsOf(Swept(l.rows, step, draws)) == RecordsOf(l.rows)
  {
    hide Inv, Perform, Conserved, Contents, Grows;
    var after := Swept(l.rows, step, draws);
    forall id | id in l.rows
      ensures after[id].artifacts == l.rows[id].artifacts && Inv(after[id])
      ensures Terminal(l.rows[id].row.state) ==> Terminal(after[id].row.state)
    {
      StepWithoutFile(l.rows[id], step, draws(id));
      PerformKeeps(l.rows[id], step, draws(id));
      EndedStays(l.rows[id], step, draws(id));
    }
    hide Terminal;
    assert RecordsOf(after) == RecordsOf(l.rows);
    SameContents(l, after, hash);
  }

  lemma DoomKeeps(l: Ledger, ids: set<RoundId>, now: Time, hash: Bytes -> string)
    requires Balanced(l, hash) && forall id | id in ids :: PurgeableNow(l, id, now)
    ensures Balanced(l.(doomed := l.doomed + ids), hash)
  {
    hide Inv, Contents, Paths, PathsUnique, OnTheirWay, OnRecord;
  }

  lemma DeleteKeeps(l: Ledger, id: RoundId, path: string, hash: Bytes -> string)
    requires Balanced(l, hash) && Deletable(l, id, path)
    ensures Balanced(l.(files := l.files - {path}), hash)
  {
    hide Inv, Conserved, Contents, Paths, OnlyEnded, Sound;
    DoomedFileDeleted(RecordsOf(l.rows), l.files.Keys, l.inFlight, l.doomed, l.removed, id, path);
    FewerFiles(l, hash, {path});
    assert (l.files - {path}).Keys == l.files.Keys - {path};
  }

  lemma MoreDoomed(records: Records, files: set<string>, inFlight: map<string, Stored>, doomed: set<RoundId>,
                   removed: set<string>, id: RoundId)
    requires Conserved(records, files, inFlight, doomed, removed)
    ensures Conserved(records, files, inFlight, doomed + {id}, removed)
  {
    hide Paths, PathsUnique, OnTheirWay, OnRecord;
  }

  lemma PurgeKeeps(l: Ledger, id: RoundId, now: Time, hash: Bytes -> string)
    requires Balanced(l, hash) && PurgeableNow(l, id, now) && Paths(l.rows[id].artifacts) !! l.files.Keys
    ensures Balanced(Purged(l, id, now), hash)
  {
    hide Inv, Conserved, Paths, Purgeable, GenuineRows;
    RoundRemoved(RecordsOf(l.rows), l.files.Keys, l.inFlight, l.doomed, l.removed, id);
    assert RecordsOf(l.rows - {id}) == RecordsOf(l.rows) - {id};
    MoreDoomed(RecordsOf(l.rows - {id}), l.files.Keys, l.inFlight, l.doomed, l.removed + Paths(l.rows[id].artifacts), id);
  }

  /** Whatever step is taken, the books stay balanced. */
  lemma MoveKeeps(l: Ledger, m: Move, draws: RoundId -> Draws, hash: Bytes -> string)
    requires Balanced(l, hash) && Drawn(draws) && Allowed(l, m, hash)
    ensures Balanced(After(l, m, draws), hash)
  {
    hide Balanced, Arrived, Dropped, Drawn, IsNewName, Deletable, Paths, Swept;
    match m
    case Arrive(stored, data) => ArriveKeeps(l, stored, data, hash);
    case Drop(path) => DropKeeps(l, path, hash);
    case Ask(id, step) =>
      if id in l.rows {
        if FileOf(step.op).Some? {
          FileAskKeeps(l, id, step, draws, hash);
        } else {
          PlainAskKeeps(l, id, step, draws, hash);
        }
      }
    case Open(id, cfg) => OpenKeeps(l, id, cfg, hash);
    case Each(step) => EachKeeps(l, step, draws, hash);
    case Doom(ids, now) => DoomKeeps(l, ids, now, hash);
    case Delete(id, path) => DeleteKeeps(l, id, path, hash);
    case Purge(id, now) =>
      if PurgeableNow(l, id, now) {
        PurgeKeeps(l, id, now, hash);
      }
  }

  // ---- Any sequence of steps

  /** The ledger after the first n moves, of whatever requests, workers and maintenance runs they are. */
  ghost function LedgerAt(l: Ledger, moves: seq<Move>, n: nat, draws: RoundId -> Draws): Ledger
    requires n <= |moves|
  {
    if n == 0 then l else After(LedgerAt(l, moves, n - 1, draws), moves[n - 1], draws)
  }

  /** Each move is one the service may take when its turn comes. */
  ghost predicate Legal(l: Ledger, moves: seq<Move>, draws: RoundId -> Draws, hash: Bytes -> string) {
    forall n: nat | n < |moves| :: Allowed(LedgerAt(l, moves, n, draws), moves[n], hash)
  }

  ghost predicate Run(l: Ledger, moves: seq<Move>, draws: RoundId -> Draws, hash: Bytes -> string) {
    Balanced(l, hash) && Drawn(draws) && Legal(l, moves, draws, hash)
  }

  lemma {:induction false} StaysBalanced(l: Ledger, moves: seq<Move>, n: nat, draws: RoundId -> Draws, hash: Bytes -> string)
    requires Run(l, moves, draws, hash) && n <= |moves|
    ensures Balanced(LedgerAt(l, moves, n, draws), hash)
  {
    hide Balanced, After, Allowed, Drawn;
    if n > 0 {
      StaysBalanced(l, moves, n - 1, draws, hash);
      MoveKeeps(LedgerAt(l, moves, n - 1, draws), moves[n - 1], draws, hash);
    }
  }

  // ---- What one step leaves of a round

  /** The rows and artifacts of an ended round stay as they are until it is purged, and its name is never used again. */
  ghost predicate KeptOrGone(l: Ledger, id: RoundId, r: Round) {
    if id in l.rows then l.rows[id].row == r.row && l.rows[id].artifacts == r.artifacts
    else id in l.doomed && Paths(r.artifacts) <= l.removed
  }

  lemma EndedStepKeeps(r: Round, step: Step, draw: Draws)
    requires Inv(r) && Productive(draw) && Terminal(r.row.state)
    ensures Perform(r, step, draw).round.row == r.row && Perform(r, step, draw).round.artifacts == r.artifacts
  {
    hide Inv, Perform, Terminal, Adds, Fresh;
    EndedStays(r, step, draw);
    if FileOf(step.op).Some? {
      StepArtifacts(r, step, draw);
    } else {
      StepWithoutFile(r, step, draw);
    }
  }

  lemma MoveKeepsEnded(l: Ledger, m: Move, draws: RoundId -> Draws, hash: Bytes -> string, id: RoundId, r: Round)
    requires Balanced(l, hash) && Drawn(draws) && Allowed(l, m, hash) && KeptOrGone(l, id, r) && Terminal(r.row.state)
    ensures KeptOrGone(After(l, m, draws), id, r)
  {
    hide Inv, Perform, Conserved, Contents, OnlyEnded, Terminal, Paths, Purgeable;
    if id in l.rows && (m.Ask? || m.Each?) {
      EndedStepKeeps(l.rows[id], m.step, draws(id));
    }
  }

  lemma {:induction false} KeptOver(l: Ledger, moves: seq<Move>, m: nat, n: nat, draws: RoundId -> Draws,
                                    hash: Bytes -> string, id: RoundId, r: Round)
    requires Run(l, moves, draws, hash) && m <= n <= |moves|
    requires KeptOrGone(LedgerAt(l, moves, m, draws), id, r) && Terminal(r.row.state)
    ensures KeptOrGone(LedgerAt(l, moves, n, draws), id, r)
    decreases n
  {
    hide Balanced, After, Allowed, Drawn, KeptOrGone, Terminal;
    if m < n {
      KeptOver(l, moves, m, n - 1, draws, hash, id, r);
      StaysBalanced(l, moves, n - 1, draws, hash);
      MoveKeepsEnded(LedgerAt(l, moves, n - 1, draws), moves[n - 1], draws, hash, id, r);
    }
  }

  /**
   * Whatever is done by whomever after a round has ended, it keeps exactly its row and its files until it is purged;
   * then its paths stay on the list of removed ones and its name is not used again.
   */
  lemma EndedRoundsKeepFiles(l: Ledger, moves: seq<Move>, m: nat, n: nat, draws: RoundId -> Draws, hash: Bytes -> string, id: RoundId)
    requires Run(l, moves, draws, hash) && m <= n <= |moves|
    requires id in LedgerAt(l, moves, m, draws).rows && Terminal(LedgerAt(l, moves, m, draws).rows[id].row.state)
    ensures KeptOrGone(LedgerAt(l, moves, n, draws), id, LedgerAt(l, moves, m, draws).rows[id])
  {
    hide Run, Terminal, LedgerAt;
    KeptOver(l, moves, m, n, draws, hash, id, LedgerAt(l, moves, m, draws).rows[id]);
  }

  // ---- Deleted files stay deleted

  /** The file of a round being removed is gone, and nobody can bring it back. */
  ghost predicate GoneForGood(l: Ledger, id: RoundId, r: Round, path: string) {
    && KeptOrGone(l, id, r) && id in l.doomed
    && path in Paths(r.artifacts) && path !in l.files
  }

  lemma NewNameDiffers(l: Ledger, id: RoundId, stored: Stored)
    requires IsNewName(l, stored) && id in l.rows
    ensures stored.path !in Paths(l.rows[id].artifacts)
  {
    assert Insertable(RecordsOf(l.rows)[id], stored);
    NotOnRecord(l.rows[id].artifacts, stored);
  }

  lemma MoveKeepsGone(l: Ledger, m: Move, draws: RoundId -> Draws, hash: Bytes -> string, id: RoundId, r: Round, path: string)
    requires Balanced(l, hash) && Drawn(draws) && Allowed(l, m, hash)
    requires GoneForGood(l, id, r, path) && Terminal(r.row.state)
    ensures GoneForGood(After(l, m, draws), id, r, path)
  {
    hide Balanced, Perform, Paths, Terminal, IsNewName, Purgeable, Swept, Drawn, Deletable;
    MoveKeepsEnded(l, m, draws, hash, id, r);
    if m.Arrive? {
      NotRemoved(l, m.stored);
      if id in l.rows {
        NewNameDiffers(l, id, m.stored);
      }
    }
  }

  lemma NotRemoved(l: Ledger, stored: Stored)
    requires IsNewName(l, stored)
    ensures stored.path !in l.removed
  {
  }

  lemma {:induction false} GoneOver(l: Ledger, moves: seq<Move>, m: nat, n: nat, draws: RoundId -> Draws,
                                    hash: Bytes -> string, id: RoundId, r: Round, path: string)
    requires Run(l, moves, draws, hash) && m <= n <= |moves|
    requires GoneForGood(LedgerAt(l, moves, m, draws), id, r, path) && Terminal(r.row.state)
    ensures GoneForGood(LedgerAt(l, moves, n, draws), id, r, path)
    decreases n
  {
    hide Balanced, After, Allowed, Drawn, GoneForGood, Terminal;
    if m < n {
      GoneOver(l, moves, m, n - 1, draws, hash, id, r, path);
      StaysBalanced(l, moves, n - 1, draws, hash);
      MoveKeepsGone(LedgerAt(l, moves, n - 1, draws), moves[n - 1], draws, hash, id, r, path);
    }
  }

  /** A round being removed. */
  ghost predicate BeingRemoved(l: Ledger, id: RoundId) {
    id in l.rows && id in l.doomed
  }

  lemma DoomedHasEnded(l: Ledger, id: RoundId, hash: Bytes -> string)
    requires Balanced(l, hash) && BeingRemoved(l, id)
    ensures Terminal(l.rows[id].row.state)
  {
    hide Terminal, Conserved, Contents, Inv;
  }

  /**
   * Maintenance is safe beside anything else, another maintenance run included: a file of a round being removed may be
   * deleted at any later time, the deleted ones stay deleted, and once all of them are, the rows may be purged.
   */
  lemma MaintenanceStaysPossible(l: Ledger, moves: seq<Move>, m: nat, n: nat, draws: RoundId -> Draws, hash: Bytes -> string,
                                 id: RoundId, now: Time)
    requires Run(l, moves, draws, hash) && m <= n <= |moves| && BeingRemoved(LedgerAt(l, moves, m, draws), id)
    ensures var before, after := LedgerAt(l, moves, m, draws), LedgerAt(l, moves, n, draws);
      var paths := Paths(before.rows[id].artifacts);
      && (forall path | path in paths :: Allowed(after, Delete(id, path), hash))
      && (forall path | path in paths && path !in before.files :: path !in after.files)
      && (paths !! before.files.Keys ==> Allowed(after, Purge(id, now), hash))
  {
    hide Run, LedgerAt, Balanced, Paths, Terminal, Purgeable;
    var before, after := LedgerAt(l, moves, m, draws), LedgerAt(l, moves, n, draws);
    var r := before.rows[id];
    RunStaysBalanced(l, moves, m, draws, hash);
    DoomedHasEnded(before, id, hash);
    EndedRoundsKeepFiles(l, moves, m, n, draws, hash, id);
    DoomedOver(l, moves, m, n, draws);
    forall path | path in Paths(r.artifacts) && path !in before.files ensures path !in after.files {
      GoneOver(l, moves, m, n, draws, hash, id, r, path);
    }
  }

  lemma RunStaysBalanced(l: Ledger, moves: seq<Move>, n: nat, draws: RoundId -> Draws, hash: Bytes -> string)
    requires Run(l, moves, draws, hash) && n <= |moves|
    ensures Balanced(LedgerAt(l, moves, n, draws), hash)
  {
    hide Run, Balanced, LedgerAt;
    StaysBalanced(l, moves, n, draws, hash);
  }

  lemma {:induction false} DoomedOver(l: Ledger, moves: seq<Move>, m: nat, n: nat, draws: RoundId -> Draws)
    requires m <= n <= |moves|
    ensures LedgerAt(l, moves, m, draws).doomed <= LedgerAt(l, moves, n, draws).doomed
    decreases n
  {
    hide Perform, Paths, Purgeable, Swept;
    if m < n {
      DoomedOver(l, moves, m, n - 1, draws);
    }
  }

  // ---- A file on its way stays on its way

  /** The move is the one with which whoever brought the file settles what becomes of it. */
  ghost predicate Settles(m: Move, path: string) {
    m == Drop(path) || (m.Ask? && FileOf(m.step.op).Some? && FileOf(m.step.op).value.path == path)
  }

  ghost predicate Carried(l: Ledger, stored: Stored, data: Bytes) {
    Flying(l, stored) && stored.path in l.files && l.files[stored.path] == data
  }

  lemma NotDeletable(l: Ledger, id: RoundId, path: string)
    requires Books(l) && path in l.inFlight
    ensures !Deletable(l, id, path)
  {
    if id in l.rows {
      assert Insertable(RecordsOf(l.rows)[id], l.inFlight[path]);
      NotOnRecord(l.rows[id].artifacts, l.inFlight[path]);
    }
    hide Paths, Insertable, PathsUnique, OnRecord;
  }

  lemma MoveKeepsCarried(l: Ledger, m: Move, draws: RoundId -> Draws, hash: Bytes -> string, stored: Stored, data: Bytes)
    requires Balanced(l, hash) && Allowed(l, m, hash) && Carried(l, stored, data) && !Settles(m, stored.path)
    ensures Carried(After(l, m, draws), stored, data)
  {
    hide Conserved, Contents, OnlyEnded, Sound, Perform, Paths, IsNewName, Purgeable, Swept, Deletable, Fresh;
    if m.Arrive? {
      NotAFile(l, m.stored);
    } else if m.Delete? {
      NotDeletable(l, m.id, stored.path);
    }
  }

  lemma {:induction false} CarriedOver(l: Ledger, moves: seq<Move>, m: nat, n: nat, draws: RoundId -> Draws,
                                       hash: Bytes -> string, stored: Stored, data: Bytes)
    requires Run(l, moves, draws, hash) && m <= n <= |moves| && Carried(LedgerAt(l, moves, m, draws), stored, data)
    requires forall i | m <= i < n :: !Settles(moves[i], stored.path)
    ensures Carried(LedgerAt(l, moves, n, draws), stored, data)
    decreases n
  {
    hide Balanced, After, Drawn, Settles, Allowed, Carried;
    if m < n {
      CarriedOver(l, moves, m, n - 1, draws, hash, stored, data);
      StaysBalanced(l, moves, n - 1, draws, hash);
      MoveKeepsCarried(LedgerAt(l, moves, n - 1, draws), moves[n - 1], draws, hash, stored, data);
    }
  }

  /**
   * A file that has arrived stays on its way with its content, whatever others do, until whoever brought it throws it
   * away or puts it to the database; so both stay possible.
   */
  lemma StaysInFlight(l: Ledger, moves: seq<Move>, m: nat, n: nat, draws: RoundId -> Draws,
                      hash: Bytes -> string, stored: Stored, data: Bytes)
    requires Run(l, moves, draws, hash) && m <= n <= |moves| && Carried(LedgerAt(l, moves, m, draws), stored, data)
    requires forall i | m <= i < n :: !Settles(moves[i], stored.path)
    ensures Carried(LedgerAt(l, moves, n, draws), stored, data)
    ensures Allowed(LedgerAt(l, moves, n, draws), Drop(stored.path), hash)
    ensures forall id, step: Step | FileOf(step.op) == Some(stored) && Numbered(LedgerAt(l, moves, n, draws).rows, step.op) ::
      Allowed(LedgerAt(l, moves, n, draws), Ask(id, step), hash)
  {
    hide Run, LedgerAt, Settles, Numbered;
    CarriedOver(l, moves, m, n, draws, hash, stored, data);
  }

  // ---- A file on record stays on record

  /** The row and the content of a file of a round that is not being removed. */
  ghost predicate OnFile(l: Ledger, id: RoundId, a: string, row: Artifact, data: Bytes) {
    && id in l.rows && a in l.rows[id].artifacts && l.rows[id].artifacts[a] == row
    && row.path in l.files && l.files[row.path] == data
  }

  /** The round is found to have ended and to be past its retention, and is to be removed. */
  ghost predicate RemovalBegins(l: Ledger, m: Move, id: RoundId) {
    || (m.Doom? && id in m.ids && PurgeableNow(l, id, m.now))
    || (m.Purge? && m.id == id && PurgeableNow(l, id, m.now))
  }

  lemma RowStays(r: Round, step: Step, draw: Draws, a: string)
    requires Inv(r) && Productive(draw) && a in r.artifacts
    ensures var after := Perform(r, step, draw).round; a in after.artifacts && after.artifacts[a] == r.artifacts[a]
  {
    hide Inv, Perform, RowGrows, ParticipantsGrow, TasksGrow, JobGrows;
    PerformKeeps(r, step, draw);
  }

  lemma RecordedIsNotInFlight(l: Ledger, id: RoundId, a: string, path: string)
    requires Books(l) && id in l.rows && a in l.rows[id].artifacts && path in l.inFlight
    ensures l.rows[id].artifacts[a].path != path
  {
    assert Insertable(RecordsOf(l.rows)[id], l.inFlight[path]);
  }

  lemma OnlyOwnersDelete(l: Ledger, id: RoundId, a: string, other: RoundId, path: string)
    requires Books(l) && id in l.rows && id !in l.doomed && a in l.rows[id].artifacts && Deletable(l, other, path)
    ensures l.rows[id].artifacts[a].path != path
  {
    var records := RecordsOf(l.rows);
    assert l.rows[id].artifacts[a].path in Paths(records[id]);
    if other in l.rows {
      assert records[other] == l.rows[other].artifacts;
    }
    hide Paths, OnTheirWay, OnRecord;
  }

  lemma MoveKeepsOnFile(l: Ledger, m: Move, draws: RoundId -> Draws, hash: Bytes -> string,
                        id: RoundId, a: string, row: Artifact, data: Bytes)
    requires Balanced(l, hash) && Drawn(draws) && Allowed(l, m, hash) && OnFile(l, id, a, row, data)
    requires id !in l.doomed && !RemovalBegins(l, m, id)
    ensures OnFile(After(l, m, draws), id, a, row, data) && id !in After(l, m, draws).doomed
  {
    hide Conserved, Contents, OnlyEnded, Inv, Perform, Paths, IsNewName, Purgeable, Deletable, Fresh;
    match m
    case Arrive(stored, _) => NotAFile(l, stored);
    case Drop(path) => RecordedIsNotInFlight(l, id, a, path);
    case Ask(other, step) =>
      if other == id {
        RowStays(l.rows[id], step, draws(id), a);
      }
    case Each(step) => RowStays(l.rows[id], step, draws(id), a);
    case Delete(other, path) => OnlyOwnersDelete(l, id, a, other, path);
    case _ =>
  }

  /** No file on record is lost or changed before its round has ended, is past its retention and is to be removed. */
  lemma {:induction false} FilesOnRecordStay(l: Ledger, moves: seq<Move>, m: nat, n: nat, draws: RoundId -> Draws,
                                             hash: Bytes -> string, id: RoundId, a: string, row: Artifact, data: Bytes)
    requires Run(l, moves, draws, hash) && m <= n <= |moves|
    requires OnFile(LedgerAt(l, moves, m, draws), id, a, row, data) && id !in LedgerAt(l, moves, m, draws).doomed
    requires forall k: nat | m <= k < n :: !RemovalBegins(LedgerAt(l, moves, k, draws), moves[k], id)
    ensures OnFile(LedgerAt(l, moves, n, draws), id, a, row, data) && id !in LedgerAt(l, moves, n, draws).doomed
    decreases n
  {
    hide Balanced, After, Allowed, Drawn, OnFile, RemovalBegins;
    if m < n {
      FilesOnRecordStay(l, moves, m, n - 1, draws, hash, id, a, row, data);
      StaysBalanced(l, moves, n - 1, draws, hash);
      MoveKeepsOnFile(LedgerAt(l, moves, n - 1, draws), moves[n - 1], draws, hash, id, a, row, data);
    }
  }
}
