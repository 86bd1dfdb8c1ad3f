/** What others do while a worker is at its job: requests, with their files, and maintenance runs. */
module Bystanders {
  import opened Database
  import opened Files
  import opened Filing
  import opened Handlers
  import opened Ledgers
  import opened Names
  import opened Removal
  import opened RoundInvariant
  import opened Rounds
  import opened Runs
  import opened Scheduler
  import opened Shuffling
  import opened Store
  import opened Tables
  import opened Wrappers

  /** A request of some round, with the content of the file it may bring, or a maintenance run. */
  datatype Deed = Bring(id: RoundId, step: Step, data: Bytes) | Maintain(now: Time)

  function FileIn(a: Deed): Option<Stored> {
    if a.Bring? then FileOf(a.step.op) else None
  }

  /** The request under the row number the table gives it. */
  ghost function Numbering(rows: map<RoundId, Round>, step: Step): (s: Step)
    ensures FileOf(s.op) == FileOf(step.op) && Numbered(rows, s.op)
  {
    if step.op.PutUpdate? then step.(op := step.op.(rowid := NextRow(rows))) else step
  }

  /** A file arrives with its request and is settled; maintenance removes what is due. */
  ghost function Acted(l: Ledger, a: Deed, draws: RoundId -> Draws): Ledger {
    match a
    case Maintain(now) => Maintained(l, now, draws)
    case Bring(id, step, data) =>
      if FileOf(step.op).None? then Asked(l, id, step, draws)
      else Settled(Arrived(l, FileOf(step.op).value, data), id, Numbering(l.rows, step), draws)
  }

  /** The file of the action has a new name and is described truly. */
  ghost predicate Fits(l: Ledger, a: Deed, hash: Bytes -> string) {
    FileIn(a).Some? ==> IsNewName(l, FileIn(a).value) && Describes(FileIn(a).value, a.data, hash)
  }

  // ---- Names stay new

  predicate Apart(f: Stored, g: Stored) {
    f.objectId != g.objectId && f.path != g.path
  }

  lemma ArrivedStillNew(l: Ledger, stored: Stored, data: Bytes, f: Stored)
    requires IsNewName(l, f) && Apart(f, stored)
    ensures IsNewName(Arrived(l, stored, data), f)
  {
    hide Insertable;
  }

  lemma AskedStillNew(l: Ledger, id: RoundId, step: Step, draws: RoundId -> Draws, f: Stored)
    requires IsNewName(l, f) && (id in l.rows ==> Inv(l.rows[id]))
    requires FileOf(step.op).Some? ==> Apart(f, FileOf(step.op).value)
    ensures IsNewName(Asked(l, id, step, draws), f)
  {
    hide Inv, Perform, Fresh;
    if id in l.rows {
      var after := Perform(l.rows[id], step, draws(id)).round;
      assert Insertable(RecordsOf(l.rows)[id], f);
      if FileOf(step.op).Some? {
        StepArtifacts(l.rows[id], step, draws(id));
      } else {
        StepWithoutFile(l.rows[id], step, draws(id));
      }
      assert Insertable(after.artifacts, f);
      forall i | i in Asked(l, id, step, draws).rows ensures Insertable(RecordsOf(Asked(l, id, step, draws).rows)[i], f) {
        if i != id {
          assert Insertable(RecordsOf(l.rows)[i], f);
        }
      }
    }
  }

  lemma WithoutStillNew(l: Ledger, ids: set<RoundId>, f: Stored)
    requires IsNewName(l, f)
    ensures IsNewName(Without(l, ids), f)
  {
    forall id, a | id in ids && id in l.rows && a in l.rows[id].artifacts ensures l.rows[id].artifacts[a].path != f.path {
      assert Insertable(RecordsOf(l.rows)[id], f);
    }
    assert f.path !in PathsOf(l.rows, ids);
    hide PathsOf;
    forall i | i in RecordsOf(Without(l, ids).rows) ensures Insertable(RecordsOf(Without(l, ids).rows)[i], f) {
      assert RecordsOf(Without(l, ids).rows)[i] == RecordsOf(l.rows)[i];
    }
  }

  lemma SameNamesNew(l: Ledger, after: Ledger, f: Stored)
    requires IsNewName(l, f) && RecordsOf(after.rows) == RecordsOf(l.rows)
    requires after.files == l.files && after.inFlight == l.inFlight && after.removed == l.removed
    ensures IsNewName(after, f)
  {
    hide Insertable;
  }

  lemma DroppedStillNew(l: Ledger, path: string, f: Stored)
    requires IsNewName(l, f)
    ensures IsNewName(Dropped(l, path), f)
  {
    hide Insertable;
  }

  /** Whatever others do, a name that is not theirs stays new. */
  lemma ActedStillNew(l: Ledger, a: Deed, draws: RoundId -> Draws, hash: Bytes -> string, f: Stored)
    requires Balanced(l, hash) && Drawn(draws) && Fits(l, a, hash) && IsNewName(l, f)
    requires FileIn(a).Some? ==> Apart(f, FileIn(a).value)
    ensures IsNewName(Acted(l, a, draws), f)
  {
    hide Balanced, IsNewName, Perform, Inv, Without, Dropped, Arrived, Drawn, Numbering, Describes, AnswerTo, Asked;
    match a
    case Maintain(now) =>
      EachKeeps(l, Step(Sweep, now), draws, hash);
      var swept := After(l, Each(Step(Sweep, now)), draws);
      SameNamesNew(l, swept, f);
      WithoutStillNew(swept, PastRetention(swept.rows, now), f);
    case Bring(id, step, data) =>
      if id in l.rows {
        BalancedRoundSound(l, id, hash);
      }
      if FileOf(step.op).None? {
        AskedStillNew(l, id, step, draws, f);
      } else {
        var stored := FileOf(step.op).value;
        var arrived, numbered := Arrived(l, stored, data), Numbering(l.rows, step);
        ArrivedStillNew(l, stored, data, f);
        SameRounds(l, stored, data);
        AskedStillNew(arrived, id, numbered, draws, f);
        DroppedStillNew(Asked(arrived, id, numbered, draws), stored.path, f);
      }
  }

  lemma SameRounds(l: Ledger, stored: Stored, data: Bytes)
    ensures Arrived(l, stored, data).rows == l.rows
  {
  }

  // ---- The books stay balanced

  lemma ConservedWithout(records: Records, files: set<string>, inFlight: map<string, Stored>, doomed: set<RoundId>,
                         removed: set<string>, ids: set<RoundId>, gone: set<string>)
    requires Conserved(records, files, inFlight, doomed, removed)
    requires forall p | p in gone :: exists i :: i in ids && i in records && p in Paths(records[i])
    requires forall i | i in ids && i in records :: Paths(records[i]) <= gone
    ensures Conserved(records - ids, files - gone, inFlight, doomed + ids, removed + gone)
  {
    forall p, i | p in inFlight && i in records ensures p !in Paths(records[i]) {
      NotOnRecord(records[i], inFlight[p]);
    }
    hide Paths, Insertable;
    forall p | p in files - gone ensures p in inFlight || OnRecord(records - ids, p) {
      if p !in inFlight {
        var i :| i in records && p in Paths(records[i]);
        assert i in records - ids;
      }
    }
    forall i | i in records - ids ensures Paths(records[i]) !! gone {
      forall p | p in gone ensures p !in Paths(records[i]) {
        var j :| j in ids && j in records && p in Paths(records[j]);
      }
    }
  }

  lemma PathsOfRecords(rows: map<RoundId, Round>, ids: set<RoundId>)
    ensures var gone, records := PathsOf(rows, ids), RecordsOf(rows);
      && (forall p | p in gone :: exists i :: i in ids && i in records && p in Paths(records[i]))
      && forall i | i in ids && i in records :: Paths(records[i]) <= gone
  {
    var gone, records := PathsOf(rows, ids), RecordsOf(rows);
    forall p | p in gone ensures exists i :: i in ids && i in records && p in Paths(records[i]) {
      var id, a :| id in ids && id in rows && a in rows[id].artifacts && rows[id].artifacts[a].path == p;
      assert p in Paths(records[id]);
    }
    forall i, a | i in ids && i in records && a in records[i] ensures records[i][a].path in gone {
      assert records[i] == rows[i].artifacts;
    }
  }

  lemma WithoutKeeps(l: Ledger, ids: set<RoundId>, now: Time, hash: Bytes -> string)
    requires Balanced(l, hash) && forall id | id in ids :: PurgeableNow(l, id, now)
    ensures Balanced(Without(l, ids), hash)
  {
    hide PathsOf, Paths, Inv, Conserved, Contents, Purgeable;
    var gone, records := PathsOf(l.rows, ids), RecordsOf(l.rows);
    PathsOfRecords(l.rows, ids);
    ConservedWithout(records, l.files.Keys, l.inFlight, l.doomed, l.removed, ids, gone);
    assert RecordsOf(l.rows - ids) == records - ids && (l.files - gone).Keys == l.files.Keys - gone;
    FewerFiles(l, hash, gone);
    FewerRounds(l.rows, l.files - gone, l.inFlight, ids, hash);
  }

  lemma FewerRounds(rows: map<RoundId, Round>, files: map<string, Bytes>, inFlight: map<string, Stored>, ids: set<RoundId>,
                    hash: Bytes -> string)
    requires Contents(rows, files, inFlight, hash)
    ensures Contents(rows - ids, files, inFlight, hash)
  {
    hide Inv, GenuineRows;
  }

  lemma MaintainedKeeps(l: Ledger, now: Time, draws: RoundId -> Draws, hash: Bytes -> string)
    requires Balanced(l, hash) && Drawn(draws)
    ensures Balanced(Maintained(l, now, draws), hash)
  {
    hide Balanced, Perform, Drawn, Purgeable, Without;
    EachKeeps(l, Step(Sweep, now), draws, hash);
    var swept := After(l, Each(Step(Sweep, now)), draws);
    WithoutKeeps(swept, PastRetention(swept.rows, now), now, hash);
  }

  lemma ActedKeeps(l: Ledger, a: Deed, draws: RoundId -> Draws, hash: Bytes -> string)
    requires Balanced(l, hash) && Drawn(draws) && Fits(l, a, hash)
    ensures Balanced(Acted(l, a, draws), hash) && Acted(l, a, draws).inFlight == l.inFlight
  {
    hide Balanced, Perform, Drawn, Without, PastRetention, Numbering, IsNewName, Describes, OnFile;
    match a
    case Maintain(now) => MaintainedKeeps(l, now, draws, hash);
      hide Maintained;
      MaintenanceIsExact(l, now, draws, hash);
    case Bring(id, step, data) =>
      if FileOf(step.op).None? {
        if id in l.rows {
          PlainAskKeeps(l, id, step, draws, hash);
        }
      } else {
        SettledFile(l, id, Numbering(l.rows, step), draws, FileOf(step.op).value, data, hash);
      }
  }

  // ---- A round that is being read

  /** As long as the round is there, it is not being removed, and the files it had are on record with their content. */
  ghost predicate StillReads(l: Ledger, after: Ledger, id: RoundId)
    requires id in l.rows
  {
    id in after.rows ==>
      && id !in after.doomed
      && forall a | a in l.rows[id].artifacts ::
        && l.rows[id].artifacts[a].path in l.files
        && OnFile(after, id, a, l.rows[id].artifacts[a], l.files[l.rows[id].artifacts[a].path])
  }

  lemma ReadsItself(l: Ledger, id: RoundId, hash: Bytes -> string)
    requires Balanced(l, hash) && id in l.rows && id !in l.doomed
    ensures StillReads(l, l, id)
  {
    hide Inv, Contents, OnlyEnded;
    assert RecordsOf(l.rows)[id] == l.rows[id].artifacts;
    forall a | a in l.rows[id].artifacts ensures l.rows[id].artifacts[a].path in l.files {
      assert l.rows[id].artifacts[a].path in Paths(RecordsOf(l.rows)[id]);
    }
  }

  /** A move of anybody that does not begin the removal of the round. */
  lemma MoveStillReads(l: Ledger, now: Ledger, m: Move, draws: RoundId -> Draws, hash: Bytes -> string, id: RoundId)
    requires id in l.rows && StillReads(l, now, id) && Balanced(now, hash) && Drawn(draws) && Allowed(now, m, hash)
    requires m.Arrive? || m.Drop? || m.Ask?
    ensures StillReads(l, After(now, m, draws), id)
  {
    hide Balanced, Drawn, Perform, IsNewName, OnFile, Fresh, Numbered;
    if id in now.rows {
      forall a | a in l.rows[id].artifacts
        ensures OnFile(After(now, m, draws), id, a, l.rows[id].artifacts[a], l.files[l.rows[id].artifacts[a].path])
      {
        hide Allowed, After;
        MoveKeepsOnFile(now, m, draws, hash, id, a, l.rows[id].artifacts[a], l.files[l.rows[id].artifacts[a].path]);
      }
    }
  }

  lemma MaintainedDooms(l: Ledger, at: Time, draws: RoundId -> Draws, id: RoundId)
    requires id !in l.rows || id !in l.doomed
    ensures id in Maintained(l, at, draws).rows ==> id in l.rows && id !in Maintained(l, at, draws).doomed
  {
    hide Perform, PastRetention, PathsOf;
  }

  lemma MaintainedStillReads(l: Ledger, now: Ledger, at: Time, draws: RoundId -> Draws, hash: Bytes -> string, id: RoundId)
    requires id in l.rows && StillReads(l, now, id) && Balanced(now, hash) && Drawn(draws)
    ensures StillReads(l, Maintained(now, at, draws), id)
  {
    hide Balanced, Drawn, Perform, OnFile, Maintained;
    MaintainedDooms(now, at, draws, id);
    MaintenanceIsExact(now, at, draws, hash);
  }

  lemma BroughtStillReads(l: Ledger, now: Ledger, a: Deed, draws: RoundId -> Draws, hash: Bytes -> string, id: RoundId)
    requires id in l.rows && StillReads(l, now, id) && Balanced(now, hash) && Drawn(draws) && Fits(now, a, hash)
    requires FileIn(a).Some?
    ensures StillReads(l, Acted(now, a, draws), id)
  {
    hide Balanced, Drawn, Perform, IsNewName, StillReads, Numbering, AnswerTo, Fresh;
    var stored, step := FileIn(a).value, Numbering(now.rows, a.step);
    var arrive, ask, drop := Arrive(stored, a.data), Ask(a.id, step), Drop(stored.path);
    MoveStillReads(l, now, arrive, draws, hash, id);
    var arrived := After(now, arrive, draws);
    MoveKeeps(now, arrive, draws, hash);
    MoveStillReads(l, arrived, ask, draws, hash, id);
    MoveKeeps(arrived, ask, draws, hash);
    if !Fresh(AnswerTo(arrived, a.id, step, draws)) {
      StillFlying(arrived, a.id, step, draws, stored);
      MoveStillReads(l, After(arrived, ask, draws), drop, draws, hash, id);
    }
  }

  lemma StillFlying(l: Ledger, id: RoundId, step: Step, draws: RoundId -> Draws, stored: Stored)
    requires Flying(l, stored) && FileOf(step.op) == Some(stored) && !Fresh(AnswerTo(l, id, step, draws))
    ensures Flying(Asked(l, id, step, draws), stored)
  {
    hide Perform, Fresh;
  }

  /** Whatever others do, what is read stays as long as the round is there. */
  lemma ActedStillReads(l: Ledger, now: Ledger, a: Deed, draws: RoundId -> Draws, hash: Bytes -> string, id: RoundId)
    requires id in l.rows && StillReads(l, now, id) && Balanced(now, hash) && Drawn(draws) && Fits(now, a, hash)
    ensures StillReads(l, Acted(now, a, draws), id)
  {
    hide Balanced, Drawn, StillReads, Asked, Maintained, Settled, Fits;
    if a.Maintain? {
      MaintainedStillReads(l, now, a.now, draws, hash, id);
    } else if FileIn(a).Some? {
      BroughtStillReads(l, now, a, draws, hash, id);
    } else {
      MoveStillReads(l, now, Ask(a.id, a.step), draws, hash, id);
    }
  }

  // ---- A file of one's own

  lemma ActedStillCarried(l: Ledger, a: Deed, draws: RoundId -> Draws, hash: Bytes -> string, stored: Stored, data: Bytes)
    requires Balanced(l, hash) && Drawn(draws) && Fits(l, a, hash) && Carried(l, stored, data)
    requires FileIn(a).Some? ==> Apart(stored, FileIn(a).value)
    ensures Carried(Acted(l, a, draws), stored, data)
  {
    hide Balanced, Drawn, Perform, IsNewName, OnFile, Describes, Numbering, Maintained, Settled;
    ActedKeeps(l, a, draws, hash);
    match a
    case Maintain(now) => MaintainedStillCarried(l, now, draws, hash, stored, data);
    case Bring(id, step, data') =>
      if FileOf(step.op).Some? {
        SettledFile(l, id, Numbering(l.rows, step), draws, FileOf(step.op).value, data', hash);
      }
  }

  lemma MaintainedStillCarried(l: Ledger, now: Time, draws: RoundId -> Draws, hash: Bytes -> string, stored: Stored, data: Bytes)
    requires Balanced(l, hash) && Drawn(draws) && Carried(l, stored, data)
    ensures Carried(Maintained(l, now, draws), stored, data)
  {
    hide Balanced, Drawn, Perform, PastRetention, PathsOf;
    EachKeeps(l, Step(Sweep, now), draws, hash);
    var swept := After(l, Each(Step(Sweep, now)), draws);
    FlyingIsNoArtifact(swept, PastRetention(swept.rows, now), stored.path, hash);
  }

  lemma FlyingIsNoArtifact(l: Ledger, ids: set<RoundId>, path: string, hash: Bytes -> string)
    requires Balanced(l, hash) && path in l.inFlight
    ensures path !in PathsOf(l.rows, ids)
  {
    hide Inv, Contents, OnlyEnded;
    forall id, a | id in ids && id in l.rows && a in l.rows[id].artifacts ensures l.rows[id].artifacts[a].path != path {
      assert Insertable(RecordsOf(l.rows)[id], l.inFlight[path]);
    }
  }

  // ---- One after another

  type Deeds = seq<Deed>

  ghost predicate ApartFrom(f: Stored, deeds: Deeds) {
    forall j | 0 <= j < |deeds| && FileIn(deeds[j]).Some? :: Apart(f, FileIn(deeds[j]).value)
  }

  /** The files all have new names, different from one another, and are described truly. */
  ghost predicate FreshBatch(l: Ledger, deeds: Deeds, hash: Bytes -> string) {
    forall j | 0 <= j < |deeds| :: Fits(l, deeds[j], hash) && (FileIn(deeds[j]).Some? ==> ApartFrom(FileIn(deeds[j]).value, deeds[..j]))
  }

  /** The ledger after the first n of the deeds. */
  ghost function Meanwhile(l: Ledger, deeds: Deeds, n: nat, draws: RoundId -> Draws): Ledger
    requires n <= |deeds|
  {
    if n == 0 then l else Acted(Meanwhile(l, deeds, n - 1, draws), deeds[n - 1], draws)
  }

  /** After any of a batch of deeds, the books are balanced, the next action fits, and other names are still new. */
  lemma {:induction false} MeanwhileKeeps(l: Ledger, deeds: Deeds, n: nat, draws: RoundId -> Draws, hash: Bytes -> string)
    requires Balanced(l, hash) && Drawn(draws) && FreshBatch(l, deeds, hash) && n <= |deeds|
    ensures var after := Meanwhile(l, deeds, n, draws);
      && Balanced(after, hash) && after.inFlight == l.inFlight && (n < |deeds| ==> Fits(after, deeds[n], hash))
    decreases n, 1
  {
    hide Balanced, Drawn, Acted, IsNewName;
    if n > 0 {
      MeanwhileKeeps(l, deeds, n - 1, draws, hash);
      ActedKeeps(Meanwhile(l, deeds, n - 1, draws), deeds[n - 1], draws, hash);
    }
    if n < |deeds| && FileIn(deeds[n]).Some? {
      assert forall j | 0 <= j < n :: deeds[..n][j] == deeds[j];
      MeanwhileStillNew(l, deeds, n, draws, hash, FileIn(deeds[n]).value);
    }
  }

  lemma {:induction false} MeanwhileStillNew(l: Ledger, deeds: Deeds, n: nat, draws: RoundId -> Draws, hash: Bytes -> string, f: Stored)
    requires Balanced(l, hash) && Drawn(draws) && FreshBatch(l, deeds, hash) && n <= |deeds|
    requires IsNewName(l, f) && forall j | 0 <= j < n && FileIn(deeds[j]).Some? :: Apart(f, FileIn(deeds[j]).value)
    ensures IsNewName(Meanwhile(l, deeds, n, draws), f)
    decreases n, 0
  {
    hide Balanced, Drawn, Acted, IsNewName, FreshBatch, Fits;
    if n > 0 {
      MeanwhileStillNew(l, deeds, n - 1, draws, hash, f);
      MeanwhileKeeps(l, deeds, n - 1, draws, hash);
      ActedStillNew(Meanwhile(l, deeds, n - 1, draws), deeds[n - 1], draws, hash, f);
    }
  }

  lemma {:induction false} MeanwhileStillReads(l: Ledger, now: Ledger, deeds: Deeds, n: nat, draws: RoundId -> Draws,
                                               hash: Bytes -> string, id: RoundId)
    requires id in l.rows && StillReads(l, now, id) && Balanced(now, hash) && Drawn(draws) && FreshBatch(now, deeds, hash)
    requires n <= |deeds|
    ensures StillReads(l, Meanwhile(now, deeds, n, draws), id)
  {
    hide Balanced, Drawn, Acted, StillReads, FreshBatch, Fits;
    if n > 0 {
      MeanwhileStillReads(l, now, deeds, n - 1, draws, hash, id);
      MeanwhileKeeps(now, deeds, n - 1, draws, hash);
      ActedStillReads(l, Meanwhile(now, deeds, n - 1, draws), deeds[n - 1], draws, hash, id);
    }
  }

  lemma {:induction false} MeanwhileStillCarried(l: Ledger, deeds: Deeds, n: nat, draws: RoundId -> Draws, hash: Bytes -> string,
                                                 stored: Stored, data: Bytes)
    requires Balanced(l, hash) && Drawn(draws) && FreshBatch(l, deeds, hash) && n <= |deeds| && Carried(l, stored, data)
    requires ApartFrom(stored, deeds)
    ensures Carried(Meanwhile(l, deeds, n, draws), stored, data)
  {
    hide Balanced, Drawn, Acted, Carried, FreshBatch, Fits;
    if n > 0 {
      MeanwhileStillCarried(l, deeds, n - 1, draws, hash, stored, data);
      MeanwhileKeeps(l, deeds, n - 1, draws, hash);
      ActedStillCarried(Meanwhile(l, deeds, n - 1, draws), deeds[n - 1], draws, hash, stored, data);
    }
  }
}
