/** The API and the worker around database and store: each small step is a move of the ledger, each handler a few of them. */
module Service {
  import opened Bystanders
  import opened Database
  import opened Digest
  import opened Files
  import opened Filing
  import opened Growth
  import opened Handlers
  import opened Ledgers
  import opened Names
  import opened PlanShape
  import opened Publication
  import opened Queries
  import opened Removal
  import opened Ring
  import opened RoundInvariant
  import opened Rounds
  import opened Runs
  import opened Scheduler
  import opened Sequences
  import opened Shifts
  import opened Shuffling
  import opened States
  import opened Store
  import opened Tables
  import opened TaskSteps
  import opened Worker
  import opened Wrappers

  lemma SweptAll(rows: map<RoundId, Round>, after: map<RoundId, Round>, step: Step, draws: RoundId -> Draws)
    requires Stepped(rows, after, after.Keys, step, draws)
    ensures after == Swept(rows, step, draws)
  {
    hide Perform;
  }

  /** The file of the action is written as the store writes files, and fits its limit. */
  ghost predicate Storable(a: Deed, store: ArtifactStore, temporary: map<string, Bytes>) {
    FileIn(a).Some? ==>
      && FileIn(a).value == store.StoredAs(FileIn(a).value.objectId, a.data)
      && |a.data| <= store.maxBytes && FileIn(a).value.objectId !in temporary
  }

  ghost predicate AllStorable(deeds: Deeds, store: ArtifactStore, temporary: map<string, Bytes>) {
    forall j | 0 <= j < |deeds| :: Storable(deeds[j], store, temporary)
  }

  /** The files that others bring during a run of the worker have fresh names and are written as the store writes files. */
  ghost predicate Mannered(l: Ledger, others: nat -> Deeds, store: ArtifactStore, temporary: map<string, Bytes>) {
    FreshNames(l, others, store.hash) && forall n: nat :: AllStorable(others(n), store, temporary)
  }

  /** A claimed round is being aggregated while others behave. */
  ghost predicate Working(l: Ledger, s: Shift, store: ArtifactStore, temporary: map<string, Bytes>, draws: RoundId -> Draws) {
    && Balanced(l, store.hash) && Drawn(draws) && Mannered(l, s.others, store, temporary)
    && s.id in l.rows && l.rows[s.id].row.state == Aggregating
  }

  class Service {
    const database: Database
    const store: ArtifactStore
    ghost var inFlight: map<string, Stored>
    ghost var doomed: set<RoundId>
    ghost var removed: set<string>

    constructor (database: Database, store: ArtifactStore)
      requires database.Valid() && database.db.rounds == map[] && store.files == map[]
      ensures Valid() && this.database == database && this.store == store
      ensures State() == Ledger(map[], map[], map[], {}, {})
    {
      this.database, this.store := database, store;
      inFlight, doomed, removed := map[], {}, {};
      new;
      database.db.AllRows("");
    }

    ghost function State(): Ledger
      reads this, database, database.db, store
    {
      Ledger(database.db.All(), store.files, inFlight, doomed, removed)
    }

    /** The store holds exactly the files on record and on their way, each as described, up to rounds being removed. */
    ghost predicate Valid()
      reads this, database, database.db, store
    {
      database.Valid() && Balanced(State(), store.hash)
    }

    lemma DrawsAreProductive()
      requires database.Valid()
      ensures Drawn(database.draws)
    {
      hide Connection.ForeignKeys, Histories, Productive;
    }

    // ---- Small steps; those of others may come between any two of a request's

    /** An upload arrives. */
    method Receive(chunks: seq<Bytes>, objectId: string) returns (result: Result<Stored, StoreError>)
      requires Valid() && objectId !in store.temporary
      requires IsNewName(State(), store.StoredAs(objectId, Content(chunks, |chunks|)))
      modifies store, this`inFlight
      ensures Valid() && store.temporary == old(store.temporary)
      ensures var data := Content(chunks, |chunks|);
        if |data| <= store.maxBytes then
          && result == Success(store.StoredAs(objectId, data))
          && State() == Arrived(old(State()), store.StoredAs(objectId, data), data)
        else result == Failure(TooLarge) && State() == old(State())
    {
      hide Database.Valid, Balanced, IsNewName, Connection.All, Content;
      ghost var data := Content(chunks, |chunks|);
      ArriveKeeps(State(), store.StoredAs(objectId, data), data, store.hash);
      NotAFile(State(), store.StoredAs(objectId, data));
      result := store.PutStream(chunks, objectId);
      if result.Success? {
        inFlight := inFlight[result.value.path := result.value];
      }
    }

    /** A result in memory is written to the store. */
    method ReceiveBytes(data: Bytes, objectId: string) returns (result: Result<Stored, StoreError>)
      requires Valid() && objectId !in store.temporary && IsNewName(State(), store.StoredAs(objectId, data))
      modifies store, this`inFlight
      ensures Valid() && store.temporary == old(store.temporary)
      ensures if |data| <= store.maxBytes then
          && result == Success(store.StoredAs(objectId, data))
          && State() == Arrived(old(State()), store.StoredAs(objectId, data), data)
        else result == Failure(TooLarge) && State() == old(State())
    {
      hide Database.Valid, Balanced, IsNewName, Connection.All;
      ArriveKeeps(State(), store.StoredAs(objectId, data), data, store.hash);
      NotAFile(State(), store.StoredAs(objectId, data));
      result := store.PutBytes(data, objectId);
      if result.Success? {
        inFlight := inFlight[result.value.path := result.value];
      }
    }

    /** A file on its way is thrown away. */
    method Discard(path: string)
      requires Valid() && path in inFlight
      modifies store`files, this`inFlight
      ensures Valid() && State() == Dropped(old(State()), path)
    {
      hide Database.Valid, Balanced, Connection.All;
      DropKeeps(State(), path, store.hash);
      store.Delete(path);
      inFlight := inFlight - {path};
    }

    lemma IsNewElsewhere(id: RoundId, stored: Stored)
      requires Valid() && Flying(State(), stored)
      ensures database.db.NewElsewhere(stored, id)
    {
      hide Database.Valid, Contents, OnlyEnded, Sound;
      var records := RecordsOf(database.db.All());
      forall other | other in database.db.artifacts && other != id ensures Insertable(database.db.artifacts[other], stored) {
        if other in database.db.rounds {
          assert other in records && records[other] == database.db.artifacts[other];
        } else {
          ArtifactsHaveRounds(other);
        }
      }
    }

    lemma ArtifactsHaveRounds(id: RoundId)
      requires database.Valid() && id in database.db.artifacts
      ensures id in database.db.rounds
    {
    }

    /** A request is put to the database. The file it may bring goes on record or stays on its way. */
    method Ask(id: RoundId, step: Step) returns (reply: Result<Reply, Error>)
      requires Valid() && (FileOf(step.op).Some? ==> Flying(State(), FileOf(step.op).value)) && Numbered(State().rows, step.op)
      modifies database`history, database.db, this`inFlight
      ensures Valid() && State() == Asked(old(State()), id, step, database.draws)
      ensures reply == AnswerTo(old(State()), id, step, database.draws)
    {
      hide Balanced, Perform, Connection.All, Connection.Others, Database.Valid, Connection.NewElsewhere, Missing, Fresh, Numbered;
      DrawsAreProductive();
      if FileOf(step.op).Some? {
        IsNewElsewhere(id, FileOf(step.op).value);
      }
      MoveKeeps(State(), Move.Ask(id, step), database.draws, store.hash);
      hide Flying;
      database.db.AllRows(id);
      if id in database.db.rounds {
        reply := database.StepRound(id, step);
        if FileOf(step.op).Some? && Fresh(reply) {
          inFlight := inFlight - {FileOf(step.op).value.path};
        }
      } else {
        reply := database.Serve(id, step);
        database.db.AllRows(id);
      }
    }

    /** A new round has no files; round names are never used again. */
    method CreateRound(cfg: Config, key: string, digest: string, newId: RoundId) returns (reply: Result<(RoundId, bool), Error>)
      requires Valid() && Proper(cfg) && newId !in database.db.rounds && newId !in doomed
      modifies database, database.db
      ensures Valid()
      ensures var k := CreationKey(cfg.actor, cfg.federation, key);
        if k in old(database.creations) then
          && State() == old(State())
          && reply == if old(database.creations)[k].digest == digest then Success((old(database.creations)[k].roundId, true))
             else Failure(IdempotencyConflict)
        else State() == After(old(State()), Open(newId, cfg), database.draws) && reply == Success((newId, false))
    {
      hide Balanced, Connection.All, Database.Valid, Connection.Others, Connection.RoundOf, Proper, Started;
      database.db.AllRows(newId);
      OpenKeeps(State(), newId, cfg, store.hash);
      reply := database.CreateRound(cfg, key, digest, newId);
      database.db.AllRows(newId);
      if CreationKey(cfg.actor, cfg.federation, key) in old(database.creations) {
        database.db.SameRows();
      }
    }

    // ---- Maintenance, in small steps

    /** The rounds to be removed are determined, with their files. */
    method Doom(now: Time) returns (candidates: map<RoundId, set<string>>)
      requires Valid()
      modifies this`doomed
      ensures Valid() && State() == After(old(State()), Move.Doom(candidates.Keys, now), database.draws)
      ensures candidates.Keys == PastRetention(State().rows, now)
      ensures forall id | id in candidates :: id in State().rows && candidates[id] == Paths(State().rows[id].artifacts)
    {
      hide Paths, Database.Valid, Connection.All, Balanced, Purgeable;
      candidates := database.RetentionCandidates(now);
      DoomKeeps(State(), candidates.Keys, now, store.hash);
      doomed := doomed + candidates.Keys;
    }

    /** One file of a round to be removed is deleted, even if the round has meanwhile been removed by somebody else. */
    method DeleteFile(id: RoundId, path: string)
      requires Valid() && Deletable(State(), id, path)
      modifies store`files
      ensures Valid() && State() == After(old(State()), Delete(id, path), database.draws)
    {
      hide Database.Valid, Connection.All, Balanced, Deletable;
      DeleteKeeps(State(), id, path, store.hash);
      store.Delete(path);
    }

    /** The rows of a round whose files are gone are removed; a round that is gone already is no error. */
    method Purge(id: RoundId, now: Time) returns (done: Result<(), Error>)
      requires Valid() && (PurgeableNow(State(), id, now) ==> Paths(State().rows[id].artifacts) !! store.files.Keys)
      modifies this`doomed, this`removed, database, database.db
      ensures Valid() && State() == Purged(old(State()), id, now)
      ensures done.Failure? <==> id in old(State()).rows && !PurgeableNow(old(State()), id, now)
    {
      hide Balanced, Database.Valid, Connection.All, Connection.Others, Paths, Purgeable;
      database.db.AllRows(id);
      ghost var l := State();
      if PurgeableNow(l, id, now) {
        PurgeKeeps(l, id, now, store.hash);
      }
      done := database.PurgeRound(id, now);
      database.db.AllRows(id);
      if PurgeableNow(l, id, now) {
        removed := removed + Paths(l.rows[id].artifacts);
        doomed := doomed + {id};
      } else {
        database.db.SameRows();
      }
    }

    /** All overdue rounds expire. */
    method ExpireRounds(now: Time) returns (count: nat)
      requires Valid()
      modifies database`history, database.db
      ensures Valid() && State() == After(old(State()), Each(Step(Sweep, now)), database.draws)
    {
      hide Balanced, Database.Valid, Connection.All, Perform, Stepped, Swept;
      DrawsAreProductive();
      EachKeeps(State(), Step(Sweep, now), database.draws, store.hash);
      count := database.ExpireRounds(now);
      SweptAll(old(database.db.All()), database.db.All(), Step(Sweep, now), database.draws);
    }

    /** All files of one doomed round are deleted, then its rows. */
    method RemoveRound(id: RoundId, paths: set<string>, now: Time)
      requires Valid() && BeingRemoved(State(), id) && PurgeableNow(State(), id, now) && paths == Paths(State().rows[id].artifacts)
      modifies store`files, this`doomed, this`removed, database, database.db
      ensures Valid() && State() == Without(old(State()), {id})
    {
      hide Balanced, Database.Valid, Connection.All, Paths, Purgeable, PathsOf;
      ghost var l := State();
      PathsOfOne(l.rows, id);
      var todo := paths;
      while todo != {}
        invariant Valid() && todo <= paths && State() == l.(files := l.files - (paths - todo))
        decreases |todo|
      {
        var path :| path in todo;
        DeleteFile(id, path);
        assert l.files - (paths - todo) - {path} == l.files - (paths - (todo - {path}));
        todo := todo - {path};
      }
      assert paths - todo == paths;
      var done := Purge(id, now);
    }

    lemma OneMoreRemoved(l: Ledger, all: set<RoundId>, todo: set<RoundId>, id: RoundId, now: Time)
      requires todo <= all && id in todo && all <= l.doomed && forall i | i in all :: PurgeableNow(l, i, now)
      ensures var left := Without(l, all - todo);
        && BeingRemoved(left, id) && PurgeableNow(left, id, now) && left.rows[id] == l.rows[id]
        && Without(left, {id}) == Without(l, all - (todo - {id}))
    {
      hide Purgeable, PathsOf;
      WithoutOneMore(l, all - todo, id);
      assert all - (todo - {id}) == all - todo + {id};
    }

    /** All rounds found to be past their retention are removed, one after another. */
    method RemoveRounds(candidates: map<RoundId, set<string>>, now: Time)
      requires Valid() && candidates.Keys <= doomed && forall id | id in candidates :: PurgeableNow(State(), id, now)
      requires forall id | id in candidates :: id in State().rows && candidates[id] == Paths(State().rows[id].artifacts)
      modifies store`files, this`doomed, this`removed, database, database.db
      ensures Valid() && State() == Without(old(State()), candidates.Keys)
    {
      hide Balanced, Database.Valid, Connection.All, Paths, Purgeable, Valid, PathsOf, Without, PurgeableNow, BeingRemoved;
      ghost var l := State();
      var todo := candidates.Keys;
      WithoutNone(l);
      assert candidates.Keys - todo == {};
      while todo != {}
        invariant Valid() && todo <= candidates.Keys && State() == Without(l, candidates.Keys - todo)
        decreases |todo|
      {
        var id :| id in todo;
        OneMoreRemoved(l, candidates.Keys, todo, id, now);
        RemoveRound(id, candidates[id], now);
        todo := todo - {id};
      }
      assert candidates.Keys - todo == candidates.Keys;
    }

    /** Maintenance: overdue rounds expire, and every ended round past its retention is removed, files first; nothing else. */
    method RunMaintenance(now: Time) returns (purged: nat)
      requires Valid()
      modifies store`files, this`doomed, this`removed, database, database.db
      ensures Valid() && State() == Maintained(old(State()), now, database.draws)
      ensures purged == |PastRetention(After(old(State()), Each(Step(Sweep, now)), database.draws).rows, now)|
    {
      hide Balanced, Database.Valid, Connection.All, Paths, Purgeable, Swept, PathsOf;
      var expired := ExpireRounds(now);
      var candidates := Doom(now);
      RemoveRounds(candidates, now);
      purged := |candidates|;
    }

    // ---- The upload handlers, put together from the small steps

    /** The caller's round, after it was looked at, which expires it when overdue. */
    method RoundForMember(id: RoundId, client: ClientId, now: Time) returns (found: Result<RoundRow, ApiError>)
      requires Valid()
      modifies database`history, database.db, this`inFlight
      ensures Valid() && State() == Looked(old(State()), id, now, database.draws)
      ensures found == Membership(State().rows, id, client)
    {
      hide Balanced, Database.Valid, Connection.RoundOf, Asked;
      var _ := Ask(id, Step(Read, now));
      if id !in database.db.rounds {
        return Failure(NoSuchRound);
      }
      if client !in database.db.SelectParticipants(id) {
        return Failure(NotMember);
      }
      return Success(database.db.SelectRound(id));
    }

    /** Commits a file on its way; whatever the answer, it is on its way no longer. */
    method CommitOrDiscard(id: RoundId, step: Step) returns (reply: Result<Reply, Error>)
      requires Valid() && FileOf(step.op).Some? && Flying(State(), FileOf(step.op).value) && Numbered(State().rows, step.op)
      modifies database`history, database.db, store`files, this`inFlight
      ensures Valid() && State() == Settled(old(State()), id, step, database.draws)
      ensures reply == AnswerTo(old(State()), id, step, database.draws)
    {
      hide Balanced, Database.Valid, Connection.All, Perform;
      MissingIsNotFresh(step.op);
      reply := Ask(id, step);
      if reply.Failure? || reply.value.replay {
        Discard(FileOf(step.op).value.path);
      }
    }

    /**
     * Uploading an update: the header checks, the stream, the tensors, and then the database. The update is on record,
     * with its content, exactly if the reply is a new acceptance; on every other path no file is left of it.
     */
    method UploadUpdate(id: RoundId, client: ClientId, chunks: seq<Bytes>, objectId: string, schemaMatches: bool, tag: string,
                     expected: Shapes, parse: Bytes -> Option<Tensors>, key: string, digestOf: string -> string,
                     jobId: string, now: Time) returns (reply: Result<Reply, ApiError>)
      requires Valid() && objectId !in store.temporary
      requires IsNewName(State(), store.StoredAs(objectId, Content(chunks, |chunks|)))
      modifies database`history, database.db, store, this`inFlight
      ensures Valid()
      ensures var data := Content(chunks, |chunks|);
        var stored, looked := store.StoredAs(objectId, data), Looked(old(State()), id, now, database.draws);
        var step := Step(PutUpdate(client, stored, tag, key, digestOf(stored.digest + tag), jobId, NextRow(looked.rows)), now);
        var refusal := UpdateRefusal(looked.rows, id, client, schemaMatches, tag, data, store.maxBytes, expected, parse);
        && Handled(State(), reply) == HandleUpdate(looked, id, refusal, stored, data, step, database.draws)
        && FiledOrGone(looked, State(), IsNew(reply), id, step, stored, data)
    {
      hide Balanced, Database.Valid, Connection.All, Content, Matches, ParseTag, IsNewName, Asked, FiledOrGone, NextRow;
      ghost var data := Content(chunks, |chunks|);
      ghost var stored := store.StoredAs(objectId, data);
      ghost var refusal := UpdateRefusal(Looked(State(), id, now, database.draws).rows, id, client, schemaMatches, tag, data,
                                         store.maxBytes, expected, parse);
      LookedUp(id, now, stored);
      var found := RoundForMember(id, client, now);
      ghost var step := Step(PutUpdate(client, stored, tag, key, digestOf(stored.digest + tag), jobId, NextRow(State().rows)), now);
      DrawsAreProductive();
      UpdateHandled(State(), id, refusal, stored, data, step, database.draws, store.hash);
      if found.Failure? {
        return Failure(found.error);
      }
      if !schemaMatches {
        return Failure(SchemaMismatch);
      }
      if ParseTag(tag).None? {
        return Failure(ArtifactInvalid);
      }
      ArrivedIsCarried(State(), stored, data, store.hash);
      var received := Receive(chunks, objectId);
      if received.Failure? {
        return Failure(ArtifactInvalid);
      }
      var file := received.value;
      var tensors := parse(Content(chunks, |chunks|));
      if tensors.None? || !Matches(tensors.value, expected) {
        Discard(file.path);
        return Failure(ArtifactInvalid);
      }
      var rowid := database.NextRowNumber();
      var answer := CommitOrDiscard(id, Step(PutUpdate(client, file, tag, key, digestOf(file.digest + tag), jobId, rowid), now));
      return Translated(answer);
    }

    /** Looking at a round leaves a new name new. */
    lemma LookedUp(id: RoundId, now: Time, stored: Stored)
      requires Valid() && IsNewName(State(), stored)
      ensures var looked := Looked(State(), id, now, database.draws);
        Balanced(looked, store.hash) && IsNewName(looked, stored) && looked.files == store.files && looked.inFlight == inFlight
    {
      hide Balanced, Database.Valid, Connection.All, NewName, Asked;
      DrawsAreProductive();
      PlainAskSameFiles(State(), id, Step(Read, now), database.draws, store.hash);
    }

    /** A rejected tree request fails the round for good. */
    method FailTree(id: RoundId, client: ClientId, now: Time)
      requires Valid()
      modifies database`history, database.db, this`inFlight
      ensures Valid() && State() == Rejected(old(State()), id, client, now, database.draws)
    {
      hide Balanced, Database.Valid, Connection.All, Asked;
      var _ := Ask(id, Step(Reject(client, "KEY_ARTIFACT_REJECTED"), now));
    }

    /** An encrypted artifact is stored and checked; nothing is left of one that is refused. */
    method ReceiveEncrypted(chunks: seq<Bytes>, objectId: string, e: Envelope) returns (received: Option<(Stored, string)>)
      requires Valid() && objectId !in store.temporary
      requires IsNewName(State(), store.StoredAs(objectId, Content(chunks, |chunks|)))
      modifies store, this`inFlight
      ensures Valid()
      ensures var data := Content(chunks, |chunks|);
        var stored := store.StoredAs(objectId, data);
        match Sealed(stored, data, e, store.hash, store.maxBytes)
        case Some(digest) => received == Some((stored, digest)) && State() == Arrived(old(State()), stored, data)
        case None => received.None? && State() == old(State())
    {
      hide Balanced, Database.Valid, Connection.All, Content, IsNewName;
      ghost var data := Content(chunks, |chunks|);
      ArrivedIsCarried(State(), store.StoredAs(objectId, data), data, store.hash);
      var stored := Receive(chunks, objectId);
      if stored.Failure? {
        return None;
      }
      var file := stored.value;
      if e.nonce.None? {
        Discard(file.path);
        return None;
      }
      var digest := CiphertextDigest(chunks, e.nonce.value, store.hash);
      if digest.None? || |e.nonce.value| != NONCE_BYTES || !e.genuine(file, digest.value) {
        Discard(file.path);
        return None;
      }
      return Some((file, digest.value));
    }

    /** A tree artifact on its way is put to the database; a refusal fails the round. */
    method SettleTree(id: RoundId, client: ClientId, step: Step) returns (reply: Result<Reply, ApiError>)
      requires Valid() && FileOf(step.op).Some? && Flying(State(), FileOf(step.op).value) && !step.op.PutUpdate?
      modifies database`history, database.db, store`files, this`inFlight
      ensures Valid() && Handled(State(), reply) == SettledTree(old(State()), id, client, step, database.draws)
    {
      hide Balanced, Database.Valid, Connection.All, Perform, Settled, Rejected, AnswerTo;
      var answer := CommitOrDiscard(id, step);
      if answer.Failure? {
        FailTree(id, client, step.now);
        return Failure(RoundFailed);
      }
      return Success(answer.value);
    }

    /**
     * Uploading a task artifact. Every refusal of a member ends the round. The artifact is on record with its content,
     * and its task uploaded, exactly if the reply is a new acceptance; on every other path no file is left of it.
     */
    method UploadTaskArtifact(id: RoundId, client: ClientId, task: TaskKey, chunks: seq<Bytes>, objectId: string, e: Envelope,
                              now: Time) returns (reply: Result<Reply, ApiError>)
      requires Valid() && objectId !in store.temporary
      requires IsNewName(State(), store.StoredAs(objectId, Content(chunks, |chunks|)))
      modifies database`history, database.db, store, this`inFlight
      ensures Valid()
      ensures TaskArtifactHandled(old(State()), Handled(State(), reply), id, client, task,
                store.StoredAs(objectId, Content(chunks, |chunks|)), Content(chunks, |chunks|), e, now,
                store.hash, store.maxBytes, database.draws)
    {
      hide Balanced, Database.Valid, Connection.All, Content, IsNewName, Asked, Sealed, Connection.RoundOf, TreeOutcome;
      ghost var data := Content(chunks, |chunks|);
      ghost var stored := store.StoredAs(objectId, data);
      ghost var sealed := Sealed(stored, data, e, store.hash, store.maxBytes);
      LookedUp(id, now, stored);
      var found := RoundForMember(id, client, now);
      ghost var checked := e.decoded && MayRunTask(State().rows, id, client, task) && e.signature.Some? && sealed.Some?;
      DrawsAreProductive();
      TreeComesOut(State(), id, client, checked, stored, data, TaskRequest(client, task, stored, sealed, e, now),
        database.draws, store.hash);
      if found.Failure? {
        return Failure(found.error);
      }
      database.db.AllRows(id);
      var tasks := database.db.SelectTasks(id);
      if !e.decoded || found.value.protocol != V11 || task !in tasks || tasks[task].task.sender != client || e.signature.None? {
        FailTree(id, client, now);
        return Failure(RoundFailed);
      }
      var received := ReceiveEncrypted(chunks, objectId, e);
      if received.None? {
        FailTree(id, client, now);
        return Failure(RoundFailed);
      }
      var (file, digest) := received.value;
      reply := SettleTree(id, client, TaskRequest(client, task, file, Some(digest), e, now));
    }

    /** Publishing the final key, for the root client only, under the same rules. */
    method UploadFinalKey(id: RoundId, client: ClientId, chunks: seq<Bytes>, objectId: string, e: Envelope, now: Time)
      returns (reply: Result<Reply, ApiError>)
      requires Valid() && objectId !in store.temporary
      requires IsNewName(State(), store.StoredAs(objectId, Content(chunks, |chunks|)))
      modifies database`history, database.db, store, this`inFlight
      ensures Valid()
      ensures FinalKeyHandled(old(State()), Handled(State(), reply), id, client,
                store.StoredAs(objectId, Content(chunks, |chunks|)), Content(chunks, |chunks|), e, now,
                store.hash, store.maxBytes, database.draws)
    {
      hide Balanced, Database.Valid, Connection.All, Content, IsNewName, Asked, Sealed, Connection.RoundOf, TreeOutcome;
      ghost var data := Content(chunks, |chunks|);
      ghost var stored := store.StoredAs(objectId, data);
      ghost var sealed := Sealed(stored, data, e, store.hash, store.maxBytes);
      LookedUp(id, now, stored);
      var found := RoundForMember(id, client, now);
      ghost var checked := e.decoded && IsRootClient(State().rows, id, client) && e.signature.Some? && sealed.Some?;
      DrawsAreProductive();
      TreeComesOut(State(), id, client, checked, stored, data, FinalKeyRequest(client, stored, sealed, e, now),
        database.draws, store.hash);
      if found.Failure? {
        return Failure(found.error);
      }
      database.db.AllRows(id);
      var plan := database.db.SelectPlan(id);
      if !e.decoded || plan.None? || e.signature.None? || client != plan.value.rootClient {
        FailTree(id, client, now);
        return Failure(RoundFailed);
      }
      var received := ReceiveEncrypted(chunks, objectId, e);
      if received.None? {
        FailTree(id, client, now);
        return Failure(RoundFailed);
      }
      var (file, digest) := received.value;
      reply := SettleTree(id, client, FinalKeyRequest(client, file, Some(digest), e, now));
    }

    // ---- The worker

    /** The worker's claim: lapsed leases are taken back, then the oldest claimable job is handed out under the token. */
    method ClaimJob(now: Time, lease: Time, token: string) returns (claimed: Option<RoundId>)
      requires Valid()
      modifies database`history, database.db
      ensures Valid()
      ensures lease <= 0.0 ==> claimed.None? && State() == old(State())
      ensures lease > 0.0 ==>
        && First(Reclaimed(old(State()), now, lease, database.draws).rows, now, claimed)
        && (claimed.Some? ==> claimed.value in old(State()).rows)
        && State() == if claimed.Some? then Claimed(old(State()), claimed.value, now, lease, token, database.draws)
           else Reclaimed(old(State()), now, lease, database.draws)
    {
      hide Balanced, Database.Valid, Connection.All, Inv, Perform, First, Swept, RecordsOf, InputsOf;
      DrawsAreProductive();
      ghost var l := State();
      var result := database.ClaimJob(now, lease, token);
      if result.Failure? {
        return None;
      }
      ClaimedSameFiles(l, if result.value.Some? then result.value.value else "", now, lease, token, database.draws, store.hash);
      FirstExists(l, now, lease, result.value);
      return result.value;
    }

    lemma FirstExists(l: Ledger, now: Time, lease: Time, first: Option<RoundId>)
      requires First(Reclaimed(l, now, lease, database.draws).rows, now, first)
      ensures first.Some? ==> first.value in l.rows
    {
      hide Claimable, Perform;
    }

    /** Somebody else brings a request, with its file if there is one, or runs the maintenance. */
    method Act(a: Deed)
      requires Valid() && Fits(State(), a, store.hash) && Storable(a, store, store.temporary)
      modifies database, database.db, store, this`inFlight, this`doomed, this`removed
      ensures Valid() && State() == Acted(old(State()), a, database.draws) && store.temporary == old(store.temporary)
    {
      hide Balanced, Database.Valid, Connection.All, Asked, Maintained, NextRow, IsNewName;
      if a.Maintain? {
        var _ := RunMaintenance(a.now);
      } else if FileOf(a.step.op).None? {
        var _ := Ask(a.id, a.step);
      } else {
        var file := FileOf(a.step.op).value;
        var step := a.step;
        if a.step.op.PutUpdate? {
          var rowid := database.NextRowNumber();
          step := a.step.(op := a.step.op.(rowid := rowid));
        }
        ArrivedIsCarried(State(), file, a.data, store.hash);
        var stored := ReceiveBytes(a.data, file.objectId);
        var _ := CommitOrDiscard(a.id, step);
      }
    }

    lemma NextFits(deeds: Deeds)
      requires Valid() && FreshBatch(State(), deeds, store.hash)
      ensures forall n: nat | n < |deeds| :: Fits(Meanwhile(State(), deeds, n, database.draws), deeds[n], store.hash)
    {
      hide Balanced, Database.Valid, Connection.All, Fits, FreshBatch, Meanwhile;
      DrawsAreProductive();
      forall n: nat | n < |deeds| ensures Fits(Meanwhile(State(), deeds, n, database.draws), deeds[n], store.hash) {
        MeanwhileKeeps(State(), deeds, n, database.draws, store.hash);
      }
    }

    /** Others take their deeds, one after another. */
    method Interrupt(deeds: Deeds)
      requires Valid() && FreshBatch(State(), deeds, store.hash) && AllStorable(deeds, store, store.temporary)
      modifies database, database.db, store, this`inFlight, this`doomed, this`removed
      ensures Valid() && State() == Meanwhile(old(State()), deeds, |deeds|, database.draws)
      ensures store.temporary == old(store.temporary)
    {
      hide Valid, State, Fits, FreshBatch, Acted;
      ghost var l := State();
      NextFits(deeds);
      var n := 0;
      assert l == Meanwhile(l, deeds, 0, database.draws);
      while n < |deeds|
        invariant n <= |deeds| && Valid() && State() == Meanwhile(l, deeds, n, database.draws)
        invariant store.temporary == old(store.temporary)
      {
        assert Fits(Meanwhile(l, deeds, n, database.draws), deeds[n], store.hash);
        Act(deeds[n]);
        n := n + 1;
      }
    }

    lemma TurnFits(l: Ledger, s: Shift, n: nat)
      requires Working(l, s, store, store.temporary, database.draws)
      ensures FreshBatch(Renewed(l, s, n, database.draws), s.others(n), store.hash) && AllStorable(s.others(n), store, store.temporary)
      ensures Renewed(l, s, n, database.draws).inFlight == l.inFlight
    {
      hide Balanced, Drawn, FreshBatch, FreshNames;
      RenewedKeeps(l, s, n, database.draws, store.hash);
    }

    /** The next renewal of the worker's claim, after what others have done in between. */
    method Renew(s: Shift, n: nat, ghost l: Ledger) returns (held: bool)
      requires Valid() && Working(l, s, store, store.temporary, database.draws) && State() == Renewed(l, s, n, database.draws)
      modifies database, database.db, store, this`inFlight, this`doomed, this`removed
      ensures Valid() && State() == Renewed(l, s, n + 1, database.draws) && held == Holding(l, s, database.draws)(n)
      ensures store.temporary == old(store.temporary)
    {
      hide Valid, State, Working, Asked, Meanwhile, AnswerTo, FreshBatch, AllStorable;
      TurnFits(l, s, n);
      Interrupt(s.others(n));
      var answer := Ask(s.id, RenewStep(s, n));
      held := answer.Success?;
    }

    lemma NextReads(l: Ledger, s: Shift, n: nat, input: Input, expected: Shapes, reader: Reader)
      requires Working(l, s, store, store.temporary, database.draws) && Stands(l.rows[s.id], input) && reader.files == l.files && reader.hash == store.hash
      requires Holding(l, s, database.draws)(n)
      ensures Check(input, expected, reader.(files := Renewed(l, s, n + 1, database.draws).files)) == Check(input, expected, reader)
    {
      hide Balanced, Drawn, FreshNames, Stands, Check, Renewed, Holding, InputsOf, AllStorable;
      AggregatingIsReadable(l, s.id, reader);
      ReadsAsClaimed(l, s, n, database.draws, input, expected, reader);
    }

    /** One turn of the loop: the claim is renewed, and the next input checked and added. */
    method AddNext(s: Shift, sums: Option<map<string, Tensor>>, tag: nat, inputs: seq<Input>, n: nat, expectedCount: nat,
                   expected: Shapes, parse: Bytes -> Option<Tensors>, ghost l: Ledger, ghost reader: Reader)
      returns (taken: Result<(map<string, Tensor>, nat), Fault>)
      requires Valid() && Working(l, s, store, store.temporary, database.draws) && State() == Renewed(l, s, n, database.draws)
      requires reader == Reader(l.files, store.hash, parse) && WellTyped(reader) && n < |inputs| && Stands(l.rows[s.id], inputs[n])
      requires SummedTo(sums, tag, inputs, n, expected, reader, Holding(l, s, database.draws))
      modifies database, database.db, store, this`inFlight, this`doomed, this`removed
      ensures Valid() && State() == Renewed(l, s, n + 1, database.draws) && store.temporary == old(store.temporary)
      ensures match taken
        case Success((after, total)) =>
          SummedTo(Some(after), total, inputs, n + 1, expected, reader, Holding(l, s, database.draws))
        case Failure(fault) =>
          Aggregated(inputs, expectedCount, expected, reader, Holding(l, s, database.draws), Failure(fault))
    {
      hide Valid, Working, Check, WellTyped, SummedTo, Aggregated, Running, Holding, Renewed, Stands;
      ghost var held := Holding(l, s, database.draws);
      BeforeInput(sums, tag, inputs, n, expected, reader, held);
      var renewed := Renew(s, n, l);
      if !renewed {
        ClaimLostAt(sums, tag, inputs, n, expectedCount, expected, reader, held);
        return Failure(Permanent);
      }
      NextReads(l, s, n, inputs[n], expected, reader);
      var checked := Check(inputs[n], expected, Reader(store.files, store.hash, parse));
      taken := TakeInput(sums, tag, checked, inputs, n, expected, reader);
      if taken.Failure? {
        InputRefusedAt(sums, tag, inputs, n, expectedCount, expected, reader, held, taken.error);
      } else {
        OneMoreSummed(sums, tag, inputs, n, expected, reader, held, taken.value.0, taken.value.1);
      }
    }

    lemma BeforeInput(sums: Option<map<string, Tensor>>, tag: nat, inputs: seq<Input>, n: nat, expected: Shapes, reader: Reader,
                      held: nat -> bool)
      requires n < |inputs| && SummedTo(sums, tag, inputs, n, expected, reader, held)
      ensures Running(sums, tag, inputs, n, expected, reader)
    {
      hide Running;
    }

    /**
     * The loop over the inputs: the claim is renewed before each of them, which is then read, checked and added, and once
     * more at the end. Others act in between, after which the claim may be lost; what is read is what it was at the claim.
     */
    method Aggregate(s: Shift, inputs: seq<Input>, expectedCount: nat, expected: Shapes, parse: Bytes -> Option<Tensors>,
                     ghost l: Ledger) returns (result: Result<(map<string, Tensor>, nat), Fault>, ghost turns: nat)
      requires Valid() && State() == l && Working(l, s, store, store.temporary, database.draws) && WellTyped(Reader(store.files, store.hash, parse))
      requires forall i | 0 <= i < |inputs| :: Stands(l.rows[s.id], inputs[i])
      modifies database, database.db, store, this`inFlight, this`doomed, this`removed
      ensures Valid() && State() == Renewed(l, s, turns, database.draws) && store.temporary == old(store.temporary)
      ensures Aggregated(inputs, expectedCount, expected, Reader(l.files, store.hash, parse), Holding(l, s, database.draws), result)
      ensures result.Success? ==> turns == |inputs| + 1
    {
      hide Valid, Working, WellTyped, SummedTo, Faulty, AllTaken, SumsTo, Renewed, Holding, Stands, TagOf;
      ghost var held := Holding(l, s, database.draws);
      NotRenewedYet(l, s, database.draws);
      ghost var reader := Reader(l.files, store.hash, parse);
      turns := 0;
      if |inputs| != expectedCount {
        WrongNumber(inputs, expectedCount, expected, reader, held);
        return Failure(Permanent), 0;
      }
      hide Aggregated;
      var sums: Option<map<string, Tensor>> := None;
      var tag: nat := 0;
      var n := 0;
      NothingSummed(inputs, expected, reader, held);
      while n < |inputs|
        invariant n <= |inputs| && Valid() && State() == Renewed(l, s, n, database.draws)
        invariant SummedTo(sums, tag, inputs, n, expected, reader, held) && store.temporary == old(store.temporary)
      {
        var taken := AddNext(s, sums, tag, inputs, n, expectedCount, expected, parse, l, reader);
        if taken.Failure? {
          return Failure(taken.error), n + 1;
        }
        sums, tag := Some(taken.value.0), taken.value.1;
        n := n + 1;
      }
      if sums.None? {
        NoneSummed(tag, inputs, expected, reader, held);
        return Failure(Permanent), n;
      }
      var renewed := Renew(s, n, l);
      if !renewed {
        ClaimLostAt(sums, tag, inputs, n, n, expected, reader, held);
        return Failure(Permanent), n + 1;
      }
      AllSummed(sums, tag, inputs, expected, reader, held);
      return Success((sums.value, tag)), n + 1;
    }

    lemma FlyingAtPublication(s: Shift, n: nat, stored: Stored, data: Bytes)
      requires Valid() && FreshBatch(State(), s.others(n), store.hash) && ApartFrom(stored, s.others(n))
      requires IsNewName(State(), stored) && Describes(stored, data, store.hash)
      ensures FreshBatch(Arrived(State(), stored, data), s.others(n), store.hash)
      ensures Flying(AtPublication(State(), s, n, stored, data, database.draws), stored)
    {
      hide Balanced, Database.Valid, Connection.All, IsNewName, AtPublication, FreshBatch, ApartFrom;
      DrawsAreProductive();
      CarriedToPublication(State(), s, n, stored, data, database.draws, store.hash);
    }

    lemma PublicationEnds(s: Shift, n: nat, stored: Stored, data: Bytes, tag: nat)
      requires Valid() && FreshBatch(State(), s.others(n), store.hash) && ApartFrom(stored, s.others(n))
      requires IsNewName(State(), stored) && Describes(stored, data, store.hash) && tag < FIELD_PRIME
      ensures var end := PublicationOf(State(), s, n, stored, data, store.maxBytes, tag, database.draws);
        && end.ledger.inFlight == inFlight
        && if end.published then ResultOut(end.ledger, s.id, stored, data, tag, s.times(n))
           else stored.path !in end.ledger.files && LetGo(end.ledger, s)
    {
      hide Balanced, Database.Valid, Connection.All, IsNewName, PublicationOf, ResultOut, LetGo, FreshBatch, ApartFrom;
      DrawsAreProductive();
      PublicationHandled(State(), s, n, stored, data, store.maxBytes, tag, database.draws, store.hash);
    }

    /** The worker publishes a sum under its claim, or gives the job up; others act after the file has arrived. */
    method PublishSum(s: Shift, n: nat, data: Bytes, objectId: string, tag: nat) returns (published: bool, error: Option<Error>)
      requires Valid() && FreshBatch(State(), s.others(n), store.hash) && AllStorable(s.others(n), store, store.temporary)
      requires ApartFrom(store.StoredAs(objectId, data), s.others(n)) && objectId !in store.temporary && tag < FIELD_PRIME
      requires IsNewName(State(), store.StoredAs(objectId, data))
      modifies database, database.db, store, this`inFlight, this`doomed, this`removed
      ensures Valid() && inFlight == old(inFlight)
      ensures PublicationEnd(State(), published, error)
        == PublicationOf(old(State()), s, n, store.StoredAs(objectId, data), data, store.maxBytes, tag, database.draws)
      ensures if published then ResultOut(State(), s.id, store.StoredAs(objectId, data), data, tag, s.times(n))
        else store.StoredAs(objectId, data).path !in store.files && LetGo(State(), s)
    {
      hide Valid, IsNewName, FreshBatch, AllStorable, ApartFrom, Asked, ResultOut, Settled, AnswerTo, Meanwhile, LetGo, Flying;
      PublicationEnds(s, n, store.StoredAs(objectId, data), data, tag);
      FlyingAtPublication(s, n, store.StoredAs(objectId, data), data);
      var stored := ReceiveBytes(data, objectId);
      if stored.Failure? {
        var _ := Ask(s.id, GiveUpStep(s, n, false));
        return false, None;
      }
      Interrupt(s.others(n));
      var reply := CommitOrDiscard(s.id, PublishStep(s, n, stored.value, tag));
      if reply.Failure? {
        var _ := Ask(s.id, GiveUpStep(s, n, false));
        return false, Some(reply.error);
      }
      return true, None;
    }

    /** The round's job and what the worker reads of it. */
    method ReadJob(id: RoundId) returns (jobId: string, expectedCount: nat, inputs: seq<Input>)
      requires Valid() && id in State().rows
      ensures jobId == JobIdOf(State().rows[id]) && expectedCount == State().rows[id].row.expectedCount
      ensures inputs == InputsOf(State().rows[id])
    {
      hide Balanced, Database.Valid, Connection.RoundOf, Connection.All, Inv, InputsOf;
      database.db.AllRows(id);
      database.RoundValid(id);
      var job := database.db.SelectJob(id);
      jobId := if job.Some? then job.value.id else "";
      expectedCount := database.db.SelectRound(id).expectedCount;
      inputs := JobInputs(database.db, id);
    }

    /** Giving up a claimed job because of a fault. */
    method GiveUpFaulty(s: Shift, n: nat, fault: Fault)
      requires Valid()
      modifies database`history, database.db, this`inFlight
      ensures Valid() && State() == Asked(old(State()), s.id, GiveUpStep(s, n, fault.Transient?), database.draws)
      ensures LetGo(State(), s) && inFlight == old(inFlight)
    {
      hide Balanced, Database.Valid, Connection.All, Asked, LetGo;
      DrawsAreProductive();
      GivesUp(State(), s, n, fault.Transient?, database.draws, store.hash);
      var _ := Ask(s.id, GiveUpStep(s, n, fault.Transient?));
    }

    /** The name of the result is new, and nobody else will bring a file of it. */
    ghost predicate Mine(l: Ledger, objectId: string, others: nat -> Deeds) {
      forall data: Bytes :: IsNewName(l, store.StoredAs(objectId, data)) && Reserved(store.StoredAs(objectId, data), others)
    }

    lemma StillMine(l: Ledger, s: Shift, n: nat, objectId: string, data: Bytes)
      requires Working(l, s, store, store.temporary, database.draws) && Mine(l, objectId, s.others)
      ensures IsNewName(Renewed(l, s, n, database.draws), store.StoredAs(objectId, data))
      ensures store.StoredAs(objectId, data).path !in Renewed(l, s, n, database.draws).files
      ensures ApartFrom(store.StoredAs(objectId, data), s.others(n))
    {
      hide Balanced, Drawn, FreshNames, IsNewName, Renewed, ApartFrom, AllStorable;
      var stored := store.StoredAs(objectId, data);
      assert IsNewName(l, stored) && Reserved(stored, s.others);
      RenewedStillNew(l, s, n, database.draws, store.hash, stored);
      NotAFile(Renewed(l, s, n, database.draws), stored);
    }

    /** What is left of a run once its job is claimed: read and sum the inputs, publish or give up. */
    method RunClaimed(s: Shift, schemas: RoundId -> Shapes, parse: Bytes -> Option<Tensors>, encode: map<string, Tensor> -> Bytes,
                      objectId: string, inputs: seq<Input>, expectedCount: nat, ghost l: Ledger) returns (outcome: WorkerOutcome)
      requires Valid() && State() == l && Working(l, s, store, store.temporary, database.draws)
      requires objectId !in store.temporary && Mine(l, objectId, s.others) && WellTyped(Reader(l.files, store.hash, parse))
      requires inputs == InputsOf(l.rows[s.id]) && expectedCount == l.rows[s.id].row.expectedCount
      modifies database, database.db, store, this`inFlight, this`doomed, this`removed
      ensures Valid()
      ensures ClaimDone(l, State(), outcome, s, l.rows[s.id], PlantOf(l, schemas, parse, encode, objectId), database.draws)
    {
      hide Valid, Working, Mine, IsNewName, ResultOut, LetGo, Aggregated, InputsOf, Renewed, Holding, WellTyped,
        ClaimDone, PublicationOf, Stands, FreshBatch, ApartFrom, AllStorable, Asked, Balanced;
      ghost var plant := PlantOf(l, schemas, parse, encode, objectId);
      ReadsWhatStands(l, s, plant.reader);
      var n := |inputs| + 1;
      var result, turns := Aggregate(s, inputs, expectedCount, schemas(s.id), parse, l);
      TurnFits(l, s, turns);
      if result.Failure? {
        NameStillFree(l, s, turns, objectId);
        GiveUpFaulty(s, n, result.error);
        GivenUpFiles(Renewed(l, s, turns, database.draws), s, n, result.error);
        FaultDone(l, State(), s, l.rows[s.id], result.error, plant, database.draws, turns);
        return GaveUp(s.id, InputFault(result.error));
      }
      var (sums, tag) := result.value;
      SummedTag(inputs, expectedCount, schemas(s.id), plant.reader, Holding(l, s, database.draws), sums, tag);
      StillMine(l, s, n, objectId, encode(sums));
      var published, error := PublishSum(s, n, encode(sums), objectId, tag);
      PublicationDone(l, State(), s, l.rows[s.id], sums, tag, published, error, plant, database.draws);
      return OutcomeOf(s, sums, tag, published, error);
    }

    ghost function PlantOf(l: Ledger, schemas: RoundId -> Shapes, parse: Bytes -> Option<Tensors>,
                           encode: map<string, Tensor> -> Bytes, objectId: string): Plant
    {
      Plant(schemas, Reader(l.files, store.hash, parse), encode, (data: Bytes) => store.StoredAs(objectId, data), store.maxBytes)
    }

    lemma ReadsWhatStands(l: Ledger, s: Shift, reader: Reader)
      requires Working(l, s, store, store.temporary, database.draws) && reader.files == l.files && reader.hash == store.hash
      ensures s.id in l.rows && l.rows[s.id].row.state == Aggregating && Balanced(l, store.hash)
      ensures forall i | 0 <= i < |InputsOf(l.rows[s.id])| :: Stands(l.rows[s.id], InputsOf(l.rows[s.id])[i])
    {
      hide Balanced, Drawn, Mannered, InputsOf, Stands, Present;
      AggregatingIsReadable(l, s.id, reader);
    }

    lemma NameStillFree(l: Ledger, s: Shift, n: nat, objectId: string)
      requires Working(l, s, store, store.temporary, database.draws) && Mine(l, objectId, s.others)
      ensures forall data: Bytes :: store.StoredAs(objectId, data).path !in Renewed(l, s, n, database.draws).files
    {
      hide Working, Mine, Renewed, ApartFrom, IsNewName;
      forall data: Bytes ensures store.StoredAs(objectId, data).path !in Renewed(l, s, n, database.draws).files {
        StillMine(l, s, n, objectId, data);
      }
    }

    lemma GivenUpFiles(l: Ledger, s: Shift, n: nat, fault: Fault)
      ensures Asked(l, s.id, GiveUpStep(s, n, fault.Transient?), database.draws).files == l.files
    {
      hide Perform;
    }

    /** What the claim leaves as it was for the worker and the others. */
    lemma ClaimMovesNoFiles(now: Time, lease: Time, token: string, objectId: string, others: nat -> Deeds)
      requires Valid() && Mine(State(), objectId, others) && Mannered(State(), others, store, store.temporary)
      ensures forall id | id in State().rows :: var held := Claimed(State(), id, now, lease, token, database.draws);
        && ReadsTheSame(State(), held, id) && Balanced(held, store.hash)
        && Mine(held, objectId, others) && Mannered(held, others, store, store.temporary)
    {
      hide Balanced, Database.Valid, Connection.All, Claimed, IsNewName, InputsOf, Reserved, AllStorable, FreshNames;
      DrawsAreProductive();
      forall id | id in State().rows
        ensures var held := Claimed(State(), id, now, lease, token, database.draws);
          && ReadsTheSame(State(), held, id) && Balanced(held, store.hash)
          && Mine(held, objectId, others) && Mannered(held, others, store, store.temporary)
      {
        ClaimedSameFiles(State(), id, now, lease, token, database.draws, store.hash);
        var held := Claimed(State(), id, now, lease, token, database.draws);
        forall data: Bytes ensures IsNewName(held, store.StoredAs(objectId, data)) {
          StillNew(State(), held, store.StoredAs(objectId, data));
        }
        StillFresh(State(), held, others, store.hash);
      }
    }

    /**
     * One run of the worker: claim, read and sum the inputs, publish or give up. What is published is the sum of all
     * inputs, and the file on record is that sum; nothing is left in the store otherwise. Before each of its requests
     * others act as they like, under file names of their own.
     */
    method RunOnce(now: Time, lease: Time, token: string, others: nat -> Deeds, times: nat -> Time,
                   schemas: RoundId -> Shapes, parse: Bytes -> Option<Tensors>, encode: map<string, Tensor> -> Bytes,
                   objectId: string) returns (outcome: WorkerOutcome)
      requires Valid() && objectId !in store.temporary && Mine(State(), objectId, others)
      requires Mannered(State(), others, store, store.temporary) && WellTyped(Reader(store.files, store.hash, parse))
      modifies database, database.db, store, this`inFlight, this`doomed, this`removed
      ensures Valid()
      ensures WorkerDone(old(State()), State(), outcome, now, lease, token, others, times,
                         PlantOf(old(State()), schemas, parse, encode, objectId), database.draws)
    {
      hide Valid, Mine, Mannered, First, Reclaimed, Claimed, WellTyped, InputsOf, Balanced, WorkerDone;
      ghost var l := State();
      ClaimMovesNoFiles(now, lease, token, objectId, others);
      var claimed := ClaimJob(now, lease, token);
      ghost var plant := PlantOf(l, schemas, parse, encode, objectId);
      if claimed.None? {
        IdleDone(l, State(), now, lease, token, others, times, plant, database.draws);
        return Idle;
      }
      var id := claimed.value;
      assert ReadsTheSame(l, State(), id) && Mine(State(), objectId, others) && Mannered(State(), others, store, store.temporary);
      ClaimedAggregates(l, id, now, lease, token, database.draws);
      outcome := RunHeld(l, id, now, lease, token, others, times, schemas, parse, encode, objectId);
    }

    /** The run from the claim on. */
    method RunHeld(ghost l: Ledger, id: RoundId, ghost now: Time, lease: Time, token: string, others: nat -> Deeds, times: nat -> Time,
                   schemas: RoundId -> Shapes, parse: Bytes -> Option<Tensors>, encode: map<string, Tensor> -> Bytes,
                   objectId: string) returns (outcome: WorkerOutcome)
      requires Valid() && ReadsTheSame(l, State(), id) && State().rows[id].row.state == Aggregating
      requires lease > 0.0 && First(Reclaimed(l, now, lease, database.draws).rows, now, Some(id))
      requires State() == Claimed(l, id, now, lease, token, database.draws)
      requires objectId !in store.temporary && Mine(State(), objectId, others)
      requires Mannered(State(), others, store, store.temporary) && WellTyped(Reader(store.files, store.hash, parse))
      modifies database, database.db, store, this`inFlight, this`doomed, this`removed
      ensures Valid()
      ensures WorkerDone(l, State(), outcome, now, lease, token, others, times,
                         PlantOf(l, schemas, parse, encode, objectId), database.draws)
    {
      hide Mine, Mannered, ClaimDone, First, Reclaimed, Claimed, WellTyped, InputsOf, Balanced, Drawn, Working, WorkerDone,
        Database.Valid, Connection.All;
      DrawsAreProductive();
      ghost var held := State();
      var jobId, expectedCount, inputs := ReadJob(id);
      var s := Shift(id, jobId, token, lease, others, times);
      NowWorking(held, s);
      hide Valid;
      outcome := RunClaimed(s, schemas, parse, encode, objectId, inputs, expectedCount, held);
      ghost var plant := PlantOf(l, schemas, parse, encode, objectId);
      SameReading(held, State(), outcome, s, held.rows[id], l.rows[id], plant, database.draws);
      RunDone(l, held, State(), outcome, s, now, lease, token, others, times, plant, database.draws);
    }

    lemma NowWorking(l: Ledger, s: Shift)
      requires Balanced(l, store.hash) && Drawn(database.draws) && Mannered(l, s.others, store, store.temporary)
      requires s.id in l.rows && l.rows[s.id].row.state == Aggregating
      ensures Working(l, s, store, store.temporary, database.draws)
    {
      hide Balanced, Drawn, Mannered;
    }
  }

  /** The same files, and for the worker the same round. */
  ghost predicate ReadsTheSame(l: Ledger, after: Ledger, id: RoundId) {
    && Shifts.SameFiles(l, after) && id in l.rows && id in after.rows
    && InputsOf(l.rows[id]) == InputsOf(after.rows[id]) && l.rows[id].row.expectedCount == after.rows[id].row.expectedCount
  }

  lemma StillNew(l: Ledger, after: Ledger, stored: Stored)
    requires Shifts.SameFiles(l, after) && IsNewName(l, stored)
    ensures IsNewName(after, stored)
  {
    hide NewName;
  }

  lemma SummedTag(inputs: seq<Input>, expectedCount: nat, expected: Shapes, reader: Reader, held: nat -> bool,
                  sums: map<string, Tensor>, tag: nat)
    requires Aggregated(inputs, expectedCount, expected, reader, held, Success((sums, tag)))
    ensures tag < FIELD_PRIME && |inputs| == expectedCount
  {
    hide AllTaken, SumsTo;
  }

  lemma StillFresh(l: Ledger, after: Ledger, others: nat -> Deeds, hash: Bytes -> string)
    requires Shifts.SameFiles(l, after) && FreshNames(l, others, hash)
    ensures FreshNames(after, others, hash)
  {
    hide IsNewName, RecordsOf, AllApart, ApartFrom;
    forall n: nat ensures FreshBatch(after, others(n), hash) {
      forall j | 0 <= j < |others(n)| ensures Fits(after, others(n)[j], hash) {
        assert FreshBatch(l, others(n), hash) && Fits(l, others(n)[j], hash);
        if FileIn(others(n)[j]).Some? {
          StillNew(l, after, FileIn(others(n)[j]).value);
        }
      }
      assert FreshBatch(l, others(n), hash);
    }
  }

  lemma WrongNumber(inputs: seq<Input>, expectedCount: nat, expected: Shapes, reader: Reader, held: nat -> bool)
    requires |inputs| != expectedCount
    ensures Aggregated(inputs, expectedCount, expected, reader, held, Failure(Permanent))
  {
  }

  lemma NoneSummed(tag: nat, inputs: seq<Input>, expected: Shapes, reader: Reader, held: nat -> bool)
    requires SummedTo(None, tag, inputs, |inputs|, expected, reader, held)
    ensures Aggregated(inputs, |inputs|, expected, reader, held, Failure(Permanent))
  {
    hide Check, SumsTo;
  }
}
