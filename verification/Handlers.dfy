/** The upload handlers as wholes: the ledger and the answer each leaves behind, and what that means for files and round. */
module Handlers {
  import opened Database
  import opened Digest
  import opened Files
  import opened Filing
  import opened Growth
  import opened Ledgers
  import opened Names
  import opened PlanShape
  import opened Replay
  import opened RoundInvariant
  import opened Rounds
  import opened Runs
  import opened Scheduler
  import opened Shuffling
  import opened States
  import opened Store
  import opened Tables
  import opened TaskSteps
  import opened Topology
  import opened Worker
  import opened Wrappers

  datatype ApiError = NoSuchRound | NotMember | SchemaMismatch | ArtifactInvalid | Refused(error: Error) | RoundFailed

  datatype Handled = Handled(ledger: Ledger, reply: Result<Reply, ApiError>)

  /** The caller's round. */
  function Membership(rows: map<RoundId, Round>, id: RoundId, client: ClientId): Result<RoundRow, ApiError> {
    if id !in rows then Failure(NoSuchRound)
    else if client !in rows[id].participants then Failure(NotMember)
    else Success(rows[id].row)
  }

  /** Looking at a round expires it when it is overdue. */
  ghost function Looked(l: Ledger, id: RoundId, now: Time, draws: RoundId -> Draws): Ledger {
    Asked(l, id, Step(Read, now), draws)
  }

  /** The file is put to the database with the request, and thrown away unless it was newly accepted. */
  ghost function Settled(l: Ledger, id: RoundId, step: Step, draws: RoundId -> Draws): Ledger
    requires FileOf(step.op).Some?
  {
    var after := Asked(l, id, step, draws);
    if Fresh(AnswerTo(l, id, step, draws)) then after else Dropped(after, FileOf(step.op).value.path)
  }

  predicate IsNew(reply: Result<Reply, ApiError>) {
    reply.Success? && !reply.value.replay
  }

  function Translated(answer: Result<Reply, Error>): Result<Reply, ApiError> {
    match answer
    case Success(reply) => Success(reply)
    case Failure(e) => Failure(Refused(e))
  }

  // ---- Updates

  /** What an update is refused for before it reaches the database. */
  function UpdateRefusal(rows: map<RoundId, Round>, id: RoundId, client: ClientId, schemaMatches: bool, tag: string, data: Bytes,
                         maxBytes: nat, expected: Shapes, parse: Bytes -> Option<Tensors>): Option<ApiError>
  {
    if Membership(rows, id, client).Failure? then Some(Membership(rows, id, client).error)
    else if !schemaMatches then Some(SchemaMismatch)
    else if ParseTag(tag).None? || |data| > maxBytes then Some(ArtifactInvalid)
    else if parse(data).None? || !Matches(parse(data).value, expected) then Some(ArtifactInvalid)
    else None
  }

  ghost function HandleUpdate(l: Ledger, id: RoundId, refusal: Option<ApiError>, stored: Stored, data: Bytes, step: Step,
                              draws: RoundId -> Draws): Handled
    requires FileOf(step.op).Some?
  {
    if refusal.Some? then Handled(l, Failure(refusal.value))
    else
      var arrived := Arrived(l, stored, data);
      Handled(Settled(arrived, id, step, draws), Translated(AnswerTo(arrived, id, step, draws)))
  }

  /** A file that is brought ends up on record with its content if newly accepted, and nowhere otherwise. */
  ghost predicate FiledOrGone(l: Ledger, after: Ledger, isNew: bool, id: RoundId, step: Step, stored: Stored, data: Bytes)
    requires FileOf(step.op).Some?
  {
    && after.inFlight == l.inFlight && after.doomed == l.doomed && after.removed == l.removed
    && (if isNew then
          && after.files == l.files[stored.path := data]
          && OnFile(after, id, stored.objectId, RowOf(step.op, step.now), data)
        else after.files == l.files)
  }

  ghost predicate Describes(stored: Stored, data: Bytes, hash: Bytes -> string) {
    stored.digest == hash(data) && stored.size == |data|
  }

  lemma MissingIsNotFresh(op: Op)
    ensures FileOf(op).Some? ==> !Fresh(Missing(op))
  {
  }

  lemma AcceptedIsOnFile(l: Ledger, id: RoundId, step: Step, draws: RoundId -> Draws, stored: Stored, data: Bytes)
    requires id in l.rows && Inv(l.rows[id]) && FileOf(step.op) == Some(stored) && stored.path in l.files && l.files[stored.path] == data
    requires Fresh(Perform(l.rows[id], step, draws(id)).reply)
    ensures OnFile(Asked(l, id, step, draws), id, stored.objectId, RowOf(step.op, step.now), data)
  {
    hide Inv, Perform, Fresh;
    StepArtifacts(l.rows[id], step, draws(id));
  }

  /** Settling a file that is on its way: on record with its content if newly accepted, thrown away otherwise. */
  lemma SettlesCarried(l: Ledger, id: RoundId, step: Step, draws: RoundId -> Draws, stored: Stored, data: Bytes, hash: Bytes -> string)
    requires Balanced(l, hash) && Drawn(draws) && FileOf(step.op) == Some(stored) && Carried(l, stored, data)
    ensures var after := Settled(l, id, step, draws);
      && Balanced(after, hash) && after.rows == Asked(l, id, step, draws).rows
      && after.inFlight == l.inFlight - {stored.path} && after.doomed == l.doomed && after.removed == l.removed
      && (if Fresh(AnswerTo(l, id, step, draws)) then
            after.files == l.files && OnFile(after, id, stored.objectId, RowOf(step.op, step.now), data)
          else after.files == l.files - {stored.path})
  {
    var after := Asked(l, id, step, draws);
    hide Balanced, Inv, Perform, Fresh, OnFile;
    MissingIsNotFresh(step.op);
    if id in l.rows {
      FileAskKeeps(l, id, step, draws, hash);
      BalancedRoundSound(l, id, hash);
    }
    if Fresh(AnswerTo(l, id, step, draws)) {
      AcceptedIsOnFile(l, id, step, draws, stored, data);
    } else {
      DropKeeps(after, stored.path, hash);
    }
  }

  /** A file that arrives is on its way; without it everything is as it was. */
  lemma ArrivedIsCarried(l: Ledger, stored: Stored, data: Bytes, hash: Bytes -> string)
    requires Balanced(l, hash) && IsNewName(l, stored) && Describes(stored, data, hash)
    ensures var arrived := Arrived(l, stored, data);
      && Balanced(arrived, hash) && Carried(arrived, stored, data) && stored.path !in l.files && stored.path !in l.inFlight
      && arrived.files - {stored.path} == l.files && arrived.inFlight - {stored.path} == l.inFlight
  {
    hide Balanced, IsNewName;
    ArriveKeeps(l, stored, data, hash);
    NotAFile(l, stored);
  }

  /** Bringing a file and settling it. */
  lemma SettledFile(l: Ledger, id: RoundId, step: Step, draws: RoundId -> Draws, stored: Stored, data: Bytes, hash: Bytes -> string)
    requires Balanced(l, hash) && Drawn(draws) && FileOf(step.op) == Some(stored) && IsNewName(l, stored) && Describes(stored, data, hash)
    ensures var arrived := Arrived(l, stored, data);
      var after := Settled(arrived, id, step, draws);
      && Balanced(arrived, hash) && Balanced(after, hash)
      && FiledOrGone(l, after, Fresh(AnswerTo(l, id, step, draws)), id, step, stored, data)
      && AnswerTo(arrived, id, step, draws) == AnswerTo(l, id, step, draws)
      && after.rows == Asked(l, id, step, draws).rows
  {
    var arrived := Arrived(l, stored, data);
    hide Balanced, Perform, IsNewName, Fresh, OnFile, Describes, Settled, Carried;
    ArrivedIsCarried(l, stored, data, hash);
    SettlesCarried(arrived, id, step, draws, stored, data, hash);
  }

  lemma BalancedRoundSound(l: Ledger, id: RoundId, hash: Bytes -> string)
    requires Balanced(l, hash) && id in l.rows
    ensures Inv(l.rows[id])
  {
    hide Inv, Conserved, Contents, OnlyEnded;
  }

  /** An update is on record, with its content, exactly if the reply is a new acceptance; otherwise no file is left of it. */
  lemma UpdateHandled(l: Ledger, id: RoundId, refusal: Option<ApiError>, stored: Stored, data: Bytes, step: Step,
                      draws: RoundId -> Draws, hash: Bytes -> string)
    requires Balanced(l, hash) && Drawn(draws) && FileOf(step.op) == Some(stored) && IsNewName(l, stored) && Describes(stored, data, hash)
    ensures var h := HandleUpdate(l, id, refusal, stored, data, step, draws);
      Balanced(h.ledger, hash) && FiledOrGone(l, h.ledger, IsNew(h.reply), id, step, stored, data)
  {
    hide Balanced, Perform, IsNewName, OnFile, Describes, Settled, Asked, Arrived;
    SettledFile(l, id, step, draws, stored, data, hash);
  }

  // ---- Tree artifacts

  const NONCE_BYTES: nat := 12

  /**
   * What comes with an encrypted artifact: whether its metadata decode, the nonce and the text it was read from, the
   * signature, whether metadata and signature are right for the stored file and its digest, the request's key, and
   * what its content is identified by.
   */
  datatype Envelope = Envelope(
    decoded: bool, nonce: Option<Bytes>, nonceText: string, signature: Option<string>,
    genuine: (Stored, string) -> bool, key: string, identity: (Stored, string) -> string)

  /** The digest under which an encrypted artifact is taken: it fits, its nonce is well-formed, and it is genuine. */
  function Sealed(stored: Stored, data: Bytes, e: Envelope, hash: Bytes -> string, maxBytes: nat): Option<string> {
    if |data| > maxBytes || e.nonce.None? || |e.nonce.value| != NONCE_BYTES then None
    else match SealedDigest(data, e.nonce.value, hash)
      case Some(digest) => if e.genuine(stored, digest) then Some(digest) else None
      case None => None
  }

  /** A rejected tree request fails the round for good. */
  ghost function Rejected(l: Ledger, id: RoundId, client: ClientId, now: Time, draws: RoundId -> Draws): Ledger {
    Asked(l, id, Step(Reject(client, "KEY_ARTIFACT_REJECTED"), now), draws)
  }

  ghost function HandleTree(l: Ledger, id: RoundId, client: ClientId, checked: bool, stored: Stored, data: Bytes, step: Step,
                            draws: RoundId -> Draws): Handled
    requires FileOf(step.op).Some?
  {
    if Membership(l.rows, id, client).Failure? then Handled(l, Failure(Membership(l.rows, id, client).error))
    else if !checked then Handled(Rejected(l, id, client, step.now, draws), Failure(RoundFailed))
    else SettledTree(Arrived(l, stored, data), id, client, step, draws)
  }

  /** A tree artifact that has arrived is settled; if it is refused the round fails. */
  ghost function SettledTree(l: Ledger, id: RoundId, client: ClientId, step: Step, draws: RoundId -> Draws): Handled
    requires FileOf(step.op).Some?
  {
    var settled := Settled(l, id, step, draws);
    match AnswerTo(l, id, step, draws)
    case Success(reply) => Handled(settled, Success(reply))
    case Failure(_) => Handled(Rejected(settled, id, client, step.now, draws), Failure(RoundFailed))
  }

  /** The round is there and over. */
  ghost predicate Ended(l: Ledger, id: RoundId) {
    id in l.rows && Terminal(l.rows[id].row.state)
  }

  lemma RejectionEnds(l: Ledger, id: RoundId, client: ClientId, now: Time, draws: RoundId -> Draws, hash: Bytes -> string)
    requires Balanced(l, hash) && Drawn(draws) && id in l.rows
    ensures var after := Rejected(l, id, client, now, draws);
      && Balanced(after, hash) && Ended(after, id)
      && after.files == l.files && after.inFlight == l.inFlight && after.doomed == l.doomed && after.removed == l.removed
  {
    RejectedIsTerminal(l.rows[id], Step(Reject(client, "KEY_ARTIFACT_REJECTED"), now), draws(id));
    hide Balanced, Perform, Terminal;
    PlainAskKeeps(l, id, Step(Reject(client, "KEY_ARTIFACT_REJECTED"), now), draws, hash);
  }

  lemma RejectedIsTerminal(r: Round, step: Step, draw: Draws)
    requires step.op.Reject?
    ensures Terminal(Perform(r, step, draw).round.row.state)
  {
  }

  /**
   * Every refusal of a member ends the round, on record there is a file exactly if the reply is a new acceptance, and
   * whatever is accepted leaves the rows as the transaction does.
   */
  lemma TreeHandled(l: Ledger, id: RoundId, client: ClientId, checked: bool, stored: Stored, data: Bytes, step: Step,
                    draws: RoundId -> Draws, hash: Bytes -> string)
    requires Balanced(l, hash) && Drawn(draws) && FileOf(step.op) == Some(stored) && IsNewName(l, stored) && Describes(stored, data, hash)
    ensures var h := HandleTree(l, id, client, checked, stored, data, step, draws);
      && Balanced(h.ledger, hash) && FiledOrGone(l, h.ledger, IsNew(h.reply), id, step, stored, data)
      && (h.reply.Failure? ==> h.reply.error in {NoSuchRound, NotMember, RoundFailed})
      && (h.reply == Failure(RoundFailed) ==> Ended(h.ledger, id))
      && (h.reply.Success? ==>
            && id in l.rows && Perform(l.rows[id], step, draws(id)).reply == Success(h.reply.value)
            && h.ledger.rows == l.rows[id := Perform(l.rows[id], step, draws(id)).round])
  {
    hide Balanced, Perform, IsNewName, OnFile, Describes, Settled, Arrived, Rejected, Ended;
    if Membership(l.rows, id, client).Success? {
      if !checked {
        RejectionEnds(l, id, client, step.now, draws, hash);
      } else {
        SettledFile(l, id, step, draws, stored, data, hash);
        RejectionEnds(Settled(Arrived(l, stored, data), id, step, draws), id, client, step.now, draws, hash);
      }
    }
  }

  /** The task is the client's in a round of protocol 1.1. */
  predicate MayRunTask(rows: map<RoundId, Round>, id: RoundId, client: ClientId, task: TaskKey) {
    id in rows && rows[id].row.protocol == V11 && task in rows[id].tasks && rows[id].tasks[task].task.sender == client
  }

  /** The client is the one to publish the final key. */
  predicate IsRootClient(rows: map<RoundId, Round>, id: RoundId, client: ClientId) {
    id in rows && rows[id].plan.Some? && rows[id].plan.value.rootClient == client
  }

  function Or(text: Option<string>): string {
    if text.Some? then text.value else ""
  }

  function UploadOf(stored: Stored, digest: Option<string>, e: Envelope): Upload {
    Upload(stored.objectId, Or(digest), e.nonceText, Or(e.signature))
  }

  function TaskRequest(client: ClientId, task: TaskKey, stored: Stored, digest: Option<string>, e: Envelope, now: Time): Step {
    Step(UploadTask(client, task, stored, UploadOf(stored, digest, e), e.key, e.identity(stored, Or(digest))), now)
  }

  function FinalKeyRequest(client: ClientId, stored: Stored, digest: Option<string>, e: Envelope, now: Time): Step {
    Step(PublishFinal(client, stored, UploadOf(stored, digest, e), e.key, e.identity(stored, Or(digest))), now)
  }

  /** Exactly the ready task has become uploaded, with this upload. */
  ghost predicate TaskUploadedIn(l: Ledger, after: Ledger, id: RoundId, task: TaskKey, upload: Upload) {
    && id in l.rows && id in after.rows && task in l.rows[id].tasks && l.rows[id].tasks[task].state == Ready
    && after.rows[id].tasks == l.rows[id].tasks[task := TaskUploaded(l.rows[id].tasks[task], upload, upload.artifactId)]
  }

  ghost predicate FinalKeyIn(after: Ledger, id: RoundId, key: FinalKey) {
    id in after.rows && after.rows[id].finalKey == Some(key)
  }

  /** A newly accepted upload of a task makes exactly that task uploaded, with the file it names. */
  lemma UploadedTask(r: Round, step: Step, draw: Draws)
    requires Inv(r) && step.op.UploadTask? && Fresh(Perform(r, step, draw).reply)
    ensures var k := step.op.task;
      && k in r.tasks && r.tasks[k].state == Ready
      && Perform(r, step, draw).round.tasks == r.tasks[k := TaskUploaded(r.tasks[k], step.op.upload, step.op.stored.objectId)]
  {
    hide Inv, Perform, Admitted, Fresh, Insertable;
    if !Admitted(r, step.op) || Identity(step.op).value.0 in r.idem {
      NothingNew(r, step, draw);
    } else {
      UploadAcceptedIff(r, step, draw);
    }
  }

  /** A newly accepted final key is the one the request brings. */
  lemma PublishedFinalKey(r: Round, step: Step, draw: Draws)
    requires step.op.PublishFinal? && Fresh(Perform(r, step, draw).reply)
    ensures Perform(r, step, draw).round.finalKey
      == Some(FinalKey(step.op.upload.(artifactId := step.op.stored.objectId), step.op.client, step.now))
  {
    hide Insertable, SlotTaken, AllTasksCompleted;
  }

  /** A tree request was handled as the source does, which means for refusals, files and rows what is said here. */
  ghost predicate TreeOutcome(l: Ledger, h: Handled, id: RoundId, client: ClientId, checked: bool, stored: Stored, data: Bytes,
                              step: Step, draws: RoundId -> Draws)
    requires FileOf(step.op).Some?
  {
    && h == HandleTree(l, id, client, checked, stored, data, step, draws)
    && (h.reply.Failure? ==> h.reply.error in {NoSuchRound, NotMember, RoundFailed})
    && (h.reply == Failure(RoundFailed) ==> Ended(h.ledger, id))
    && FiledOrGone(l, h.ledger, IsNew(h.reply), id, step, stored, data)
    && (IsNew(h.reply) && step.op.UploadTask? ==> TaskUploadedIn(l, h.ledger, id, step.op.task, step.op.upload))
    && (IsNew(h.reply) && step.op.PublishFinal? ==>
          FinalKeyIn(h.ledger, id, FinalKey(step.op.upload, step.op.client, step.now)))
  }

  lemma TreeComesOut(l: Ledger, id: RoundId, client: ClientId, checked: bool, stored: Stored, data: Bytes, step: Step,
                     draws: RoundId -> Draws, hash: Bytes -> string)
    requires Balanced(l, hash) && Drawn(draws) && FileOf(step.op) == Some(stored) && IsNewName(l, stored) && Describes(stored, data, hash)
    requires step.op.UploadTask? || step.op.PublishFinal? ==> step.op.upload.artifactId == stored.objectId
    ensures TreeOutcome(l, HandleTree(l, id, client, checked, stored, data, step, draws), id, client, checked, stored, data, step, draws)
  {
    hide Balanced, HandleTree, Perform, IsNewName, Inv, TaskUploaded, FiledOrGone, Describes, Ended;
    TreeHandled(l, id, client, checked, stored, data, step, draws, hash);
    if IsNew(HandleTree(l, id, client, checked, stored, data, step, draws).reply) {
      BalancedRoundSound(l, id, hash);
      if step.op.UploadTask? {
        UploadedTask(l.rows[id], step, draws(id));
      } else if step.op.PublishFinal? {
        PublishedFinalKey(l.rows[id], step, draws(id));
      }
    }
  }

  /** Uploading a task artifact: the checks of metadata, task, signature and file, and what comes of it. */
  ghost predicate TaskArtifactHandled(l: Ledger, h: Handled, id: RoundId, client: ClientId, task: TaskKey, stored: Stored,
                                      data: Bytes, e: Envelope, now: Time, hash: Bytes -> string, maxBytes: nat, draws: RoundId -> Draws)
  {
    var looked, digest := Looked(l, id, now, draws), Sealed(stored, data, e, hash, maxBytes);
    var checked := e.decoded && MayRunTask(looked.rows, id, client, task) && e.signature.Some? && digest.Some?;
    TreeOutcome(looked, h, id, client, checked, stored, data, TaskRequest(client, task, stored, digest, e, now), draws)
  }

  /** Publishing the final key, for the root client only, under the same rules. */
  ghost predicate FinalKeyHandled(l: Ledger, h: Handled, id: RoundId, client: ClientId, stored: Stored, data: Bytes, e: Envelope,
                                  now: Time, hash: Bytes -> string, maxBytes: nat, draws: RoundId -> Draws)
  {
    var looked, digest := Looked(l, id, now, draws), Sealed(stored, data, e, hash, maxBytes);
    var checked := e.decoded && IsRootClient(looked.rows, id, client) && e.signature.Some? && digest.Some?;
    TreeOutcome(looked, h, id, client, checked, stored, data, FinalKeyRequest(client, stored, digest, e, now), draws)
  }
}
