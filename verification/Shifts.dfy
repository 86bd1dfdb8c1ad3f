/** One run of the worker among the requests of others: its renewals, its publication, and what the result file is worth. */
module Shifts {
  import opened Bystanders
  import opened Clearing
  import opened Database
  import opened Digest
  import opened Files
  import opened Filing
  import opened Frames
  import opened Growth
  import opened Handlers
  import opened KeyRuns
  import opened KeyTree
  import opened Ledgers
  import opened Names
  import opened Publication
  import opened Queries
  import opened Ring
  import opened RoundInvariant
  import opened RunProperties
  import opened Rounds
  import opened Runs
  import opened Scheduler
  import opened Sequences
  import opened Shuffling
  import opened States
  import opened Store
  import opened Tables
  import opened Worker
  import opened Wrappers

  /**
   * What happens during one run of the worker under a claim: before its n-th request about the job others have taken
   * their n-th batch of deeds, and its own comes at the n-th time.
   */
  datatype Shift = Shift(id: RoundId, jobId: string, token: string, lease: Time, others: nat -> Deeds, times: nat -> Time)

  function RenewStep(s: Shift, n: nat): Step {
    Step(Renew(s.jobId, s.token, s.lease), s.times(n))
  }

  /** The ledger once others have taken their n-th batch of deeds. */
  ghost function Interrupted(l: Ledger, s: Shift, n: nat, draws: RoundId -> Draws): Ledger {
    Meanwhile(l, s.others(n), |s.others(n)|, draws)
  }

  /** The ledger after n renewals of the claim. */
  ghost function Renewed(l: Ledger, s: Shift, n: nat, draws: RoundId -> Draws): Ledger {
    if n == 0 then l else Asked(Interrupted(Renewed(l, s, n - 1, draws), s, n - 1, draws), s.id, RenewStep(s, n - 1), draws)
  }

  /** Whether the n-th renewal still finds the claim. */
  ghost function Holding(l: Ledger, s: Shift, draws: RoundId -> Draws): nat -> bool {
    (n: nat) => AnswerTo(Interrupted(Renewed(l, s, n, draws), s, n, draws), s.id, RenewStep(s, n), draws).Success?
  }

  /** The files others bring have names that are new and differ from one another, and are described truly. */
  ghost predicate FreshNames(l: Ledger, others: nat -> Deeds, hash: Bytes -> string) {
    && (forall n: nat :: FreshBatch(l, others(n), hash))
    && forall m: nat, n: nat | m < n :: AllApart(others(n), others(m))
  }

  ghost predicate AllApart(deeds: Deeds, others: Deeds) {
    forall j | 0 <= j < |deeds| && FileIn(deeds[j]).Some? :: ApartFrom(FileIn(deeds[j]).value, others)
  }

  /** Nobody else brings a file of this name. */
  ghost predicate Reserved(f: Stored, others: nat -> Deeds) {
    forall n: nat :: ApartFrom(f, others(n))
  }

  /** The same files and rounds, with the same artifacts. */
  ghost predicate SameFiles(l: Ledger, after: Ledger) {
    && after.files == l.files && after.inFlight == l.inFlight && after.doomed == l.doomed && after.removed == l.removed
    && RecordsOf(after.rows) == RecordsOf(l.rows)
  }

  lemma PlainAskSameFiles(l: Ledger, id: RoundId, step: Step, draws: RoundId -> Draws, hash: Bytes -> string)
    requires Balanced(l, hash) && Drawn(draws) && FileOf(step.op).None?
    ensures Balanced(Asked(l, id, step, draws), hash) && SameFiles(l, Asked(l, id, step, draws))
  {
    hide Balanced, Perform, Drawn;
    if id in l.rows {
      PlainAskKeeps(l, id, step, draws, hash);
    }
  }

  /** Between any two renewals the books are balanced and what others will do next still fits. */
  lemma {:induction false} RenewedKeeps(l: Ledger, s: Shift, n: nat, draws: RoundId -> Draws, hash: Bytes -> string)
    requires Balanced(l, hash) && Drawn(draws) && FreshNames(l, s.others, hash)
    ensures var after := Renewed(l, s, n, draws);
      Balanced(after, hash) && after.inFlight == l.inFlight && FreshBatch(after, s.others(n), hash)
    decreases n, 1
  {
    hide Balanced, Asked, Drawn, Meanwhile, Describes, IsNewName;
    if n > 0 {
      RenewedKeeps(l, s, n - 1, draws, hash);
      var before := Renewed(l, s, n - 1, draws);
      MeanwhileKeeps(before, s.others(n - 1), |s.others(n - 1)|, draws, hash);
      PlainAskSameFiles(Interrupted(before, s, n - 1, draws), s.id, RenewStep(s, n - 1), draws, hash);
    }
    forall j | 0 <= j < |s.others(n)| && FileIn(s.others(n)[j]).Some?
      ensures IsNewName(Renewed(l, s, n, draws), FileIn(s.others(n)[j]).value)
    {
      assert FreshBatch(l, s.others(n), hash) && Fits(l, s.others(n)[j], hash);
      RenewedStillNew(l, s, n, draws, hash, FileIn(s.others(n)[j]).value);
    }
    assert FreshBatch(l, s.others(n), hash);
  }

  lemma {:induction false} RenewedStillNew(l: Ledger, s: Shift, n: nat, draws: RoundId -> Draws, hash: Bytes -> string, f: Stored)
    requires Balanced(l, hash) && Drawn(draws) && FreshNames(l, s.others, hash) && IsNewName(l, f)
    requires forall m: nat | m < n :: ApartFrom(f, s.others(m))
    ensures IsNewName(Renewed(l, s, n, draws), f)
    decreases n, 0
  {
    hide Balanced, Asked, Drawn, Meanwhile, IsNewName, FreshBatch, FreshNames;
    if n > 0 {
      RenewedStillNew(l, s, n - 1, draws, hash, f);
      RenewedKeeps(l, s, n - 1, draws, hash);
      var before, deeds := Renewed(l, s, n - 1, draws), s.others(n - 1);
      assert ApartFrom(f, deeds);
      MeanwhileStillNew(before, deeds, |deeds|, draws, hash, f);
      MeanwhileKeeps(before, deeds, |deeds|, draws, hash);
      PlainAskSameFiles(Interrupted(before, s, n - 1, draws), s.id, RenewStep(s, n - 1), draws, hash);
      SameNamesNew(Interrupted(before, s, n - 1, draws), Renewed(l, s, n, draws), f);
    }
  }

  lemma {:induction false} RenewedStillReads(l: Ledger, s: Shift, n: nat, draws: RoundId -> Draws, hash: Bytes -> string)
    requires Balanced(l, hash) && Drawn(draws) && FreshNames(l, s.others, hash) && s.id in l.rows && s.id !in l.doomed
    ensures StillReads(l, Renewed(l, s, n, draws), s.id)
  {
    hide Balanced, Drawn, Meanwhile, FreshBatch, FreshNames, StillReads, IsNewName;
    if n == 0 {
      ReadsItself(l, s.id, hash);
    } else {
      RenewedStillReads(l, s, n - 1, draws, hash);
      RenewedKeeps(l, s, n - 1, draws, hash);
      var before, deeds := Renewed(l, s, n - 1, draws), s.others(n - 1);
      MeanwhileStillReads(l, before, deeds, |deeds|, draws, hash, s.id);
      MeanwhileKeeps(before, deeds, |deeds|, draws, hash);
      MoveStillReads(l, Interrupted(before, s, n - 1, draws), Ask(s.id, RenewStep(s, n - 1)), draws, hash, s.id);
    }
  }

  // ---- What the worker reads is there

  /** An artifact row of the round stands behind the input. */
  ghost predicate Stands(r: Round, input: Input) {
    exists a :: a in r.artifacts && r.artifacts[a].path == input.path && r.artifacts[a].digest == input.digest
  }

  lemma {:induction false} InputsStand(r: Round, clients: seq<ClientId>, n: nat)
    requires n <= |clients|
    ensures forall i | 0 <= i < |InputsTo(r, clients, n)| :: Stands(r, InputsTo(r, clients, n)[i])
  {
    if n > 0 {
      InputsStand(r, clients, n - 1);
    }
  }

  /** The file is there with the recorded content. */
  predicate Present(input: Input, reader: Reader) {
    input.path in reader.files && reader.hash(reader.files[input.path]) == input.digest
  }

  lemma StandingIsPresent(l: Ledger, id: RoundId, input: Input, reader: Reader)
    requires Balanced(l, reader.hash) && id in l.rows && id !in l.doomed && Stands(l.rows[id], input) && reader.files == l.files
    ensures Present(input, reader)
  {
    var a :| a in l.rows[id].artifacts && l.rows[id].artifacts[a].path == input.path && l.rows[id].artifacts[a].digest == input.digest;
    ReadsItself(l, id, reader.hash);
    hide Inv, Conserved, OnlyEnded;
    assert GenuineRows(l.files, l.rows[id].artifacts, reader.hash);
  }

  /** Whatever others have done, an input of a round still there is the file it was. */
  lemma StillTheSame(l: Ledger, after: Ledger, id: RoundId, input: Input, expected: Shapes, reader: Reader)
    requires id in l.rows && id in after.rows && StillReads(l, after, id) && Stands(l.rows[id], input) && reader.files == l.files
    ensures Check(input, expected, reader.(files := after.files)) == Check(input, expected, reader)
  {
    var a :| a in l.rows[id].artifacts && l.rows[id].artifacts[a].path == input.path && l.rows[id].artifacts[a].digest == input.digest;
    assert OnFile(after, id, a, l.rows[id].artifacts[a], l.files[l.rows[id].artifacts[a].path]);
    hide Matches, ParseTag;
  }

  lemma HeldIsThere(l: Ledger, s: Shift, n: nat, draws: RoundId -> Draws)
    requires Holding(l, s, draws)(n)
    ensures s.id in Renewed(l, s, n + 1, draws).rows
  {
    hide Perform, Meanwhile;
  }

  /** After a renewal that found the claim, the next input reads as it did when the job was claimed. */
  lemma ReadsAsClaimed(l: Ledger, s: Shift, n: nat, draws: RoundId -> Draws, input: Input, expected: Shapes, reader: Reader)
    requires Balanced(l, reader.hash) && Drawn(draws) && FreshNames(l, s.others, reader.hash)
    requires s.id in l.rows && s.id !in l.doomed && Stands(l.rows[s.id], input) && reader.files == l.files
    requires Holding(l, s, draws)(n)
    ensures Check(input, expected, reader.(files := Renewed(l, s, n + 1, draws).files)) == Check(input, expected, reader)
  {
    hide Balanced, Drawn, Renewed, Holding, FreshNames, StillReads, Check, Stands;
    HeldIsThere(l, s, n, draws);
    RenewedStillReads(l, s, n + 1, draws, reader.hash);
    StillTheSame(l, Renewed(l, s, n + 1, draws), s.id, input, expected, reader);
  }

  /** The content of the file does not parse or fit the schema, or the tag is malformed. */
  ghost predicate Unfit(input: Input, expected: Shapes, reader: Reader) {
    && Present(input, reader)
    && (reader.parse(reader.files[input.path]).None? || !Matches(reader.parse(reader.files[input.path]).value, expected)
      || ParseTag(input.tag).None?)
  }

  /** After n inputs were taken the claim was lost, or the next one was unfit. */
  ghost predicate LostOrUnfit(inputs: seq<Input>, expected: Shapes, reader: Reader, held: nat -> bool, n: nat) {
    && n <= |inputs| && (forall i: nat | i < n :: held(i) && Check(inputs[i], expected, reader).Success?)
    && (!held(n) || (n < |inputs| && Unfit(inputs[n], expected, reader)))
  }

  lemma PresentButRefused(input: Input, expected: Shapes, reader: Reader, fault: Fault)
    requires Present(input, reader) && Check(input, expected, reader) == Failure(fault)
    ensures fault == Permanent && Unfit(input, expected, reader)
  {
    hide Matches, ParseTag;
  }

  /** With all inputs present and counted, a fault is a lost claim or an unfit input. */
  lemma Explained(inputs: seq<Input>, expected: Shapes, reader: Reader, held: nat -> bool, fault: Fault)
    requires Faulty(inputs, |inputs|, expected, reader, held, fault) && inputs != []
    requires forall i | 0 <= i < |inputs| :: Present(inputs[i], reader)
    ensures fault == Permanent && exists n: nat :: LostOrUnfit(inputs, expected, reader, held, n)
  {
    hide Check, Unfit, Present;
    var n: nat :| n <= |inputs| && FaultAt(inputs, expected, reader, held, n, fault);
    if held(n) {
      PresentButRefused(inputs[n], expected, reader, fault);
    }
    assert LostOrUnfit(inputs, expected, reader, held, n);
  }

  /** A round being aggregated is not being removed, and its inputs are all there and as many as its participants. */
  lemma AggregatingIsReadable(l: Ledger, id: RoundId, reader: Reader)
    requires Balanced(l, reader.hash) && id in l.rows && l.rows[id].row.state == Aggregating && reader.files == l.files
    ensures id !in l.doomed && |InputsOf(l.rows[id])| == l.rows[id].row.expectedCount > 0
    ensures forall i | 0 <= i < |InputsOf(l.rows[id])| ::
      Stands(l.rows[id], InputsOf(l.rows[id])[i]) && Present(InputsOf(l.rows[id])[i], reader)
  {
    hide Balanced, Inv, Stands, Present, InputOf, Sorted;
    BalancedRoundSound(l, id, reader.hash);
    LiveIsNotDoomed(l, id, reader.hash);
    var r := l.rows[id];
    EverybodyUploaded(r);
    InputsStand(r, Sorted(r.row.roster), |r.row.roster|);
    EveryInput(r, Sorted(r.row.roster), |r.row.roster|);
    forall i | 0 <= i < |InputsOf(r)| ensures Present(InputsOf(r)[i], reader) {
      StandingIsPresent(l, id, InputsOf(r)[i], reader);
    }
  }

  lemma LiveIsNotDoomed(l: Ledger, id: RoundId, hash: Bytes -> string)
    requires Balanced(l, hash) && id in l.rows && !Terminal(l.rows[id].row.state)
    ensures id !in l.doomed
  {
    hide Inv, Conserved, Contents, Terminal;
  }

  lemma EverybodyUploaded(r: Round)
    requires Inv(r) && r.row.state == Aggregating
    ensures |r.row.roster| == r.row.expectedCount > 0
    ensures forall c | c in Sorted(r.row.roster) :: InputOf(r, c).Some?
  {
    hide PlanOk, SchedulerOk, FinalOk, JobOk, ResultOk, AuditOk, VersionOk, IdemOk, StageOk, Sorted;
    forall c | c in Sorted(r.row.roster) ensures InputOf(r, c).Some? {
      assert c in multiset(Sorted(r.row.roster)) && c in multiset(r.row.roster);
      assert UpdateFiled(r.artifacts, c, r.participants[c].update.value);
    }
  }

  // ---- Claiming

  ghost function Reclaimed(l: Ledger, now: Time, lease: Time, draws: RoundId -> Draws): Ledger {
    After(l, Each(Step(Reclaim(lease), now)), draws)
  }

  /** The ledger once the round's job was claimed, lapsed leases being taken back before. */
  ghost function Claimed(l: Ledger, id: RoundId, now: Time, lease: Time, token: string, draws: RoundId -> Draws): Ledger {
    Asked(Reclaimed(l, now, lease, draws), id, Step(Claim(lease, token), now), draws)
  }

  lemma LeaseKeepsRows(r: Round, step: Step, draw: Draws)
    requires step.op.Claim? || step.op.Reclaim?
    ensures var after := Perform(r, step, draw).round;
      && after.participants == r.participants && after.artifacts == r.artifacts
      && after.row.roster == r.row.roster && after.row.expectedCount == r.row.expectedCount
  {
    hide ReclaimLease, ClaimJob, Attempts, KeepsTasks, KeepsJob, KeepsAttempts;
    StepFrame(r, step, draw);
    if step.op.Reclaim? {
      ReclaimKeepsMembers(r, step.now, step.op.lease);
    } else {
      ClaimKeepsMembers(r, step.now, step.op.lease, step.op.token);
    }
  }

  /** Claiming and reclaiming leave what the worker reads alone. */
  lemma LeaseKeepsInputs(r: Round, step: Step, draw: Draws)
    requires step.op.Claim? || step.op.Reclaim?
    ensures InputsOf(Perform(r, step, draw).round) == InputsOf(r)
    ensures Perform(r, step, draw).round.row.expectedCount == r.row.expectedCount
  {
    hide Perform;
    LeaseKeepsRows(r, step, draw);
    SameInputsTo(r, Perform(r, step, draw).round, Sorted(r.row.roster), |r.row.roster|);
  }

  lemma {:induction false} SameInputsTo(r: Round, after: Round, clients: seq<ClientId>, n: nat)
    requires n <= |clients| && after.participants == r.participants && after.artifacts == r.artifacts
    ensures InputsTo(after, clients, n) == InputsTo(r, clients, n)
  {
    if n > 0 {
      SameInputsTo(r, after, clients, n - 1);
    }
  }

  /** The claim and the sweep before it move no file and change no input. */
  lemma ClaimedSameFiles(l: Ledger, id: RoundId, now: Time, lease: Time, token: string, draws: RoundId -> Draws, hash: Bytes -> string)
    requires Balanced(l, hash) && Drawn(draws)
    ensures var swept, after := Reclaimed(l, now, lease, draws), Claimed(l, id, now, lease, token, draws);
      && Balanced(swept, hash) && SameFiles(l, swept) && Balanced(after, hash) && SameFiles(l, after)
      && forall i | i in l.rows ::
        && i in after.rows && InputsOf(after.rows[i]) == InputsOf(l.rows[i])
        && after.rows[i].row.expectedCount == l.rows[i].row.expectedCount
  {
    hide Balanced, Perform, Drawn, InputsOf;
    var reclaim, claim := Step(Reclaim(lease), now), Step(Claim(lease, token), now);
    EachKeeps(l, reclaim, draws, hash);
    var swept := Reclaimed(l, now, lease, draws);
    PlainAskSameFiles(swept, id, claim, draws, hash);
    forall i | i in l.rows
      ensures InputsOf(Claimed(l, id, now, lease, token, draws).rows[i]) == InputsOf(l.rows[i])
      ensures Claimed(l, id, now, lease, token, draws).rows[i].row.expectedCount == l.rows[i].row.expectedCount
    {
      LeaseKeepsInputs(l.rows[i], reclaim, draws(i));
      LeaseKeepsInputs(swept.rows[i], claim, draws(i));
    }
  }

  lemma ClaimKeepsRow(r: Round, step: Step, draw: Draws)
    requires step.op.Claim?
    ensures Perform(r, step, draw).round.row == r.row
  {
    hide Claimable;
  }

  lemma ClaimedAggregates(l: Ledger, id: RoundId, now: Time, lease: Time, token: string, draws: RoundId -> Draws)
    requires First(Reclaimed(l, now, lease, draws).rows, now, Some(id))
    ensures id in Claimed(l, id, now, lease, token, draws).rows
    ensures Claimed(l, id, now, lease, token, draws).rows[id].row.state == Aggregating
  {
    hide Perform, Swept;
    var swept := Reclaimed(l, now, lease, draws);
    ClaimKeepsRow(swept.rows[id], Step(Claim(lease, token), now), draws(id));
  }

  // ---- Adding up the inputs

  /** The first n inputs are taken, each under a claim held before it, and their sums and tags are in. */
  ghost predicate SummedTo(sums: Option<map<string, Tensor>>, tag: nat, inputs: seq<Input>, n: nat, expected: Shapes, reader: Reader,
                           held: nat -> bool)
    requires n <= |inputs|
  {
    && (forall i: nat | i < n :: held(i) && Check(inputs[i], expected, reader).Success?)
    && Running(sums, tag, inputs, n, expected, reader)
  }

  /** The sums over all inputs, each taken under a claim still held, and over their tags; or a fault there is. */
  ghost predicate Aggregated(inputs: seq<Input>, expectedCount: nat, expected: Shapes, reader: Reader, held: nat -> bool,
                             result: Result<(map<string, Tensor>, nat), Fault>)
  {
    match result
    case Success((sums, tag)) =>
      && |inputs| == expectedCount > 0 && AllTaken(inputs, expected, reader, held)
      && SumsTo(sums, inputs, |inputs|, expected, reader)
      && tag < FIELD_PRIME && tag == Sum(inputs, TagOf(expected, reader)) % FIELD_PRIME
    case Failure(fault) => Faulty(inputs, expectedCount, expected, reader, held, fault)
  }

  lemma NothingSummed(inputs: seq<Input>, expected: Shapes, reader: Reader, held: nat -> bool)
    ensures SummedTo(None, 0, inputs, 0, expected, reader, held)
  {
    NothingTaken(inputs, expected, reader);
  }

  lemma ClaimLostAt(sums: Option<map<string, Tensor>>, tag: nat, inputs: seq<Input>, n: nat, expectedCount: nat, expected: Shapes,
                    reader: Reader, held: nat -> bool)
    requires n <= |inputs| && SummedTo(sums, tag, inputs, n, expected, reader, held) && !held(n)
    ensures Aggregated(inputs, expectedCount, expected, reader, held, Failure(Permanent))
  {
    hide Check, Running;
    assert FaultAt(inputs, expected, reader, held, n, Permanent);
  }

  lemma InputRefusedAt(sums: Option<map<string, Tensor>>, tag: nat, inputs: seq<Input>, n: nat, expectedCount: nat, expected: Shapes,
                       reader: Reader, held: nat -> bool, fault: Fault)
    requires n < |inputs| && SummedTo(sums, tag, inputs, n, expected, reader, held)
    requires held(n) && Check(inputs[n], expected, reader) == Failure(fault)
    ensures Aggregated(inputs, expectedCount, expected, reader, held, Failure(fault))
  {
    hide Check, Running;
    assert FaultAt(inputs, expected, reader, held, n, fault);
  }

  lemma OneMoreSummed(sums: Option<map<string, Tensor>>, tag: nat, inputs: seq<Input>, n: nat, expected: Shapes, reader: Reader,
                      held: nat -> bool, after: map<string, Tensor>, total: nat)
    requires n < |inputs| && SummedTo(sums, tag, inputs, n, expected, reader, held)
    requires held(n) && Check(inputs[n], expected, reader).Success? && Running(Some(after), total, inputs, n + 1, expected, reader)
    ensures SummedTo(Some(after), total, inputs, n + 1, expected, reader, held)
  {
    hide Check, Running;
  }

  lemma AllSummed(sums: Option<map<string, Tensor>>, tag: nat, inputs: seq<Input>, expected: Shapes, reader: Reader, held: nat -> bool)
    requires SummedTo(sums, tag, inputs, |inputs|, expected, reader, held) && held(|inputs|)
    ensures inputs != [] <==> sums.Some?
    ensures Aggregated(inputs, |inputs|, expected, reader, held, if sums.Some? then Success((sums.value, tag)) else Failure(Permanent))
  {
    hide Check, SumsTo, TagOf;
    RunningAtEnd(sums, tag, inputs, expected, reader);
  }

  // ---- Publication

  function PublishStep(s: Shift, n: nat, stored: Stored, tag: nat): Step {
    Step(Publish(s.jobId, s.token, stored, HexText(tag, TAG_DIGITS)), s.times(n))
  }

  /** The round's result is on file with this content, and its tag reads as the number. */
  ghost predicate ResultOut(l: Ledger, id: RoundId, stored: Stored, data: Bytes, tag: nat, now: Time) {
    && OnFile(l, id, stored.objectId, RowFor(stored, None, ResultFile, now), data)
    && l.rows[id].row.state == ResultReady
    && l.rows[id].job.Some? && l.rows[id].job.value.tag.Some? && ParseTag(l.rows[id].job.value.tag.value) == Some(tag)
  }

  lemma PublishedRow(r: Round, step: Step, draw: Draws, tag: nat)
    requires Inv(r) && step.op.Publish? && tag < FIELD_PRIME && step.op.tag == HexText(tag, TAG_DIGITS)
    ensures var o := Perform(r, step, draw);
      && (o.reply.Success? ==>
            && Fresh(o.reply) && o.round.row.state == ResultReady
            && o.round.job.Some? && o.round.job.value.tag.Some? && ParseTag(o.round.job.value.tag.value) == Some(tag))
  {
    hide Inv, Perform, Insertable;
    PublishedExactlyWhen(r, step, draw);
    TagRoundTrip(tag);
  }

  /** A publication that succeeds puts the result out. */
  lemma PublicationOut(l: Ledger, s: Shift, n: nat, stored: Stored, data: Bytes, tag: nat, draws: RoundId -> Draws, hash: Bytes -> string)
    requires Balanced(l, hash) && Drawn(draws) && Carried(l, stored, data) && tag < FIELD_PRIME
    ensures var step := PublishStep(s, n, stored, tag);
      AnswerTo(l, s.id, step, draws).Success? ==>
        && Fresh(AnswerTo(l, s.id, step, draws))
        && ResultOut(Settled(l, s.id, step, draws), s.id, stored, data, tag, s.times(n))
  {
    var step := PublishStep(s, n, stored, tag);
    hide Balanced, Perform, Carried, OnFile, Settled, Inv, Fresh, HexText, ParseTag;
    SettlesCarried(l, s.id, step, draws, stored, data, hash);
    MissingIsNotFresh(step.op);
    if s.id in l.rows {
      BalancedRoundSound(l, s.id, hash);
      PublishedRow(l.rows[s.id], step, draws(s.id), tag);
    }
  }

  /** Giving up leaves the job to nobody under this token. */
  lemma GivenUp(r: Round, step: Step, draw: Draws)
    requires step.op.GiveUp?
    ensures !Owns(Perform(r, step, draw).round.job, step.op.jobId, step.op.token)
  {
    FailedLetsGo(r, step.op.jobId, step.op.token, step.op.retryable, step.now);
    hide FailJob;
  }

  lemma FailedLetsGo(r: Round, jobId: string, token: string, retryable: bool, now: Time)
    ensures !Owns(Settle(r, FailJob(r, jobId, token, retryable, now)).round.job, jobId, token)
  {
    hide MovedRow;
  }

  function GiveUpStep(s: Shift, n: nat, retryable: bool): Step {
    Step(GiveUp(s.jobId, s.token, retryable), s.times(n))
  }

  /** Why a worker gave a job up. */
  datatype Setback =
    | InputFault(fault: Fault)
    | ResultTooLarge(sums: map<string, Tensor>, tag: nat)
    | PublicationRefused(sums: map<string, Tensor>, tag: nat, error: Error)

  /** What a publication leaves, and the error it was refused with, if any; a file too large is refused without one. */
  datatype PublicationEnd = PublicationEnd(ledger: Ledger, published: bool, error: Option<Error>)

  /** The ledger when the publication is asked for: the file has arrived, and others may have made requests since. */
  ghost function AtPublication(l: Ledger, s: Shift, n: nat, stored: Stored, data: Bytes, draws: RoundId -> Draws): Ledger {
    Interrupted(Arrived(l, stored, data), s, n, draws)
  }

  ghost function PublicationOf(l: Ledger, s: Shift, n: nat, stored: Stored, data: Bytes, maxBytes: nat, tag: nat,
                               draws: RoundId -> Draws): PublicationEnd
  {
    if |data| > maxBytes then PublicationEnd(Asked(l, s.id, GiveUpStep(s, n, false), draws), false, None)
    else
      var at, step := AtPublication(l, s, n, stored, data, draws), PublishStep(s, n, stored, tag);
      var settled := Settled(at, s.id, step, draws);
      match AnswerTo(at, s.id, step, draws)
      case Success(_) => PublicationEnd(settled, true, None)
      case Failure(e) => PublicationEnd(Asked(settled, s.id, GiveUpStep(s, n, false), draws), false, Some(e))
  }

  /** The claim holds the job no longer. */
  ghost predicate LetGo(l: Ledger, s: Shift) {
    s.id in l.rows ==> !Owns(l.rows[s.id].job, s.jobId, s.token)
  }

  lemma GivesUp(l: Ledger, s: Shift, n: nat, retryable: bool, draws: RoundId -> Draws, hash: Bytes -> string)
    requires Balanced(l, hash) && Drawn(draws)
    ensures var after := Asked(l, s.id, GiveUpStep(s, n, retryable), draws);
      Balanced(after, hash) && SameFiles(l, after) && LetGo(after, s)
  {
    hide Balanced, Perform, Drawn;
    PlainAskSameFiles(l, s.id, GiveUpStep(s, n, retryable), draws, hash);
    if s.id in l.rows {
      GivenUp(l.rows[s.id], GiveUpStep(s, n, retryable), draws(s.id));
    }
  }

  lemma CarriedToPublication(l: Ledger, s: Shift, n: nat, stored: Stored, data: Bytes, draws: RoundId -> Draws, hash: Bytes -> string)
    requires Balanced(l, hash) && Drawn(draws) && FreshBatch(l, s.others(n), hash) && ApartFrom(stored, s.others(n))
    requires IsNewName(l, stored) && Describes(stored, data, hash)
    ensures var arrived, at := Arrived(l, stored, data), AtPublication(l, s, n, stored, data, draws);
      && Balanced(arrived, hash) && FreshBatch(arrived, s.others(n), hash) && Balanced(at, hash) && Carried(at, stored, data)
      && at.inFlight == l.inFlight[stored.path := stored] && stored.path !in l.inFlight
  {
    hide Balanced, Drawn, Meanwhile, IsNewName, Describes, Carried;
    ArrivedIsCarried(l, stored, data, hash);
    var arrived := Arrived(l, stored, data);
    forall j | 0 <= j < |s.others(n)| && FileIn(s.others(n)[j]).Some? ensures IsNewName(arrived, FileIn(s.others(n)[j]).value) {
      assert Fits(l, s.others(n)[j], hash);
      ArrivedStillNew(l, stored, data, FileIn(s.others(n)[j]).value);
    }
    assert FreshBatch(arrived, s.others(n), hash);
    hide FreshBatch, Arrived;
    MeanwhileStillCarried(arrived, s.others(n), |s.others(n)|, draws, hash, stored, data);
    MeanwhileKeeps(arrived, s.others(n), |s.others(n)|, draws, hash);
  }

  /** The file of the result is on record exactly if it was published; otherwise nothing is left of it, nor of the claim. */
  lemma PublicationHandled(l: Ledger, s: Shift, n: nat, stored: Stored, data: Bytes, maxBytes: nat, tag: nat,
                           draws: RoundId -> Draws, hash: Bytes -> string)
    requires Balanced(l, hash) && Drawn(draws) && FreshBatch(l, s.others(n), hash) && ApartFrom(stored, s.others(n))
    requires IsNewName(l, stored) && Describes(stored, data, hash) && tag < FIELD_PRIME
    ensures var end := PublicationOf(l, s, n, stored, data, maxBytes, tag, draws);
      && Balanced(end.ledger, hash) && end.ledger.inFlight == l.inFlight
      && (if end.published then ResultOut(end.ledger, s.id, stored, data, tag, s.times(n))
          else stored.path !in end.ledger.files && LetGo(end.ledger, s))
  {
    var at, step := AtPublication(l, s, n, stored, data, draws), PublishStep(s, n, stored, tag);
    hide Balanced, Drawn, IsNewName, Settled, Carried, ResultOut, LetGo, OnFile, Asked, AnswerTo, AtPublication, FreshBatch;
    if |data| > maxBytes {
      GivesUp(l, s, n, false, draws, hash);
      NotAFile(l, stored);
    } else {
      CarriedToPublication(l, s, n, stored, data, draws, hash);
      SettlesCarried(at, s.id, step, draws, stored, data, hash);
      PublicationOut(at, s, n, stored, data, tag, draws, hash);
      assert at.inFlight - {stored.path} == l.inFlight;
      if AnswerTo(at, s.id, step, draws).Failure? {
        GivesUp(Settled(at, s.id, step, draws), s, n, false, draws, hash);
      }
    }
  }

  // ---- The whole run

  datatype WorkerOutcome =
    | Idle
    | GaveUp(id: RoundId, why: Setback)
    | Published(id: RoundId, sums: map<string, Tensor>, tag: nat)

  function JobIdOf(r: Round): string {
    if r.job.Some? then r.job.value.id else ""
  }

  /** The shift of a worker that has claimed the round's job. */
  ghost function ShiftOn(claimed: Ledger, id: RoundId, token: string, lease: Time, others: nat -> Deeds, times: nat -> Time): Shift
    requires id in claimed.rows
  {
    Shift(id, JobIdOf(claimed.rows[id]), token, lease, others, times)
  }

  /** The worker's parameters: schemas, file formats, and how a file is described when it is stored. */
  datatype Plant = Plant(
    schemas: RoundId -> Shapes, reader: Reader, encode: map<string, Tensor> -> Bytes, describe: Bytes -> Stored, maxBytes: nat)

  /** The sums of round r's inputs and tags, each input taken under a claim still held. */
  ghost predicate Summed(claimed: Ledger, s: Shift, r: Round, sums: map<string, Tensor>, tag: nat, plant: Plant, draws: RoundId -> Draws) {
    Aggregated(InputsOf(r), r.row.expectedCount, plant.schemas(s.id), plant.reader, Holding(claimed, s, draws), Success((sums, tag)))
  }

  /** What becomes of the file of the sums. */
  ghost function EndOf(claimed: Ledger, s: Shift, r: Round, sums: map<string, Tensor>, tag: nat, plant: Plant, draws: RoundId -> Draws)
    : PublicationEnd
  {
    var n, data := |InputsOf(r)| + 1, plant.encode(sums);
    PublicationOf(Renewed(claimed, s, n, draws), s, n, plant.describe(data), data, plant.maxBytes, tag, draws)
  }

  /** Why the job was given up is so, and what it leaves. */
  ghost predicate SetBack(claimed: Ledger, after: Ledger, s: Shift, r: Round, why: Setback, plant: Plant, draws: RoundId -> Draws) {
    match why
    case InputFault(fault) =>
      && fault == Permanent
      && (exists n: nat :: LostOrUnfit(InputsOf(r), plant.schemas(s.id), plant.reader, Holding(claimed, s, draws), n))
      && exists n: nat :: after == Asked(Renewed(claimed, s, n, draws), s.id, GiveUpStep(s, |InputsOf(r)| + 1, false), draws)
    case ResultTooLarge(sums, tag) =>
      && Summed(claimed, s, r, sums, tag, plant, draws) && |plant.encode(sums)| > plant.maxBytes
      && EndOf(claimed, s, r, sums, tag, plant, draws) == PublicationEnd(after, false, None)
    case PublicationRefused(sums, tag, error) =>
      && Summed(claimed, s, r, sums, tag, plant, draws)
      && EndOf(claimed, s, r, sums, tag, plant, draws) == PublicationEnd(after, false, Some(error))
  }

  /** Nothing is left of a result that was not published. */
  ghost predicate NoTrace(after: Ledger, plant: Plant) {
    forall data: Bytes :: plant.describe(data).path !in after.files
  }

  /** A job of round r that was claimed is published or given up; nothing stays on its way. */
  ghost predicate ClaimDone(claimed: Ledger, after: Ledger, outcome: WorkerOutcome, s: Shift, r: Round, plant: Plant,
                            draws: RoundId -> Draws)
  {
    && after.inFlight == claimed.inFlight
    && match outcome
      case Idle => false
      case GaveUp(id, why) => id == s.id && SetBack(claimed, after, s, r, why, plant, draws) && NoTrace(after, plant) && LetGo(after, s)
      case Published(id, sums, tag) =>
        && id == s.id && Summed(claimed, s, r, sums, tag, plant, draws)
        && EndOf(claimed, s, r, sums, tag, plant, draws) == PublicationEnd(after, true, None)
        && ResultOut(after, id, plant.describe(plant.encode(sums)), plant.encode(sums), tag, s.times(|InputsOf(r)| + 1))
  }

  lemma FaultDone(claimed: Ledger, after: Ledger, s: Shift, r: Round, fault: Fault, plant: Plant, draws: RoundId -> Draws, n: nat)
    requires Balanced(claimed, plant.reader.hash) && s.id in claimed.rows && claimed.rows[s.id] == r && r.row.state == Aggregating
    requires plant.reader.files == claimed.files && after.inFlight == claimed.inFlight && NoTrace(after, plant) && LetGo(after, s)
    requires Aggregated(InputsOf(r), r.row.expectedCount, plant.schemas(s.id), plant.reader, Holding(claimed, s, draws), Failure(fault))
    requires after == Asked(Renewed(claimed, s, n, draws), s.id, GiveUpStep(s, |InputsOf(r)| + 1, fault.Transient?), draws)
    ensures ClaimDone(claimed, after, GaveUp(s.id, InputFault(fault)), s, r, plant, draws)
  {
    hide Balanced, LetGo, InputsOf, Faulty, NoTrace, Asked, Renewed, Stands, Present, Holding, LostOrUnfit;
    AggregatingIsReadable(claimed, s.id, plant.reader);
    Explained(InputsOf(r), plant.schemas(s.id), plant.reader, Holding(claimed, s, draws), fault);
  }

  /** The outcome of a publication. */
  function OutcomeOf(s: Shift, sums: map<string, Tensor>, tag: nat, published: bool, error: Option<Error>): WorkerOutcome {
    if published then Published(s.id, sums, tag)
    else GaveUp(s.id, if error.Some? then PublicationRefused(sums, tag, error.value) else ResultTooLarge(sums, tag))
  }

  lemma PublicationDone(claimed: Ledger, after: Ledger, s: Shift, r: Round, sums: map<string, Tensor>, tag: nat,
                        published: bool, error: Option<Error>, plant: Plant, draws: RoundId -> Draws)
    requires Summed(claimed, s, r, sums, tag, plant, draws) && after.inFlight == claimed.inFlight
    requires PublicationEnd(after, published, error) == EndOf(claimed, s, r, sums, tag, plant, draws)
    requires var data := plant.encode(sums);
      if published then ResultOut(after, s.id, plant.describe(data), data, tag, s.times(|InputsOf(r)| + 1))
      else NoTrace(after, plant) && LetGo(after, s)
    ensures ClaimDone(claimed, after, OutcomeOf(s, sums, tag, published, error), s, r, plant, draws)
  {
    hide Summed, LetGo, InputsOf, ResultOut, AtPublication, Renewed, AnswerTo, Asked, Settled, NoTrace;
  }

  lemma SameReading(claimed: Ledger, after: Ledger, outcome: WorkerOutcome, s: Shift, r: Round, before: Round, plant: Plant,
                    draws: RoundId -> Draws)
    requires ClaimDone(claimed, after, outcome, s, r, plant, draws)
    requires InputsOf(before) == InputsOf(r) && before.row.expectedCount == r.row.expectedCount
    ensures ClaimDone(claimed, after, outcome, s, before, plant, draws)
  {
    hide InputsOf, Aggregated, ResultOut, LetGo, PublicationOf, Renewed, AnswerTo, LostOrUnfit, Holding, Asked, NoTrace;
  }

  /**
   * What one run of the worker does: nothing if there is nothing to claim; otherwise it claims the oldest claimable job
   * and either publishes the sum of all inputs of its round, with the sum of their tags, or gives the job up: because the
   * claim was lost, an upload does not parse or fit, or the result is too large or refused. No input is ever missing or
   * changed, whatever others do in between, and of a result that is not published nothing is left.
   */
  ghost predicate WorkerDone(l: Ledger, after: Ledger, outcome: WorkerOutcome, now: Time, lease: Time, token: string,
                             others: nat -> Deeds, times: nat -> Time, plant: Plant, draws: RoundId -> Draws)
  {
    if lease <= 0.0 then outcome.Idle? && after == l
    else if outcome.Idle? then
      First(Reclaimed(l, now, lease, draws).rows, now, None) && after == Reclaimed(l, now, lease, draws)
    else
      && First(Reclaimed(l, now, lease, draws).rows, now, Some(outcome.id)) && outcome.id in l.rows
      && var claimed := Claimed(l, outcome.id, now, lease, token, draws);
      && claimed.files == l.files && claimed.inFlight == l.inFlight && outcome.id in claimed.rows
      && ClaimDone(claimed, after, outcome, ShiftOn(claimed, outcome.id, token, lease, others, times), l.rows[outcome.id], plant, draws)
  }

  // ---- What the result file is worth

  /** What the file contains clears to the total in one coordinate. */
  ghost predicate FileClears(l: Ledger, path: string, decode: Bytes -> Option<map<string, Tensor>>, name: string, i: nat,
                             tree: Round, payloads: Payloads, total: int) {
    && path in l.files && decode(l.files[path]).Some?
    && ClearedAt(decode(l.files[path]).value, name, i, tree, payloads, total)
  }

  /**
   * The clearing of the published file. Let the worker have read round r, which a run of a protocol-1.1 round has
   * reached, and put out the file of its sums, which decodes to what was encoded. If every client uploaded, in some
   * coordinate, the word of its value plus its key, and senders in the tree followed their deeds with the same keys,
   * then the file on record, cleared by the root artifact of the completed tree, gives the word of the sum of all
   * values, and that sum itself exactly when it fits a word.
   */
  lemma PublishedFileClears(cfg: Config, steps: seq<Step>, m: nat, draw: Draws, r: Round, after: Ledger, id: RoundId,
                            stored: Stored, sums: map<string, Tensor>, tag: nat, now: Time, expected: Shapes, reader: Reader,
                            encode: map<string, Tensor> -> Bytes, decode: Bytes -> Option<map<string, Tensor>>,
                            name: string, i: nat, values: Keys, keys: Keys, blinds: Keys)
    requires Faithful(cfg, steps, draw, r) && m <= |steps|
    requires SumsTo(sums, InputsOf(r), |InputsOf(r)|, expected, reader)
    requires ResultOut(after, id, stored, encode(sums), tag, now) && decode(encode(sums)) == Some(sums)
    requires Uploads(r, cfg.roster, expected, reader, name, i, values, keys) && name in expected && i < Size(expected[name])
    ensures stored.objectId in after.rows[id].artifacts
    ensures FileClears(after, after.rows[id].artifacts[stored.objectId].path, decode, name, i,
                       Reached(cfg, steps, m, draw), PayloadsAfter(cfg, steps, m, draw, keys, blinds), Sum(cfg.roster, values))
  {
    hide Reached, PayloadsAfter, Uploads, InputsOf, SumsTo, ClearedAt, Size, ParseTag, Sum;
    ClearedSum(cfg, steps, m, |steps|, draw, expected, reader, sums, name, i, values, keys, blinds);
  }

  lemma IdleDone(l: Ledger, after: Ledger, now: Time, lease: Time, token: string, others: nat -> Deeds, times: nat -> Time,
                 plant: Plant, draws: RoundId -> Draws)
    requires if lease <= 0.0 then after == l
      else First(Reclaimed(l, now, lease, draws).rows, now, None) && after == Reclaimed(l, now, lease, draws)
    ensures WorkerDone(l, after, Idle, now, lease, token, others, times, plant, draws)
  {
    hide First, Reclaimed;
  }

  lemma RunDone(l: Ledger, held: Ledger, after: Ledger, outcome: WorkerOutcome, s: Shift, now: Time, lease: Time, token: string,
                others: nat -> Deeds, times: nat -> Time, plant: Plant, draws: RoundId -> Draws)
    requires lease > 0.0 && First(Reclaimed(l, now, lease, draws).rows, now, Some(s.id)) && s.id in l.rows
    requires held == Claimed(l, s.id, now, lease, token, draws) && SameFiles(l, held) && s.id in held.rows
    requires s == ShiftOn(held, s.id, token, lease, others, times)
    requires ClaimDone(held, after, outcome, s, l.rows[s.id], plant, draws)
    ensures WorkerDone(l, after, outcome, now, lease, token, others, times, plant, draws)
  {
    hide First, Reclaimed, Claimed, Summed, SetBack, EndOf, ResultOut, LetGo, NoTrace, InputsOf, JobIdOf;
  }

  lemma NotRenewedYet(l: Ledger, s: Shift, draws: RoundId -> Draws)
    ensures Renewed(l, s, 0, draws) == l
  {
  }

  lemma PublishedSums(l: Ledger, after: Ledger, outcome: WorkerOutcome, now: Time, lease: Time, token: string,
                      others: nat -> Deeds, times: nat -> Time, plant: Plant, draws: RoundId -> Draws)
    requires WorkerDone(l, after, outcome, now, lease, token, others, times, plant, draws) && outcome.Published?
    ensures outcome.id in l.rows
    ensures var inputs, data := InputsOf(l.rows[outcome.id]), plant.encode(outcome.sums);
      && SumsTo(outcome.sums, inputs, |inputs|, plant.schemas(outcome.id), plant.reader)
      && ResultOut(after, outcome.id, plant.describe(data), data, outcome.tag, times(|inputs| + 1))
  {
    hide SumsTo, InputsOf, ResultOut, EndOf, TagOf, AllTaken, Holding, First, Claimed, Reclaimed;
  }

  /**
   * End to end: the file a run of the worker publishes clears to the sum of all values, whatever others did during the run,
   * if the rows it found are those of some run of a protocol-1.1 round and the clients did as they should.
   */
  lemma WorkerClears(l: Ledger, after: Ledger, outcome: WorkerOutcome, now: Time, lease: Time, token: string,
                     others: nat -> Deeds, times: nat -> Time, plant: Plant, draws: RoundId -> Draws,
                     cfg: Config, steps: seq<Step>, m: nat, decode: Bytes -> Option<map<string, Tensor>>,
                     name: string, i: nat, values: Keys, keys: Keys, blinds: Keys)
    requires WorkerDone(l, after, outcome, now, lease, token, others, times, plant, draws) && outcome.Published?
    requires outcome.id in l.rows && Faithful(cfg, steps, draws(outcome.id), l.rows[outcome.id]) && m <= |steps|
    requires decode(plant.encode(outcome.sums)) == Some(outcome.sums)
    requires var expected := plant.schemas(outcome.id);
      && Uploads(l.rows[outcome.id], cfg.roster, expected, plant.reader, name, i, values, keys)
      && name in expected && i < Size(expected[name])
    ensures var id, stored, draw := outcome.id, plant.describe(plant.encode(outcome.sums)), draws(outcome.id);
      && id in after.rows && stored.objectId in after.rows[id].artifacts
      && FileClears(after, after.rows[id].artifacts[stored.objectId].path, decode, name, i, Reached(cfg, steps, m, draw),
                    PayloadsAfter(cfg, steps, m, draw, keys, blinds), Sum(cfg.roster, values))
  {
    hide Reached, PayloadsAfter, Uploads, InputsOf, SumsTo, Size, Sum, Faithful, WorkerDone, ClearedAt, ParseTag;
    PublishedSums(l, after, outcome, now, lease, token, others, times, plant, draws);
    var id, data := outcome.id, plant.encode(outcome.sums);
    var r, stored := l.rows[id], plant.describe(data);
    PublishedFileClears(cfg, steps, m, draws(id), r, after, id, stored, outcome.sums, outcome.tag, times(|InputsOf(r)| + 1),
      plant.schemas(id), plant.reader, plant.encode, decode, name, i, values, keys, blinds);
  }
}
