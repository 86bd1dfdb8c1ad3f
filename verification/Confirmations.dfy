/** The key-setup barrier: what a confirmation does, and how the one that reveals different commitments is answered. */
module Confirmations {
  import opened Growth
  import opened Names
  import opened PlanShape
  import opened Replay
  import opened RoundInvariant
  import opened Rounds
  import opened RoundSteps
  import opened Runs
  import opened Shuffling
  import opened States
  import opened Topology
  import opened Wrappers

  predicate OthersCommitted(participants: map<ClientId, Participant>, client: ClientId) {
    forall c | c in participants && c != client :: participants[c].commitment.Some?
  }

  predicate OthersAgree(participants: map<ClientId, Participant>, client: ClientId, commitment: string) {
    forall c | c in participants && c != client :: participants[c].commitment == Some(commitment)
  }

  /** The last confirmation missing is not the one all others gave. */
  predicate Mismatched(r: Round, client: ClientId, commitment: string) {
    && r.row.state == KeySetup
    && OthersCommitted(r.participants, client) && !OthersAgree(r.participants, client, commitment)
  }

  /** Where the round is after a confirmation that disagrees with nobody. */
  function StateAfterConfirmation(r: Round, client: ClientId): RoundState {
    if r.row.state == KeySetup && OthersCommitted(r.participants, client) then
      if r.row.protocol == V11 then KeyAggregation else UpdateCollection
    else r.row.state
  }

  /** What the barrier does with a round in key setup, everybody's new commitments being in. */
  ghost predicate Crossed(r: Round, t: Transaction) {
    && t.Success? && t.value.round.participants == r.participants && t.value.round.idem == r.idem
    && (if !AllCommitted(r.participants) then t.value.reply == Success(Reply(Accepted, false)) && t.value.round.row == r.row
        else if !CommitmentsAgree(r.participants) then
          t.value.reply == Failure(KeyContextMismatch) && t.value.round.row.state == Failed
        else
          && t.value.reply == Success(Reply(Accepted, false))
          && t.value.round.row.state == if r.row.protocol == V11 then KeyAggregation else UpdateCollection)
  }

  lemma CrossKeySetupCrosses(r: Round, client: ClientId, draw: Draws, now: Time)
    requires r.row.state == KeySetup && CrossKeySetup(r, client, draw, now).Success?
    ensures Crossed(r, CrossKeySetup(r, client, draw, now))
  {
    hide InitialTasks, DependencyEdges, AllCommitted, CommitmentsAgree, AllKeyed;
    if !AllCommitted(r.participants) {
    } else if !CommitmentsAgree(r.participants) {
    } else if r.row.protocol == V11 {
    }
  }

  lemma CommitmentsAfter(ps: map<ClientId, Participant>, client: ClientId, commitment: string, now: Time)
    requires client in ps
    ensures var after := ps[client := Confirmed(ps[client], commitment, now)];
      && (AllCommitted(after) <==> OthersCommitted(ps, client))
      && (CommitmentsAgree(after) <==> OthersAgree(ps, client, commitment))
  {
    var after := ps[client := Confirmed(ps[client], commitment, now)];
    if CommitmentsAgree(after) {
      forall c | c in ps && c != client ensures ps[c].commitment == Some(commitment) {
        assert after[c].commitment == after[client].commitment;
      }
    }
    if AllCommitted(after) {
      forall c | c in ps && c != client ensures ps[c].commitment.Some? {
        assert c in after;
      }
    }
  }

  /** The confirmation is recorded and accepted, unless it is the last one missing and disagrees: then the round fails. */
  ghost predicate ConfirmationTaken(r: Round, client: ClientId, commitment: string, k: IdemKey, digest: string, now: Time, o: Outcome)
    requires client in r.participants
  {
    && o.round.participants == r.participants[client := Confirmed(r.participants[client], commitment, now)]
    && o.round.idem == r.idem[k := IdemRecord(digest, Accepted)]
    && (if Mismatched(r, client, commitment) then o.reply == Failure(KeyContextMismatch) && o.round.row.state == Failed
        else o.reply == Success(Reply(Accepted, false)) && o.round.row.state == StateAfterConfirmation(r, client))
  }

  lemma CommittedBefore(r: Round)
    requires Inv(r)
    ensures r.row.state in {KeyAggregation, UpdateCollection} ==> AllCommitted(r.participants) && CommitmentsAgree(r.participants)
  {
    hide RowsOk, StageOk;
  }

  lemma KeysTaken(r: Round, client: ClientId, commitment: string, key: string, digest: string, draw: Draws, now: Time)
    requires Inv(r) && Productive(draw) && client in r.participants
    requires IdemKey(client, KeyCompleteOp, key) !in r.idem && !ConfirmationBarred(r, client, commitment)
    ensures ConfirmationTaken(r, client, commitment, IdemKey(client, KeyCompleteOp, key), digest, now,
      Settle(r, KeyComplete(r, client, commitment, key, digest, draw, now)))
  {
    hide Inv, AllCommitted, CommitmentsAgree, OthersCommitted, OthersAgree;
    var k, ps := IdemKey(client, KeyCompleteOp, key), r.participants;
    KeyCompleteKeeps(r, client, commitment, key, digest, draw, now);
    CommitmentsAfter(ps, client, commitment, now);
    var committed := WithParticipant(r, client, Confirmed(ps[client], commitment, now));
    var logged := Log(Remember(committed, k, digest, Accepted), client, KeyContextAccepted, now);
    if r.row.state == KeySetup {
      hide CrossKeySetup;
      CrossKeySetupCrosses(logged, client, draw, now);
    } else {
      CommittedBefore(r);
      StillAgreed(ps, client, commitment, now);
    }
  }

  lemma StillAgreed(ps: map<ClientId, Participant>, client: ClientId, commitment: string, now: Time)
    requires client in ps && AllCommitted(ps) && CommitmentsAgree(ps) && ps[client].commitment in {None, Some(commitment)}
    ensures var after := ps[client := Confirmed(ps[client], commitment, now)]; AllCommitted(after) && CommitmentsAgree(after)
  {
  }

  /**
   * A confirmation under a new key is refused exactly when the round takes none or the participant committed to
   * something else; otherwise it is committed. It fails the round and is answered with a mismatch exactly if everybody
   * else has committed in key setup and somebody to something else.
   */
  lemma ConfirmAcceptedIff(r: Round, step: Step, draw: Draws)
    requires Inv(r) && Productive(draw) && step.op.ConfirmKeys? && Admitted(r, step.op) && !Remembered(r, step.op)
    ensures var o, c, commitment := Perform(r, step, draw), step.op.client, step.op.commitment;
      if ConfirmationBarred(r, c, commitment) then o == Outcome(r, Failure(RoundConflict))
      else ConfirmationTaken(r, c, commitment, IdemKey(c, KeyCompleteOp, step.op.key), step.op.digest, step.now, o)
  {
    hide Inv, KeyComplete, ConfirmationBarred, ConfirmationTaken;
    var c, commitment := step.op.client, step.op.commitment;
    if ConfirmationBarred(r, c, commitment) {
      KeyCompleteKeeps(r, c, commitment, step.op.key, step.op.digest, draw, step.now);
    } else {
      KeysTaken(r, c, commitment, step.op.key, step.op.digest, draw, step.now);
    }
  }

  /** The confirmation is committed, whatever it is answered. */
  predicate Confirms(r: Round, op: Op) {
    op.ConfirmKeys? && Admitted(r, op) && !Remembered(r, op) && !ConfirmationBarred(r, op.client, op.commitment)
  }

  predicate SameAnswer(a: Result<Reply, Error>, b: Result<Reply, Error>) {
    match (a, b)
    case (Success(x), Success(y)) => x.response == y.response
    case (Failure(e), Failure(f)) => e == f
    case _ => false
  }

  /**
   * What is put on record for a committed confirmation is its acceptance. So repeating that very request is always
   * answered positively and changes nothing, and gets the first answer again exactly if the commitments had not
   * differed; if they had, the first answer was the mismatch, and the round has failed.
   */
  lemma MismatchRepeatedIsAccepted(cfg: Config, steps: seq<Step>, m: nat, n: nat, draw: Draws)
    requires Proper(cfg) && Productive(draw) && m < n < |steps|
    requires Confirms(Reached(cfg, steps, m, draw), steps[m].op) && Identity(steps[n].op) == Identity(steps[m].op)
    ensures Perform(Reached(cfg, steps, n, draw), steps[n], draw)
      == Outcome(Reached(cfg, steps, n, draw), Success(Reply(Accepted, true)))
    ensures SameAnswer(Answer(cfg, steps, n, draw), Answer(cfg, steps, m, draw))
      <==> !Mismatched(Reached(cfg, steps, m, draw), steps[m].op.client, steps[m].op.commitment)
    ensures Mismatched(Reached(cfg, steps, m, draw), steps[m].op.client, steps[m].op.commitment) ==>
      && Answer(cfg, steps, m, draw) == Failure(KeyContextMismatch)
      && Reached(cfg, steps, n, draw).row.state == Failed
  {
    hide Inv, Perform, Admitted, Started, Configured, Reached, Grows, Mismatched, StateAfterConfirmation, ConfirmationBarred;
    var r, next, after := Reached(cfg, steps, m, draw), Reached(cfg, steps, m + 1, draw), Reached(cfg, steps, n, draw);
    ReachedKeeps(cfg, steps, m, draw);
    ConfirmAcceptedIff(r, steps[m], draw);
    NextReached(cfg, steps, m, draw);
    ReachedGrows(cfg, steps, m + 1, n, draw);
    RecordKept(next, after, Identity(steps[m].op).value.0);
    ReachedKeeps(cfg, steps, n, draw);
    SameMembers(cfg, r, after);
    assert steps[n].op.ConfirmKeys?;
    StillAdmitted(r, steps[m].op, after, steps[n].op);
    FailedStays(next, after);
    hide Identity;
    RecordDecides(after, steps[n], draw);
  }

  lemma FailedStays(r: Round, after: Round)
    requires Grows(r, after)
    ensures r.row.state == Failed ==> after.row.state == Failed
  {
  }
}
