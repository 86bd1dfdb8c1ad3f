/** The states of a round and the moves between them. */
module States {

  datatype RoundState =
    | Created | RegistrationOpen | KeySetup | KeyAggregation | UpdateCollection
    | Aggregating | ResultReady | Completed | Failed | Aborted | Expired

  datatype Protocol = V10 | V11

  const TERMINAL_STATES: set<RoundState> := {Completed, Failed, Aborted, Expired}

  predicate Terminal(s: RoundState) {
    s in TERMINAL_STATES
  }

  /** The regular successors of a state. */
  function Successors(s: RoundState): set<RoundState> {
    match s
    case Created => {RegistrationOpen}
    case RegistrationOpen => {KeySetup}
    case KeySetup => {KeyAggregation, UpdateCollection}
    case KeyAggregation => {UpdateCollection}
    case UpdateCollection => {Aggregating}
    case Aggregating => {ResultReady}
    case ResultReady => {Completed}
    case _ => {}
  }

  predicate TransitionAllowed(source: RoundState, target: RoundState) {
    target in Successors(source) || (!Terminal(source) && target in {Failed, Aborted, Expired})
  }

  /** The round was not cut short. */
  predicate Alive(s: RoundState) {
    s !in {Failed, Aborted, Expired}
  }

  /** How far along a round is; the protocol decides whether key aggregation is a step of its own. */
  function Stage(s: RoundState, protocol: Protocol): nat {
    var skipped := if protocol == V10 then 1 else 0;
    match s
    case Created => 0
    case RegistrationOpen => 1
    case KeySetup => 2
    case KeyAggregation => 3
    case UpdateCollection => 4 - skipped
    case Aggregating => 5 - skipped
    case ResultReady => 6 - skipped
    case Completed => 7 - skipped
    case _ => 7 - skipped
  }

  /** A terminal state has no successor; every other state can be cut short. */
  lemma TerminalIsAbsorbing(s: RoundState)
    ensures Terminal(s) <==> forall t :: !TransitionAllowed(s, t)
  {
    if !Terminal(s) {
      assert TransitionAllowed(s, Failed);
    }
  }
}
