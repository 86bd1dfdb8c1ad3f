/** End to end: the worker's sum, cleared by the root of the key tree, is the sum of the clients' values. */
module Clearing {
  import opened Digest
  import opened KeyRuns
  import opened KeyTree
  import opened Names
  import opened PlanShape
  import opened Queries
  import opened Ring
  import opened RoundInvariant
  import opened Rounds
  import opened RoundSteps
  import opened RunProperties
  import opened Runs
  import opened Sequences
  import opened Shuffling
  import opened States
  import opened TaskSteps
  import opened Worker
  import opened Wrappers

  /** Wrapping the terms before adding them makes no difference to the wrapped sum. */
  lemma {:induction false} WrapTerms<T>(s: seq<T>, n: nat, f: T -> int, g: T -> int)
    requires n <= |s| && forall i | 0 <= i < n :: Wrap(f(s[i])) == Wrap(g(s[i]))
    ensures Wrap(SumTo(s, n, f)) == Wrap(SumTo(s, n, g))
  {
    hide Wrap;
    if n > 0 {
      WrapTerms(s, n - 1, f, g);
      WrapHomomorphic(SumTo(s, n - 1, f), f(s[n - 1]));
      WrapHomomorphic(SumTo(s, n - 1, g), g(s[n - 1]));
    }
  }

  /** Summing over inputs is summing over their clients. */
  lemma {:induction false} SumOverClients(inputs: seq<Input>, clients: seq<ClientId>, n: nat, f: Input -> int, g: ClientId -> int)
    requires n <= |inputs| == |clients| && forall i | 0 <= i < n :: f(inputs[i]) == g(clients[i])
    ensures SumTo(inputs, n, f) == SumTo(clients, n, g)
  {
    if n > 0 {
      SumOverClients(inputs, clients, n - 1, f, g);
    }
  }

  /** Subtracting the keys' sum from the masked values' sum leaves the values' sum, in words. */
  lemma MaskedSum(clients: seq<ClientId>, masked: ClientId -> int, values: ClientId -> int, keys: ClientId -> int)
    requires forall c | c in clients :: Wrap(masked(c)) == Wrap(values(c) + keys(c))
    ensures Wrap(Wrap(Sum(clients, masked)) - Wrap(Sum(clients, keys))) == Wrap(Sum(clients, values))
  {
    hide Wrap;
    var both := (c: ClientId) => values(c) + keys(c);
    WrapTerms(clients, |clients|, masked, both);
    SumPointwise(clients, |clients|, values, keys, both);
    WrapHomomorphic(Sum(clients, masked), Sum(clients, keys));
    WrapHomomorphic(Sum(clients, both), Sum(clients, keys));
    assert Sum(clients, both) - Sum(clients, keys) == Sum(clients, values);
  }

  /** A sorted roster is the roster in another order. */
  lemma SortedSum(roster: seq<ClientId>, f: ClientId -> int)
    ensures Sum(Sorted(roster), f) == Sum(roster, f)
  {
    SumPermutation(Sorted(roster), roster, f);
  }

  /**
   * What client c uploads for a coordinate: the word of its value plus its key. All inputs the worker reads are taken
   * and carry these.
   */
  ghost predicate Uploads(r: Round, roster: seq<ClientId>, expected: Shapes, reader: Reader, name: string, i: nat,
                          values: ClientId -> int, keys: ClientId -> int) {
    forall c | c in roster ::
      && InputOf(r, c).Some? && Check(InputOf(r, c).value, expected, reader).Success?
      && Coordinate(expected, reader, name, i)(InputOf(r, c).value) == Wrap(values(c) + keys(c))
  }

  ghost function ValueOf(r: Round, expected: Shapes, reader: Reader, name: string, i: nat): ClientId -> int {
    (c: ClientId) => if InputOf(r, c).Some? then Coordinate(expected, reader, name, i)(InputOf(r, c).value) else 0
  }

  /** What the worker sums over its inputs is what the clients uploaded. */
  lemma InputsSum(r: Round, clients: seq<ClientId>, f: Input -> int, g: ClientId -> int)
    requires forall c | c in clients :: InputOf(r, c).Some? && g(c) == f(InputOf(r, c).value)
    ensures Sum(InputsTo(r, clients, |clients|), f) == Sum(clients, g)
  {
    hide InputOf;
    EveryInput(r, clients, |clients|);
    var inputs := InputsTo(r, clients, |clients|);
    forall k | 0 <= k < |clients| ensures f(inputs[k]) == g(clients[k]) {
      assert clients[k] in clients;
    }
    SumOverClients(inputs, clients, |clients|, f, g);
  }

  lemma WorkerSum(r: Round, expected: Shapes, reader: Reader, name: string, i: nat,
                  values: ClientId -> int, keys: ClientId -> int)
    requires Uploads(r, r.row.roster, expected, reader, name, i, values, keys)
    ensures
      Wrap(Wrap(Sum(InputsOf(r), Coordinate(expected, reader, name, i))) - Wrap(Sum(r.row.roster, keys)))
        == Wrap(Sum(r.row.roster, values))
  {
    hide Wrap, Check, InputOf, Coordinate, Sorted, InputsTo, Sum;
    var roster := r.row.roster;
    var g := ValueOf(r, expected, reader, name, i);
    assert forall c | c in Sorted(roster) :: c in roster by {
      assert forall c | c in Sorted(roster) :: c in multiset(Sorted(roster));
    }
    InputsSum(r, Sorted(roster), Coordinate(expected, reader, name, i), g);
    SortedSum(roster, g);
    forall c | c in roster ensures Wrap(g(c)) == Wrap(values(c) + keys(c)) {
      WrapTwice(values(c) + keys(c));
    }
    MaskedSum(roster, g, values, keys);
  }

  lemma WrapTwice(x: int)
    ensures Wrap(Wrap(x)) == Wrap(x)
  {
    WrapExactIffFits(Wrap(x));
  }

  /** The worker's sum minus the root payload is the word of the values' sum, and is that sum exactly if it fits. */
  ghost predicate Cleared(sum: int, payload: int, total: int) {
    && Wrap(sum - payload) == Wrap(total)
    && (-WORD_HALF <= total < WORD_HALF <==> Wrap(sum - payload) == total)
  }

  /** One coordinate of what the worker publishes, cleared by the root artifact of the completed tree. */
  ghost predicate ClearedAt(sums: map<string, Tensor>, name: string, i: nat, r: Round, payloads: Payloads, total: int) {
    r.plan.Some? && AllTasksCompleted(r.tasks) ==>
      && name in sums && i < |sums[name]| && r.plan.value.rootTask in payloads
      && Cleared(sums[name][i], payloads[r.plan.value.rootTask], total)
  }

  /**
   * End-to-end clearing. Take any run of a protocol-1.1 round to a state m in which the key tree is complete, and the
   * inputs the worker reads at any later state n. If every client uploaded, coordinate by coordinate, the word of its
   * value plus its key, and senders in the tree followed their actions with the same keys, then subtracting the root
   * artifact from the worker's sum gives the word of the sum of all values; it gives that sum itself exactly when the
   * sum fits a word.
   */
  lemma ClearedSum(cfg: Config, steps: seq<Step>, m: nat, n: nat, draw: Draws, expected: Shapes, reader: Reader,
                   sums: map<string, Tensor>, name: string, i: nat, values: Keys, keys: Keys, blinds: Keys)
    requires Proper(cfg) && Productive(draw) && m <= n <= |steps|
    requires var r := Reached(cfg, steps, n, draw);
      && SumsTo(sums, InputsOf(r), |InputsOf(r)|, expected, reader)
      && Uploads(r, cfg.roster, expected, reader, name, i, values, keys)
    requires name in expected && i < Size(expected[name])
    ensures ClearedAt(sums, name, i, Reached(cfg, steps, m, draw), PayloadsAfter(cfg, steps, m, draw, keys, blinds),
                      Sum(cfg.roster, values))
  {
    hide Inv, Reached, PayloadsAfter, AllTasksCompleted, Wrap, Size, Uploads, InputsOf, Coordinate;
    ReachedKeeps(cfg, steps, n, draw);
    RootIsKeySum(cfg, steps, m, draw, keys, blinds);
    var r := Reached(cfg, steps, n, draw);
    WorkerSum(r, expected, reader, name, i, values, keys);
    var inputs := InputsOf(r);
    assert TensorSumsTo(sums[name], inputs, |inputs|, expected, reader, name);
    assert sums[name][i] == Wrap(Sum(inputs, Coordinate(expected, reader, name, i)));
    WrapExactIffFits(Sum(cfg.roster, values));
  }
}
