/** The aggregation worker: one job's inputs checked and summed, in 64-bit words and in the tag field. */
module Worker {
  import opened Digest
  import opened Names
  import opened Queries
  import opened Ring
  import opened Sequences
  import opened Store
  import opened Wrappers

  /** A tensor as stored: whether its elements are int64, its shape, and the elements in row order. */
  datatype TensorData = TensorData(int64: bool, shape: seq<nat>, values: Tensor)

  type Tensors = map<string, TensorData>

  /** The tensors a schema expects, by name. */
  type Shapes = map<string, seq<nat>>

  /** A fault the next attempt may not meet again, or one that fails the job for good. */
  datatype Fault = Transient | Permanent

  function Size(shape: seq<nat>): nat {
    if shape == [] then 1 else shape[0] * Size(shape[1..])
  }

  /** What reading files gives: int64 tensors hold words, as many as the shape says. */
  datatype Reader = Reader(files: map<string, Bytes>, hash: Bytes -> string, parse: Bytes -> Option<Tensors>)

  ghost predicate WellTyped(reader: Reader) {
    forall b: Bytes, name: string | reader.parse(b).Some? && name in reader.parse(b).value ::
      HoldsWords(reader.parse(b).value[name])
  }

  ghost predicate HoldsWords(t: TensorData) {
    |t.values| == Size(t.shape) && forall i | 0 <= i < |t.values| :: -WORD_HALF <= t.values[i] < WORD_HALF
  }

  /** The tensors are those the schema expects. */
  predicate Matches(tensors: Tensors, expected: Shapes) {
    tensors.Keys == expected.Keys && forall name | name in tensors :: tensors[name].int64 && tensors[name].shape == expected[name]
  }

  /** An input is taken if its file is there, has the recorded content, fits the schema, and its tag is a field element. */
  function Check(input: Input, expected: Shapes, reader: Reader): Result<(Tensors, nat), Fault> {
    if input.path !in reader.files then Failure(Transient)
    else
      var data := reader.files[input.path];
      if reader.hash(data) != input.digest then Failure(Permanent)
      else match reader.parse(data)
        case None => Failure(Permanent)
        case Some(tensors) =>
          if !Matches(tensors, expected) then Failure(Permanent)
          else match ParseTag(input.tag)
            case None => Failure(Permanent)
            case Some(tag) => Success((tensors, tag))
  }

  /** One coordinate of one tensor of an input. */
  function Coordinate(expected: Shapes, reader: Reader, name: string, i: nat): Input -> int {
    (input: Input) =>
      match Check(input, expected, reader)
      case Success((tensors, _)) => if name in tensors then At(tensors[name].values, i) else 0
      case Failure(_) => 0
  }

  function TagOf(expected: Shapes, reader: Reader): Input -> int {
    (input: Input) =>
      match Check(input, expected, reader)
      case Success((_, tag)) => tag
      case Failure(_) => 0
  }

  /** sums has, for every expected tensor, the word each coordinate adds up to over the first n inputs. */
  ghost predicate SumsTo(sums: map<string, Tensor>, inputs: seq<Input>, n: nat, expected: Shapes, reader: Reader)
    requires n <= |inputs|
  {
    && sums.Keys == expected.Keys
    && forall name | name in expected :: TensorSumsTo(sums[name], inputs, n, expected, reader, name)
  }

  ghost predicate TensorSumsTo(sum: Tensor, inputs: seq<Input>, n: nat, expected: Shapes, reader: Reader, name: string)
    requires n <= |inputs| && name in expected
  {
    && |sum| == Size(expected[name])
    && forall i: nat | i < |sum| :: sum[i] == Wrap(SumTo(inputs, n, Coordinate(expected, reader, name, i)))
  }

  lemma CheckedTensor(input: Input, expected: Shapes, reader: Reader, name: string)
    requires WellTyped(reader) && Check(input, expected, reader).Success? && name in expected
    ensures var t := Check(input, expected, reader).value.0;
      && name in t && HoldsWords(t[name]) && |t[name].values| == Size(expected[name])
      && forall i: nat | i < |t[name].values| :: Coordinate(expected, reader, name, i)(input) == t[name].values[i]
  {
    hide Size;
  }

  /** The first input's tensors are their own sums. */
  lemma FirstSums(inputs: seq<Input>, expected: Shapes, reader: Reader, name: string)
    requires inputs != [] && WellTyped(reader) && Check(inputs[0], expected, reader).Success? && name in expected
    ensures name in Check(inputs[0], expected, reader).value.0
    ensures TensorSumsTo(Check(inputs[0], expected, reader).value.0[name].values, inputs, 1, expected, reader, name)
  {
    hide Size, Check, WellTyped, Coordinate;
    CheckedTensor(inputs[0], expected, reader, name);
    var values := Check(inputs[0], expected, reader).value.0[name].values;
    forall i: nat | i < |values|
      ensures values[i] == Wrap(SumTo(inputs, 1, Coordinate(expected, reader, name, i)))
    {
      var f := Coordinate(expected, reader, name, i);
      assert SumTo(inputs, 1, f) == SumTo(inputs, 0, f) + f(inputs[0]);
      WrapExactIffFits(values[i]);
    }
  }

  /** Adding one more input's tensor in words adds it to the sum. */
  lemma NextSums(sum: Tensor, inputs: seq<Input>, n: nat, expected: Shapes, reader: Reader, name: string)
    requires n < |inputs| && WellTyped(reader) && Check(inputs[n], expected, reader).Success? && name in expected
    requires TensorSumsTo(sum, inputs, n, expected, reader, name)
    ensures name in Check(inputs[n], expected, reader).value.0
    ensures var t := Check(inputs[n], expected, reader).value.0[name].values;
      |t| == |sum| && TensorSumsTo(AddTensors(sum, t), inputs, n + 1, expected, reader, name)
  {
    hide Size, Check, WellTyped, Coordinate, Wrap;
    CheckedTensor(inputs[n], expected, reader, name);
    var t := Check(inputs[n], expected, reader).value.0[name].values;
    var next := AddTensors(sum, t);
    forall i: nat | i < |next|
      ensures next[i] == Wrap(SumTo(inputs, n + 1, Coordinate(expected, reader, name, i)))
    {
      var f := Coordinate(expected, reader, name, i);
      WrapHomomorphic(SumTo(inputs, n, f), t[i]);
      WrapWord(t[i]);
    }
  }

  lemma WrapWord(x: int)
    requires -WORD_HALF <= x < WORD_HALF
    ensures Wrap(x) == x
  {
  }

  // ---- The loop over the inputs

  /** The first input's tensors become the running sums. */
  method StartSums(tensors: Tensors, ghost inputs: seq<Input>, ghost expected: Shapes, ghost reader: Reader)
    returns (sums: map<string, Tensor>)
    requires inputs != [] && WellTyped(reader) && Check(inputs[0], expected, reader).Success?
    requires tensors == Check(inputs[0], expected, reader).value.0 && tensors.Keys == expected.Keys
    ensures SumsTo(sums, inputs, 1, expected, reader)
  {
    hide Check, TensorSumsTo, WellTyped;
    sums := map name | name in tensors :: tensors[name].values;
    forall name | name in expected ensures TensorSumsTo(sums[name], inputs, 1, expected, reader, name) {
      FirstSums(inputs, expected, reader, name);
    }
  }

  /** Every running sum takes in the next input's tensor of its name. */
  method AddInput(sums: map<string, Tensor>, tensors: Tensors, ghost inputs: seq<Input>, ghost n: nat,
                  ghost expected: Shapes, ghost reader: Reader) returns (after: map<string, Tensor>)
    requires n < |inputs| && WellTyped(reader) && Check(inputs[n], expected, reader).Success?
    requires tensors == Check(inputs[n], expected, reader).value.0 && tensors.Keys == expected.Keys
    requires SumsTo(sums, inputs, n, expected, reader)
    ensures SumsTo(after, inputs, n + 1, expected, reader)
  {
    hide Check, TensorSumsTo, WellTyped;
    after := sums;
    var todo := sums.Keys;
    while todo != {}
      invariant todo <= sums.Keys && after.Keys == sums.Keys == expected.Keys
      invariant forall name | name in expected :: if name in todo then after[name] == sums[name]
        else TensorSumsTo(after[name], inputs, n + 1, expected, reader, name)
      decreases |todo|
    {
      var name :| name in todo;
      NextSums(sums[name], inputs, n, expected, reader, name);
      after := after[name := AddTensors(after[name], tensors[name].values)];
      todo := todo - {name};
    }
  }

  /** What is wrong with a job's inputs, if anything: their number, a claim lost meanwhile, or an input not taken. */
  ghost predicate Faulty(inputs: seq<Input>, expectedCount: nat, expected: Shapes, reader: Reader, held: nat -> bool, fault: Fault) {
    || (fault == Permanent && (|inputs| != expectedCount || inputs == []))
    || exists n: nat :: n <= |inputs| && FaultAt(inputs, expected, reader, held, n, fault)
  }

  /** Everything is fine up to the n-th renewal, which fails or is followed by a fault of input n. */
  ghost predicate FaultAt(inputs: seq<Input>, expected: Shapes, reader: Reader, held: nat -> bool, n: nat, fault: Fault)
    requires n <= |inputs|
  {
    && (forall i: nat | i < n :: held(i) && Check(inputs[i], expected, reader).Success?)
    && (if !held(n) then fault == Permanent else n < |inputs| && Check(inputs[n], expected, reader) == Failure(fault))
  }

  /** All inputs are taken and the claim is held at every renewal, the one after the last input included. */
  ghost predicate AllTaken(inputs: seq<Input>, expected: Shapes, reader: Reader, held: nat -> bool) {
    && (forall i | 0 <= i < |inputs| :: Check(inputs[i], expected, reader).Success?)
    && forall i: nat | i <= |inputs| :: held(i)
  }

  /** The sums over the first n inputs, if there are any, and the sum of their tags in the field. */
  ghost predicate Running(sums: Option<map<string, Tensor>>, tag: nat, inputs: seq<Input>, n: nat, expected: Shapes, reader: Reader)
    requires n <= |inputs|
  {
    && (sums.Some? <==> n > 0)
    && (sums.Some? ==> SumsTo(sums.value, inputs, n, expected, reader))
    && tag < FIELD_PRIME && tag == SumTo(inputs, n, TagOf(expected, reader)) % FIELD_PRIME
  }

  /** Takes the next input in, if its check succeeded: its tensors are added in 64-bit words and its tag in the field. */
  method TakeInput(sums: Option<map<string, Tensor>>, tag: nat, checked: Result<(Tensors, nat), Fault>,
                   ghost inputs: seq<Input>, ghost n: nat, ghost expected: Shapes, ghost reader: Reader)
    returns (taken: Result<(map<string, Tensor>, nat), Fault>)
    requires n < |inputs| && WellTyped(reader) && Running(sums, tag, inputs, n, expected, reader)
    requires checked == Check(inputs[n], expected, reader)
    ensures match taken
      case Success((after, total)) => checked.Success? && Running(Some(after), total, inputs, n + 1, expected, reader)
      case Failure(fault) => checked == Failure(fault)
  {
    hide Check, SumsTo, WellTyped, TagOf;
    if checked.Failure? {
      return Failure(checked.error);
    }
    CheckedNames(inputs[n], expected, reader);
    var after;
    if sums.None? {
      after := StartSums(checked.value.0, inputs, expected, reader);
    } else {
      after := AddInput(sums.value, checked.value.0, inputs, n, expected, reader);
    }
    TagAdded(SumTo(inputs, n, TagOf(expected, reader)), checked.value.1);
    return Success((after, (tag + checked.value.1) % FIELD_PRIME));
  }

  lemma RunningAtEnd(sums: Option<map<string, Tensor>>, tag: nat, inputs: seq<Input>, expected: Shapes, reader: Reader)
    requires Running(sums, tag, inputs, |inputs|, expected, reader)
    ensures tag < FIELD_PRIME && tag == Sum(inputs, TagOf(expected, reader)) % FIELD_PRIME
    ensures if sums.Some? then inputs != [] && SumsTo(sums.value, inputs, |inputs|, expected, reader) else inputs == []
  {
    hide SumsTo, TagOf;
  }

  lemma NothingTaken(inputs: seq<Input>, expected: Shapes, reader: Reader)
    ensures Running(None, 0, inputs, 0, expected, reader)
  {
  }

  lemma CheckedNames(input: Input, expected: Shapes, reader: Reader)
    requires Check(input, expected, reader).Success?
    ensures Check(input, expected, reader).value.0.Keys == expected.Keys
    ensures TagOf(expected, reader)(input) == Check(input, expected, reader).value.1
  {
  }

  lemma TagAdded(sum: int, tag: nat)
    ensures (sum % FIELD_PRIME + tag) % FIELD_PRIME == (sum + tag) % FIELD_PRIME
  {
    var q := sum / FIELD_PRIME;
    assert sum == FIELD_PRIME * q + sum % FIELD_PRIME;
    var p := (sum % FIELD_PRIME + tag) / FIELD_PRIME;
    assert sum + tag == FIELD_PRIME * (q + p) + (sum % FIELD_PRIME + tag) % FIELD_PRIME;
  }

  /** The sums and the tag do not depend on the order the inputs come in. */
  lemma OrderDoesNotMatter(a: seq<Input>, b: seq<Input>, expected: Shapes, reader: Reader, name: string, i: nat)
    requires multiset(a) == multiset(b)
    ensures Sum(a, Coordinate(expected, reader, name, i)) == Sum(b, Coordinate(expected, reader, name, i))
    ensures Sum(a, TagOf(expected, reader)) == Sum(b, TagOf(expected, reader))
  {
    SumPermutation(a, b, Coordinate(expected, reader, name, i));
    SumPermutation(a, b, TagOf(expected, reader));
  }
}
