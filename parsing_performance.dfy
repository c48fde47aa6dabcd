/**
  The string-parsing benchmark: two loops over the same generated inputs, one
  converting with Int32.Parse guarded by a catch of FormatException, the other
  with Int32.TryParse, both substituting -1 for input that does not parse.
  The loops return what each iteration saw and computed; the stopwatch around
  them is not modelled.
*/
module ParsingPerformance {
  import opened Wrappers
  import opened Int32Text
  import opened SystemRandom
  import opened InputGeneration

  /** The value both loops substitute for input that does not parse. */
  const FALLBACK: int := -1

  /** The seed and count each point of the error-rate sweep uses. */
  const SWEEP_SEED: int := 1
  const SWEEP_COUNT: int := 50000

  /** What an exception-guarded conversion ends in: a value, or an exception
      that the handler does not catch and that leaves the loop. */
  datatype Conversion = Converted(value: int) | Escaped(error: ParseError)

  /** Strict parsing whose FormatException is caught and replaced by the
      fallback; an OverflowException is not caught. */
  function ExceptionGuarded(input: string, fallback: int): (c: Conversion)
    ensures IsDigitString(input) && DigitsValue(input) <= INT32_MAX_VALUE ==> c == Converted(DigitsValue(input))
    ensures !IsDigitString(input) ==> c == Converted(fallback)
    ensures c.Escaped? <==> IsDigitString(input) && DigitsValue(input) > INT32_MAX_VALUE
    ensures c.Escaped? ==> c == Escaped(OverflowError)
  {
    match Int32Parse(input)
    case Success(v) => Converted(v)
    case Failure(e) => if e == FormatError then Converted(fallback) else Escaped(e)
  }

  /** Non-throwing parsing whose failure flag selects the fallback. */
  function StatusReturn(input: string, fallback: int): (value: int)
    ensures IsDigitString(input) && DigitsValue(input) <= INT32_MAX_VALUE ==> value == DigitsValue(input)
    ensures !(IsDigitString(input) && DigitsValue(input) <= INT32_MAX_VALUE) ==> value == fallback
  {
    var (ok, parsed) := Int32TryParse(Some(input));
    if !ok then fallback else parsed
  }

  /** The two strategies agree on every input that does not overflow. */
  lemma StrategiesAgree(input: string, fallback: int)
    requires !IsDigitString(input) || DigitsValue(input) <= INT32_MAX_VALUE
    ensures ExceptionGuarded(input, fallback) == Converted(StatusReturn(input, fallback))
  {
  }

  /** They do not agree on a digit string beyond Int32.MaxValue: the guarded
      conversion lets the OverflowException escape, the status return yields
      the fallback. Generated inputs never reach this case. */
  lemma StrategiesDivergeOnOverflow()
    ensures ExceptionGuarded(ToDecimal(INT32_MAX_VALUE + 1), FALLBACK) == Escaped(OverflowError)
    ensures StatusReturn(ToDecimal(INT32_MAX_VALUE + 1), FALLBACK) == FALLBACK
  {
    DigitsValueOfToDecimal(INT32_MAX_VALUE + 1);
  }

  /** On a generated input both strategies yield the drawn integer, or the
      fallback when the input was corrupted; no exception escapes. */
  lemma ConvertGenerated(samples: nat -> Sample, errorRate: real, k: nat, fallback: int)
    ensures ExceptionGuarded(InputAt(samples, errorRate, k), fallback)
      == Converted(if Corrupted(samples, errorRate, k) then fallback else Drawn(samples, k))
    ensures StatusReturn(InputAt(samples, errorRate, k), fallback)
      == if Corrupted(samples, errorRate, k) then fallback else Drawn(samples, k)
  {
  }

  /** The exception-guarded loop: `count` iterations, each drawing its input
      and converting it; the value is the drawn integer unless the input was
      corrupted, in which case it is the fallback. No exception escapes. */
  method TimeTryCatch(errorRate: real, seed: int, count: int, seeding: Seeding)
    returns (inputs: seq<string>, values: seq<int>)
    ensures inputs == GeneratedInputs(seeding(seed), errorRate, count)
    ensures |values| == |inputs|
    ensures forall k :: 0 <= k < |values| ==>
      values[k] == if Corrupted(seeding(seed), errorRate, k) then FALLBACK else Drawn(seeding(seed), k)
  {
    var random := new Random(seed, seeding);
    ghost var samples := seeding(seed);
    inputs, values := [], [];
    var ii := 0;
    while ii < count
      invariant 0 <= ii <= if count < 0 then 0 else count
      invariant random.samples == samples && random.position == 2 * ii
      invariant |inputs| == |values| == ii
      invariant forall k :: 0 <= k < ii ==> inputs[k] == InputAt(samples, errorRate, k)
      invariant forall k :: 0 <= k < ii ==>
        values[k] == if Corrupted(samples, errorRate, k) then FALLBACK else Drawn(samples, k)
    {
      var input := DrawInput(random, errorRate, ii);
      var outcome := ExceptionGuarded(input, FALLBACK);
      ConvertGenerated(samples, errorRate, ii, FALLBACK);
      assert outcome.Converted?;
      var value := outcome.value;
      inputs := inputs + [input];
      values := values + [value];
      ii := ii + 1;
    }
    assert inputs == GeneratedInputs(samples, errorRate, count);
  }

  /** The status-return loop, with the same stream, rule and fallback. */
  method TimeTryParse(errorRate: real, seed: int, count: int, seeding: Seeding)
    returns (inputs: seq<string>, values: seq<int>)
    ensures inputs == GeneratedInputs(seeding(seed), errorRate, count)
    ensures |values| == |inputs|
    ensures forall k :: 0 <= k < |values| ==>
      values[k] == if Corrupted(seeding(seed), errorRate, k) then FALLBACK else Drawn(seeding(seed), k)
  {
    var random := new Random(seed, seeding);
    ghost var samples := seeding(seed);
    inputs, values := [], [];
    var ii := 0;
    while ii < count
      invariant 0 <= ii <= if count < 0 then 0 else count
      invariant random.samples == samples && random.position == 2 * ii
      invariant |inputs| == |values| == ii
      invariant forall k :: 0 <= k < ii ==> inputs[k] == InputAt(samples, errorRate, k)
      invariant forall k :: 0 <= k < ii ==>
        values[k] == if Corrupted(samples, errorRate, k) then FALLBACK else Drawn(samples, k)
    {
      var input := DrawInput(random, errorRate, ii);
      var value := StatusReturn(input, FALLBACK);
      ConvertGenerated(samples, errorRate, ii, FALLBACK);
      inputs := inputs + [input];
      values := values + [value];
      ii := ii + 1;
    }
    assert inputs == GeneratedInputs(samples, errorRate, count);
  }

  /** One point of the error-rate sweep: both loops with seed 1 and 50000
      iterations see identical inputs and compute identical values. */
  method TimeStringParsePoint(errorRate: real, seeding: Seeding)
    returns (catchInputs: seq<string>, catchValues: seq<int>, parseInputs: seq<string>, parseValues: seq<int>)
    ensures |catchInputs| == SWEEP_COUNT
    ensures catchInputs == parseInputs && catchValues == parseValues
  {
    catchInputs, catchValues := TimeTryCatch(errorRate, SWEEP_SEED, SWEEP_COUNT, seeding);
    parseInputs, parseValues := TimeTryParse(errorRate, SWEEP_SEED, SWEEP_COUNT, seeding);
  }
}
