/**
  The corrupted-input rule both benchmarks share. Iteration k draws an integer
  with Next() and an error switch with NextDouble(), in that order, so it reads
  samples 2k and 2k+1 of the stream. Its input is the decimal rendering of the
  integer, with the bad prefix "X" in front exactly when the switch is below
  the error rate.
*/
module InputGeneration {
  import opened Wrappers
  import opened Int32Text
  import opened SystemRandom

  /** The marker that makes an input malformed. */
  const BAD_PREFIX: string := "X"

  /** The integer iteration k draws with Next(). */
  function Drawn(samples: nat -> Sample, k: nat): NextValue {
    samples(2 * k).asInt
  }

  /** The error switch iteration k draws with NextDouble(). */
  function ErrorSwitch(samples: nat -> Sample, k: nat): UnitValue {
    samples(2 * k + 1).asDouble
  }

  /** Whether iteration k's input carries the bad prefix. */
  predicate Corrupted(samples: nat -> Sample, errorRate: real, k: nat) {
    ErrorSwitch(samples, k) < errorRate
  }

  /** The input made from a drawn integer and an error switch. */
  function CorruptedInput(n: NextValue, errorSwitch: real, errorRate: real): (s: string)
    ensures |s| > 0 && (s[0] == BAD_PREFIX[0] <==> errorSwitch < errorRate)
    ensures Int32Parse(s) == if errorSwitch < errorRate then Failure(FormatError) else Success(n)
  {
    ParseToDecimal(n);
    var rendered := ToDecimal(n);
    if errorSwitch < errorRate then BAD_PREFIX + rendered else rendered
  }

  /** Iteration k's input. */
  function InputAt(samples: nat -> Sample, errorRate: real, k: nat): string {
    CorruptedInput(Drawn(samples, k), ErrorSwitch(samples, k), errorRate)
  }

  /** The inputs of a loop that runs `count` times; a count that is not
      positive runs no iteration. */
  function GeneratedInputs(samples: nat -> Sample, errorRate: real, count: int): (r: seq<string>)
    ensures |r| == if count < 0 then 0 else count
    ensures forall k :: 0 <= k < |r| ==> r[k] == InputAt(samples, errorRate, k)
    decreases count
  {
    if count <= 0 then [] else GeneratedInputs(samples, errorRate, count - 1) + [InputAt(samples, errorRate, count - 1)]
  }

  /** The three steps each loop starts an iteration with: draw an integer,
      render it, draw the error switch and prefix the rendering when the switch
      is below the error rate. */
  method DrawInput(random: Random, errorRate: real, ghost k: nat) returns (input: string)
    requires random.position == 2 * k
    modifies random
    ensures random.position == 2 * (k + 1)
    ensures input == InputAt(random.samples, errorRate, k)
  {
    var next := random.Next();
    input := ToDecimal(next);
    var errorSwitch := random.NextDouble();
    if errorSwitch < errorRate {
      input := BAD_PREFIX + input;
    }
    assert next == Drawn(random.samples, k) && errorSwitch == ErrorSwitch(random.samples, k);
  }

  /** No prefixed string parses, whatever follows the prefix. */
  lemma PrefixedNeverParses(s: string)
    ensures Int32Parse(BAD_PREFIX + s) == Failure(FormatError)
  {
    assert (BAD_PREFIX + s)[0] == 'X';
  }

  /** Running fewer iterations yields a prefix of the inputs of more: the
      stream is read in the same order whatever the count. */
  lemma GeneratedInputsPrefix(samples: nat -> Sample, errorRate: real, m: int, n: int)
    requires m <= n
    ensures GeneratedInputs(samples, errorRate, m) <= GeneratedInputs(samples, errorRate, n)
  {
  }

  /** At error rate 0 no input is malformed: each parses to its drawn integer. */
  lemma NoCorruptionAtRateZero(samples: nat -> Sample, count: int)
    ensures forall k :: 0 <= k < |GeneratedInputs(samples, 0.0, count)| ==>
      Int32Parse(GeneratedInputs(samples, 0.0, count)[k]) == Success(Drawn(samples, k))
  {
  }

  /** At error rate 1 every input is malformed: each carries the prefix and
      fails with a format error. */
  lemma AllCorruptedAtRateOne(samples: nat -> Sample, count: int)
    ensures forall k :: 0 <= k < |GeneratedInputs(samples, 1.0, count)| ==>
      GeneratedInputs(samples, 1.0, count)[k][0] == 'X' &&
      Int32Parse(GeneratedInputs(samples, 1.0, count)[k]) == Failure(FormatError)
  {
  }
}
