/**
  System.Random, seen from outside: a seeded generator whose outcomes are an
  abstract stream. Every call consumes the next sample of the stream; Next()
  reads it as an integer, NextDouble() as a fraction, as .NET derives both
  results from one internal sample.
*/
module SystemRandom {
  import opened Int32Text

  /** The range of Random.Next(): 0 <= n < Int32.MaxValue. */
  type NextValue = n: int | 0 <= n < INT32_MAX_VALUE

  /** The range of Random.NextDouble(): 0 <= d < 1, as an exact rational. */
  type UnitValue = r: real | 0.0 <= r < 1.0

  /** One sample of the stream, through either accessor. */
  datatype Sample = Sample(asInt: NextValue, asDouble: UnitValue)

  /** The stream of samples each seed determines. */
  type Seeding = int -> (nat -> Sample)

  class Random {
    /** The samples this generator hands out, in order. */
    const samples: nat -> Sample
    /** How many samples the calls so far have consumed. */
    var position: nat

    /** new Random(seed) */
    constructor (seed: int, seeding: Seeding)
      ensures samples == seeding(seed) && position == 0
    {
      samples := seeding(seed);
      position := 0;
    }

    method Next() returns (n: NextValue)
      modifies this
      ensures n == samples(old(position)).asInt
      ensures position == old(position) + 1
    {
      n := samples(position).asInt;
      position := position + 1;
    }

    method NextDouble() returns (d: UnitValue)
      modifies this
      ensures d == samples(old(position)).asDouble
      ensures position == old(position) + 1
    {
      d := samples(position).asDouble;
      position := position + 1;
    }
  }
}
