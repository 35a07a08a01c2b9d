/** `System.Random`. A seeded generator is a fixed stream of samples in [0, 1);
    the model takes that stream as given (it stands for the seed) and keeps the
    position of the next sample. The integer draws follow the seeded (legacy)
    .NET algorithm: `Next(n)` is floor(sample * n) and `Next(a, b)` is
    a + floor(sample * (b - a)). `Next()` is modelled as `Next(int.MaxValue)`. */
module Rng {
  import opened Errors

  const IntMaxValue: int := 0x7FFF_FFFF

  /** Every sample of the stream lies in [0, 1). */
  ghost predicate IsSampleStream(stream: nat -> real)
  {
    forall i: nat :: 0.0 <= stream(i) < 1.0
  }

  /** `new Random(seed)` for every seed: each seed determines a sample stream. */
  ghost predicate IsSeeding(seeds: int -> (nat -> real))
  {
    forall seed: int :: IsSampleStream(seeds(seed))
  }

  /** The integer the generator derives from one sample for the range [0, n). */
  function Below(sample: real, n: nat): (r: int)
    requires 0.0 <= sample < 1.0
    ensures n == 0 ==> r == 0
    ensures n > 0 ==> 0 <= r < n
  {
    ScaleBounds(sample, n);
    (sample * n as real).Floor
  }

  /** The integer the generator derives from one sample for the range [lo, hi). */
  function Between(sample: real, lo: int, hi: int): (r: int)
    requires 0.0 <= sample < 1.0
    requires lo <= hi
    ensures lo == hi ==> r == lo
    ensures lo < hi ==> lo <= r < hi
  {
    lo + Below(sample, hi - lo)
  }

  /** `NextDouble() * 2 - 1`: a sample mapped onto [-1, 1). */
  function Signed(sample: real): (r: real)
    requires 0.0 <= sample < 1.0
    ensures -1.0 <= r < 1.0
  {
    sample * 2.0 - 1.0
  }

  lemma ScaleBounds(sample: real, n: nat)
    requires 0.0 <= sample < 1.0
    ensures 0.0 <= sample * n as real
    ensures n > 0 ==> sample * n as real < n as real
  {
    if n > 0 {
      assert sample * n as real < 1.0 * n as real;
    }
  }

  class Random {
    /** The samples this generator's seed produces, in order. */
    const stream: nat -> real
    /** How many samples have been drawn so far. */
    var position: nat

    ghost predicate Valid()
    {
      IsSampleStream(stream)
    }

    /** `new Random(seed)`, with the seed's sample stream given directly. */
    constructor (stream: nat -> real)
      requires IsSampleStream(stream)
      ensures Valid() && this.stream == stream && position == 0
    {
      this.stream := stream;
      position := 0;
    }

    /** The next sample, without drawing it. */
    function Peek(): (r: real)
      requires Valid()
      reads this
      ensures 0.0 <= r < 1.0
    {
      stream(position)
    }

    /** `NextDouble()`: the next sample, in [0, 1). */
    method NextDouble() returns (r: real)
      requires Valid()
      modifies this
      ensures r == old(Peek()) && position == old(position) + 1
      ensures 0.0 <= r < 1.0
    {
      r := stream(position);
      position := position + 1;
    }

    /** `Next(maxValue)`: an integer in [0, maxValue) (0 when maxValue is 0);
        a negative bound throws before any sample is drawn. */
    method Next(maxValue: int) returns (r: Result<int>)
      requires Valid()
      modifies this
      ensures maxValue < 0 ==> r == Throws(ArgumentOutOfRange) && position == old(position)
      ensures maxValue >= 0 ==> r == Ok(Below(old(Peek()), maxValue)) && position == old(position) + 1
    {
      if maxValue < 0 {
        return Throws(ArgumentOutOfRange);
      }
      var sample := NextDouble();
      r := Ok(Below(sample, maxValue));
    }

    /** `Next(minValue, maxValue)`: an integer in [minValue, maxValue) (minValue when
        they are equal); an inverted range throws before any sample is drawn. */
    method NextBetween(minValue: int, maxValue: int) returns (r: Result<int>)
      requires Valid()
      modifies this
      ensures minValue > maxValue ==> r == Throws(ArgumentOutOfRange) && position == old(position)
      ensures minValue <= maxValue ==>
                r == Ok(Between(old(Peek()), minValue, maxValue)) && position == old(position) + 1
    {
      if minValue > maxValue {
        return Throws(ArgumentOutOfRange);
      }
      var sample := NextDouble();
      r := Ok(Between(sample, minValue, maxValue));
    }

    /** `Next()`: a non-negative integer below int.MaxValue. */
    method NextInt() returns (r: int)
      requires Valid()
      modifies this
      ensures r == Below(old(Peek()), IntMaxValue) && position == old(position) + 1
      ensures 0 <= r < IntMaxValue
    {
      var sample := NextDouble();
      r := Below(sample, IntMaxValue);
    }
  }
}
