/**
 * `bm_samples` of basicmidi.h: how many audio samples a delay of `ticks`
 * MIDI ticks lasts. A quarter note is `divisor` ticks and lasts `tempo`
 * microseconds; the audio runs at `sampleRate` samples per second, so
 *
 *   samples = ticks * tempo * sampleRate / (1000000 * divisor),
 *
 * rounded down. The C code casts every operand to a 64-bit unsigned
 * integer, multiplies modulo 2^64 from left to right, divides, and casts
 * the quotient to `int`; the model does each of those steps explicitly.
 */
module Samples {
  import opened CInt

  /** Microseconds per second. */
  const MicrosPerSecond: int := 1000000

  /** The number of samples in `ticks` ticks, in exact arithmetic, rounded down. */
  function ExactSamples(divisor: u16, tempo: u32, sampleRate: int, ticks: int): (samples: int)
    requires divisor != 0
    ensures 0 <= ticks && 0 <= sampleRate ==> 0 <= samples
  {
    var product := ticks * tempo * sampleRate;
    var scale := MicrosPerSecond * divisor;
    assert 0 <= ticks && 0 <= sampleRate ==> 0 <= product / scale by {
      if 0 <= ticks && 0 <= sampleRate {
        NonNegativeProduct(ticks, tempo, sampleRate);
        DivNonneg(product, scale);
      }
    }
    product / scale
  }

  /**
   * The inputs for which the C expression computes the exact value: no
   * negative operand, a product that fits in 64 bits and a quotient that
   * fits in an `int`.
   */
  predicate InRange(divisor: u16, tempo: u32, sampleRate: i32, ticks: i32)
    requires divisor != 0
  {
    && 0 <= ticks && 0 <= sampleRate
    && ticks * tempo * sampleRate < U64Modulus
    && ExactSamples(divisor, tempo, sampleRate, ticks) <= I32Max
  }

  /**
   * The product `(uint64_t)ticks * (uint64_t)tempo * (uint64_t)sample_rate`:
   * each operand converted to 64 bits unsigned, multiplied left to right
   * modulo 2^64. It is the exact product whenever that fits.
   */
  function WrappedProduct(tempo: u32, sampleRate: i32, ticks: i32): (product: u64)
    ensures ticks == 0 ==> product == 0
    ensures 0 <= ticks && 0 <= sampleRate && ticks * tempo * sampleRate < U64Modulus ==>
      product == ticks * tempo * sampleRate
  {
    var partial := ToU64(ToU64(ticks) * ToU64(tempo));
    assert 0 <= ticks && 0 <= sampleRate && ticks * tempo * sampleRate < U64Modulus && sampleRate != 0 ==>
      partial == ticks * tempo by {
      if 0 <= ticks && 0 <= sampleRate && ticks * tempo * sampleRate < U64Modulus && sampleRate != 0 {
        MulMonotone(1, sampleRate, ticks * tempo);
      }
    }
    ToU64(partial * ToU64(sampleRate))
  }

  /**
   * `bm_samples`. A zero divisor is a division by zero in C, so the caller
   * must not pass one.
   */
  function Samples(divisor: u16, tempo: u32, sampleRate: i32, ticks: i32): (samples: i32)
    requires divisor != 0
    ensures ticks == 0 ==> samples == 0
    ensures InRange(divisor, tempo, sampleRate, ticks) ==>
      samples == ExactSamples(divisor, tempo, sampleRate, ticks)
  {
    SamplesQuotient(divisor, tempo, sampleRate, ticks);
    ToI32(WrappedProduct(tempo, sampleRate, ticks) / (MicrosPerSecond * divisor))
  }

  /** The unsigned quotient before the cast to `int`. */
  lemma SamplesQuotient(divisor: u16, tempo: u32, sampleRate: i32, ticks: i32)
    requires divisor != 0
    ensures var quotient := WrappedProduct(tempo, sampleRate, ticks) / (MicrosPerSecond * divisor);
      && (ticks == 0 ==> quotient == 0)
      && (InRange(divisor, tempo, sampleRate, ticks) ==>
            quotient == ExactSamples(divisor, tempo, sampleRate, ticks) && 0 <= quotient <= I32Max)
  {
    if ticks == 0 {
      DivUnique(0, MicrosPerSecond * divisor, 0, 0);
    }
  }

  // ---------------------------------------------------------------------
  // Arithmetic helpers

  lemma NonNegativeProduct(a: int, b: nat, c: int)
    ensures 0 <= a && 0 <= c ==> 0 <= a * b * c
  {
    if 0 <= a && 0 <= c {
      MulNonneg(a, b);
      MulNonneg(a * b, c);
    }
  }

  lemma MulNonneg(a: int, b: int)
    requires 0 <= a && 0 <= b
    ensures 0 <= a * b
  {
  }

  lemma MulAtLeast(x: int, d: int)
    requires 1 <= x && 0 < d
    ensures d <= x * d
  {
    MulNonneg(x - 1, d);
    assert x * d == (x - 1) * d + d;
  }

  lemma MulMonotone(a: int, b: int, c: int)
    requires 0 <= a <= b && 0 <= c
    ensures a * c <= b * c
  {
    MulNonneg(b - a, c);
    assert b * c == a * c + (b - a) * c;
  }

  lemma Distribute(a: int, b: int, c: int)
    ensures (a + b) * c == a * c + b * c
  {
  }

  lemma DivNonneg(a: int, d: int)
    requires 0 <= a && 0 < d
    ensures 0 <= a / d
  {
    var q := a / d;
    if q < 0 {
      MulAtLeast(-q, d);
    }
  }

  lemma DivMonotone(a: int, b: int, d: int)
    requires 0 <= a <= b && 0 < d
    ensures a / d <= b / d
  {
    var qa, qb := a / d, b / d;
    assert a == qa * d + a % d && b == qb * d + b % d;
    if qa > qb {
      MulAtLeast(qa - qb, d);
    }
  }

  lemma DivUnique(n: int, d: int, q: int, r: int)
    requires 0 < d && 0 <= r < d && n == q * d + r
    ensures n / d == q
  {
    var q', r' := n / d, n % d;
    assert n == q' * d + r';
    assert (q - q') * d == r' - r;
    if q > q' {
      MulAtLeast(q - q', d);
    } else if q < q' {
      MulAtLeast(q' - q, d);
    }
  }

  // ---------------------------------------------------------------------
  // Properties

  /** A longer delay never lasts fewer samples, as long as it is in range. */
  lemma SamplesMonotonic(divisor: u16, tempo: u32, sampleRate: i32, ticks0: i32, ticks1: i32)
    requires divisor != 0 && 0 <= ticks0 <= ticks1
    requires InRange(divisor, tempo, sampleRate, ticks1)
    ensures InRange(divisor, tempo, sampleRate, ticks0)
    ensures Samples(divisor, tempo, sampleRate, ticks0) <= Samples(divisor, tempo, sampleRate, ticks1)
  {
    MulMonotone(ticks0, ticks1, tempo);
    MulMonotone(ticks0 * tempo, ticks1 * tempo, sampleRate);
    DivMonotone(ticks0 * tempo * sampleRate, ticks1 * tempo * sampleRate, MicrosPerSecond * divisor);
  }

  /**
   * One quarter note (`divisor` ticks) at one quarter note per second
   * (tempo 1000000) lasts exactly one second of samples.
   */
  lemma SamplesQuarterNote(divisor: u16, sampleRate: i32)
    requires divisor != 0 && 0 <= sampleRate
    requires divisor * MicrosPerSecond * sampleRate < U64Modulus
    ensures Samples(divisor, MicrosPerSecond, sampleRate, divisor) == sampleRate
  {
    var d := MicrosPerSecond * divisor;
    assert divisor * MicrosPerSecond * sampleRate == sampleRate * d;
    DivUnique(sampleRate * d, d, sampleRate, 0);
    assert InRange(divisor, MicrosPerSecond, sampleRate, divisor);
  }

  /**
   * Cutting a delay in two loses at most one sample to rounding: the two
   * halves together are the whole or one sample short.
   */
  lemma SamplesSplit(divisor: u16, tempo: u32, sampleRate: i32, ticks0: i32, ticks1: i32)
    requires divisor != 0 && 0 <= ticks0 && 0 <= ticks1 && ticks0 + ticks1 <= I32Max
    requires InRange(divisor, tempo, sampleRate, ticks0 + ticks1)
    ensures InRange(divisor, tempo, sampleRate, ticks0) && InRange(divisor, tempo, sampleRate, ticks1)
    ensures var whole := Samples(divisor, tempo, sampleRate, ticks0 + ticks1);
      var parts := Samples(divisor, tempo, sampleRate, ticks0) + Samples(divisor, tempo, sampleRate, ticks1);
      parts == whole || parts == whole - 1
  {
    SamplesMonotonic(divisor, tempo, sampleRate, ticks0, ticks0 + ticks1);
    SamplesMonotonic(divisor, tempo, sampleRate, ticks1, ticks0 + ticks1);
    var d := MicrosPerSecond * divisor;
    var a, b := ticks0 * tempo * sampleRate, ticks1 * tempo * sampleRate;
    Distribute(ticks0, ticks1, tempo);
    Distribute(ticks0 * tempo, ticks1 * tempo, sampleRate);
    FloorSum(a, b, d);
  }

  lemma FloorSum(a: int, b: int, d: int)
    requires 0 <= a && 0 <= b && 0 < d
    ensures (a + b) / d == a / d + b / d || (a + b) / d == a / d + b / d + 1
  {
    var qa, ra := a / d, a % d;
    var qb, rb := b / d, b % d;
    assert a + b == (qa + qb) * d + (ra + rb);
    if ra + rb < d {
      DivUnique(a + b, d, qa + qb, ra + rb);
    } else {
      assert a + b == (qa + qb + 1) * d + (ra + rb - d);
      DivUnique(a + b, d, qa + qb + 1, ra + rb - d);
    }
  }


  /**
   * The 64-bit product wraps for a long enough delay even when the exact
   * answer fits in an `int`: 2^26 ticks at the slowest tempo, 44100 Hz and
   * a divisor of 32767 should last 1515310615 samples, but the C
   * expression gives far fewer.
   */
  lemma SamplesWrapOnLongDelay()
    ensures ExactSamples(0x7FFF, 0xFF_FFFF, 44100, 0x400_0000) == 1515310615
    ensures Samples(0x7FFF, 0xFF_FFFF, 44100, 0x400_0000) < 1515310615
  {
  }
}
