/**
 The fixed-width arithmetic between counters and limits: instructions and milliseconds
 (src/process/jail.rs, src/process/execution_result.rs) and clock ticks and microseconds
 (src/listener/time.rs). Durations are natural numbers of nanoseconds. Products wrap, as
 they do in a release build; a debug build would panic instead.
 */
module Measures {

  const TWO_63: int := 0x8000_0000_0000_0000
  const TWO_64: int := 0x1_0000_0000_0000_0000
  const CYCLES_PER_SECOND: int := 2_000_000_000

  type I64 = x: int | -0x8000_0000_0000_0000 <= x < 0x8000_0000_0000_0000
  type U64 = x: int | 0 <= x < 0x1_0000_0000_0000_0000

  function WrapU64(x: int): U64 {
    x % TWO_64
  }

  function WrapI64(x: int): I64 {
    (x + TWO_63) % TWO_64 - TWO_63
  }

  /** Division of signed integers, which truncates towards zero. */
  function TruncDiv(a: int, b: int): int
    requires b > 0
  {
    if a >= 0 then a / b else -((-a) / b)
  }

  function Millis(duration: nat): nat {
    duration / 1_000_000
  }

  /** The instruction limit that `measured_time_limit` stores. */
  function InstructionLimit(duration: nat): I64 {
    WrapI64(Millis(duration) * (CYCLES_PER_SECOND / 1_000))
  }

  /** The milliseconds that `set_instructions_used` reports. */
  function MeasuredMillis(instructions: I64): U64 {
    WrapU64(TruncDiv(WrapI64(instructions * 1_000), CYCLES_PER_SECOND))
  }

  /** The microseconds that the time listener reads off a tick count. */
  function TickMicros(ticks: U64, ticksPerSecond: U64): nat
    requires ticksPerSecond > 0
  {
    WrapU64(ticks * 1_000_000) / ticksPerSecond
  }

  /** The greatest instruction count whose measured time is reported rightly. */
  const MAX_MEASURED := (TWO_63 - 1) / 1_000

  lemma WrapBy(x: int, m: int)
    requires m * TWO_64 - TWO_63 <= x < m * TWO_64 + TWO_63
    ensures WrapI64(x) == x - m * TWO_64
  {
    assert (x + TWO_63) / TWO_64 == m;
  }

  lemma TruncDivBounds(a: int, b: int)
    requires b > 0
    ensures a >= 0 ==> TruncDiv(a, b) * b <= a && TruncDiv(a, b) >= 0
    ensures a < 0 ==> a <= TruncDiv(a, b) * b <= 0
  {}

  /** The reported time is the instruction count at two million per millisecond exactly up to
      a count of (2^63 - 1) / 1000: every larger count is reported wrongly. */
  lemma MeasuredExactly(instructions: I64)
    requires instructions >= 0
    ensures MeasuredMillis(instructions) == instructions / 2_000_000 <==> instructions <= MAX_MEASURED
  {
    var x := instructions * 1_000;
    var m := (x + TWO_63) / TWO_64;
    var wrapped := x - m * TWO_64;
    WrapBy(x, m);
    TruncDivBounds(wrapped, CYCLES_PER_SECOND);
    if m == 0 {
      assert MeasuredMillis(instructions) == x / CYCLES_PER_SECOND;
    } else if wrapped >= 0 {
      assert TruncDiv(wrapped, CYCLES_PER_SECOND) * CYCLES_PER_SECOND <= x - TWO_64;
    } else {
      assert -4_611_686_019 <= TruncDiv(wrapped, CYCLES_PER_SECOND) <= 0;
    }
  }

  lemma LimitExactly(duration: nat)
    ensures InstructionLimit(duration) == Millis(duration) * 2_000_000 <==>
            Millis(duration) <= (TWO_63 - 1) / 2_000_000
  {}

  /** The stored limit is the duration in nanoseconds times two, rounded down to a millisecond's
      worth of instructions, exactly up to half of 2^63 nanoseconds. */
  lemma LimitInNanos(duration: nat)
    ensures InstructionLimit(duration) <= 2 * duration < InstructionLimit(duration) + 2_000_000 <==>
            duration < 4_611_686_018_428_000_000
    ensures duration < 4_611_686_018_428_000_000 ==> InstructionLimit(duration) % 2_000_000 == 0
  {
    LimitExactly(duration);
    LimitNeverTooGenerous(duration);
    var x := Millis(duration) * 2_000_000;
    if duration >= 4_611_686_018_428_000_000 {
      assert x >= TWO_63;
      assert InstructionLimit(duration) == x - TWO_64 * ((x + TWO_63) / TWO_64);
      assert InstructionLimit(duration) <= x - TWO_64;
    }
  }

  /** The measured time is half the instruction count in nanoseconds, rounded down to a
      millisecond. */
  lemma MeasuredInNanos(instructions: I64)
    requires 0 <= instructions <= MAX_MEASURED
    ensures var nanos := MeasuredMillis(instructions) * 1_000_000;
            2 * nanos <= instructions < 2 * nanos + 2_000_000 && nanos % 1_000_000 == 0
  {
    MeasuredExactly(instructions);
  }

  /** Within those ranges the instruction limit decides exactly what the time limit means. */
  lemma LimitDecidesTime(instructions: I64, duration: nat)
    requires 0 <= instructions <= MAX_MEASURED
    requires Millis(duration) <= (TWO_63 - 1) / 2_000_000
    ensures MeasuredMillis(instructions) < Millis(duration) <==> instructions < InstructionLimit(duration)
    ensures instructions <= InstructionLimit(duration) ==> MeasuredMillis(instructions) <= Millis(duration)
    ensures instructions > InstructionLimit(duration) ==> MeasuredMillis(instructions) >= Millis(duration)
  {
    MeasuredExactly(instructions);
    LimitExactly(duration);
  }

  /** The limit never lets more through than the time limit means, even where it wraps. */
  lemma LimitNeverTooGenerous(duration: nat)
    ensures InstructionLimit(duration) <= Millis(duration) * 2_000_000
  {
    var x := Millis(duration) * 2_000_000;
    assert WrapI64(x) == x - TWO_64 * ((x + TWO_63) / TWO_64);
  }

  lemma MeasuredWithinLimit(instructions: I64, duration: nat)
    requires 0 <= instructions <= InstructionLimit(duration) <= MAX_MEASURED
    ensures MeasuredMillis(instructions) <= Millis(duration)
  {
    MeasuredExactly(instructions);
    LimitNeverTooGenerous(duration);
  }

  /** A limit of almost 2^64 ms wraps to a negative number of instructions. */
  lemma LimitNegative(duration: nat)
    requires TWO_64 - 4_611_686_018 <= Millis(duration) < TWO_64
    ensures InstructionLimit(duration) < 0
  {
    WrapBy(Millis(duration) * 2_000_000, 2_000_000);
  }

  /** Whatever count the limit lets through, its measured time is reported as within the time
      limit: exactly if the instruction limit is at most MAX_MEASURED, or the time limit is
      beyond anything that can be reported. For time limits that do not wrap this is a bound
      of 4611686018 ms. */
  lemma MeasuredWithinLimitIff(duration: nat)
    ensures (forall n: I64 :: 0 <= n <= InstructionLimit(duration) ==> MeasuredMillis(n) <= Millis(duration)) <==>
            InstructionLimit(duration) <= MAX_MEASURED || Millis(duration) >= TWO_64
    ensures Millis(duration) <= (TWO_63 - 1) / 2_000_000 ==>
              (InstructionLimit(duration) <= MAX_MEASURED <==> Millis(duration) <= 4_611_686_018)
  {
    LimitExactly(duration);
    if InstructionLimit(duration) <= MAX_MEASURED {
      forall n: I64 | 0 <= n <= InstructionLimit(duration)
        ensures MeasuredMillis(n) <= Millis(duration)
      {
        MeasuredWithinLimit(n, duration);
      }
    } else if Millis(duration) < TWO_64 - 4_611_686_018 {
      MeasuredWraps();
      assert 9_223_372_036_854_776 <= InstructionLimit(duration);
    } else if Millis(duration) < TWO_64 {
      LimitNegative(duration);
    }
  }

  /** One count too many, and the report is off by the whole 64-bit range. */
  lemma MeasuredWraps()
    ensures MeasuredMillis(9_223_372_036_854_776) == TWO_64 - 4_611_686_018
    ensures 9_223_372_036_854_776 / 2_000_000 == 4_611_686_018
  {}

  lemma DivisionBounds(a: nat, b: nat)
    requires b > 0
    ensures (a / b) * b <= a < (a / b) * b + b
  {}

  lemma {:induction false} DivisionShift(a: nat, b: nat, c: nat)
    requires 0 < b <= c
    ensures (a + c) / b > a / b
  {
    DivisionBounds(a, b);
    DivisionBounds(a + c, b);
  }

  lemma SumOfQuotients(a: nat, b: nat, d: nat)
    requires d > 0
    ensures (a / d + b / d) * d <= a + b < (a / d + b / d + 2) * d
  {
    DivisionBounds(a, d);
    DivisionBounds(b, d);
    var p, q := a / d, b / d;
    assert (p + q) * d == p * d + q * d;
    assert (p + q + 2) * d == p * d + q * d + 2 * d;
  }

  lemma ProductCompare(a: nat, b: nat, d: nat)
    requires d > 0
    ensures a <= b <==> a * d <= b * d
  {}

  /** The tick conversion rounds down to a microsecond exactly while ticks * 10^6 fits. */
  lemma TicksExactly(ticks: U64, ticksPerSecond: U64)
    requires ticksPerSecond > 0
    ensures TickMicros(ticks, ticksPerSecond) == ticks * 1_000_000 / ticksPerSecond <==>
            ticks * 1_000_000 < TWO_64
  {
    var x := ticks * 1_000_000;
    if x >= TWO_64 {
      DivisionShift(WrapU64(x), ticksPerSecond, x - WrapU64(x));
    }
  }

  /** Rounding user and system time separately loses less than two microseconds ... */
  lemma SumOfTicks(user: U64, system: U64, ticksPerSecond: U64)
    requires ticksPerSecond > 0 && user * 1_000_000 < TWO_64 && system * 1_000_000 < TWO_64
    ensures var micros := TickMicros(user, ticksPerSecond) + TickMicros(system, ticksPerSecond);
            micros * ticksPerSecond <= (user + system) * 1_000_000 < (micros + 2) * ticksPerSecond
  {
    var x, y := user * 1_000_000, system * 1_000_000;
    TicksExactly(user, ticksPerSecond);
    TicksExactly(system, ticksPerSecond);
    SumOfQuotients(x, y, ticksPerSecond);
    assert (user + system) * 1_000_000 == x + y;
  }

  /** ... so a sum that is exactly within the limit is never flagged. */
  lemma SumWithinLimitNotFlagged(user: U64, system: U64, ticksPerSecond: U64, limit: nat)
    requires ticksPerSecond > 0 && user * 1_000_000 < TWO_64 && system * 1_000_000 < TWO_64
    requires (user + system) * 1_000_000_000 <= limit * ticksPerSecond
    ensures (TickMicros(user, ticksPerSecond) + TickMicros(system, ticksPerSecond)) * 1_000 <= limit
  {
    var micros := TickMicros(user, ticksPerSecond) + TickMicros(system, ticksPerSecond);
    SumOfTicks(user, system, ticksPerSecond);
    ProductCompare(micros * 1_000, limit, ticksPerSecond);
    assert micros * 1_000 * ticksPerSecond == micros * ticksPerSecond * 1_000;
  }
}
