/** The date arithmetic the pricing rules rely on (`addDays`,
    `differenceInDays`, `differenceInHours`, and dividing a millisecond
    difference by a day), on integer milliseconds with fixed 24-hour days. */
module Dates {

  const HourMs: int := 3_600_000
  const DayMs: int := 86_400_000

  /** Integer division rounding toward zero, as date-fns' default `trunc`. */
  function TruncDiv(a: int, b: int): int
    requires b > 0
  {
    if a >= 0 then a / b else -((-a) / b)
  }

  /** `Math.ceil(a / b)` for a positive divisor. */
  function CeilDiv(a: int, b: int): (q: int)
    requires b > 0
    ensures q * b - b < a <= q * b
  {
    -((-a) / b)
  }

  /** Whole days from `earlier` to `later`, truncated toward zero. */
  function DifferenceInDays(later: int, earlier: int): int {
    TruncDiv(later - earlier, DayMs)
  }

  /** Whole hours from `earlier` to `later`, truncated toward zero. */
  function DifferenceInHours(later: int, earlier: int): int {
    TruncDiv(later - earlier, HourMs)
  }

  function AddDays(t: int, n: int): int {
    t + n * DayMs
  }

  /** A day difference is the unique whole number of days below the gap. */
  lemma {:induction false} DifferenceInDaysExact(start: int, d: nat, rest: int)
    requires 0 <= rest < DayMs
    ensures DifferenceInDays(start + d * DayMs + rest, start) == d
  {
    assert start + d * DayMs + rest - start == d * DayMs + rest;
  }

  lemma {:induction false} DifferenceInHoursExact(start: int, h: nat, rest: int)
    requires 0 <= rest < HourMs
    ensures DifferenceInHours(start + h * HourMs + rest, start) == h
  {
    assert start + h * HourMs + rest - start == h * HourMs + rest;
  }
}
