/** The rental pricing engine of src/lib/utils.ts: an inclusive date range
    is split into whole days plus leftover whole hours, and priced per day,
    with leftover hours billed hourly but never above one extra day. */
module Pricing {
  import opened Types
  import opened Dates

  datatype Duration = Duration(days: int, hours: int)

  function Min(a: int, b: int): int {
    if a <= b then a else b
  }

  /** `calculateRentalDuration`: the end date counts as a rental day, so the
      range is measured from `start` to `end` plus one day. */
  function RentalDuration(start: int, end: int): (d: Duration)
    ensures end >= start ==> d.days >= 1
    ensures AddDays(end, 1) >= start ==>
              && d.days >= 0 && 0 <= d.hours < 24
              && d.days * DayMs + d.hours * HourMs <= AddDays(end, 1) - start
              && AddDays(end, 1) - start < d.days * DayMs + d.hours * HourMs + HourMs
    ensures AddDays(end, 1) < start ==> d.days <= 0 && -24 < d.hours <= 0
  {
    var adjusted := AddDays(end, 1);
    var days := DifferenceInDays(adjusted, start);
    var hours := DifferenceInHours(adjusted, start + days * DayMs);
    Duration(days, hours)
  }

  /** Round trip: a range built from `d` whole days, `h` leftover hours and
      some sub-hour slack is measured as `d + 1` days (the inclusive end
      day) and exactly `h` hours. */
  lemma {:induction false} RentalDurationRoundTrip(start: int, d: nat, h: nat, slack: nat)
    requires h < 24 && slack < HourMs
    ensures RentalDuration(start, start + d * DayMs + h * HourMs + slack) == Duration(d + 1, h)
  {
    var end := start + d * DayMs + h * HourMs + slack;
    var adjusted := AddDays(end, 1);
    assert adjusted == start + (d + 1) * DayMs + (h * HourMs + slack);
    DifferenceInDaysExact(start, d + 1, h * HourMs + slack);
    DifferenceInHoursExact(start + (d + 1) * DayMs, h, slack);
  }

  /** The price of a measured duration, lines 49-65 of `calculateRentalCost`. */
  function DurationCost(bike: Bike, d: Duration): (c: int)
    ensures d.days == 0 && d.hours > 0 ==> c == Min(d.hours * bike.pricePerHour, bike.pricePerDay)
    ensures d.days != 0 || d.hours <= 0 ==>
              c == d.days * bike.pricePerDay + Min(d.hours * bike.pricePerHour, bike.pricePerDay)
  {
    if d.days == 0 && d.hours > 0 then
      Min(d.hours * bike.pricePerHour, bike.pricePerDay)
    else
      var dailyCost := d.days * bike.pricePerDay;
      var hourlyCost := d.hours * bike.pricePerHour;
      if hourlyCost > bike.pricePerDay then dailyCost + bike.pricePerDay
      else dailyCost + hourlyCost
  }

  /** `calculateRentalCost`. */
  function RentalCost(bike: Bike, start: int, end: int): (c: int)
    ensures var d := RentalDuration(start, end);
            AddDays(end, 1) >= start ==>
              c == d.days * bike.pricePerDay + Min(d.hours * bike.pricePerHour, bike.pricePerDay)
  {
    DurationCost(bike, RentalDuration(start, end))
  }

  /** The rollover rule in closed form: for any non-negative duration the
      price is whole days plus the cheaper of the hourly leftover and one
      more day, so it lies between `days` and `days + 1` daily rates. */
  lemma {:induction false} RentalCostBounds(bike: Bike, start: int, end: int)
    requires end >= start
    requires bike.pricePerHour >= 0 && bike.pricePerDay >= 0
    ensures var d := RentalDuration(start, end);
            && d.days * bike.pricePerDay <= RentalCost(bike, start, end)
            && RentalCost(bike, start, end) <= (d.days + 1) * bike.pricePerDay
  {
    var d := RentalDuration(start, end);
    assert d.hours * bike.pricePerHour >= 0 by { MulNonNegative(d.hours, bike.pricePerHour); }
  }

  /** Measured durations grow lexicographically as the end moves later. */
  lemma RentalDurationMonotone(start: int, e1: int, e2: int)
    requires AddDays(e1, 1) >= start && e1 <= e2
    ensures var d1, d2 := RentalDuration(start, e1), RentalDuration(start, e2);
            d1.days < d2.days || (d1.days == d2.days && d1.hours <= d2.hours)
  {
  }

  /** A lexicographically longer non-negative duration never costs less. */
  lemma {:induction false} DurationCostMonotone(bike: Bike, d1: Duration, d2: Duration)
    requires bike.pricePerHour >= 0 && bike.pricePerDay >= 0
    requires 0 <= d1.days && 0 <= d1.hours && 0 <= d2.hours
    requires d1.days < d2.days || (d1.days == d2.days && d1.hours <= d2.hours)
    ensures DurationCost(bike, d1) <= DurationCost(bike, d2)
  {
    var pd, ph := bike.pricePerDay, bike.pricePerHour;
    var a1, a2 := d1.days * pd, d2.days * pd;
    var m1, m2 := Min(d1.hours * ph, pd), Min(d2.hours * ph, pd);
    assert DurationCost(bike, d1) == a1 + m1;
    assert DurationCost(bike, d2) == a2 + m2;
    MulNonNegative(d2.hours, ph);
    if d1.days == d2.days {
      MulMonotone(d1.hours, d2.hours, ph);
      assert m1 <= m2;
    } else {
      MulMonotone(d1.days + 1, d2.days, pd);
      assert a1 + pd <= a2;
    }
  }

  /** With a fixed start and non-negative rates, a later end never costs less;
      in particular going from `d` days and 23 hours to `d + 1` whole days
      never lowers the price. */
  lemma {:induction false} RentalCostMonotone(bike: Bike, start: int, e1: int, e2: int)
    requires bike.pricePerHour >= 0 && bike.pricePerDay >= 0
    requires AddDays(e1, 1) >= start && e1 <= e2
    ensures RentalCost(bike, start, e1) <= RentalCost(bike, start, e2)
  {
    RentalDurationMonotone(start, e1, e2);
    DurationCostMonotone(bike, RentalDuration(start, e1), RentalDuration(start, e2));
  }

  lemma MulNonNegative(a: int, b: int)
    requires a >= 0 && b >= 0
    ensures a * b >= 0
  {
  }

  lemma MulMonotone(a: int, b: int, k: int)
    requires a <= b && k >= 0
    ensures a * k <= b * k
  {
    assert b * k - a * k == (b - a) * k;
    MulNonNegative(b - a, k);
  }
}
