/** The three day-counting rules in the code base side by side: the
    inclusive engine of src/lib/utils.ts, the checkout page's
    `max(1, differenceInDays)`, and the receipt's ceiling division. Each
    lemma gives all three rules the same bike and the same date range. */
module PricingRules {
  import opened Wrappers
  import opened Types
  import opened Dates
  import opened Pricing
  import Checkout
  import Receipt

  /** For a forward range the engine counts one day more than the whole
      days between start and end: the end date itself. */
  lemma EngineDaysAreInclusive(start: int, end: int)
    requires end >= start
    ensures RentalDuration(start, end).days == DifferenceInDays(end, start) + 1
  {
  }

  /** With non-negative rates the engine never quotes less than checkout charges. */
  lemma {:induction false} EngineNeverBelowCheckout(bike: Bike, start: int, end: int)
    requires end >= start
    requires bike.pricePerHour >= 0 && bike.pricePerDay >= 0
    ensures Checkout.TotalAmount(Some(bike), Some(start), Some(end)) <= RentalCost(bike, start, end)
  {
    EngineDaysAreInclusive(start, end);
    RentalCostBounds(bike, start, end);
    var n := Checkout.ChargedDays(start, end);
    MulMonotone(n, RentalDuration(start, end).days, bike.pricePerDay);
  }

  /** On a range of exactly `d >= 1` whole days the receipt counts `d` days,
      checkout charges `d` days, and the engine charges `d + 1` days: the
      engine's price exceeds the checkout total by one daily rate. */
  lemma {:induction false} WholeDayRanges(bike: Bike, start: int, d: nat)
    requires d >= 1 && bike.pricePerDay >= 0
    ensures var end := start + d * DayMs;
            && Receipt.ReceiptDays(start, end) == d
            && Checkout.ChargedDays(start, end) == d
            && RentalDuration(start, end) == Duration(d + 1, 0)
            && RentalCost(bike, start, end) == Checkout.TotalAmount(Some(bike), Some(start), Some(end))
                                                + bike.pricePerDay
  {
    var end := start + d * DayMs;
    RentalDurationRoundTrip(start, d, 0, 0);
    DifferenceInDaysExact(start, d, 0);
    assert RentalCost(bike, start, end) == (d + 1) * bike.pricePerDay;
  }

  /** On a same-day range (start equals end) the receipt shows "0 days" and
      a zero subtotal, while checkout and the engine both charge one day. */
  lemma SameInstantRange(bike: Bike, t: int)
    requires bike.pricePerDay >= 0
    ensures Receipt.ReceiptDays(t, t) == 0
    ensures Receipt.DayUnit(Receipt.ReceiptDays(t, t)) == "days"
    ensures Checkout.ChargedDays(t, t) == 1
    ensures RentalCost(bike, t, t) == bike.pricePerDay
  {
    RentalDurationRoundTrip(t, 0, 0, 0);
  }

  /** On `d` whole days plus a part day the receipt rounds up to `d + 1`
      while checkout rounds down (to at least one). */
  lemma {:induction false} PartDayRanges(start: int, d: nat, part: int)
    requires 0 < part < DayMs
    ensures Receipt.ReceiptDays(start, start + d * DayMs + part) == d + 1
    ensures Checkout.ChargedDays(start, start + d * DayMs + part) == if d == 0 then 1 else d
  {
    DifferenceInDaysExact(start, d, part);
  }

  /** A booking whose stored total came from the engine over `d >= 1` whole
      days shows a receipt subtotal one daily rate below its total. */
  lemma {:induction false} ReceiptSubtotalBelowEngineTotal(bike: Bike, booking: Booking, d: nat)
    requires d >= 1 && bike.pricePerDay >= 0
    requires booking.endDate == booking.startDate + d * DayMs
    requires booking.totalAmount == RentalCost(bike, booking.startDate, booking.endDate)
    ensures Receipt.Render(booking, bike).subtotal + bike.pricePerDay
            == Receipt.Render(booking, bike).total
  {
    WholeDayRanges(bike, booking.startDate, d);
  }
}
