/** The checkout page (src/pages/Checkout.tsx): its own total, which charges
    whole days only, the duration shown in its summary, and the order of
    the guards on submit. */
module Checkout {
  import opened Wrappers
  import opened Types
  import opened Dates

  /** `Math.max(1, differenceInDays(endDate, startDate))`. */
  function ChargedDays(start: int, end: int): (n: int)
    ensures n >= 1
    ensures end - start >= DayMs ==> n * DayMs <= end - start < n * DayMs + DayMs
    ensures end - start < 2 * DayMs ==> n == 1
  {
    var days := DifferenceInDays(end, start);
    if days >= 1 then days else 1
  }

  /** `calculateTotalAmount`: zero until a bike and both dates are known,
      then the daily rate times the charged days. */
  function TotalAmount(bike: Option<Bike>, start: Option<int>, end: Option<int>): (t: int)
    ensures bike.None? || start.None? || end.None? ==> t == 0
    ensures bike.Some? && start.Some? && end.Some? ==>
              t == bike.value.pricePerDay * ChargedDays(start.value, end.value)
  {
    if bike.None? || start.None? || end.None? then 0
    else bike.value.pricePerDay * ChargedDays(start.value, end.value)
  }

  /** The hourly rate never contributes to the checkout total. */
  lemma TotalIgnoresHourlyRate(bike: Bike, hourly: int, start: Option<int>, end: Option<int>)
    ensures TotalAmount(Some(bike.(pricePerHour := hourly)), start, end)
            == TotalAmount(Some(bike), start, end)
  {
  }

  /** A same-day or reversed range is charged exactly one day. */
  lemma {:induction false} ShortRangeChargesOneDay(bike: Bike, start: int, end: int)
    requires end - start < DayMs
    ensures TotalAmount(Some(bike), Some(start), Some(end)) == bike.pricePerDay
  {
  }

  /** The "Duration" line of the booking summary. */
  datatype SummaryDuration = SelectDates | Days(count: int)

  function ShownDuration(start: Option<int>, end: Option<int>): (s: SummaryDuration)
    ensures s.Days? <==> start.Some? && end.Some?
    ensures s.Days? ==> s.count >= 1
  {
    if start.Some? && end.Some? then Days(ChargedDays(start.value, end.value))
    else SelectDates
  }

  /** The summary shows the very day count the total charges. */
  lemma ShownDurationMatchesTotal(bike: Bike, start: Option<int>, end: Option<int>)
    ensures ShownDuration(start, end).SelectDates? ==> TotalAmount(Some(bike), start, end) == 0
    ensures ShownDuration(start, end).Days? ==>
              TotalAmount(Some(bike), start, end) == bike.pricePerDay * ShownDuration(start, end).count
  {
  }

  datatype SubmitOutcome = PaymentMethodRequired | DatesRequired | BookingConfirmed

  /** A selected payment method id is truthy: present and non-empty. */
  predicate IsSelected(choice: Option<string>) {
    choice.Some? && choice.value != ""
  }

  /** `handleSubmit`: the payment method is checked before the dates, and
      the booking is confirmed (and the page navigates) only when both are
      present. */
  function HandleSubmit(choice: Option<string>, start: Option<int>, end: Option<int>): (r: SubmitOutcome)
    ensures r == PaymentMethodRequired <==> !IsSelected(choice)
    ensures r == DatesRequired <==> IsSelected(choice) && (start.None? || end.None?)
    ensures r == BookingConfirmed <==> IsSelected(choice) && start.Some? && end.Some?
  {
    if !IsSelected(choice) then PaymentMethodRequired
    else if start.None? || end.None? then DatesRequired
    else BookingConfirmed
  }
}
