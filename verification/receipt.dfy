/** The booking receipt (src/components/ui/BookingReceipt.tsx). */
module Receipt {
  import opened Wrappers
  import opened Types
  import opened Dates
  import opened Text

  /** "R-" followed by `booking.id.substring(0, 8)`. */
  function ReceiptNumber(id: string): (r: string)
    ensures |r| == 2 + (if |id| < 8 then |id| else 8)
    ensures r[..2] == "R-" && r[2..] <= id
  {
    "R-" + Prefix(id, 8)
  }

  /** Ids of at most eight characters are shown whole. */
  lemma ReceiptNumberShortId(id: string)
    requires |id| <= 8
    ensures ReceiptNumber(id)[2..] == id
  {
  }

  /** Two bookings share a receipt number exactly when their ids agree on
      the first eight characters. */
  lemma {:induction false} ReceiptNumberCollision(a: string, b: string)
    ensures ReceiptNumber(a) == ReceiptNumber(b) <==> Prefix(a, 8) == Prefix(b, 8)
  {
    if ReceiptNumber(a) == ReceiptNumber(b) {
      assert ReceiptNumber(a)[2..] == Prefix(a, 8);
      assert ReceiptNumber(b)[2..] == Prefix(b, 8);
    }
  }

  /** `Math.ceil((end - start) / 86 400 000)`: the least whole number of
      days covering the range. */
  function ReceiptDays(start: int, end: int): (n: int)
    ensures (n - 1) * DayMs < end - start <= n * DayMs
  {
    CeilDiv(end - start, DayMs)
  }

  /** `day{days !== 1 ? 's' : ''}`. */
  function DayUnit(days: int): (u: string)
    ensures u == "day" <==> days == 1
    ensures u == "days" <==> days != 1
  {
    "day" + (if days != 1 then "s" else "")
  }

  /** The payment status line: only a paid booking reads "Paid"; unpaid
      and refunded bookings both read "Unpaid". */
  function PaymentStatusLabel(s: PaymentStatus): (l: string)
    ensures l == "Paid" <==> s == Paid
    ensures l == "Unpaid" <==> s != Paid
  {
    if s == Paid then "Paid" else "Unpaid"
  }

  /** `booking.paymentMethod || 'Not paid'`. */
  function PaymentMethodLabel(m: Option<string>): (l: string)
    ensures m.None? ==> l == "Not paid"
    ensures m.Some? && m.value == "" ==> l == "Not paid"
    ensures m.Some? && m.value != "" ==> l == m.value
  {
    if m.Some? && m.value != "" then m.value else "Not paid"
  }

  datatype ReceiptView = ReceiptView(
    number: string,
    bikeName: string,
    days: int,
    unit: string,
    paymentMethod: string,
    paymentStatus: string,
    subtotal: int,
    total: int)

  /** The receipt of a booking for a bike: the subtotal is recomputed from
      the daily rate and the day count, while the total is the stored amount. */
  function Render(booking: Booking, bike: Bike): (v: ReceiptView)
    ensures v.total == booking.totalAmount
    ensures v.subtotal == bike.pricePerDay * v.days
    ensures v.days == ReceiptDays(booking.startDate, booking.endDate)
    ensures v.unit == DayUnit(v.days)
  {
    var days := ReceiptDays(booking.startDate, booking.endDate);
    ReceiptView(
      ReceiptNumber(booking.id),
      bike.name,
      days,
      DayUnit(days),
      PaymentMethodLabel(booking.paymentMethod),
      PaymentStatusLabel(booking.paymentStatus),
      bike.pricePerDay * days,
      booking.totalAmount)
  }
}
