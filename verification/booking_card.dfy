/** The booking card of the bookings list (src/components/ui/BookingCard.tsx). */
module BookingCard {
  import opened Wrappers
  import opened Types
  import opened Text

  /** `canCancel`: a booking can be cancelled only before the rental starts. */
  predicate CanCancel(s: BookingStatus) {
    s == Pending || s == Confirmed
  }

  /** The id passed to `onCancel` when the cancel button is shown and
      clicked; None when the button is not rendered. */
  function CancelAction(booking: Booking, hasOnCancel: bool): (r: Option<string>)
    ensures r.Some? <==> hasOnCancel && booking.status in {Pending, Confirmed}
    ensures r.Some? ==> r.value == booking.id
  {
    if CanCancel(booking.status) && hasOnCancel then Some(booking.id) else None
  }

  /** Only pending and confirmed bookings are cancellable; active,
      completed and cancelled ones never are. */
  lemma CancellableStatuses()
    ensures forall s: BookingStatus :: CanCancel(s) <==> !(s in {Active, Completed, Cancelled})
  {
  }

  /** The payment badge. */
  function PaymentBadge(s: PaymentStatus): (l: string)
    ensures l == "Paid" <==> s == Paid
    ensures l == "Unpaid" <==> s != Paid
  {
    if s == Paid then "Paid" else "Unpaid"
  }

  /** The status badge: the status name with its first letter upper-cased. */
  function StatusLabel(s: BookingStatus): (l: string)
    ensures |l| == |StatusName(s)| && Lower(l) == StatusName(s)
    ensures IsUpperAscii(l[0]) && l[1..] == StatusName(s)[1..]
  {
    Capitalize(StatusName(s))
  }

  /** The five labels are exactly these, so no two statuses share a label. */
  lemma StatusLabels()
    ensures StatusLabel(Pending) == "Pending"
    ensures StatusLabel(Confirmed) == "Confirmed"
    ensures StatusLabel(Active) == "Active"
    ensures StatusLabel(Completed) == "Completed"
    ensures StatusLabel(Cancelled) == "Cancelled"
  {
  }

  datatype CardView = CardView(
    bikeName: string,
    amount: int,
    paymentBadge: string,
    statusLabel: string,
    cancel: Option<string>)

  /** The card, or nothing when the bike is missing. */
  function Render(booking: Booking, bike: Option<Bike>, hasOnCancel: bool): (v: Option<CardView>)
    ensures v.None? <==> bike.None?
    ensures v.Some? ==> v.value.amount == booking.totalAmount
                        && v.value.cancel == CancelAction(booking, hasOnCancel)
  {
    match bike
    case None => None
    case Some(b) =>
      Some(CardView(b.name, booking.totalAmount, PaymentBadge(booking.paymentStatus),
                    StatusLabel(booking.status), CancelAction(booking, hasOnCancel)))
  }
}
