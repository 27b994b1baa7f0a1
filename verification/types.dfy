/** The records of the storefront (src/lib/types.ts). Instants are integer
    milliseconds since the epoch; money is an integer amount of rupees. */
module Types {
  import opened Wrappers

  datatype BikeCategory = BikeCategory(id: string, name: string)

  datatype Bike = Bike(
    id: string,
    name: string,
    description: string,
    category: string,
    price: int,
    pricePerHour: int,
    pricePerDay: int,
    imageUrl: string,
    features: seq<string>,
    available: bool)

  datatype UserLocation = Nepal | International

  datatype PaymentMethod = PaymentMethod(
    id: string,
    name: string,
    icon: string,
    kind: UserLocation,   // the `type` field
    description: string)

  datatype BookingStatus = Pending | Confirmed | Active | Completed | Cancelled

  datatype PaymentStatus = Paid | Unpaid | Refunded

  datatype Booking = Booking(
    id: string,
    bikeId: string,
    startDate: int,
    endDate: int,
    totalAmount: int,
    status: BookingStatus,
    paymentStatus: PaymentStatus,
    paymentMethod: Option<string>,
    createdAt: int)

  /** The wire spelling of a booking status. */
  function StatusName(s: BookingStatus): string {
    match s
    case Pending => "pending"
    case Confirmed => "confirmed"
    case Active => "active"
    case Completed => "completed"
    case Cancelled => "cancelled"
  }
}
