/** The hard-coded catalog of src/lib/constants.ts and the lookup
    `getBikeById` of src/lib/utils.ts. */
module Catalog {
  import opened Wrappers
  import opened Types
  import opened Dates
  import opened Pricing
  import Seqs

  const B1 := Bike("b1", "Mountain Explorer X1",
    "Premium mountain bike with front suspension, perfect for trails and off-road adventures.",
    "mountain", 500, 15, 50, "/bikes/mountain-bike-1.jpg",
    ["Front Suspension", "Disc Brakes", "21 Speed", "Aluminum Frame"], true)
  const B2 := Bike("b2", "City Cruiser C1",
    "Comfortable city bike with upright position, ideal for daily commutes and city exploration.",
    "city", 350, 10, 35, "/bikes/city-bike-1.jpg",
    ["Basket", "Lights", "Fenders", "Comfortable Seat"], true)
  const B3 := Bike("b3", "Road Master R1",
    "Lightweight road bike designed for speed and long-distance riding on paved roads.",
    "road", 650, 18, 65, "/bikes/road-bike-1.jpg",
    ["Carbon Fiber", "Drop Handlebars", "Ultra Light", "Aerodynamic Design"], true)
  const B4 := Bike("b4", "Electric Glide E1",
    "Powerful electric bike with long-range battery, perfect for effortless city commuting.",
    "electric", 900, 25, 90, "/bikes/electric-bike-1.jpg",
    ["500W Motor", "50km Range", "Quick Charge", "Pedal Assist"], false)
  const B5 := Bike("b5", "Kids Adventure K1",
    "Durable and safe bike for kids, with adjustable seat height and fun design.",
    "kids", 200, 8, 25, "/bikes/kids-bike-1.jpg",
    ["Safety Wheels", "Adjustable Size", "Durable Build", "Easy Braking"], true)
  const B6 := Bike("b6", "Folding Compact F1",
    "Innovative folding bike, perfect for mixed commutes and limited storage spaces.",
    "folding", 450, 12, 45, "/bikes/folding-bike-1.jpg",
    ["Compact Fold", "Lightweight", "Carry Bag", "Quick Release"], true)
  const B7 := Bike("b7", "Mountain Pro X2",
    "Advanced mountain bike with full suspension, designed for serious off-road enthusiasts.",
    "mountain", 750, 20, 75, "/bikes/mountain-bike-2.jpg",
    ["Dual Suspension", "Hydraulic Brakes", "27 Speed", "Carbon Frame"], true)
  const B8 := Bike("b8", "Urban Rider C2",
    "Stylish city bike with integrated smart features, perfect for urban explorers.",
    "city", 400, 12, 40, "/bikes/city-bike-2.jpg",
    ["GPS Tracking", "Smart Lock", "Puncture Resistant", "Integrated Lights"], true)

  /** `BIKES`. */
  const Bikes: seq<Bike> := [B1, B2, B3, B4, B5, B6, B7, B8]

  /** `BIKE_CATEGORIES`. */
  const BikeCategories: seq<BikeCategory> := [
    BikeCategory("all", "All Bikes"),
    BikeCategory("mountain", "Mountain Bikes"),
    BikeCategory("city", "City Bikes"),
    BikeCategory("road", "Road Bikes"),
    BikeCategory("electric", "Electric Bikes"),
    BikeCategory("kids", "Kids Bikes"),
    BikeCategory("folding", "Folding Bikes")]

  /** `PAYMENT_METHODS`. */
  const PaymentMethods: seq<PaymentMethod> := [
    PaymentMethod("esewa", "eSewa", "wallet", Nepal, "Pay with your eSewa wallet"),
    PaymentMethod("khalti", "Khalti", "credit-card", Nepal, "Pay with your Khalti wallet"),
    PaymentMethod("visa", "Visa", "credit-card", International, "Pay with Visa card"),
    PaymentMethod("mastercard", "Mastercard", "credit-card", International, "Pay with Mastercard")]

  /** `MOCK_BOOKINGS`, whose instants are offsets from the moment `now` at
      which the module is loaded. */
  function MockBookings(now: int): seq<Booking> {
    [ Booking("bk1", "b3", now + DayMs * 2, now + DayMs * 4, 130,
              Confirmed, Paid, Some("esewa"), now - DayMs),
      Booking("bk2", "b1", now - DayMs * 1, now + DayMs * 1, 100,
              Active, Paid, Some("khalti"), now - DayMs * 3),
      Booking("bk3", "b2", now + DayMs * 5, now + DayMs * 7, 70,
              Pending, Unpaid, None, now) ]
  }

  /** `getBikeById`: the first catalog bike with the id. */
  function BikeById(id: string): (r: Option<Bike>)
    ensures r.Some? ==> r.value in Bikes && r.value.id == id
    ensures r.None? <==> forall i :: 0 <= i < |Bikes| ==> Bikes[i].id != id
  {
    Seqs.Find(Bikes, (b: Bike) => b.id == id)
  }

  /** The catalog ids b1..b8 are pairwise distinct. */
  lemma CatalogIdsDistinct()
    ensures forall i, j :: 0 <= i < j < |Bikes| ==> Bikes[i].id != Bikes[j].id
  {
  }

  /** Because ids are distinct, `getBikeById` is a partial function of the
      id: every catalog bike is found by its own id. */
  lemma {:induction false} BikeByIdFindsEach(i: nat)
    requires i < |Bikes|
    ensures BikeById(Bikes[i].id) == Some(Bikes[i])
  {
    CatalogIdsDistinct();
    var r := BikeById(Bikes[i].id);
    assert r.Some?;
    var k :| 0 <= k < |Bikes| && Bikes[k] == r.value;
    assert k == i;
  }

  /** Every catalog bike has 0 < hourly rate < daily rate, and the daily rate
      lies between three and four hourly rates. */
  lemma CatalogRates()
    ensures forall b :: b in Bikes ==>
              && 0 < b.pricePerHour < b.pricePerDay
              && 3 * b.pricePerHour <= b.pricePerDay < 4 * b.pricePerHour
  {
  }

  /** Hence, for catalog bikes, one to three leftover hours are billed
      hourly while four or more roll over into a full extra day. */
  lemma {:induction false} CatalogRolloverThreshold(b: Bike, d: nat, h: nat)
    requires b in Bikes && d >= 1 && h < 24
    ensures h <= 3 ==> DurationCost(b, Duration(d, h)) == d * b.pricePerDay + h * b.pricePerHour
    ensures h >= 4 ==> DurationCost(b, Duration(d, h)) == (d + 1) * b.pricePerDay
  {
    CatalogRates();
    if h <= 3 {
      MulMonotone(h, 3, b.pricePerHour);
    } else {
      MulMonotone(4, h, b.pricePerHour);
    }
  }

  /** Exactly one catalog bike is unavailable: b4. */
  lemma OnlyB4Unavailable()
    ensures forall b :: b in Bikes ==> (!b.available <==> b.id == "b4")
  {
  }

  /** The ids of `BIKE_CATEGORIES`, in order. */
  function CategoryIds(): (ids: seq<string>)
    ensures |ids| == |BikeCategories|
    ensures forall i :: 0 <= i < |ids| ==> ids[i] == BikeCategories[i].id
  {
    seq(|BikeCategories|, i requires 0 <= i < |BikeCategories| => BikeCategories[i].id)
  }

  /** Every category used by a bike is offered as a filter, and the first
      filter is the catch-all "all", which no bike uses. */
  lemma CategoriesCoverCatalog()
    ensures CategoryIds()[0] == "all"
    ensures forall i :: 0 <= i < |Bikes| ==> Bikes[i].category in CategoryIds()[1..]
  {
    var ids := CategoryIds();
    assert ids[1..] == ["mountain", "city", "road", "electric", "kids", "folding"];
  }

  /** The two Nepali wallets and the two international cards, with distinct ids. */
  lemma PaymentMethodsShape()
    ensures forall i, j :: 0 <= i < j < |PaymentMethods| ==> PaymentMethods[i].id != PaymentMethods[j].id
    ensures forall m :: m in PaymentMethods ==>
              (m.kind == Nepal <==> m.id in ["esewa", "khalti"])
    ensures forall m :: m in PaymentMethods ==>
              (m.kind == International <==> m.id in ["visa", "mastercard"])
  {
  }

  /** The scenario of the pricing rules for a 15/50 bike (b1): a range from
      midnight to midnight two days later is three inclusive days and costs
      150. The other four price measured durations directly: four leftover
      hours roll over, one leftover hour does not. */
  lemma PricingExamples(start: int)
    ensures RentalCost(B1, start, start + 2 * DayMs) == 150
    ensures DurationCost(B1, Duration(0, 4)) == 50
    ensures DurationCost(B1, Duration(0, 2)) == 30
    ensures DurationCost(B1, Duration(2, 4)) == 150
    ensures DurationCost(B1, Duration(2, 1)) == 115
  {
    RentalDurationRoundTrip(start, 2, 0, 0);
  }

  /** The same b1 rates on forward ranges: the inclusive end day makes a
      four-hour booking one day and four hours (100), two hours one day and
      two hours (80), two days and four hours three days and four hours (200),
      two days and one hour three days and one hour (165). */
  lemma {:induction false} ForwardRangePrices(start: int)
    ensures RentalCost(B1, start, start + 4 * HourMs) == 100
    ensures RentalCost(B1, start, start + 2 * HourMs) == 80
    ensures RentalCost(B1, start, start + 2 * DayMs + 4 * HourMs) == 200
    ensures RentalCost(B1, start, start + 2 * DayMs + 1 * HourMs) == 165
  {
    RentalDurationRoundTrip(start, 0, 4, 0);
    RentalDurationRoundTrip(start, 0, 2, 0);
    RentalDurationRoundTrip(start, 2, 4, 0);
    RentalDurationRoundTrip(start, 2, 1, 0);
  }

  /** Helper for `MockTotalsUseExclusiveDays`: a range of exactly two days
      is two whole days apart but three inclusive days for the engine. */
  lemma {:induction false} TwoDayRange(bike: Bike, start: int)
    requires bike.pricePerDay >= 0
    ensures DifferenceInDays(start + 2 * DayMs, start) == 2
    ensures RentalCost(bike, start, start + 2 * DayMs) == 3 * bike.pricePerDay
  {
    DifferenceInDaysExact(start, 2, 0);
    RentalDurationRoundTrip(start, 2, 0, 0);
  }

  /** Each mock total is the daily rate times the whole days between start
      and end (2 days each: 65 * 2, 50 * 2, 35 * 2), while the inclusive
      pricing engine would charge 3 days for the same range. */
  lemma {:induction false} MockTotalsUseExclusiveDays(now: int, k: nat)
    requires k < 3
    ensures var m := MockBookings(now)[k];
            && BikeById(m.bikeId).Some?
            && var bike := BikeById(m.bikeId).value;
            && DifferenceInDays(m.endDate, m.startDate) == 2
            && m.totalAmount == bike.pricePerDay * DifferenceInDays(m.endDate, m.startDate)
            && RentalCost(bike, m.startDate, m.endDate) == 3 * bike.pricePerDay
            && RentalCost(bike, m.startDate, m.endDate) != m.totalAmount
  {
    var m := MockBookings(now)[k];
    var i := if k == 0 then 2 else if k == 1 then 0 else 1;
    BikeByIdFindsEach(i);
    assert m.bikeId == Bikes[i].id;
    assert m.endDate == m.startDate + 2 * DayMs;
    TwoDayRange(Bikes[i], m.startDate);
  }
}
