# Bike-rental storefront: pricing, booking store and page rules in Dafny

This project models the small pure core of a client-side bike-rental
storefront. The rest of the application is React pages and layout.

- **Pricing engine** (`Pricing`). `calculateRentalDuration` turns a date
  range into whole days plus leftover hours. The end date counts as a
  rental day. `calculateRentalCost` prices that duration per day. Leftover
  hours are billed hourly, but never above one extra day.
- **Booking store** (`BookingStore`). This is the list of bookings that the
  browser keeps under one storage key. The stored blob is a value: it may
  be absent, corrupt, or a parsed list. Reading (`list`, `get`) takes the
  blob and returns a list or an optional booking. Writing (`add`,
  `update`) also returns the blob it writes back, next to its result.
- **Catalog** (`Catalog`). These are the hard-coded bikes, categories,
  payment methods and mock bookings, with `getBikeById`.
- **Rules inside components.** The checkout page has its own total
  (`Checkout`). The receipt has its own day count (`Receipt`). The booking
  card decides which bookings can be cancelled (`BookingCard`). The catalog
  page has its search filter (`BikeSearch`). The payment picker filters
  methods by location (`PaymentSelector`). The sign-up form has its
  validator (`Signup`).
- **Where the rules disagree** (`PricingRules`). The engine counts days
  inclusively, checkout charges `max(1, whole days)`, and the receipt
  rounds up. These lemmas apply the three rules to the same bike and the
  same date range, and state exactly where they give different answers.
  The checkout page as written does not get that bike or that range (see
  "Left out").

Instants are integer milliseconds and every day is 24 hours long. date-fns'
`differenceInDays` and `differenceInHours` truncate toward zero (`Dates`).
Money is an integer, as every rate in the real catalog is. Shared helpers:
`Wrappers` (Option), `Seqs` (order-preserving filter, first match), `Text`
(ASCII case mapping, `includes`, `trim`, the ECMAScript whitespace set).

## Model

| member | source | states |
|---|---|---|
| Pricing.RentalDuration | src/lib/utils.ts:27-44 | The end day counts, so a forward range always has at least one day. When the end is at most a day before the start, the result is the unique pair with 0 ≤ hours < 24 and days·24h + hours·1h ≤ (end + 1 day − start) < days·24h + (hours+1)·1h. Further back, days ≤ 0 and −24 < hours ≤ 0. |
| Pricing.RentalDurationRoundTrip | src/lib/utils.ts:29-43 | A range of d days, h < 24 hours and less than an hour of slack gives back exactly (d + 1, h). The extra day is the inclusive end date. |
| Pricing.DurationCost | src/lib/utils.ts:49-65 | A sub-day duration costs min(hours·hourly, daily). Every other duration costs days·daily + min(hours·hourly, daily): leftover hours that cost more than a day are billed as one extra day. |
| Pricing.RentalCost | src/lib/utils.ts:46-66 | For any range ending no more than a day before its start, the price has the closed form days·daily + min(hours·hourly, daily). |
| Pricing.RentalCostBounds | src/lib/utils.ts:54-65 | With non-negative rates, a forward range costs between days·daily and (days+1)·daily. The sub-day branch of line 50 is unreachable for forward ranges, because days ≥ 1. |
| Pricing.RentalDurationMonotone | src/lib/utils.ts:27-44 | Moving the end later never shortens the measured duration (compared as days, then hours). |
| Pricing.DurationCostMonotone | src/lib/utils.ts:49-65 | With non-negative rates, a longer duration (compared as days, then hours) never costs less. |
| Pricing.RentalCostMonotone | src/lib/utils.ts:46-66 | With a fixed start and non-negative rates, a later end never costs less. This includes going from d days 23 hours to d + 1 whole days. |
| BookingStore.Load | src/lib/utils.ts:119-135 | Reading never fails. A missing or unparseable blob reads as the empty list. |
| BookingStore.Save | src/lib/utils.ts:137-139 | Writing always leaves a stored list, and that list reads back as exactly the list written. |
| BookingStore.LoadSaveRoundTrip | src/lib/utils.ts:119-139 | A saved list reads back as the same list, dates included. |
| BookingStore.AddBooking | src/lib/utils.ts:141-146 | Appends at the end: the length grows by one and earlier entries are unchanged. There is no check that the id is unique. Returns its argument unchanged. |
| BookingStore.Merge | src/lib/utils.ts:151 | The shallow spread: each field the patch carries takes the patch's value, and each field it leaves out keeps the booking's. An empty patch changes nothing. |
| BookingStore.GetBookingById | src/lib/utils.ts:157-160 | Returns nothing exactly when no stored booking has the id. Otherwise returns the first booking with that id. |
| BookingStore.UpdateBooking | src/lib/utils.ts:148-155 | The length is preserved. Every booking with the id has the patch merged into it. Every other booking is unchanged. The result is the first booking that has the id after the merge. |
| BookingStore.UpdateMissingIsNoOp | src/lib/utils.ts:148-155 | Updating an id that no booking has returns nothing and leaves the list unchanged. |
| BookingStore.UpdateResult | src/lib/utils.ts:150-154 | If the patch keeps the id, the result is the first matching booking with the patch merged in. If the patch renames the id, the result is nothing, even though records were changed. |
| BookingStore.UpdateIdempotent | src/lib/utils.ts:148-155 | Applying the same update a second time changes nothing. |
| BookingStore.CancelChangesOnlyStatus | src/lib/utils.ts:148-155 | `update(id, {status: 'cancelled'})` changes the status of the matching bookings. Every other field and every other booking stays as it was. |
| BookingStore.AddThenGet | src/lib/utils.ts:141-160 | After adding a booking, a lookup by its id returns it. If a booking with that id already existed, the lookup keeps returning the older booking. |
| Catalog.BikeById | src/lib/utils.ts:68-70 | Returns nothing exactly when no catalog bike has the id. Otherwise returns a catalog bike with that id. |
| Catalog.CatalogIdsDistinct | src/lib/constants.ts:4-101 | No two catalog bikes share an id (b1 to b8 are pairwise distinct). |
| Catalog.BikeByIdFindsEach | src/lib/constants.ts:4-101 | The catalog ids are distinct, so every catalog bike is found by its own id. `getBikeById` is therefore a partial function of the id. |
| Catalog.CatalogRates | src/lib/constants.ts:4-101 | Every bike has 0 < hourly < daily and 3·hourly ≤ daily < 4·hourly. |
| Catalog.CatalogRolloverThreshold | src/lib/constants.ts:4-101 | For catalog bikes, 1 to 3 leftover hours are billed hourly. 4 or more leftover hours become one more full day. |
| Catalog.OnlyB4Unavailable | src/lib/constants.ts:44-52 | A catalog bike is unavailable exactly when it is b4. |
| Catalog.CategoriesCoverCatalog | src/lib/constants.ts:103-111 | The first category is the catch-all "all". Every category a bike uses is one of the other categories. |
| Catalog.PaymentMethodsShape | src/lib/constants.ts:113-142 | The ids are distinct. esewa and khalti are the Nepal methods. visa and mastercard are the international methods. |
| Catalog.PricingExamples | src/lib/utils.ts:46-66 | For the 15/50 bike b1: midnight to midnight two days later costs 150. Priced directly as measured durations (the pair the duration step returns, not a booking length): 0 days 4 hours costs 50, 0 days 2 hours 30, 2 days 4 hours 150 and 2 days 1 hour 115. A forward range never measures 0 days; Catalog.ForwardRangePrices prices the bookings of those lengths. |
| Catalog.ForwardRangePrices | src/lib/utils.ts:27-66 | For b1 on forward ranges, where the end day counts: a 4-hour booking costs 100, a 2-hour booking 80, a booking of 2 days 4 hours 200, and one of 2 days 1 hour 165. |
| Catalog.MockTotalsUseExclusiveDays | src/lib/constants.ts:144-178 | Each mock total is the daily rate × 2 whole days (130, 100, 70). The engine would charge 3 days for the same range. |
| Checkout.ChargedDays | src/pages/Checkout.tsx:66 | Always at least one day. A range shorter than two days is charged one day. Otherwise the count is the number of whole days in the range. |
| Checkout.TotalAmount | src/pages/Checkout.tsx:63-68 | The total is 0 while the bike or either date is missing. Otherwise it is the given bike's daily rate × the charged days. The bike and the dates are parameters. |
| Checkout.TotalIgnoresHourlyRate | src/pages/Checkout.tsx:67 | The hourly rate never affects the checkout total. |
| Checkout.ShortRangeChargesOneDay | src/pages/Checkout.tsx:66 | A same-day or reversed range is charged exactly one daily rate. |
| Checkout.ShownDuration | src/pages/Checkout.tsx:269-275 | The summary shows a day count exactly when both dates are set, and that count is at least 1. Otherwise it reads "Select dates". |
| Checkout.ShownDurationMatchesTotal | src/pages/Checkout.tsx:269-283 | The summary's "Duration" shows the same day count that the total charges. When it shows "Select dates", the total is 0. |
| Checkout.HandleSubmit | src/pages/Checkout.tsx:70-98 | A missing or empty payment method is refused first, whatever the dates. Missing dates are refused next. The booking is confirmed exactly when both are present. |
| Receipt.ReceiptNumber | src/components/ui/BookingReceipt.tsx:43 | "R-" followed by at most the first eight characters of the booking id. |
| Receipt.ReceiptNumberShortId | src/components/ui/BookingReceipt.tsx:43 | An id of eight characters or fewer appears whole in the receipt number. |
| Receipt.ReceiptNumberCollision | src/components/ui/BookingReceipt.tsx:43 | Two bookings get the same receipt number exactly when their ids agree on the first eight characters. |
| Receipt.ReceiptDays | src/components/ui/BookingReceipt.tsx:19 | The least whole number of days that covers the range (a ceiling). |
| Receipt.DayUnit | src/components/ui/BookingReceipt.tsx:64 | The unit is "day" exactly when the count is 1, and "days" otherwise. |
| Receipt.PaymentStatusLabel | src/components/ui/BookingReceipt.tsx:71-81 | "Paid" exactly for paid bookings. Unpaid and refunded bookings both read "Unpaid". |
| Receipt.PaymentMethodLabel | src/components/ui/BookingReceipt.tsx:68 | A null or empty method reads "Not paid". A non-empty method is shown as is. |
| Receipt.Render | src/components/ui/BookingReceipt.tsx:99-109 | The subtotal is the daily rate × the receipt's day count. The total is the stored amount and is not recomputed. |
| BikeSearch.FilterBikes | src/pages/Bikes.tsx:21-30 | A bike is listed exactly when it matches both the search (case-insensitive, in the name or the description) and the category. |
| BikeSearch.FilterBikesIsSubsequence | src/pages/Bikes.tsx:21-30 | The listed bikes keep the catalog's order. |
| BikeSearch.CaseInsensitive | src/pages/Bikes.tsx:23-24 | Two search terms that lower-case alike give the same list. |
| BikeSearch.EmptyTermMatchesAll | src/pages/Bikes.tsx:23-24 | An empty search term matches every bike. |
| BikeSearch.AllCategoryOnlySearches | src/pages/Bikes.tsx:27 | With category "all", only the search term restricts the list. |
| BikeSearch.ResetShowsEverything | src/pages/Bikes.tsx:153-156 | After "Reset Filters" (term "", category "all") the whole catalog is shown, in order. |
| PaymentSelector.MethodsFor | src/components/ui/PaymentSelector.tsx:71-73 | A method is listed exactly when it is in the table and its type is the user's location. |
| PaymentSelector.MethodsForIsSubsequence | src/components/ui/PaymentSelector.tsx:71-73 | The listed methods keep the table's order. |
| PaymentSelector.MethodsForNepal | src/components/ui/PaymentSelector.tsx:21-64 | Nepal gets exactly esewa, khalti and on-site payment, in that order. |
| PaymentSelector.MethodsForInternational | src/components/ui/PaymentSelector.tsx:21-64 | International visitors get exactly visa, mastercard and on-site payment, in that order. |
| PaymentSelector.IdsUniquePerLocation | src/components/ui/PaymentSelector.tsx:50-63 | Within each location's list, no two methods share an id. |
| PaymentSelector.KeysUnique | src/components/ui/PaymentSelector.tsx:79 | The card keys (id and type together) are unique across the table, although the id "onsite" appears twice. |
| PaymentSelector.Cards | src/components/ui/PaymentSelector.tsx:77-90 | A card is marked exactly when the selected id equals its id. Clicking it reports exactly that id. |
| PaymentSelector.ExactlyOneMarked | src/components/ui/PaymentSelector.tsx:81-90 | Selecting a listed id marks exactly one card, the one with that id. |
| PaymentSelector.CheckoutCardsAsWritten | src/pages/Checkout.tsx:228-232 | As the page wires the component, no card is ever marked, whatever was chosen. |
| PaymentSelector.ChosenCardNeverMarkedAsWritten | src/pages/Checkout.tsx:228-232 | Choosing the first listed method leaves its card unmarked. |
| PaymentSelector.CheckoutCardsCorrected | src/components/ui/PaymentSelector.tsx:17 | With the selection passed under the prop the component reads, a card is marked exactly when it is the chosen one. |
| PaymentSelector.ChosenCardMarkedWhenCorrected | src/components/ui/PaymentSelector.tsx:81-90 | When wired correctly, choosing a listed method marks exactly its card. |
| BookingCard.CancelAction | src/components/ui/BookingCard.tsx:89-96 | The cancel button appears exactly when the booking is pending or confirmed and a handler is given. It passes exactly the booking's id. |
| BookingCard.CancellableStatuses | src/components/ui/BookingCard.tsx:20 | Active, completed and cancelled bookings can never be cancelled. The other two statuses can. |
| BookingCard.PaymentBadge | src/components/ui/BookingCard.tsx:42-50 | The badge reads "Paid" exactly when the booking is paid, and "Unpaid" otherwise. |
| BookingCard.StatusLabel | src/components/ui/BookingCard.tsx:68 | The label is the status name with its first letter upper-cased and the rest unchanged. Lower-casing it gives back the status name. |
| BookingCard.StatusLabels | src/components/ui/BookingCard.tsx:68 | The five labels are Pending, Confirmed, Active, Completed and Cancelled. |
| BookingCard.Render | src/components/ui/BookingCard.tsx:18 | Nothing is rendered exactly when the bike is missing. Otherwise the card shows the stored amount and the cancel action. |
| Signup.LooksLikeEmailIsRegex | src/pages/Signup.tsx:48 | The shortest-match check used for emails is equivalent to `\S+@\S+\.\S+` matching somewhere in the string (unanchored). |
| Signup.NameError | src/pages/Signup.tsx:40-43 | "Name is required" exactly when the name is all whitespace (empty after trim). |
| Signup.EmailError | src/pages/Signup.tsx:45-51 | An empty email is "required". A non-empty email is "invalid" exactly when the pattern matches nowhere in it. |
| Signup.PasswordError | src/pages/Signup.tsx:53-59 | An empty password is "required". 1 to 7 characters is "too short". No error exactly when the length is at least 8. |
| Signup.ConfirmPasswordError | src/pages/Signup.tsx:61-67 | An empty confirmation is "required", and this check comes before the mismatch check. A non-empty confirmation that differs from the password is a mismatch. |
| Signup.ValidateForm | src/pages/Signup.tsx:36-71 | All four fields are checked, with no short circuit. The form is valid exactly when all four messages are empty. |
| Signup.ValidIff | src/pages/Signup.tsx:36-71 | A form is valid exactly when the name is not blank, the email matches the pattern, the password has at least 8 characters, and the confirmation equals the password. |
| Signup.HandleChange | src/pages/Signup.tsx:28-34 | Editing a field stores the value and clears only that field's error. The other three errors are unchanged. |
| PricingRules.EngineDaysAreInclusive | src/lib/utils.ts:29-32 | For a forward range, the engine counts one more day than the whole days between start and end. |
| PricingRules.EngineNeverBelowCheckout | src/pages/Checkout.tsx:63-68 | For the same bike and the same forward range, with non-negative rates, the engine's price is never below the checkout total. |
| PricingRules.WholeDayRanges | src/components/ui/BookingReceipt.tsx:19 | On exactly d ≥ 1 whole days, receipt and checkout both count d days. The engine counts d + 1 days and charges one daily rate more than checkout. |
| PricingRules.SameInstantRange | src/components/ui/BookingReceipt.tsx:19-64 | When start equals end, the receipt shows "0 days". Checkout and the engine both charge one day. |
| PricingRules.PartDayRanges | src/components/ui/BookingReceipt.tsx:19 | On d whole days plus part of a day, the receipt rounds up to d + 1. Checkout rounds down to d, but never below 1. |
| PricingRules.ReceiptSubtotalBelowEngineTotal | src/components/ui/BookingReceipt.tsx:99-109 | Take a booking priced by the engine over d ≥ 1 whole days. Its receipt subtotal is one daily rate below its stored total. |

## Findings

| source | as written | input that shows it | evidently intended | confidence | as-written member | corrected member |
|---|---|---|---|---|---|---|
| src/pages/Checkout.tsx:228-232 | The page passes the chosen method as the prop `selectedPaymentMethod`. The component reads the prop `selectedPayment` (src/components/ui/PaymentSelector.tsx:17), which is therefore always undefined. | Location "nepal", then click eSewa. Submission succeeds, but no card is marked. | The chosen card is marked as selected. | high (not executed) | PaymentSelector.ChosenCardNeverMarkedAsWritten | PaymentSelector.ChosenCardMarkedWhenCorrected |

## Left out

- Browser storage and JSON (src/lib/utils.ts:103-139). The blob is a value: absent, corrupt, or a parsed list. An empty string is treated as absent, as the source's falsiness test does. Nothing is parsed, and the diagnostic log is dropped.
- The user-profile blob (`getUserFromLocalStorage`, `saveUserToLocalStorage`). It is untyped and none of the modelled rules use it.
- `generateBookingId` and `generateReceiptNumber`. They read the clock and a random source.
- Calendar semantics of date-fns (time zones, daylight saving). Days are fixed 24-hour spans of milliseconds.
- Floating-point money. The checkout page's stand-in bike (29.99 per day) is not modelled. All catalog rates are integers.
- PricingRules: the lemmas compare the three rules on one rate card and one range. The checkout page as written does not price the bike and dates chosen on the detail page. Its `mockFetchBike` returns the 29.99/5.99 stand-in for every id (src/pages/Checkout.tsx:19-37, 52-56), and its dates default to today and today + 3 days (src/pages/Checkout.tsx:42-43). The navigation state that the detail page sends (chosen dates and `rentalCost`, src/pages/BikeDetail.tsx:63-67) is never read. The actual checkout total can therefore exceed the quoted engine price; for example, b5 over 6 whole days is quoted 175.00 and charged 179.94.
- Unicode case mapping. `toLowerCase` and `toUpperCase` map ASCII letters only.
- Signup.PasswordError: length is counted in code points, while JavaScript counts UTF-16 units. The two differ only for characters outside the Basic Multilingual Plane.
- Receipt.ReceiptNumber: `substring(0, 8)` is taken over code points, not UTF-16 units, so an id with characters outside the Basic Multilingual Plane in its first eight would give a different prefix. Receipt.ReceiptNumberCollision inherits this.
- BookingCard.StatusLabel: `charAt(0)` is taken as the first code point. For the five ASCII status names this makes no difference.
- Catalog.MockBookings: one instant `now` stands for the separate `Date.now()` calls of each mock field. A skew below an hour changes no whole-day count.
- BookingStore.UpdateBooking: a patch field can only be absent or hold a value. A key explicitly set to `undefined` is not modelled.
- Pricing.RentalCostMonotone: stated only for ends at most one day before the start. Further back, the truncated negative durations are not monotone, and the source does not define that case.
- Display formatting: `formatCurrency`, `formatDate`, `getStatusColor`, `cn`, the CSS `capitalize` on the receipt, and the text of the checkout summary's duration line. That line always appends " days", so a one-day charge reads "1 days", while the receipt pluralises (Receipt.DayUnit); Checkout.ShownDuration models only the count.
- Asynchronous fetch stubs, toasts, navigation, animations, and the Available/Unavailable tabs on the catalog page. The tabs change no state.
- Two tabs racing on the same blob. This is concurrency, and the model is sequential.
