/** The booking store of src/lib/utils.ts: a list of bookings persisted as
    one blob under the `bikeBookings` key. Every operation reads the whole
    list and writing ones write the whole list back; here the blob is a
    value, reads take it as an argument, and only `AddBooking` and
    `UpdateBooking` return the blob they write back. */
module BookingStore {
  import opened Wrappers
  import opened Types
  import Seqs

  /** The content of the storage key: nothing (or an empty string), text that
      does not parse as a booking list, or a parsed list. */
  datatype Blob = Absent | Corrupt | Stored(bookings: seq<Booking>)

  /** A blob written back by an operation, with the operation's return value. */
  datatype Write<T> = Write(blob: Blob, result: T)

  /** `Partial<Booking>`: each field either absent or given a new value. */
  datatype BookingPatch = BookingPatch(
    id: Option<string>,
    bikeId: Option<string>,
    startDate: Option<int>,
    endDate: Option<int>,
    totalAmount: Option<int>,
    status: Option<BookingStatus>,
    paymentStatus: Option<PaymentStatus>,
    paymentMethod: Option<Option<string>>,
    createdAt: Option<int>)

  const EmptyPatch := BookingPatch(None, None, None, None, None, None, None, None, None)

  /** `getBookingsFromLocalStorage`: never fails; a missing or unparseable
      blob reads as the empty list. */
  function Load(blob: Blob): (r: seq<Booking>)
    ensures blob.Stored? || r == []
  {
    match blob
    case Stored(bookings) => bookings
    case _ => []
  }

  /** `saveBookingsToLocalStorage`. */
  function Save(bookings: seq<Booking>): (blob: Blob)
    ensures blob.Stored?
    ensures Load(blob) == bookings
  {
    Stored(bookings)
  }

  /** What is saved is what is read back: dates and all other fields survive
      the round trip as values. */
  lemma LoadSaveRoundTrip(bookings: seq<Booking>)
    ensures Load(Save(bookings)) == bookings
  {
  }

  function HasId(id: string): Booking -> bool {
    (b: Booking) => b.id == id
  }

  /** `addBooking`: appends at the end, keeps every earlier entry, performs
      no uniqueness check, and returns its argument. */
  function AddBooking(blob: Blob, booking: Booking): (w: Write<Booking>)
    ensures w.result == booking
    ensures |Load(w.blob)| == |Load(blob)| + 1
    ensures Load(w.blob)[..|Load(blob)|] == Load(blob)
    ensures Load(w.blob)[|Load(blob)|] == booking
  {
    Write(Save(Load(blob) + [booking]), booking)
  }

  /** The object spread `{ ...booking, ...updates }`: a shallow overwrite. */
  function Merge(b: Booking, p: BookingPatch): (r: Booking)
    ensures r.id == (if p.id.Some? then p.id.value else b.id)
    ensures r.bikeId == (if p.bikeId.Some? then p.bikeId.value else b.bikeId)
    ensures r.startDate == (if p.startDate.Some? then p.startDate.value else b.startDate)
    ensures r.endDate == (if p.endDate.Some? then p.endDate.value else b.endDate)
    ensures r.totalAmount == (if p.totalAmount.Some? then p.totalAmount.value else b.totalAmount)
    ensures r.status == (if p.status.Some? then p.status.value else b.status)
    ensures r.paymentStatus == (if p.paymentStatus.Some? then p.paymentStatus.value else b.paymentStatus)
    ensures r.paymentMethod == (if p.paymentMethod.Some? then p.paymentMethod.value else b.paymentMethod)
    ensures r.createdAt == (if p.createdAt.Some? then p.createdAt.value else b.createdAt)
    ensures p == EmptyPatch ==> r == b
  {
    Booking(
      p.id.GetOr(b.id),
      p.bikeId.GetOr(b.bikeId),
      p.startDate.GetOr(b.startDate),
      p.endDate.GetOr(b.endDate),
      p.totalAmount.GetOr(b.totalAmount),
      p.status.GetOr(b.status),
      p.paymentStatus.GetOr(b.paymentStatus),
      p.paymentMethod.GetOr(b.paymentMethod),
      p.createdAt.GetOr(b.createdAt))
  }

  /** Helper for `UpdateIdempotent`: merging the same patch twice is
      merging it once. */
  lemma MergeIdempotent(b: Booking, p: BookingPatch)
    ensures Merge(Merge(b, p), p) == Merge(b, p)
  {
  }

  function MergeMatching(bookings: seq<Booking>, id: string, p: BookingPatch): (r: seq<Booking>)
    ensures |r| == |bookings|
    ensures forall i :: 0 <= i < |r| ==>
              r[i] == if bookings[i].id == id then Merge(bookings[i], p) else bookings[i]
  {
    seq(|bookings|, i requires 0 <= i < |bookings| =>
      if bookings[i].id == id then Merge(bookings[i], p) else bookings[i])
  }

  /** `getBookingById`: the first booking with the id, if any. */
  function GetBookingById(blob: Blob, id: string): (r: Option<Booking>)
    ensures r.None? <==> forall i :: 0 <= i < |Load(blob)| ==> Load(blob)[i].id != id
    ensures r.Some? ==> exists i :: 0 <= i < |Load(blob)| && Load(blob)[i] == r.value
                                    && r.value.id == id
                                    && forall j :: 0 <= j < i ==> Load(blob)[j].id != id
  {
    Seqs.Find(Load(blob), HasId(id))
  }

  /** `updateBooking`: merges the patch into every booking with the id,
      writes the list back, and returns the first booking that carries the
      id after the merge. */
  function UpdateBooking(blob: Blob, id: string, p: BookingPatch): (w: Write<Option<Booking>>)
    ensures |Load(w.blob)| == |Load(blob)|
    ensures forall i :: 0 <= i < |Load(blob)| && Load(blob)[i].id != id ==>
              Load(w.blob)[i] == Load(blob)[i]
    ensures forall i :: 0 <= i < |Load(blob)| && Load(blob)[i].id == id ==>
              Load(w.blob)[i] == Merge(Load(blob)[i], p)
    ensures w.result == GetBookingById(w.blob, id)
  {
    var updated := MergeMatching(Load(blob), id, p);
    Write(Save(updated), Seqs.Find(updated, HasId(id)))
  }

  /** Updating an id nobody has returns nothing and leaves the list as it was. */
  lemma UpdateMissingIsNoOp(blob: Blob, id: string, p: BookingPatch)
    requires GetBookingById(blob, id).None?
    ensures UpdateBooking(blob, id, p).result.None?
    ensures Load(UpdateBooking(blob, id, p).blob) == Load(blob)
  {
    var s, s' := Load(blob), Load(UpdateBooking(blob, id, p).blob);
    assert forall i :: 0 <= i < |s| ==> s'[i] == s[i];
  }

  /** When the patch keeps the id, the update returns the first booking with
      that id, merged; when the patch renames the id away, it returns nothing
      even though records were changed. */
  lemma {:induction false} UpdateResult(blob: Blob, id: string, p: BookingPatch, k: nat)
    requires k < |Load(blob)| && Load(blob)[k].id == id
    requires forall j :: 0 <= j < k ==> Load(blob)[j].id != id
    ensures p.id.None? || p.id == Some(id) ==>
              UpdateBooking(blob, id, p).result == Some(Merge(Load(blob)[k], p))
    ensures p.id.Some? && p.id.value != id ==> UpdateBooking(blob, id, p).result.None?
  {
    var s := Load(blob);
    var w := UpdateBooking(blob, id, p);
    var s' := Load(w.blob);
    if p.id.None? || p.id == Some(id) {
      assert s'[k] == Merge(s[k], p) && s'[k].id == id;
      assert forall j :: 0 <= j < k ==> s'[j] == s[j];
      match w.result
      case None =>
        assert false;
      case Some(r) =>
        var i :| 0 <= i < |s'| && s'[i] == r && r.id == id
                 && forall j :: 0 <= j < i ==> s'[j].id != id;
        assert i == k;
    } else {
      assert forall i :: 0 <= i < |s'| ==> s'[i].id != id;
    }
  }

  /** Repeating an update changes nothing further. */
  lemma {:induction false} UpdateIdempotent(blob: Blob, id: string, p: BookingPatch)
    ensures var once := UpdateBooking(blob, id, p).blob;
            Load(UpdateBooking(once, id, p).blob) == Load(once)
  {
    var s := Load(blob);
    var once := UpdateBooking(blob, id, p).blob;
    var twice := UpdateBooking(once, id, p).blob;
    forall i | 0 <= i < |s|
      ensures Load(twice)[i] == Load(once)[i]
    {
      if s[i].id == id {
        MergeIdempotent(s[i], p);
      }
    }
  }

  /** Cancelling through `updateBooking(id, { status: 'cancelled' })` changes
      the status of the matching bookings and nothing else. */
  lemma CancelChangesOnlyStatus(blob: Blob, id: string)
    ensures var s, s' := Load(blob), Load(UpdateBooking(blob, id, EmptyPatch.(status := Some(Cancelled))).blob);
            |s'| == |s| &&
            forall i :: 0 <= i < |s| ==>
              s'[i] == if s[i].id == id then s[i].(status := Cancelled) else s[i]
  {
  }

  /** Adding then looking up the same id yields the added booking, unless an
      earlier booking already had that id, in which case the older one wins. */
  lemma {:induction false} AddThenGet(blob: Blob, booking: Booking)
    ensures GetBookingById(blob, booking.id).None? ==>
              GetBookingById(AddBooking(blob, booking).blob, booking.id) == Some(booking)
    ensures GetBookingById(blob, booking.id).Some? ==>
              GetBookingById(AddBooking(blob, booking).blob, booking.id)
                == GetBookingById(blob, booking.id)
  {
    var s := Load(blob);
    var s' := Load(AddBooking(blob, booking).blob);
    var g := GetBookingById(AddBooking(blob, booking).blob, booking.id);
    assert s'[|s|] == booking;
    match GetBookingById(blob, booking.id) {
      case None =>
        if g.None? {
          assert false;
        }
        var i :| 0 <= i < |s'| && s'[i] == g.value && g.value.id == booking.id
                 && forall j :: 0 <= j < i ==> s'[j].id != booking.id;
        assert i == |s|;
      case Some(earlier) =>
        var k :| 0 <= k < |s| && s[k] == earlier && earlier.id == booking.id
                 && forall j :: 0 <= j < k ==> s[j].id != booking.id;
        assert s'[k] == earlier;
        if g.None? {
          assert false;
        }
        var i :| 0 <= i < |s'| && s'[i] == g.value && g.value.id == booking.id
                 && forall j :: 0 <= j < i ==> s'[j].id != booking.id;
        assert i == k;
    }
  }
}
