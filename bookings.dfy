/** The reservations store: `BookingService` in src/app/bookings/booking.service.ts.
    Same shape as the listings store: `bookings` is the value the `_bookings` subject
    currently holds, read once and replaced once per operation. */
module Bookings {
  import opened Values

  /** A reservation, with the fields in the order the `Booking` constructor takes them. */
  datatype Booking = Booking(
    id: string,
    placeId: string,
    userId: string,
    placeTitle: string,
    placeImage: string,
    firstName: string,
    lastName: string,
    guestNumber: Number,
    dateFrom: Date,
    dateTo: Date)

  /** How many bookings of `s` carry the id `id`. */
  function CountWithId(s: seq<Booking>, id: string): (n: nat)
    ensures n <= |s|
    ensures n == 0 <==> forall k :: 0 <= k < |s| ==> s[k].id != id
  {
    if s == [] then 0
    else (if s[0].id == id then 1 else 0) + CountWithId(s[1..], id)
  }

  /** `bookings.filter(booking => booking.id !== bookingId)`. */
  function Without(s: seq<Booking>, bookingId: string): (r: seq<Booking>)
    ensures |r| <= |s|
    ensures forall k :: 0 <= k < |r| ==> r[k].id != bookingId && r[k] in s
    ensures forall k :: 0 <= k < |s| && s[k].id != bookingId ==> s[k] in r
  {
    if s == [] then []
    else if s[0].id != bookingId then [s[0]] + Without(s[1..], bookingId)
    else Without(s[1..], bookingId)
  }

  /** The `BookingService` instance; `bookings` is the latest value of its `_bookings` subject. */
  class BookingService {
    var bookings: seq<Booking>

    constructor ()
      ensures bookings == []
    {
      bookings := [];
    }

    /** `addBooking(...)` once subscribed. `placeholderId` stands for
        `Math.random().toString()` and `currentUserId` for `authService.userId` at the time
        of the call. The subscriber receives the snapshot read before the append. */
    method AddBooking(placeholderId: string, placeId: string, placeTitle: string,
                      placeImage: string, firstName: string, lastName: string,
                      guestNumber: Number, dateFrom: Date, dateTo: Date, currentUserId: string)
      returns (passedOn: seq<Booking>)
      modifies this
      ensures passedOn == old(bookings)
      ensures |bookings| == |old(bookings)| + 1
      ensures bookings[..|old(bookings)|] == old(bookings)
      ensures bookings[|old(bookings)|] ==
                Booking(placeholderId, placeId, currentUserId, placeTitle, placeImage,
                        firstName, lastName, guestNumber, dateFrom, dateTo)
    {
      var newBooking := Booking(placeholderId, placeId, currentUserId, placeTitle, placeImage,
                                firstName, lastName, guestNumber, dateFrom, dateTo);
      var read := bookings;
      bookings := read + [newBooking];
      passedOn := read;
    }

    /** `cancelBooking(bookingId)` once subscribed: publish the bookings whose id differs.
        An unknown id is not an error. The subscriber receives the snapshot that was read. */
    method CancelBooking(bookingId: string) returns (passedOn: seq<Booking>)
      modifies this
      ensures passedOn == old(bookings)
      ensures bookings == Without(old(bookings), bookingId)
    {
      var read := bookings;
      bookings := Without(read, bookingId);
      passedOn := read;
    }
  }

  /** Cancelling removes exactly the bookings with that id. */
  lemma {:induction false} CancelLength(s: seq<Booking>, bookingId: string)
    ensures |Without(s, bookingId)| == |s| - CountWithId(s, bookingId)
  {
    if s != [] {
      CancelLength(s[1..], bookingId);
    }
  }

  /** Cancelling an id no booking carries leaves the snapshot as it was. */
  lemma {:induction false} CancelAbsent(s: seq<Booking>, bookingId: string)
    requires forall k :: 0 <= k < |s| ==> s[k].id != bookingId
    ensures Without(s, bookingId) == s
  {
    if s != [] {
      CancelAbsent(s[1..], bookingId);
      assert [s[0]] + s[1..] == s;
    }
  }

  /** Cancelling the same id twice gives the snapshot cancelling it once gives. */
  lemma CancelIdempotent(s: seq<Booking>, bookingId: string)
    ensures Without(Without(s, bookingId), bookingId) == Without(s, bookingId)
  {
    CancelAbsent(Without(s, bookingId), bookingId);
  }

  /** Cancelling works piecewise over any split of the snapshot, so the bookings kept
      stay in their original relative order. */
  lemma {:induction false} CancelSplits(a: seq<Booking>, b: seq<Booking>, bookingId: string)
    ensures Without(a + b, bookingId) == Without(a, bookingId) + Without(b, bookingId)
  {
    if a == [] {
      assert a + b == b;
    } else {
      assert (a + b)[1..] == a[1..] + b;
      CancelSplits(a[1..], b, bookingId);
      if a[0].id != bookingId {
        assert Without(a + b, bookingId) == [a[0]] + (Without(a[1..], bookingId) + Without(b, bookingId));
      }
    }
  }

  /** Cancelling two ids gives the same snapshot in either order. */
  lemma {:induction false} CancelCommutes(s: seq<Booking>, x: string, y: string)
    ensures Without(Without(s, x), y) == Without(Without(s, y), x)
  {
    if s != [] {
      CancelCommutes(s[1..], x, y);
    }
  }

  /** Cancelling the booking just added under a placeholder id that was not in use
      restores the snapshot from before the add. */
  lemma CancelUndoesAdd(s: seq<Booking>, b: Booking)
    requires forall k :: 0 <= k < |s| ==> s[k].id != b.id
    ensures Without(s + [b], b.id) == s
  {
    CancelSplits(s, [b], b.id);
    CancelAbsent(s, b.id);
  }
}
