# Places and bookings stores

A model of the two in-memory stores of an Ionic/Angular rental-booking client:
`PlacesService` (listings, src/app/places/places.service.ts) and `BookingService`
(reservations, src/app/bookings/booking.service.ts). Each service keeps its collection
in an rxjs `BehaviorSubject`. `addPlace`, `updatePlace`, `addBooking` and `cancelBooking`
each take the current value once (`take(1)`), wait (`delay(1000)`), and inside a `tap`
compute a new array and publish it with `next`. Their subscriber receives the array that
was read, unchanged. `getPlace` takes the current value once and, with `map`, hands its
subscriber `{ ...place }` for the first place with the id, or `{}`; it writes nothing.

The model keeps only the snapshot and that single read and, where there is one, write:

- `values.dfy` (`Values`): the opaque values that are only copied (`Date` kept as its ISO
  text, a JavaScript `number` as `real`), `Option` for the snapshot `updatePlace` writes
  (None: the tap threw and nothing was written), and `Outcome` for what a subscriber
  receives: the passed-on value, or an error notification.
- `places.dfy` (`Places`): the `Place` record and the four places the subject starts with.
  It also holds the `findIndex`/`find` lookups as functions, the snapshot `updatePlace`
  writes (`UpdatedPlaces`), and the class `PlacesService`, whose field `places` is the
  subject's current value. `UpdatePlace` copies the snapshot into a fresh array, overwrites
  one entry, and publishes the copy, as the source does.
- `bookings.dfy` (`Bookings`): the `Booking` record, the `filter` of `cancelBooking`
  (`Without`), and the class `BookingService`, whose field `bookings` starts empty.

`Math.random().toString()` becomes the parameter `placeholderId`. The auth service's
`userId` becomes the parameter `currentUserId`. auth.service.ts, place.model.ts and
booking.model.ts are not part of this model. The record fields follow the argument order
of the `Place` and `Booking` constructor calls. The two booking date fields are named
`dateFrom`/`dateTo` after `addBooking`'s parameters.

Facts about the code that the model keeps:

- The listings store starts with four fixed places.
- No operation makes a remote call, and every added record keeps its placeholder id.
- `updatePlace` on an unknown id raises a TypeError and writes nothing.
- `cancelBooking` removes every booking with the id.

## Model

| member | source | states |
|---|---|---|
| `Places.InitialPlaces` | src/app/places/places.service.ts:11-52 | the subject starts with exactly four places with ids p1, p2, p3, p4 in that order; p1 is owned by "xyz", the other three by "abc" |
| `Places.FindIndex` | src/app/places/places.service.ts:113-115 | `findIndex` by id: -1 exactly when no place has the id, otherwise the first index holding it |
| `Places.CopyOfFirst` | src/app/places/places.service.ts:64-68 | the copy `getPlace` builds: no fields exactly when the id is absent, otherwise equal to the first place with that id |
| `Places.UpdatedPlaces` | src/app/places/places.service.ts:113-128 | the snapshot `updatePlace` writes: none (the tap throws) exactly when the id is absent; otherwise same length, only the first place with the id replaced, the replacement having the new title and description and the old id, imageUrl, price, dates and userId; every other index unchanged |
| `Places.PlacesService.constructor` | src/app/places/places.service.ts:11-54 | a new service holds the initial four places |
| `Places.PlacesService.GetPlace` | src/app/places/places.service.ts:60-70 | reads the snapshot once, changes nothing, and returns the copy of the first place with the id, or the empty record |
| `Places.PlacesService.AddPlace` | src/app/places/places.service.ts:72-103 | the new snapshot is the old one with exactly one place appended, carrying the given title, description, price and dates, the placeholder id, the current user id and the fixed mansion image; the subscriber gets the snapshot read before the write |
| `Places.PlacesService.UpdatePlace` | src/app/places/places.service.ts:105-131 | with the id present, the new snapshot is `UpdatedPlaces` of the old one and the subscriber gets the snapshot read; with the id absent, an error is raised and the snapshot is unchanged |
| `Places.FindIndexSameIds` | src/app/places/places.service.ts:113-115 | `findIndex` depends only on the ids at each position |
| `Places.FindIndexAppend` | src/app/places/places.service.ts:99 | appending a place keeps every earlier index `findIndex` gives; the new place is found only when its id was not in use |
| `Places.GetAfterAdd` | src/app/places/places.service.ts:64-68 | after `addPlace`, `getPlace` of an id already present returns the same copy as before; the new place is returned by its id only when that id was free |
| `Places.GetAfterUpdate` | src/app/places/places.service.ts:118-128 | after a successful `updatePlace`, `getPlace` on that id returns the earlier copy with the new title and description |
| `Places.UpdateIdempotent` | src/app/places/places.service.ts:109-130 | repeating `updatePlace` with the same arguments writes the same snapshot |
| `Bookings.CountWithId` | src/app/bookings/booking.service.ts:57 | the number of bookings with an id is zero exactly when none carries it |
| `Bookings.Without` | src/app/bookings/booking.service.ts:56-58 | the `filter` of `cancelBooking`: no kept booking has the id, each kept booking was in the snapshot, and every booking with another id is kept |
| `Bookings.BookingService.constructor` | src/app/bookings/booking.service.ts:11-14 | a new service holds no bookings |
| `Bookings.BookingService.AddBooking` | src/app/bookings/booking.service.ts:20-49 | the new snapshot is the old one with exactly one booking appended, carrying the given place id, title, image, names, guest number and dates, the placeholder id and the current user id; the subscriber gets the snapshot read before the write |
| `Bookings.BookingService.CancelBooking` | src/app/bookings/booking.service.ts:51-62 | the new snapshot is the old one without the bookings with that id, and the subscriber gets the snapshot read |
| `Bookings.CancelLength` | src/app/bookings/booking.service.ts:57 | cancelling shrinks the snapshot by exactly the number of bookings with that id |
| `Bookings.CancelAbsent` | src/app/bookings/booking.service.ts:57 | cancelling an id no booking carries leaves the snapshot unchanged, with no error |
| `Bookings.CancelIdempotent` | src/app/bookings/booking.service.ts:56-58 | cancelling the same id twice gives the snapshot cancelling it once gives |
| `Bookings.CancelSplits` | src/app/bookings/booking.service.ts:57 | cancelling distributes over any split of the snapshot, so the kept bookings keep their relative order |
| `Bookings.CancelCommutes` | src/app/bookings/booking.service.ts:56-58 | cancelling two ids in either order gives the same snapshot |
| `Bookings.CancelUndoesAdd` | src/app/bookings/booking.service.ts:42-58 | cancelling a booking just added under an unused placeholder id restores the earlier snapshot |

## Left out

- The rxjs plumbing is not modelled. This covers broadcasting to subscribers, `asObservable` (the `places` and `bookings` getters), subscription lifetimes and laziness (nothing runs until subscribed, and each further subscription to the observable `addPlace` or `addBooking` returned appends the same record again, random id included, because the record is built once per call).
- `delay(1000)`: each operation is modelled as one atomic read-then-write. In the source, another operation can read or write during the delay, and then the last writer wins. Such interleavings are not modelled.
- `Math.random()` and the auth service are outside the model. Their values enter as the parameters `placeholderId` and `currentUserId`.
- Prices, guest numbers and dates are only copied. No arithmetic on JavaScript floating-point numbers or `Date` objects is modelled.
- `{ ...place }` yields a plain object, not a `Place` instance. The model keeps only its field values.
- The page components, form validators, map modal and routing are UI code around the two services and are not modelled.
