/** The listings store: `PlacesService` in src/app/places/places.service.ts.
    The `_places` subject is reduced to the snapshot it currently holds; every operation
    reads that snapshot once (`take(1)`) and, when it changes anything, writes one new
    snapshot back (`next`). */
module Places {
  import opened Values

  /** A listing, with the fields in the order the `Place` constructor takes them. */
  datatype Place = Place(
    id: string,
    title: string,
    description: string,
    imageUrl: string,
    price: Number,
    avaliableFrom: Date,
    avaliableTo: Date,
    userId: string)

  /** The picture every newly offered place gets. */
  const MansionImageUrl: string :=
    "https://imgs.6sqft.com/wp-content/uploads/2014/06/21042534/Felix_Warburg_Mansion_007.jpg"

  /** The pictures of the other three initial places. */
  const VillaImageUrl: string :=
    "https://a0.muscache.com/im/pictures/7348a0da-9bc1-4cce-a633-cc2b23d6a295.jpg?aki_policy=large"
  const ShackImageUrl: string :=
    "https://media.gettyimages.com/videos/-video-id1027864144?s=640x640"
  const LoftImageUrl: string :=
    "https://www.pufikhomes.com/wp-content/uploads/2018/12/monochrome-scandinavian-studio-apartment-in-stockholm-30sqm-pufikhomes-1.jpg"

  /** The value the `_places` subject is created with. */
  function InitialPlaces(): (s: seq<Place>)
    ensures |s| == 4
    ensures s[0].id == "p1" && s[1].id == "p2" && s[2].id == "p3" && s[3].id == "p4"
    ensures s[0].userId == "xyz" && s[1].userId == "abc" && s[2].userId == "abc" && s[3].userId == "abc"
  {
    var p1 := Place("p1", "Manhatten Mansion", "In the Heart of Manhatten",
            MansionImageUrl,
            149.99, Date("2019-01-01"), Date("2019-12-31"), "xyz");
    var p2 := Place("p2", "Spanish Villa", "Romantic spot in the Spanish hillside",
            VillaImageUrl,
            100.0, Date("2019-01-01"), Date("2019-12-31"), "abc");
    var p3 := Place("p3", "Compton Shack", "Grim shack in Bloods territory",
            ShackImageUrl,
            0.0, Date("2019-01-01"), Date("2019-12-31"), "abc");
    var p4 := Place("p4", "Monochrome Loft", "Monochromatic Minimalism in Sweden",
            LoftImageUrl,
            119.99, Date("2019-01-01"), Date("2019-12-31"), "abc");
    [p1, p2, p3, p4]
  }

  /** Index `i` holds the first place of `s` whose id is `id`. */
  ghost predicate FirstWithId(s: seq<Place>, id: string, i: int)
  {
    0 <= i < |s| && s[i].id == id && forall k :: 0 <= k < i ==> s[k].id != id
  }

  /** `places.findIndex(place => place.id === id)`: the first index holding `id`, or -1. */
  function FindIndex(s: seq<Place>, id: string): (i: int)
    ensures -1 <= i < |s|
    ensures i == -1 <==> forall k :: 0 <= k < |s| ==> s[k].id != id
    ensures i != -1 ==> FirstWithId(s, id, i)
  {
    if s == [] then -1
    else if s[0].id == id then 0
    else
      var j := FindIndex(s[1..], id);
      if j == -1 then -1 else j + 1
  }

  /** What `{ ...places.find(p => p.id === id) }` builds: an object holding the fields of
      the place found, or `{}` when `find` gives `undefined`. */
  datatype PlaceCopy = FieldsOf(place: Place) | NoFields

  /** The copy `getPlace` hands out for snapshot `s`. */
  function CopyOfFirst(s: seq<Place>, id: string): (c: PlaceCopy)
    ensures c.NoFields? <==> forall k :: 0 <= k < |s| ==> s[k].id != id
    ensures c.FieldsOf? ==> exists i :: FirstWithId(s, id, i) && c.place == s[i]
  {
    var i := FindIndex(s, id);
    if i == -1 then NoFields else FieldsOf(s[i])
  }

  /** The `new Place(...)` that `updatePlace` builds from the place it replaces; the pure
      form of the assignment to `updated[i]` in `PlacesService.UpdatePlace`. */
  function Revised(p: Place, title: string, description: string): (r: Place)
  {
    Place(p.id, title, description, p.imageUrl, p.price, p.avaliableFrom, p.avaliableTo, p.userId)
  }

  /** The snapshot the tap of `updatePlace` writes when it reads `s`, or None when it
      throws: with no place holding `placeId`, `findIndex` gives -1, `updatedPlaces[-1]`
      is `undefined` and reading its `id` raises a TypeError before anything is written. */
  function UpdatedPlaces(s: seq<Place>, placeId: string, title: string, description: string)
    : (r: Option<seq<Place>>)
    ensures r.None? <==> forall k :: 0 <= k < |s| ==> s[k].id != placeId
    ensures r.Some? ==> |r.value| == |s|
    ensures r.Some? ==> forall k :: 0 <= k < |s| ==>
              if FirstWithId(s, placeId, k) then
                r.value[k].id == s[k].id && r.value[k].imageUrl == s[k].imageUrl &&
                r.value[k].price == s[k].price && r.value[k].avaliableFrom == s[k].avaliableFrom &&
                r.value[k].avaliableTo == s[k].avaliableTo && r.value[k].userId == s[k].userId &&
                r.value[k].title == title && r.value[k].description == description
              else r.value[k] == s[k]
  {
    var i := FindIndex(s, placeId);
    if i == -1 then None else Some(s[i := Revised(s[i], title, description)])
  }

  /** The `PlacesService` instance; `places` is the latest value of its `_places` subject. */
  class PlacesService {
    var places: seq<Place>

    constructor ()
      ensures places == InitialPlaces()
    {
      places := InitialPlaces();
    }

    /** `getPlace(id)` once subscribed: one read of the snapshot, nothing written. */
    method GetPlace(id: string) returns (c: PlaceCopy)
      ensures c == CopyOfFirst(places, id)
    {
      var read := places;
      c := CopyOfFirst(read, id);
    }

    /** `addPlace(...)` once subscribed. `placeholderId` stands for `Math.random().toString()`
        and `currentUserId` for `authService.userId` at the time of the call. The subscriber
        receives the snapshot that was read, from before the append. */
    method AddPlace(placeholderId: string, title: string, description: string, price: Number,
                    dateFrom: Date, dateTo: Date, currentUserId: string)
      returns (passedOn: seq<Place>)
      modifies this
      ensures passedOn == old(places)
      ensures |places| == |old(places)| + 1
      ensures places[..|old(places)|] == old(places)
      ensures places[|old(places)|] ==
                Place(placeholderId, title, description, MansionImageUrl, price, dateFrom, dateTo,
                      currentUserId)
    {
      var newPlace := Place(placeholderId, title, description, MansionImageUrl, price,
                            dateFrom, dateTo, currentUserId);
      var read := places;
      places := read + [newPlace];
      passedOn := read;
    }

    /** `updatePlace(placeId, title, description)` once subscribed: copy the snapshot into a
        fresh array, overwrite the entry `findIndex` picks, and publish the copy. */
    method UpdatePlace(placeId: string, title: string, description: string)
      returns (o: Outcome<seq<Place>>)
      modifies this
      ensures UpdatedPlaces(old(places), placeId, title, description).None? ==>
                o == ErrorRaised && places == old(places)
      ensures UpdatedPlaces(old(places), placeId, title, description).Some? ==>
                o == Emitted(old(places)) &&
                places == UpdatedPlaces(old(places), placeId, title, description).value
    {
      var read := places;
      var i := FindIndex(read, placeId);
      if i == -1 {
        o := ErrorRaised;
        return;
      }
      var updated := new Place[|read|](k requires 0 <= k < |read| => read[k]);
      var oldPlace := updated[i];
      updated[i] := Place(oldPlace.id, title, description, oldPlace.imageUrl, oldPlace.price,
                          oldPlace.avaliableFrom, oldPlace.avaliableTo, oldPlace.userId);
      assert updated[..] == read[i := Revised(read[i], title, description)];
      places := updated[..];
      o := Emitted(read);
    }
  }

  /** `findIndex` looks only at ids, so two snapshots with the same ids at the same
      positions give the same index. */
  lemma {:induction false} FindIndexSameIds(s: seq<Place>, t: seq<Place>, id: string)
    requires |s| == |t|
    requires forall k :: 0 <= k < |s| ==> s[k].id == t[k].id
    ensures FindIndex(s, id) == FindIndex(t, id)
  {
    if s != [] && s[0].id != id {
      FindIndexSameIds(s[1..], t[1..], id);
    }
  }

  /** Appending a place never hides an earlier one: `findIndex` on `s + [p]` is its
      index in `s`, or else the new last index when `p` carries the id. */
  lemma {:induction false} FindIndexAppend(s: seq<Place>, p: Place, id: string)
    ensures FindIndex(s + [p], id) ==
              if FindIndex(s, id) != -1 then FindIndex(s, id)
              else if p.id == id then |s| else -1
  {
    if s != [] && s[0].id != id {
      assert (s + [p])[1..] == s[1..] + [p];
      FindIndexAppend(s[1..], p, id);
    }
  }

  /** `getPlace` after `addPlace`: ids already in the snapshot still find their old place,
      and the new place is found by its placeholder id when that id was not in use. */
  lemma GetAfterAdd(s: seq<Place>, p: Place, id: string)
    ensures CopyOfFirst(s + [p], id) ==
              if CopyOfFirst(s, id).FieldsOf? || p.id != id then CopyOfFirst(s, id)
              else FieldsOf(p)
  {
    FindIndexAppend(s, p, id);
  }

  /** `getPlace` after a successful `updatePlace` on the same id returns the place it
      returned before, with the new title and description. */
  lemma GetAfterUpdate(s: seq<Place>, placeId: string, title: string, description: string)
    requires UpdatedPlaces(s, placeId, title, description).Some?
    ensures CopyOfFirst(s, placeId).FieldsOf?
    ensures CopyOfFirst(UpdatedPlaces(s, placeId, title, description).value, placeId) ==
              FieldsOf(Revised(CopyOfFirst(s, placeId).place, title, description))
  {
    var t := UpdatedPlaces(s, placeId, title, description).value;
    FindIndexSameIds(s, t, placeId);
  }

  /** Repeating an `updatePlace` with the same arguments writes the same snapshot again. */
  lemma UpdateIdempotent(s: seq<Place>, placeId: string, title: string, description: string)
    requires UpdatedPlaces(s, placeId, title, description).Some?
    ensures UpdatedPlaces(UpdatedPlaces(s, placeId, title, description).value,
                          placeId, title, description)
            == UpdatedPlaces(s, placeId, title, description)
  {
    var i := FindIndex(s, placeId);
    var t := UpdatedPlaces(s, placeId, title, description).value;
    assert t == s[i := Revised(s[i], title, description)];
    FindIndexSameIds(s, t, placeId);
    assert Revised(t[i], title, description) == t[i];
    assert t[i := t[i]] == t;
  }
}
