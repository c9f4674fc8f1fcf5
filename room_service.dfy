/** The room operations over the room table: listing with filters, lookup, create, update, delete. */
module RoomService {
  import opened Wrappers
  import opened Entities
  import opened Seqs
  import opened Text
  import opened Store

  const ROOM_NOT_FOUND := "Room not found"
  const HOTEL_NOT_FOUND := "Hotel not found"
  const DUPLICATE_ROOM_NUMBER := "Room number already exists in this hotel"

  // ---------------------------------------------------------------- listing

  datatype RoomFilters = RoomFilters(hotelId: Option<string>, roomType: Option<RoomType>,
                                     isAvailable: Option<bool>, minPrice: Option<int>, maxPrice: Option<int>)

  /** The `where` object getAllRooms assembles. */
  datatype RoomWhere = RoomWhere(hotelId: Option<string>, roomType: Option<RoomType>,
                                 isAvailable: Option<bool>, priceGte: Option<int>, priceLte: Option<int>)

  predicate Truthy(s: Option<string>) { s.Some? && s.value != "" }

  /** A price bound takes part only when it is a non-zero number (`if (filters.minPrice)`). */
  predicate Bound(n: Option<int>) { n.Some? && n.value != 0 }

  predicate WhereHolds(w: RoomWhere, r: Room) {
    && (w.hotelId.Some? ==> r.hotelId == w.hotelId.value)
    && (w.roomType.Some? ==> r.roomType == w.roomType.value)
    && (w.isAvailable.Some? ==> r.isAvailable == w.isAvailable.value)
    && (w.priceGte.Some? ==> r.pricePerNight >= w.priceGte.value)
    && (w.priceLte.Some? ==> r.pricePerNight <= w.priceLte.value)
  }

  /** Every supplied filter holds of the room; empty ids and zero price bounds are ignored. */
  predicate MatchesFilters(f: RoomFilters, r: Room) {
    && (Truthy(f.hotelId) ==> r.hotelId == f.hotelId.value)
    && (f.roomType.Some? ==> r.roomType == f.roomType.value)
    && (f.isAvailable.Some? ==> r.isAvailable == f.isAvailable.value)
    && (Bound(f.minPrice) ==> f.minPrice.value <= r.pricePerNight)
    && (Bound(f.maxPrice) ==> r.pricePerNight <= f.maxPrice.value)
  }

  function FiltersTest(f: RoomFilters): Room -> bool { (r: Room) => MatchesFilters(f, r) }

  function WhereTest(w: RoomWhere): Room -> bool { (r: Room) => WhereHolds(w, r) }

  /** The rooms that match, newest first. */
  function MatchingRooms(rooms: seq<Room>, f: RoomFilters): (r: seq<Room>)
    ensures forall x :: x in r <==> x in rooms && MatchesFilters(f, x)
  {
    assert forall x :: x in Reverse(rooms) <==> x in multiset(Reverse(rooms));
    Filter(Reverse(rooms), FiltersTest(f))
  }

  /** The `where` assembly of getAllRooms. */
  method BuildWhere(filters: RoomFilters) returns (w: RoomWhere)
    ensures forall r :: WhereHolds(w, r) == MatchesFilters(filters, r)
  {
    w := RoomWhere(None, None, None, None, None);
    if Truthy(filters.hotelId) { w := w.(hotelId := filters.hotelId); }
    if filters.roomType.Some? { w := w.(roomType := filters.roomType); }
    if filters.isAvailable.Some? { w := w.(isAvailable := filters.isAvailable); }
    if Bound(filters.minPrice) || Bound(filters.maxPrice) {
      if Bound(filters.minPrice) { w := w.(priceGte := filters.minPrice); }
      if Bound(filters.maxPrice) { w := w.(priceLte := filters.maxPrice); }
    }
  }

  /** getAllRooms: the rooms the assembled `where` selects, newest first. */
  method GetAllRooms(db: Database, filters: RoomFilters) returns (rooms: seq<Room>)
    ensures rooms == MatchingRooms(db.rooms, filters)
  {
    var w := BuildWhere(filters);
    rooms := Filter(Reverse(db.rooms), WhereTest(w));
    FilterEquivalent(Reverse(db.rooms), WhereTest(w), FiltersTest(filters));
  }

  /** Without filters every room is listed, newest first. */
  lemma NoFiltersListsAll(rooms: seq<Room>)
    ensures MatchingRooms(rooms, RoomFilters(None, None, None, None, None)) == Reverse(rooms)
  {
    FilterKeepsAll(Reverse(rooms), FiltersTest(RoomFilters(None, None, None, None, None)));
  }

  /** A maximum price of 0 is falsy and so filters nothing, even rooms that cost more. */
  lemma ZeroMaxPriceIgnored(rooms: seq<Room>, f: RoomFilters)
    requires f.maxPrice == Some(0)
    ensures MatchingRooms(rooms, f) == MatchingRooms(rooms, f.(maxPrice := None))
  {
    FilterEquivalent(Reverse(rooms), FiltersTest(f), FiltersTest(f.(maxPrice := None)));
  }

  /** An unavailable-rooms filter (`isAvailable: false`) is applied, unlike a zero price. */
  lemma FalseAvailabilityFilters(r: Room)
    requires r.isAvailable
    ensures !MatchesFilters(RoomFilters(None, None, Some(false), None, None), r)
    ensures MatchesFilters(RoomFilters(None, None, None, None, Some(0)), r)
  {
  }

  // ---------------------------------------------------------------- lookup

  /** getRoomById. */
  function GetRoomById(rooms: seq<Room>, id: string): (r: Result<Room>)
    ensures r.Err? <==> forall x :: x in rooms ==> x.id != id
    ensures r.Err? ==> r.error == ROOM_NOT_FOUND
    ensures r.Ok? ==> r.value in rooms && r.value.id == id
  {
    match FindRoom(rooms, id)
    case Some(room) => Ok(room)
    case None => Err(ROOM_NOT_FOUND)
  }

  // ---------------------------------------------------------------- create

  /** A create payload after createRoomSchema (isAvailable defaulted). */
  datatype RoomData = RoomData(hotelId: string, roomNumber: string, roomType: RoomType,
                               pricePerNight: int, isAvailable: bool)

  /** Some room of the hotel already carries the number. */
  predicate NumberTaken(rooms: seq<Room>, hotelId: string, roomNumber: string) {
    exists x :: x in rooms && x.hotelId == hotelId && x.roomNumber == roomNumber
  }

  /** Every room belongs to a stored hotel. */
  predicate RoomsHaveHotels(hotels: seq<Hotel>, rooms: seq<Room>) {
    forall x :: x in rooms ==> HotelIndex(hotels, x.hotelId).Some?
  }

  /** Appending a room whose number is free in its hotel keeps room numbers unique. */
  lemma AppendKeepsNumbersUnique(rooms: seq<Room>, nr: Room)
    requires RoomNumbersUnique(rooms)
    requires !NumberTaken(rooms, nr.hotelId, nr.roomNumber)
    ensures RoomNumbersUnique(rooms + [nr])
  {
    var t := rooms + [nr];
    forall i, j | 0 <= i < j < |t|
      ensures !(t[i].hotelId == t[j].hotelId && t[i].roomNumber == t[j].roomNumber)
    {
      if j == |rooms| { assert t[i] in rooms; }
    }
  }

  /** createRoom: the hotel must exist and the number be free in it; then the room is stored. */
  method CreateRoom(db: Database, data: RoomData, newId: string) returns (r: Result<Room>)
    requires forall x :: x in db.rooms ==> x.id != newId
    modifies db
    ensures db.hotels == old(db.hotels) && db.bookings == old(db.bookings)
    ensures HotelIndex(old(db.hotels), data.hotelId).None? ==> r == Err(HOTEL_NOT_FOUND)
    ensures HotelIndex(old(db.hotels), data.hotelId).Some? && NumberTaken(old(db.rooms), data.hotelId, data.roomNumber)
            ==> r == Err(DUPLICATE_ROOM_NUMBER)
    ensures r.Ok? <==> HotelIndex(old(db.hotels), data.hotelId).Some? && !NumberTaken(old(db.rooms), data.hotelId, data.roomNumber)
    ensures r.Err? ==> db.rooms == old(db.rooms)
    ensures r.Ok? ==> r.value == Room(newId, data.hotelId, data.roomNumber, data.roomType, data.pricePerNight, data.isAvailable)
                      && db.rooms == old(db.rooms) + [r.value]
    ensures old(RoomNumbersUnique(db.rooms)) ==> RoomNumbersUnique(db.rooms)
    ensures old(RoomIdsUnique(db.rooms)) ==> RoomIdsUnique(db.rooms)
    ensures old(RoomsHaveHotels(db.hotels, db.rooms)) ==> RoomsHaveHotels(db.hotels, db.rooms)
  {
    if HotelIndex(db.hotels, data.hotelId).None? {
      return Err(HOTEL_NOT_FOUND);
    }
    var existing := IndexOf(db.rooms, (x: Room) => x.hotelId == data.hotelId && x.roomNumber == data.roomNumber);
    if existing.Some? {
      assert db.rooms[existing.value] in db.rooms;
      return Err(DUPLICATE_ROOM_NUMBER);
    }
    var room := Room(newId, data.hotelId, data.roomNumber, data.roomType, data.pricePerNight, data.isAvailable);
    if RoomNumbersUnique(db.rooms) {
      AppendKeepsNumbersUnique(db.rooms, room);
    }
    db.rooms := db.rooms + [room];
    r := Ok(room);
  }

  // ---------------------------------------------------------------- update

  /** An update payload: every field optional, no defaults. */
  datatype RoomPatch = RoomPatch(hotelId: Option<string>, roomNumber: Option<string>, roomType: Option<RoomType>,
                                 pricePerNight: Option<int>, isAvailable: Option<bool>)

  /** prisma.room.update: the given fields replace the stored ones. */
  function ApplyPatch(x: Room, p: RoomPatch): (r: Room)
    ensures r.id == x.id
  {
    Room(x.id, p.hotelId.GetOr(x.hotelId), p.roomNumber.GetOr(x.roomNumber), p.roomType.GetOr(x.roomType),
         p.pricePerNight.GetOr(x.pricePerNight), p.isAvailable.GetOr(x.isAvailable))
  }

  /**
   * The duplicate query of updateRoom: another room with the number, in the given
   * hotel, or in any hotel when no hotelId is given (`hotelId: undefined`).
   */
  predicate Duplicate(x: Room, id: string, hotelId: Option<string>, roomNumber: string) {
    x.id != id && (hotelId.Some? ==> x.hotelId == hotelId.value) && x.roomNumber == roomNumber
  }

  /** Rewriting one room to a number no other room of its hotel has keeps room numbers unique. */
  lemma ReplaceKeepsNumbersUnique(rooms: seq<Room>, k: nat, nr: Room)
    requires RoomNumbersUnique(rooms) && RoomIdsUnique(rooms) && k < |rooms| && rooms[k].id == nr.id
    requires forall x :: x in rooms && x.id != nr.id ==> !(x.hotelId == nr.hotelId && x.roomNumber == nr.roomNumber)
    ensures RoomNumbersUnique(rooms[k := nr])
  {
    var t := rooms[k := nr];
    forall i, j | 0 <= i < j < |t|
      ensures !(t[i].hotelId == t[j].hotelId && t[i].roomNumber == t[j].roomNumber)
    {
      if i == k { assert rooms[j] in rooms && rooms[j].id != nr.id; }
      if j == k { assert rooms[i] in rooms && rooms[i].id != nr.id; }
    }
  }

  /** A room rewritten with its hotel and number unchanged keeps room numbers unique. */
  lemma SameKeyKeepsNumbersUnique(rooms: seq<Room>, k: nat, nr: Room)
    requires RoomNumbersUnique(rooms) && k < |rooms|
    requires nr.hotelId == rooms[k].hotelId && nr.roomNumber == rooms[k].roomNumber
    ensures RoomNumbersUnique(rooms[k := nr])
  {
  }

  /** Rewriting one room, keeping its id and giving it an existing hotel, keeps ids unique and every room's hotel present. */
  lemma ReplaceKeepsIdsAndHotels(hotels: seq<Hotel>, rooms: seq<Room>, k: nat, nr: Room)
    requires k < |rooms| && rooms[k].id == nr.id
    requires nr.hotelId == rooms[k].hotelId || HotelIndex(hotels, nr.hotelId).Some?
    ensures RoomIdsUnique(rooms) ==> RoomIdsUnique(rooms[k := nr])
    ensures RoomsHaveHotels(hotels, rooms) ==> RoomsHaveHotels(hotels, rooms[k := nr])
  {
    var t := rooms[k := nr];
    if RoomsHaveHotels(hotels, rooms) {
      forall x | x in t ensures HotelIndex(hotels, x.hotelId).Some? {
        var i :| 0 <= i < |t| && t[i] == x;
        if i != k {
          assert rooms[i] in rooms;
        } else {
          assert rooms[k] in rooms;
        }
      }
    }
  }

  /** The new number of the patch is already used by another room of the hotel it names. */
  predicate NumberClash(rooms: seq<Room>, id: string, data: RoomPatch) {
    Truthy(data.roomNumber) && exists x :: x in rooms && Duplicate(x, id, data.hotelId, data.roomNumber.value)
  }

  /**
   * updateRoom: a non-empty new number is checked against the other rooms first;
   * then the patch is written, or Prisma reports the missing row or hotel.
   */
  method UpdateRoom(db: Database, id: string, data: RoomPatch) returns (r: Result<Room>)
    modifies db
    ensures db.hotels == old(db.hotels) && db.bookings == old(db.bookings)
    ensures r.Err? ==> db.rooms == old(db.rooms)
    ensures NumberClash(old(db.rooms), id, data) ==> r == Err(DUPLICATE_ROOM_NUMBER)
    ensures !NumberClash(old(db.rooms), id, data) && RoomIndex(old(db.rooms), id).None?
            ==> r == Err(RECORD_TO_UPDATE_NOT_FOUND)
    ensures !NumberClash(old(db.rooms), id, data) && RoomIndex(old(db.rooms), id).Some?
            && data.hotelId.Some? && HotelIndex(old(db.hotels), data.hotelId.value).None?
            ==> r == Err(FOREIGN_KEY_FAILED)
    ensures r.Ok? <==> RoomIndex(old(db.rooms), id).Some?
                       && (data.hotelId.Some? ==> HotelIndex(old(db.hotels), data.hotelId.value).Some?)
                       && !NumberClash(old(db.rooms), id, data)
    ensures r.Ok? ==> var k := RoomIndex(old(db.rooms), id).value;
                      r.value == ApplyPatch(old(db.rooms)[k], data) && db.rooms == old(db.rooms)[k := r.value]
    ensures old(RoomIdsUnique(db.rooms)) ==> RoomIdsUnique(db.rooms)
    ensures old(RoomsHaveHotels(db.hotels, db.rooms)) ==> RoomsHaveHotels(db.hotels, db.rooms)
    ensures (old(RoomNumbersUnique(db.rooms)) && old(RoomIdsUnique(db.rooms))
             && (Truthy(data.roomNumber) || (data.roomNumber.None? && data.hotelId.None?))) ==> RoomNumbersUnique(db.rooms)
  {
    if Truthy(data.roomNumber) {
      var existing := IndexOf(db.rooms, (x: Room) => Duplicate(x, id, data.hotelId, data.roomNumber.value));
      if existing.Some? {
        assert db.rooms[existing.value] in db.rooms;
        return Err(DUPLICATE_ROOM_NUMBER);
      }
    }
    var found := RoomIndex(db.rooms, id);
    if found.None? {
      return Err(RECORD_TO_UPDATE_NOT_FOUND);
    }
    if data.hotelId.Some? && HotelIndex(db.hotels, data.hotelId.value).None? {
      return Err(FOREIGN_KEY_FAILED);
    }
    var k := found.value;
    var updated := ApplyPatch(db.rooms[k], data);
    assert !NumberClash(db.rooms, id, data);
    ReplaceKeepsIdsAndHotels(db.hotels, db.rooms, k, updated);
    if RoomNumbersUnique(db.rooms) && RoomIdsUnique(db.rooms) {
      if Truthy(data.roomNumber) {
        ReplaceKeepsNumbersUnique(db.rooms, k, updated);
      } else if data.roomNumber.None? && data.hotelId.None? {
        SameKeyKeepsNumbersUnique(db.rooms, k, updated);
      }
    }
    db.rooms := db.rooms[k := updated];
    r := Ok(updated);
  }

  /**
   * At the service level, moving a room to another hotel without a new number is
   * not checked and can duplicate a number there. The update route cannot send this
   * patch, because its schema strips hotelId (RoomSchemas.ValidatedUpdateKeepsNumbersUnique).
   */
  lemma MoveWithoutNumberCanDuplicate()
    ensures var a := Room("r1", "h1", "101", Single, 100, true);
            var b := Room("r2", "h2", "101", Double, 150, true);
            var patch := RoomPatch(Some("h1"), None, None, None, None);
            && RoomNumbersUnique([a, b])
            && !Truthy(patch.roomNumber)
            && !RoomNumbersUnique([a, b][1 := ApplyPatch(b, patch)])
  {
    var a := Room("r1", "h1", "101", Single, 100, true);
    var b := Room("r2", "h2", "101", Double, 150, true);
    var t := [a, b][1 := ApplyPatch(b, RoomPatch(Some("h1"), None, None, None, None))];
    assert t[0].hotelId == t[1].hotelId && t[0].roomNumber == t[1].roomNumber;
  }

  // ---------------------------------------------------------------- delete and per-hotel listing

  /** deleteRoom: prisma.room.delete, which fails when no row has the id. */
  method DeleteRoom(db: Database, id: string) returns (r: Result<()>)
    modifies db
    ensures db.hotels == old(db.hotels) && db.bookings == old(db.bookings)
    ensures r.Err? <==> forall x :: x in old(db.rooms) ==> x.id != id
    ensures r.Err? ==> r.error == RECORD_TO_DELETE_NOT_FOUND && db.rooms == old(db.rooms)
    ensures r.Ok? ==> var k := RoomIndex(old(db.rooms), id).value;
                      db.rooms == old(db.rooms)[..k] + old(db.rooms)[k + 1..]
  {
    var found := RoomIndex(db.rooms, id);
    if found.None? {
      return Err(RECORD_TO_DELETE_NOT_FOUND);
    }
    var k := found.value;
    db.rooms := db.rooms[..k] + db.rooms[k + 1..];
    r := Ok(());
  }

  /** With unique ids, deleting removes exactly the rooms that had the id. */
  lemma DeleteRemovesOnlyThatRoom(rooms: seq<Room>, k: nat, x: Room)
    requires RoomIdsUnique(rooms) && k < |rooms|
    ensures x in rooms[..k] + rooms[k + 1..] <==> x in rooms && x.id != rooms[k].id
  {
    var t := rooms[..k] + rooms[k + 1..];
    if x in t {
      var i :| 0 <= i < |t| && t[i] == x;
      if i < k { assert t[i] == rooms[i]; } else { assert t[i] == rooms[i + 1]; }
    }
    if x in rooms && x.id != rooms[k].id {
      var i :| 0 <= i < |rooms| && rooms[i] == x;
      if i < k { assert t[i] == x; } else { assert t[i - 1] == x; }
    }
  }

  predicate NumberLe(a: Room, b: Room) { LexLe(a.roomNumber, b.roomNumber) }

  /** `orderBy: { roomNumber: 'asc' }`, comparing code points. */
  function ByRoomNumber(rooms: seq<Room>): (r: seq<Room>)
    ensures multiset(r) == multiset(rooms)
    ensures forall i :: 0 < i < |r| ==> LexLe(r[i - 1].roomNumber, r[i].roomNumber)
  {
    var le := (a: Room, b: Room) => NumberLe(a, b);
    forall a: Room, b: Room ensures le(a, b) || le(b, a) {
      LexTotal(a.roomNumber, b.roomNumber);
    }
    SortBy(rooms, le)
  }

  /** `where: { hotelId }`. */
  function InHotelTest(hotelId: string): Room -> bool { (x: Room) => x.hotelId == hotelId }

  datatype HotelRooms = HotelRooms(hotelId: string, hotelName: string, rooms: seq<Room>)

  /** getRoomsByHotel: the hotel's rooms by room number, or 'Hotel not found'. */
  function GetRoomsByHotel(hotels: seq<Hotel>, rooms: seq<Room>, hotelId: string): (r: Result<HotelRooms>)
    ensures r.Err? <==> forall h :: h in hotels ==> h.id != hotelId
    ensures r.Err? ==> r.error == HOTEL_NOT_FOUND
    ensures r.Ok? ==> r.value.hotelId == hotelId
    ensures r.Ok? ==> forall x :: x in r.value.rooms <==> x in rooms && x.hotelId == hotelId
    ensures r.Ok? ==> multiset(r.value.rooms) == multiset(Filter(rooms, InHotelTest(hotelId)))
    ensures r.Ok? ==> forall i :: 0 < i < |r.value.rooms| ==> LexLe(r.value.rooms[i - 1].roomNumber, r.value.rooms[i].roomNumber)
  {
    match HotelIndex(hotels, hotelId)
    case None => Err(HOTEL_NOT_FOUND)
    case Some(k) =>
      var theirs := Filter(rooms, InHotelTest(hotelId));
      var sorted := ByRoomNumber(theirs);
      assert forall x :: x in sorted <==> x in multiset(theirs);
      Ok(HotelRooms(hotels[k].id, hotels[k].name, sorted))
  }
}
