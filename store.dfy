/** The relational database the API writes to, as three in-memory tables in insertion order. */
module Store {
  import opened Entities

  /** Prisma's P2025 errors, raised by update and delete when no row has the key. */
  const RECORD_TO_UPDATE_NOT_FOUND := "Record to update not found."
  const RECORD_TO_DELETE_NOT_FOUND := "Record to delete does not exist."
  /** Prisma's P2003 error: a foreign key names a row that does not exist. */
  const FOREIGN_KEY_FAILED := "Foreign key constraint failed on the field: `hotelId`"

  class Database {
    var hotels: seq<Hotel>
    var rooms: seq<Room>
    var bookings: seq<Booking>

    constructor ()
      ensures hotels == [] && rooms == [] && bookings == []
    {
      hotels, rooms, bookings := [], [], [];
    }

    /** Primary keys are unique in every table. */
    predicate KeysUnique()
      reads this
    {
      HotelIdsUnique(hotels) && RoomIdsUnique(rooms) && BookingIdsUnique(bookings)
    }
  }
}
