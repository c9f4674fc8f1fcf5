/**
 * The client's query cache for the hotel screens, and the list edits the
 * mutation hooks apply to it. Keys: ["hotels"], ["hotel", id], ["rooms", { hotelId }].
 */
module QueryCache {
  import opened Wrappers
  import opened Entities
  import opened Seqs

  class QueryClient {
    /** ["hotels"]: absent until fetched. */
    var hotels: Option<seq<Hotel>>
    /** ["hotel", id]. */
    var hotelDetail: map<string, Hotel>
    /** ["rooms", { hotelId }]. */
    var rooms: map<string, seq<Room>>

    constructor ()
      ensures hotels.None? && hotelDetail == map[] && rooms == map[]
    {
      hotels, hotelDetail, rooms := None, map[], map[];
    }
  }

  function HotelOtherThan(id: string): Hotel -> bool { (h: Hotel) => h.id != id }

  function RoomOtherThan(id: string): Room -> bool { (r: Room) => r.id != id }

  /** `list.filter((h) => h.id !== id)`. */
  function WithoutHotel(list: seq<Hotel>, id: string): (r: seq<Hotel>)
    ensures forall h :: h in r <==> h in list && h.id != id
    ensures |r| <= |list|
  {
    Filter(list, HotelOtherThan(id))
  }

  /** `list.filter((r) => r.id !== id)`. */
  function WithoutRoom(list: seq<Room>, id: string): (r: seq<Room>)
    ensures forall x :: x in r <==> x in list && x.id != id
    ensures |r| <= |list|
  {
    Filter(list, RoomOtherThan(id))
  }

  /**
   * Filtering by id works piece by piece, keeps every other room as often as it
   * occurred, and leaves a list without that id as it was: the rest stay in order.
   */
  lemma WithoutRoomLaws(a: seq<Room>, b: seq<Room>, id: string, x: Room)
    ensures WithoutRoom(a + b, id) == WithoutRoom(a, id) + WithoutRoom(b, id)
    ensures multiset(WithoutRoom(a, id))[x] == if x.id != id then multiset(a)[x] else 0
    ensures (forall y :: y in a ==> y.id != id) ==> WithoutRoom(a, id) == a
  {
    FilterConcat(a, b, RoomOtherThan(id));
    FilterCount(a, RoomOtherThan(id), x);
    if forall y :: y in a ==> y.id != id {
      FilterKeepsAll(a, RoomOtherThan(id));
    }
  }

  /** The same laws for the hotel list. */
  lemma WithoutHotelLaws(a: seq<Hotel>, b: seq<Hotel>, id: string, h: Hotel)
    ensures WithoutHotel(a + b, id) == WithoutHotel(a, id) + WithoutHotel(b, id)
    ensures multiset(WithoutHotel(a, id))[h] == if h.id != id then multiset(a)[h] else 0
    ensures (forall y :: y in a ==> y.id != id) ==> WithoutHotel(a, id) == a
  {
    FilterConcat(a, b, HotelOtherThan(id));
    FilterCount(a, HotelOtherThan(id), h);
    if forall y :: y in a ==> y.id != id {
      FilterKeepsAll(a, HotelOtherThan(id));
    }
  }

  /** `list.map((h) => (h.id === updated.id ? updated : h))`. */
  function ReplaceHotel(list: seq<Hotel>, updated: Hotel): (r: seq<Hotel>)
    ensures |r| == |list|
    ensures forall i :: 0 <= i < |list| ==> r[i] == (if list[i].id == updated.id then updated else list[i])
  {
    if |list| == 0 then []
    else [if list[0].id == updated.id then updated else list[0]] + ReplaceHotel(list[1..], updated)
  }

  /** Replacing twice is replacing once; a list without the id is left as it was. */
  lemma ReplaceHotelLaws(list: seq<Hotel>, updated: Hotel)
    ensures ReplaceHotel(ReplaceHotel(list, updated), updated) == ReplaceHotel(list, updated)
    ensures (forall h :: h in list ==> h.id != updated.id) ==> ReplaceHotel(list, updated) == list
    ensures (exists h :: h in list && h.id == updated.id) ==> updated in ReplaceHotel(list, updated)
  {
    if exists h :: h in list && h.id == updated.id {
      var h :| h in list && h.id == updated.id;
      var i :| 0 <= i < |list| && list[i] == h;
      assert ReplaceHotel(list, updated)[i] == updated;
    }
  }
}
