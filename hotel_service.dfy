/** The hotel operations over the hotel table, including the paged listing. */
module HotelService {
  import opened Wrappers
  import opened Entities
  import opened Arith
  import opened Seqs
  import opened Paging
  import opened Store

  const HOTEL_NOT_FOUND := "Hotel not found"

  /** getAllHotels: every hotel, newest first. */
  function GetAllHotels(hotels: seq<Hotel>): (r: seq<Hotel>)
    ensures |r| == |hotels|
    ensures forall i :: 0 <= i < |r| ==> r[i] == hotels[|hotels| - 1 - i]
  {
    Reverse(hotels)
  }

  /** getHotelById. */
  function GetHotelById(hotels: seq<Hotel>, id: string): (r: Result<Hotel>)
    ensures r.Err? <==> forall h :: h in hotels ==> h.id != id
    ensures r.Err? ==> r.error == HOTEL_NOT_FOUND
    ensures r.Ok? ==> r.value in hotels && r.value.id == id
  {
    match HotelIndex(hotels, id)
    case Some(k) => Ok(hotels[k])
    case None => Err(HOTEL_NOT_FOUND)
  }

  /** A create payload after createHotelSchema (amenities defaulted). */
  datatype HotelData = HotelData(name: string, description: string, amenities: seq<string>)

  /** createHotel: the hotel is stored with a fresh id and read back with its amenities. */
  method CreateHotel(db: Database, data: HotelData, newId: string) returns (h: Hotel)
    requires forall x :: x in db.hotels ==> x.id != newId
    modifies db
    ensures db.rooms == old(db.rooms) && db.bookings == old(db.bookings)
    ensures h == Hotel(newId, data.name, data.description, data.amenities)
    ensures db.hotels == old(db.hotels) + [h]
    ensures old(HotelIdsUnique(db.hotels)) ==> HotelIdsUnique(db.hotels)
  {
    h := Hotel(newId, data.name, data.description, data.amenities);
    db.hotels := db.hotels + [h];
  }

  /** An update payload: every field optional. */
  datatype HotelPatch = HotelPatch(name: Option<string>, description: Option<string>, amenities: Option<seq<string>>)

  /** prisma.hotel.update: the given fields replace the stored ones; a given amenity list, even empty, replaces the old one. */
  function ApplyPatch(h: Hotel, p: HotelPatch): (r: Hotel)
    ensures r.id == h.id
    ensures p.amenities.Some? ==> r.amenities == p.amenities.value
    ensures p.amenities.None? ==> r.amenities == h.amenities
  {
    Hotel(h.id, p.name.GetOr(h.name), p.description.GetOr(h.description), p.amenities.GetOr(h.amenities))
  }

  /** Updating with an empty patch changes nothing, and patching twice with the same patch is patching once. */
  lemma ApplyPatchLaws(h: Hotel, p: HotelPatch)
    ensures ApplyPatch(h, HotelPatch(None, None, None)) == h
    ensures ApplyPatch(ApplyPatch(h, p), p) == ApplyPatch(h, p)
  {
  }

  /** updateHotel: the patch is written, or Prisma reports the missing row. */
  method UpdateHotel(db: Database, id: string, data: HotelPatch) returns (r: Result<Hotel>)
    modifies db
    ensures db.rooms == old(db.rooms) && db.bookings == old(db.bookings)
    ensures r.Err? <==> forall h :: h in old(db.hotels) ==> h.id != id
    ensures r.Err? ==> r.error == RECORD_TO_UPDATE_NOT_FOUND && db.hotels == old(db.hotels)
    ensures r.Ok? ==> var k := HotelIndex(old(db.hotels), id).value;
                      r.value == ApplyPatch(old(db.hotels)[k], data) && db.hotels == old(db.hotels)[k := r.value]
    ensures old(HotelIdsUnique(db.hotels)) ==> HotelIdsUnique(db.hotels)
  {
    var found := HotelIndex(db.hotels, id);
    if found.None? {
      return Err(RECORD_TO_UPDATE_NOT_FOUND);
    }
    var k := found.value;
    var updated := ApplyPatch(db.hotels[k], data);
    db.hotels := db.hotels[k := updated];
    r := Ok(updated);
  }

  /** deleteHotel: prisma.hotel.delete of the hotel row, which fails when no row has the id. */
  method DeleteHotel(db: Database, id: string) returns (r: Result<()>)
    modifies db
    ensures db.rooms == old(db.rooms) && db.bookings == old(db.bookings)
    ensures r.Err? <==> forall h :: h in old(db.hotels) ==> h.id != id
    ensures r.Err? ==> r.error == RECORD_TO_DELETE_NOT_FOUND && db.hotels == old(db.hotels)
    ensures r.Ok? ==> var k := HotelIndex(old(db.hotels), id).value;
                      db.hotels == old(db.hotels)[..k] + old(db.hotels)[k + 1..]
  {
    var found := HotelIndex(db.hotels, id);
    if found.None? {
      return Err(RECORD_TO_DELETE_NOT_FOUND);
    }
    var k := found.value;
    db.hotels := db.hotels[..k] + db.hotels[k + 1..];
    r := Ok(());
  }

  // ---------------------------------------------------------------- paged listing

  datatype PageMeta = PageMeta(page: int, perPage: int, total: int, totalPages: int,
                               hasPrev: bool, hasNext: bool, prevPage: Option<int>, nextPage: Option<int>,
                               order: Order)

  datatype HotelPage = HotelPage(data: seq<Hotel>, meta: PageMeta)

  /** `orderBy: [{ createdAt: order }, { id: order }]` over a table kept in creation order. */
  function Ordered(hotels: seq<Hotel>, order: Order): (r: seq<Hotel>)
    ensures |r| == |hotels|
    ensures order == Asc ==> forall i :: 0 <= i < |r| ==> r[i] == hotels[i]
    ensures order == Desc ==> forall i :: 0 <= i < |r| ==> r[i] == hotels[|hotels| - 1 - i]
  {
    if order == Asc then hotels else Reverse(hotels)
  }

  /** The metadata of a page holding `rows` rows, as listHotelsPaged computes it. */
  function Meta(page: int, perPage: int, total: int, rows: int, order: Order): (m: PageMeta)
    requires page >= 1 && perPage >= 1 && total >= 0
    requires rows == Min(perPage, Max(0, total - (page - 1) * perPage))
    ensures m.page == page && m.perPage == perPage && m.total == total && m.order == order
    ensures total == 0 ==> m.totalPages == 0
    ensures total > 0 ==> (m.totalPages - 1) * perPage < total <= m.totalPages * perPage
    ensures m.hasPrev <==> page > 1
    ensures m.hasNext <==> page < m.totalPages
    ensures m.prevPage == (if m.hasPrev then Some(page - 1) else None)
    ensures m.nextPage == (if m.hasNext then Some(page + 1) else None)
  {
    var skip := (page - 1) * perPage;
    var totalPages := if total == 0 then 0 else CeilDiv(total, perPage);
    var hasPrev := page > 1;
    var hasNext := skip + rows < total;
    CeilDivSign(total, perPage);
    MoreRowsIffBeforeLastPage(page, perPage, total, rows);
    PageMeta(page, perPage, total, totalPages, hasPrev, hasNext,
             if hasPrev then Some(page - 1) else None,
             if hasNext then Some(page + 1) else None, order)
  }

  /**
   * listHotelsPaged: absent arguments default to page 1, 10 per page, newest first;
   * one page of rows and the navigation metadata.
   */
  function ListHotelsPaged(hotels: seq<Hotel>, page: Option<int>, perPage: Option<int>, order: Option<Order>): (r: HotelPage)
    requires page.GetOr(1) >= 1 && perPage.GetOr(10) >= 1
    ensures r.meta.page == page.GetOr(1) && r.meta.perPage == perPage.GetOr(10) && r.meta.order == order.GetOr(Desc)
    ensures r.meta.total == |hotels|
    ensures var skip := Skip(r.meta.page, r.meta.perPage);
            && |r.data| == Min(r.meta.perPage, Max(0, |hotels| - skip))
            && forall i :: 0 <= i < |r.data| ==> r.data[i] == Ordered(hotels, r.meta.order)[skip + i]
    ensures r.meta == Meta(page.GetOr(1), perPage.GetOr(10), |hotels|, |r.data|, order.GetOr(Desc))
  {
    var page := page.GetOr(1);
    var perPage := perPage.GetOr(10);
    var order := order.GetOr(Desc);
    var data := PageSlice(Ordered(hotels, order), Skip(page, perPage), perPage);
    HotelPage(data, Meta(page, perPage, |hotels|, |data|, order))
  }

  /** Every hotel is listed on exactly the page its position says, in either order. */
  lemma EveryHotelOnItsPage(hotels: seq<Hotel>, perPage: int, order: Order, i: int)
    requires perPage >= 1 && 0 <= i < |hotels|
    ensures var p := ListHotelsPaged(hotels, Some(i / perPage + 1), Some(perPage), Some(order));
            i % perPage < |p.data| && p.data[i % perPage] == Ordered(hotels, order)[i]
  {
    RowOnItsPage(Ordered(hotels, order), perPage, i);
    MulMonotone(0, i / perPage, perPage);
  }

  /** A page past the last one is empty and has no next page. */
  lemma PastTheEndIsEmpty(hotels: seq<Hotel>, page: int, perPage: int)
    requires page >= 1 && perPage >= 1 && (page - 1) * perPage >= |hotels|
    ensures ListHotelsPaged(hotels, Some(page), Some(perPage), None).data == []
    ensures !ListHotelsPaged(hotels, Some(page), Some(perPage), None).meta.hasNext
  {
    var skip := Skip(page, perPage);
    assert |Ordered(hotels, Desc)| == |hotels| <= skip;
    assert PageSlice(Ordered(hotels, Desc), skip, perPage) == [];
  }
}
