/**
 * The request validation for hotels: create, update and the paged list query.
 * A result of None is a rejected request.
 */
module HotelSchemas {
  import opened Wrappers
  import opened Entities
  import opened Text
  import opened HotelService

  /** `name: z.string().min(2).max(50)`. */
  predicate ValidName(s: string) { 2 <= |s| <= 50 }

  /** `description: z.string().min(10).max(200)`. */
  predicate ValidDescription(s: string) { 10 <= |s| <= 200 }

  /** createHotelSchema: a name, a description, and amenities defaulting to none. */
  function ParseCreateHotel(name: Option<string>, description: Option<string>, amenities: Option<seq<string>>): (r: Option<HotelData>)
    ensures r.Some? <==> name.Some? && ValidName(name.value) && description.Some? && ValidDescription(description.value)
    ensures r.Some? ==> r.value == HotelData(name.value, description.value, amenities.GetOr([]))
  {
    if name.None? || description.None? then None
    else if !ValidName(name.value) || !ValidDescription(description.value) then None
    else Some(HotelData(name.value, description.value, amenities.GetOr([])))
  }

  /** A valid hotel survives the round trip through its request body. */
  lemma CreateRoundTrip(d: HotelData)
    requires ValidName(d.name) && ValidDescription(d.description)
    ensures ParseCreateHotel(Some(d.name), Some(d.description), Some(d.amenities)) == Some(d)
  {
  }

  /** updateHotelSchema: every field optional and checked when present. */
  function ParseUpdateHotel(name: Option<string>, description: Option<string>, amenities: Option<seq<string>>): (r: Option<HotelPatch>)
    ensures r.Some? <==> (name.Some? ==> ValidName(name.value)) && (description.Some? ==> ValidDescription(description.value))
    ensures r.Some? ==> r.value == HotelPatch(name, description, amenities)
  {
    if name.Some? && !ValidName(name.value) then None
    else if description.Some? && !ValidDescription(description.value) then None
    else Some(HotelPatch(name, description, amenities))
  }

  /** Every valid create body is also a valid update body. */
  lemma CreateBodyIsUpdateBody(name: Option<string>, description: Option<string>, amenities: Option<seq<string>>)
    requires ParseCreateHotel(name, description, amenities).Some?
    ensures ParseUpdateHotel(name, description, amenities).Some?
  {
  }

  datatype PageQuery = PageQuery(page: int, perPage: int, order: Order)

  /** The bound a count must respect: at least `lo`, and at most `hi` when there is one. */
  predicate InRange(n: int, lo: int, hi: Option<int>) { lo <= n && (hi.Some? ==> n <= hi.value) }

  /**
   * One numeric query parameter: an absent or empty string takes the default,
   * anything else is read with Number() and must be an integer in range.
   */
  function ParseCount(v: Option<string>, default: int, lo: int, hi: Option<int>): (r: Option<int>)
    ensures (v.None? || v == Some("")) && InRange(default, lo, hi) ==> r == Some(default)
    ensures r.Some? ==> InRange(r.value, lo, hi)
    ensures v.Some? && v.value != "" ==> (r.Some? <==> ParseInteger(v.value).Some? && InRange(ParseInteger(v.value).value, lo, hi))
    ensures v.Some? && v.value != "" && r.Some? ==> ParseInteger(v.value) == r
  {
    var n := if v.Some? && v.value != "" then ParseInteger(v.value) else Some(default);
    if n.Some? && InRange(n.value, lo, hi) then n else None
  }

  /** `order: z.enum(['asc', 'desc']).default('desc')`. */
  function ParseOrder(v: Option<string>): (r: Option<Order>)
    ensures v.None? ==> r == Some(Desc)
    ensures v.Some? ==> (r.Some? <==> v.value in ["asc", "desc"])
    ensures v == Some("asc") ==> r == Some(Asc)
    ensures v == Some("desc") ==> r == Some(Desc)
  {
    match v
    case None => Some(Desc)
    case Some(s) => if s == "asc" then Some(Asc) else if s == "desc" then Some(Desc) else None
  }

  /** pagePaginationQuerySchema: page at least 1 (default 1), per_page in 1..100 (default 10), order (default desc). */
  function ParsePageQuery(page: Option<string>, perPage: Option<string>, order: Option<string>): (r: Option<PageQuery>)
    ensures r.Some? ==> r.value.page >= 1 && 1 <= r.value.perPage <= 100
    ensures r.Some? <==> ParseCount(page, 1, 1, None).Some? && ParseCount(perPage, 10, 1, Some(100)).Some?
                         && ParseOrder(order).Some?
    ensures r.Some? ==> r.value == PageQuery(ParseCount(page, 1, 1, None).value, ParseCount(perPage, 10, 1, Some(100)).value,
                                             ParseOrder(order).value)
  {
    match (ParseCount(page, 1, 1, None), ParseCount(perPage, 10, 1, Some(100)), ParseOrder(order))
    case (Some(p), Some(n), Some(o)) => Some(PageQuery(p, n, o))
    case _ => None
  }

  /** With no parameters, the first page of ten, newest first. */
  lemma DefaultsAreFirstPageOfTen()
    ensures ParsePageQuery(None, None, None) == Some(PageQuery(1, 10, Desc))
    ensures ParsePageQuery(Some(""), Some(""), None) == Some(PageQuery(1, 10, Desc))
  {
  }

  /** Decimal page numbers and page sizes in range are read back exactly. */
  lemma DecimalQueryRoundTrip(page: nat, perPage: nat, order: Order)
    requires 1 <= page && 1 <= perPage <= 100
    ensures ParsePageQuery(Some(Decimal(page)), Some(Decimal(perPage)), Some(if order == Asc then "asc" else "desc"))
            == Some(PageQuery(page, perPage, order))
  {
    DecimalRoundTrip(page);
    DecimalRoundTrip(perPage);
  }

  /** A padded, signed, zero-led page number is read as its value: " +05 " is page 5. */
  lemma PaddedPageAccepted(perPage: Option<string>)
    requires perPage.None? || perPage == Some("")
    ensures ParsePageQuery(Some(" +05 "), perPage, None) == Some(PageQuery(5, 10, Desc))
  {
    PaddedSignedReading();
  }

  /** Page "0" is rejected. */
  lemma PageZeroRejected()
    ensures ParsePageQuery(Some("0"), None, None).None?
  {
    TrimmedIsFixed("0");
  }

  /** A blank page is Number("   ") == 0, and is rejected. */
  lemma BlankPageRejected()
    ensures ParsePageQuery(Some("   "), None, None).None?
  {
    BlankTrimsToEmpty("   ");
  }

  /** per_page "101" is rejected. */
  lemma PerPageOverHundredRejected()
    ensures ParsePageQuery(None, Some("101"), None).None?
  {
    TrimmedIsFixed("101");
    assert "101"[..2] == "10" && "10"[..1] == "1" && "1"[..0] == "";
  }

  /** A validated query meets listHotelsPaged's needs. */
  lemma ValidatedQueryIsListable(hotels: seq<Hotel>, page: Option<string>, perPage: Option<string>, order: Option<string>)
    requires ParsePageQuery(page, perPage, order).Some?
    ensures var q := ParsePageQuery(page, perPage, order).value;
            var r := ListHotelsPaged(hotels, Some(q.page), Some(q.perPage), Some(q.order));
            |r.data| <= q.perPage && r.meta.page == q.page
  {
  }
}
