/**
 * The client's two room form schemas: a typed one (price must be a number) and a
 * coercing one (the price field is converted with Number()). Both demand a
 * non-empty room number, a known type and a price above zero.
 */
module RoomForms {
  import opened Wrappers
  import opened Entities
  import opened Text
  import RoomSchemas
  import RoomService

  datatype RoomFormValues = RoomFormValues(roomNumber: string, roomType: RoomType, pricePerNight: int, isAvailable: bool)

  /** The price field of a form: a number, or the text of an input box. */
  datatype PriceField = Amount(n: int) | Raw(text: string)

  /** roomSchema.ts roomFormSchema: typed fields; isAvailable defaults to true. */
  function ParseTypedRoomForm(roomNumber: Option<string>, roomType: Option<string>, price: Option<int>,
                              isAvailable: Option<bool>): (r: Option<RoomFormValues>)
    ensures r.Some? <==> roomNumber.Some? && |roomNumber.value| >= 1 && roomType.Some? && ParseRoomType(roomType.value).Some?
                         && price.Some? && price.value > 0
    ensures r.Some? ==> r.value.roomNumber == roomNumber.value && RoomTypeName(r.value.roomType) == roomType.value
                        && r.value.pricePerNight == price.value && r.value.isAvailable == isAvailable.GetOr(true)
  {
    if roomNumber.None? || roomType.None? || price.None? then None
    else if |roomNumber.value| < 1 || !(price.value > 0) then None
    else match ParseRoomType(roomType.value)
      case None => None
      case Some(t) => Some(RoomFormValues(roomNumber.value, t, price.value, isAvailable.GetOr(true)))
  }

  /** `z.coerce.number()`: an integer, or None for NaN and for the spellings the model does not read. */
  function CoercePrice(p: Option<PriceField>): (r: Option<int>)
    ensures p.None? ==> r.None?
    ensures p.Some? && p.value.Amount? ==> r == Some(p.value.n)
    ensures p.Some? && p.value.Raw? ==> r == ParseInteger(p.value.text)
  {
    match p
    case None => None
    case Some(Amount(n)) => Some(n)
    case Some(Raw(t)) => ParseInteger(t)
  }

  /** schemas/roomFormSchema.ts roomFormSchema: the price is converted first, then must be above zero. */
  function ParseCoercingRoomForm(roomNumber: Option<string>, roomType: Option<string>, price: Option<PriceField>,
                                 isAvailable: Option<bool>): (r: Option<RoomFormValues>)
    ensures r.Some? <==> roomNumber.Some? && |roomNumber.value| >= 1 && roomType.Some? && ParseRoomType(roomType.value).Some?
                         && CoercePrice(price).Some? && CoercePrice(price).value > 0
    ensures r.Some? ==> r.value.roomNumber == roomNumber.value && RoomTypeName(r.value.roomType) == roomType.value
                        && r.value.pricePerNight == CoercePrice(price).value && r.value.isAvailable == isAvailable.GetOr(true)
  {
    match (roomNumber, roomType, CoercePrice(price))
    case (Some(n), Some(t), Some(p)) =>
      if |n| >= 1 && p > 0 && ParseRoomType(t).Some? then Some(RoomFormValues(n, ParseRoomType(t).value, p, isAvailable.GetOr(true)))
      else None
    case _ => None
  }

  function AsField(p: Option<int>): Option<PriceField> {
    if p.Some? then Some(Amount(p.value)) else None
  }

  /** On numeric prices the two schemas agree. */
  lemma SchemasAgreeOnNumbers(roomNumber: Option<string>, roomType: Option<string>, price: Option<int>, isAvailable: Option<bool>)
    ensures ParseCoercingRoomForm(roomNumber, roomType, AsField(price), isAvailable)
         == ParseTypedRoomForm(roomNumber, roomType, price, isAvailable)
  {
  }

  /** A price typed as decimal digits is read as that number. */
  lemma DecimalPriceText(roomNumber: Option<string>, roomType: Option<string>, price: nat, isAvailable: Option<bool>)
    ensures ParseCoercingRoomForm(roomNumber, roomType, Some(Raw(Decimal(price))), isAvailable)
         == ParseCoercingRoomForm(roomNumber, roomType, Some(Amount(price)), isAvailable)
  {
    DecimalRoundTrip(price);
  }

  /** An empty price box is Number("") == 0, which is not above zero. */
  lemma EmptyPriceRejected(roomNumber: Option<string>, roomType: Option<string>, isAvailable: Option<bool>)
    ensures ParseCoercingRoomForm(roomNumber, roomType, Some(Raw("")), isAvailable).None?
  {
  }

  /** The create-room request body for form values and a hotel. */
  function CreateBody(v: RoomFormValues, hotelId: string): RoomSchemas.RoomInput {
    RoomSchemas.RoomInput(Some(hotelId), Some(v.roomNumber), Some(RoomTypeName(v.roomType)), Some(v.pricePerNight), Some(v.isAvailable))
  }

  /** Form values with a room number of at most 10 characters are accepted by createRoomSchema unchanged. */
  lemma FormValuesPassServer(roomNumber: Option<string>, roomType: Option<string>, price: Option<PriceField>,
                             isAvailable: Option<bool>, hotelId: string)
    requires ParseCoercingRoomForm(roomNumber, roomType, price, isAvailable).Some?
    requires |hotelId| >= 1 && |roomNumber.value| <= 10
    ensures var v := ParseCoercingRoomForm(roomNumber, roomType, price, isAvailable).value;
            RoomSchemas.ParseCreateRoom(CreateBody(v, hotelId))
              == Some(RoomService.RoomData(hotelId, v.roomNumber, v.roomType, v.pricePerNight, v.isAvailable))
  {
    var v := ParseCoercingRoomForm(roomNumber, roomType, price, isAvailable).value;
    RoomTypeRoundTrip(v.roomType);
  }

  /** The client sets no upper length on room numbers: an 11-character number passes the form and fails the API. */
  lemma LongNumberPassesFormOnly()
    ensures var v := ParseCoercingRoomForm(Some("ROOM-000011"), Some("SUITE"), Some(Amount(250)), None);
            v.Some? && RoomSchemas.ParseCreateRoom(CreateBody(v.value, "h1")).None?
  {
  }
}
