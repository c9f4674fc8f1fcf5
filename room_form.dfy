/** The room form hook: the values a form opens with, and the submit step that trims the room number. */
module RoomForm {
  import opened Wrappers
  import opened Entities
  import opened Text
  import opened RoomForms
  import RoomSchemas

  /** The optional values an edit form is opened with. */
  datatype InitialValues = InitialValues(roomNumber: Option<string>, roomType: Option<RoomType>,
                                         pricePerNight: Option<PriceField>, isAvailable: Option<bool>)

  datatype FormDefaults = FormDefaults(roomNumber: string, roomType: RoomType, pricePerNight: PriceField, isAvailable: bool)

  /**
   * defaultValues: the initial room number or "", the initial type or SINGLE, the
   * initial price (kept as given) or an empty box, and Boolean(initial isAvailable).
   */
  function DefaultValues(init: InitialValues): (d: FormDefaults)
    ensures d.roomNumber == (if init.roomNumber.Some? then init.roomNumber.value else "")
    ensures d.roomType == (if init.roomType.Some? then init.roomType.value else Single)
    ensures d.pricePerNight == (if init.pricePerNight.Some? then init.pricePerNight.value else Raw(""))
    ensures d.isAvailable <==> init.isAvailable == Some(true)
  {
    FormDefaults(init.roomNumber.GetOr(""), init.roomType.GetOr(Single), init.pricePerNight.GetOr(Raw("")),
                 init.isAvailable == Some(true))
  }

  /** The initial values of a form editing a stored room. */
  function InitialFromRoom(r: Room): InitialValues {
    InitialValues(Some(r.roomNumber), Some(r.roomType), Some(Amount(r.pricePerNight)), Some(r.isAvailable))
  }

  /** Submitting an edit form left untouched yields the room's own values, when they satisfy the form. */
  lemma UntouchedEditFormRoundTrip(r: Room)
    requires |r.roomNumber| >= 1 && r.pricePerNight > 0
    ensures var d := DefaultValues(InitialFromRoom(r));
            ParseCoercingRoomForm(Some(d.roomNumber), Some(RoomTypeName(d.roomType)), Some(d.pricePerNight), Some(d.isAvailable))
              == Some(RoomFormValues(r.roomNumber, r.roomType, r.pricePerNight, r.isAvailable))
  {
    RoomTypeRoundTrip(r.roomType);
  }

  /**
   * A blank new-room form opens with an empty price, which the form rejects, and
   * with isAvailable false, so the schema's default of true never applies to it.
   */
  lemma BlankFormDefaults()
    ensures var d := DefaultValues(InitialValues(None, None, None, None));
            && d == FormDefaults("", Single, Raw(""), false)
            && ParseCoercingRoomForm(Some(d.roomNumber), Some(RoomTypeName(d.roomType)), Some(d.pricePerNight), Some(d.isAvailable)).None?
  {
  }

  /** The validated form values, an object onSuccess updates in place before handing it on. */
  class SubmittedValues {
    var roomNumber: string
    var roomType: RoomType
    var pricePerNight: int
    var isAvailable: bool

    constructor (v: RoomFormValues)
      ensures Values() == v
    {
      roomNumber, roomType, pricePerNight, isAvailable := v.roomNumber, v.roomType, v.pricePerNight, v.isAvailable;
    }

    function Values(): RoomFormValues
      reads this
    {
      RoomFormValues(roomNumber, roomType, pricePerNight, isAvailable)
    }
  }

  /** onSuccess: trim the room number in place, then submit the object; no other field changes. */
  method OnSuccess(v: SubmittedValues) returns (submitted: RoomFormValues)
    modifies v
    ensures v.Values() == old(v.Values()).(roomNumber := Trim(old(v.roomNumber)))
    ensures submitted == v.Values()
  {
    v.roomNumber := Trim(v.roomNumber);
    submitted := v.Values();
  }

  /** Submitting twice trims no further than submitting once. */
  lemma SubmitTrimIdempotent(v: RoomFormValues)
    ensures v.(roomNumber := Trim(v.roomNumber)).(roomNumber := Trim(Trim(v.roomNumber))) == v.(roomNumber := Trim(v.roomNumber))
  {
    TrimIdempotent(v.roomNumber);
  }

  /**
   * The form checks the room number before the submit step trims it: a number of
   * spaces passes the form, is sent as "", and createRoomSchema rejects it.
   */
  lemma BlankNumberPassesFormOnly()
    ensures var v := ParseCoercingRoomForm(Some("   "), Some("DOUBLE"), Some(Amount(90)), None);
            && v.Some?
            && Trim(v.value.roomNumber) == ""
            && RoomSchemas.ParseCreateRoom(CreateBody(v.value.(roomNumber := Trim(v.value.roomNumber)), "h1")).None?
  {
    BlankTrimsToEmpty("   ");
  }
}
