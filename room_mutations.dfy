/** The room mutation hooks: the error text shown to the user, and the optimistic room delete. */
module RoomMutations {
  import opened Wrappers
  import opened Entities
  import opened QueryCache

  /** The parts of a failed request the message is chosen from. */
  datatype RequestError = RequestError(status: Option<int>, dataError: Option<string>, dataMessage: Option<string>,
                                       message: Option<string>)

  /** A string that takes part in `||`: present and not empty. */
  predicate Truthy(s: Option<string>) { s.Some? && s.value != "" }

  const DUPLICATE_NUMBER_TEXT := "That room number already exists in this hotel."
  const NOT_FOUND_TEXT := "Room not found."
  const BAD_REQUEST_TEXT := "Please check the form fields."
  const FALLBACK_TEXT := "Something went wrong"

  /** extractErrorMessage: a fixed text for 409, 404 and 400, else the first non-empty message, else a fallback. */
  function ExtractErrorMessage(e: RequestError): (r: string)
    ensures r != ""
    ensures e.status == Some(409) ==> r == DUPLICATE_NUMBER_TEXT
    ensures e.status == Some(404) ==> r == NOT_FOUND_TEXT
    ensures e.status == Some(400) ==> r == BAD_REQUEST_TEXT
    ensures e.status != Some(409) && e.status != Some(404) && e.status != Some(400) ==>
      && (Truthy(e.dataError) ==> r == e.dataError.value)
      && (!Truthy(e.dataError) && Truthy(e.dataMessage) ==> r == e.dataMessage.value)
      && (!Truthy(e.dataError) && !Truthy(e.dataMessage) && Truthy(e.message) ==> r == e.message.value)
      && (!Truthy(e.dataError) && !Truthy(e.dataMessage) && !Truthy(e.message) ==> r == FALLBACK_TEXT)
  {
    if e.status == Some(409) then DUPLICATE_NUMBER_TEXT
    else if e.status == Some(404) then NOT_FOUND_TEXT
    else if e.status == Some(400) then BAD_REQUEST_TEXT
    else if Truthy(e.dataError) then e.dataError.value
    else if Truthy(e.dataMessage) then e.dataMessage.value
    else if Truthy(e.message) then e.message.value
    else FALLBACK_TEXT
  }

  /** The message is always one of the fixed texts or one of the messages the error carries. */
  lemma MessageComesFromError(e: RequestError)
    ensures var r := ExtractErrorMessage(e);
            r in [DUPLICATE_NUMBER_TEXT, NOT_FOUND_TEXT, BAD_REQUEST_TEXT, FALLBACK_TEXT]
            || Some(r) == e.dataError || Some(r) == e.dataMessage || Some(r) == e.message
  {
  }

  /** What onMutate hands to onError: the list before the edit, and its key. */
  datatype DeleteContext = DeleteContext(prev: Option<seq<Room>>, hotelId: string)

  /** useDeleteRoom onMutate: snapshot the hotel's cached rooms, then drop the deleted one from them if cached. */
  method OnMutateDeleteRoom(qc: QueryClient, hotelId: string, id: string) returns (ctx: DeleteContext)
    modifies qc
    ensures ctx.hotelId == hotelId
    ensures ctx.prev == (if hotelId in old(qc.rooms) then Some(old(qc.rooms)[hotelId]) else None)
    ensures qc.rooms == (if hotelId in old(qc.rooms) then old(qc.rooms)[hotelId := WithoutRoom(old(qc.rooms)[hotelId], id)]
                         else old(qc.rooms))
    ensures qc.hotels == old(qc.hotels) && qc.hotelDetail == old(qc.hotelDetail)
  {
    var prev := if hotelId in qc.rooms then Some(qc.rooms[hotelId]) else None;
    if prev.Some? {
      qc.rooms := qc.rooms[hotelId := WithoutRoom(prev.value, id)];
    }
    ctx := DeleteContext(prev, hotelId);
  }

  /** useDeleteRoom onError: put the snapshot back, if there was one. */
  method OnErrorDeleteRoom(qc: QueryClient, ctx: DeleteContext)
    modifies qc
    ensures qc.rooms == (if ctx.prev.Some? then old(qc.rooms)[ctx.hotelId := ctx.prev.value] else old(qc.rooms))
    ensures qc.hotels == old(qc.hotels) && qc.hotelDetail == old(qc.hotelDetail)
  {
    if ctx.prev.Some? {
      qc.rooms := qc.rooms[ctx.hotelId := ctx.prev.value];
    }
  }

  /** A delete that fails runs onMutate then onError, and leaves the cache as it found it. */
  method DeleteRoomFails(qc: QueryClient, hotelId: string, id: string)
    modifies qc
    ensures qc.rooms == old(qc.rooms) && qc.hotels == old(qc.hotels) && qc.hotelDetail == old(qc.hotelDetail)
  {
    var ctx := OnMutateDeleteRoom(qc, hotelId, id);
    OnErrorDeleteRoom(qc, ctx);
  }
}
