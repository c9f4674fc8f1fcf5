/** The hotel mutation hooks' cache edits: create, update, and the optimistic delete. */
module HotelMutations {
  import opened Wrappers
  import opened Entities
  import opened QueryCache

  /** useCreateHotelMutation onSuccess: the created hotel goes first in the list (or alone), and into its detail entry. */
  method OnCreateSuccess(qc: QueryClient, created: Hotel)
    modifies qc
    ensures qc.hotels == Some(if old(qc.hotels).Some? then [created] + old(qc.hotels).value else [created])
    ensures qc.hotelDetail == old(qc.hotelDetail)[created.id := created]
    ensures qc.rooms == old(qc.rooms)
  {
    var prev := qc.hotels;
    qc.hotels := Some(if prev.Some? then [created] + prev.value else [created]);
    qc.hotelDetail := qc.hotelDetail[created.id := created];
  }

  /** useUpdateHotelMutation onSuccess: the detail entry becomes the update, and list entries with its id are replaced. */
  method OnUpdateSuccess(qc: QueryClient, updated: Hotel)
    modifies qc
    ensures qc.hotelDetail == old(qc.hotelDetail)[updated.id := updated]
    ensures qc.hotels == Some(ReplaceHotel(old(qc.hotels).GetOr([]), updated))
    ensures qc.rooms == old(qc.rooms)
  {
    qc.hotelDetail := qc.hotelDetail[updated.id := updated];
    qc.hotels := Some(ReplaceHotel(qc.hotels.GetOr([]), updated));
  }

  /** An update never adds a hotel to a list that was not cached: it becomes the empty list. */
  lemma UpdateOfAbsentListIsEmpty(updated: Hotel)
    ensures ReplaceHotel(None.GetOr([]), updated) == []
  {
  }

  /** useDeleteHotelMutation onMutate: snapshot the list, then drop the hotel from it (an absent list becomes []). */
  method OnMutateDelete(qc: QueryClient, id: string) returns (prev: Option<seq<Hotel>>)
    modifies qc
    ensures prev == old(qc.hotels)
    ensures qc.hotels == Some(WithoutHotel(old(qc.hotels).GetOr([]), id))
    ensures qc.hotelDetail == old(qc.hotelDetail) && qc.rooms == old(qc.rooms)
  {
    prev := qc.hotels;
    qc.hotels := Some(WithoutHotel(qc.hotels.GetOr([]), id));
  }

  /** onError: put a snapshot back, if there was one. */
  method OnDeleteError(qc: QueryClient, prev: Option<seq<Hotel>>)
    modifies qc
    ensures qc.hotels == (if prev.Some? then prev else old(qc.hotels))
    ensures qc.hotelDetail == old(qc.hotelDetail) && qc.rooms == old(qc.rooms)
  {
    if prev.Some? {
      qc.hotels := prev;
    }
  }

  /** onSuccess: the deleted hotel's detail entry is removed. */
  method OnDeleteSuccess(qc: QueryClient, id: string)
    modifies qc
    ensures qc.hotelDetail == old(qc.hotelDetail) - {id}
    ensures qc.hotels == old(qc.hotels) && qc.rooms == old(qc.rooms)
  {
    qc.hotelDetail := qc.hotelDetail - {id};
  }

  /** A failed delete restores a cached list exactly, but leaves an uncached one as []. */
  method DeleteHotelFails(qc: QueryClient, id: string)
    modifies qc
    ensures qc.hotels == (if old(qc.hotels).Some? then old(qc.hotels) else Some([]))
    ensures qc.hotelDetail == old(qc.hotelDetail) && qc.rooms == old(qc.rooms)
  {
    var prev := OnMutateDelete(qc, id);
    OnDeleteError(qc, prev);
  }
}
