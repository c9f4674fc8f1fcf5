/**
 * The client's hotel schemas: the domain schema (hotelBaseSchema, hotelSchema)
 * and the create and update form schemas. Names and descriptions are trimmed
 * before their lengths are checked. A result of None is a rejected form.
 */
module HotelForms {
  import opened Wrappers
  import opened Entities
  import opened Text
  import opened Amenities
  import HotelSchemas
  import HotelService

  datatype HotelFormValues = HotelFormValues(name: string, description: string, amenities: seq<string>)

  /** `.trim().min(2).max(50)`. */
  predicate NameFits(s: string) { 2 <= |Trim(s)| <= 50 }

  /** `.trim().min(10).max(200)`. */
  predicate DescriptionFits(s: string) { 10 <= |Trim(s)| <= 200 }

  /** `z.array(z.string().trim())`: every entry trimmed, order and length kept. */
  function TrimAll(s: seq<string>): (r: seq<string>)
    ensures |r| == |s|
    ensures forall i :: 0 <= i < |s| ==> r[i] == Trim(s[i])
  {
    if |s| == 0 then [] else [Trim(s[0])] + TrimAll(s[1..])
  }

  /** Trimming a trimmed list changes nothing. */
  lemma TrimAllIdempotent(s: seq<string>)
    ensures TrimAll(TrimAll(s)) == TrimAll(s)
  {
    forall i | 0 <= i < |s| ensures TrimAll(TrimAll(s))[i] == TrimAll(s)[i] {
      TrimIdempotent(s[i]);
    }
  }

  /** hotelBaseSchema: trimmed name and description within bounds, amenities trimmed and defaulting to none. */
  function ParseHotelBase(name: Option<string>, description: Option<string>, amenities: Option<seq<string>>): (r: Option<HotelFormValues>)
    ensures r.Some? <==> name.Some? && NameFits(name.value) && description.Some? && DescriptionFits(description.value)
    ensures r.Some? ==> r.value.name == Trim(name.value) && r.value.description == Trim(description.value)
    ensures r.Some? ==> |r.value.amenities| == |amenities.GetOr([])|
                        && forall i :: 0 <= i < |r.value.amenities| ==> r.value.amenities[i] == Trim(amenities.GetOr([])[i])
  {
    if name.None? || description.None? then None
    else if !NameFits(name.value) || !DescriptionFits(description.value) then None
    else Some(HotelFormValues(Trim(name.value), Trim(description.value), TrimAll(amenities.GetOr([]))))
  }

  /** Validating already validated values gives them back unchanged. */
  lemma BaseIsIdempotent(name: Option<string>, description: Option<string>, amenities: Option<seq<string>>)
    requires ParseHotelBase(name, description, amenities).Some?
    ensures var v := ParseHotelBase(name, description, amenities).value;
            ParseHotelBase(Some(v.name), Some(v.description), Some(v.amenities)) == Some(v)
  {
    TrimIdempotent(name.value);
    TrimIdempotent(description.value);
    TrimAllIdempotent(amenities.GetOr([]));
  }

  /** hotelSchema: the base schema extended with a required id. */
  function ParseHotel(id: Option<string>, name: Option<string>, description: Option<string>, amenities: Option<seq<string>>): (r: Option<Hotel>)
    ensures r.Some? <==> id.Some? && ParseHotelBase(name, description, amenities).Some?
    ensures r.Some? ==> var v := ParseHotelBase(name, description, amenities).value;
                        r.value == Hotel(id.value, v.name, v.description, v.amenities)
  {
    match (id, ParseHotelBase(name, description, amenities))
    case (Some(i), Some(v)) => Some(Hotel(i, v.name, v.description, v.amenities))
    case _ => None
  }

  /** `z.array(z.enum(AMENITY_OPTIONS))`. */
  predicate AllOffered(s: seq<string>) { forall i :: 0 <= i < |s| ==> s[i] in AMENITY_OPTIONS }

  /** hotelCreateSchema: trimmed name and description within bounds; amenities from the offered list, default none. */
  function ParseHotelCreateForm(name: Option<string>, description: Option<string>, amenities: Option<seq<string>>): (r: Option<HotelFormValues>)
    ensures r.Some? <==> name.Some? && NameFits(name.value) && description.Some? && DescriptionFits(description.value)
                         && AllOffered(amenities.GetOr([]))
    ensures r.Some? ==> r.value == HotelFormValues(Trim(name.value), Trim(description.value), amenities.GetOr([]))
  {
    if name.None? || description.None? then None
    else if !NameFits(name.value) || !DescriptionFits(description.value) then None
    else if !AllOffered(amenities.GetOr([])) then None
    else Some(HotelFormValues(Trim(name.value), Trim(description.value), amenities.GetOr([])))
  }

  /** hotelUpdateSchema: written out separately in the client, with the same rules as the create form. */
  function ParseHotelUpdateForm(name: Option<string>, description: Option<string>, amenities: Option<seq<string>>): (r: Option<HotelFormValues>)
    ensures r.Some? ==> name.Some? && NameFits(name.value) && description.Some? && DescriptionFits(description.value)
                        && AllOffered(r.value.amenities)
  {
    match (name, description)
    case (Some(n), Some(d)) =>
      var list := amenities.GetOr([]);
      if NameFits(n) && DescriptionFits(d) && AllOffered(list) then Some(HotelFormValues(Trim(n), Trim(d), list)) else None
    case _ => None
  }

  /** The update form accepts and produces exactly what the create form does. */
  lemma UpdateFormIsCreateForm(name: Option<string>, description: Option<string>, amenities: Option<seq<string>>)
    ensures ParseHotelUpdateForm(name, description, amenities) == ParseHotelCreateForm(name, description, amenities)
  {
  }

  /** No offered amenity has surrounding whitespace. */
  lemma OptionsAreTrimmed(a: string)
    requires a in AMENITY_OPTIONS
    ensures Trim(a) == a
  {
    assert a == "WiFi" || a == "Pool" || a == "Restaurant" || a == "Gym" || a == "Parking" || a == "Pet Friendly";
    TrimmedIsFixed(a);
  }

  /** Values from the create form are valid domain hotels, unchanged by the domain schema. */
  lemma {:induction false} CreateFormPassesDomainSchema(name: Option<string>, description: Option<string>, amenities: Option<seq<string>>)
    requires ParseHotelCreateForm(name, description, amenities).Some?
    ensures var v := ParseHotelCreateForm(name, description, amenities).value;
            ParseHotelBase(Some(v.name), Some(v.description), Some(v.amenities)) == Some(v)
  {
    var v := ParseHotelCreateForm(name, description, amenities).value;
    TrimIdempotent(name.value);
    TrimIdempotent(description.value);
    forall i | 0 <= i < |v.amenities| ensures Trim(v.amenities[i]) == v.amenities[i] {
      OptionsAreTrimmed(v.amenities[i]);
    }
    assert TrimAll(v.amenities) == v.amenities;
  }

  /** Values from the create form are accepted by the API's createHotelSchema as they are. */
  lemma CreateFormPassesServer(name: Option<string>, description: Option<string>, amenities: Option<seq<string>>)
    requires ParseHotelCreateForm(name, description, amenities).Some?
    ensures var v := ParseHotelCreateForm(name, description, amenities).value;
            HotelSchemas.ParseCreateHotel(Some(v.name), Some(v.description), Some(v.amenities))
              == Some(HotelService.HotelData(v.name, v.description, v.amenities))
  {
  }
}
