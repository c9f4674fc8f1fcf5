/** The amenity chips of a hotel card: at most three shown, and a "+n more" chip for the rest. */
module HotelCard {
  import opened Arith

  /** What a hotel's amenities field holds at run time: an array, or anything else. */
  datatype AmenitiesField = List(items: seq<string>) | NotAList

  /** `Array.isArray(hotel.amenities) ? hotel.amenities : []`. */
  function Normalized(a: AmenitiesField): (r: seq<string>)
    ensures a.NotAList? ==> r == []
    ensures a.List? ==> r == a.items
  {
    if a.List? then a.items else []
  }

  /** `amenities.slice(0, 3)`. */
  function Shown(a: seq<string>): (r: seq<string>)
    ensures |r| == Min(3, |a|)
    ensures r == a[..|r|]
  {
    if |a| <= 3 then a else a[..3]
  }

  /** `Math.max(0, amenities.length - shown.length)`. */
  function Extra(a: seq<string>): (n: int)
    ensures n >= 0
    ensures |Shown(a)| + n == |a|
  {
    Max(0, |a| - |Shown(a)|)
  }

  /** `extra > 0 && <Chip label={`+${extra} more`} />`. */
  predicate ShowsMoreChip(a: seq<string>) { Extra(a) > 0 }

  /** The "+n more" chip appears exactly when there are more than three amenities. */
  lemma MoreChipIffOverThree(a: seq<string>)
    ensures ShowsMoreChip(a) <==> |a| > 3
  {
  }

  /** The shown chips and the counted rest make up the whole list. */
  lemma ShownThenRestIsAll(a: seq<string>)
    ensures Shown(a) + a[|Shown(a)|..] == a
    ensures |a[|Shown(a)|..]| == Extra(a)
  {
  }

  /** A card for a hotel whose amenities are not a list shows no chips at all. */
  lemma NonListShowsNothing()
    ensures var a := Normalized(NotAList);
            Shown(a) == [] && !ShowsMoreChip(a)
  {
  }
}
