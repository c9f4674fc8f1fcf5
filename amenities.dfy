/** The fixed list of amenities the hotel forms offer, in display order. */
module Amenities {
  const AMENITY_OPTIONS: seq<string> := ["WiFi", "Pool", "Restaurant", "Gym", "Parking", "Pet Friendly"]
}
