/** The place records of the wanderlust guide (wanderlust_guide/app):
    Python dictionaries, of which the guide reads a name, boolean amenity
    flags, an activity list and two coordinates, any of them possibly
    missing. Coordinates are only compared, so they are reals. */
module GuidePlaces {
  import opened Wrappers

  datatype GuidePlace = GuidePlace(
    name: Option<string>,
    flags: map<string, bool>,
    activities: Option<seq<string>>,
    latitude: Option<real>,
    longitude: Option<real>)

  /** `place.get(key, False)` read as a truth value: a missing key is false. */
  predicate Flag(place: GuidePlace, key: string) {
    key in place.flags && place.flags[key]
  }

  /** Both coordinates are present (neither `get` gives `None`). */
  predicate HasCoordinates(place: GuidePlace) {
    place.latitude.Some? && place.longitude.Some?
  }
}
