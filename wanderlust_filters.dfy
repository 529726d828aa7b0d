/** Amenity filtering in the wanderlust guide
    (wanderlust_guide/app/filters.py): the five filter ids and
    `apply_filters`, which keeps the places on which every active id is set. */
module GuideFilters {
  import opened Wrappers
  import opened Sequences
  import opened GuidePlaces

  /** `DETAILED_FILTERS`: filter id to label. */
  const DetailedFilters: map<string, string> := map[
    "suitable_for_kids" := "Suitable for Kids",
    "pet_friendly" := "Pet-Friendly",
    "parking_available" := "Parking Available",
    "wheelchair_accessible" := "Wheelchair Accessible",
    "wifi_available" := "Wi-Fi Available"]

  /** `get_available_filters`: the table of five ids with their labels. */
  function GetAvailableFilters(): (r: map<string, string>)
    ensures |r.Keys| == 5
    ensures r.Keys == {"suitable_for_kids", "pet_friendly", "parking_available", "wheelchair_accessible", "wifi_available"}
    ensures r["pet_friendly"] == "Pet-Friendly" && r["wifi_available"] == "Wi-Fi Available"
  {
    DetailedFilters
  }

  /** Every active filter id is set on the place. */
  predicate MatchesAll(place: GuidePlace, activeFilters: set<string>) {
    forall f :: f in activeFilters ==> Flag(place, f)
  }

  /** What `apply_filters` returns: the input itself for no active
      filters, otherwise the matching places in their order. */
  function FilteredPlaces(places: seq<GuidePlace>, activeFilters: set<string>): seq<GuidePlace> {
    if activeFilters == {} then places else Filter(places, (p: GuidePlace) => MatchesAll(p, activeFilters))
  }

  /** `apply_filters`: for each place, the active ids are tried one at a
      time and the first unset one rejects it. */
  method ApplyFilters(places: seq<GuidePlace>, activeFilters: set<string>) returns (filteredPlaces: seq<GuidePlace>)
    ensures filteredPlaces == FilteredPlaces(places, activeFilters)
  {
    if activeFilters == {} {
      return places;
    }
    var keep := (p: GuidePlace) => MatchesAll(p, activeFilters);
    filteredPlaces := [];
    var i := 0;
    while i < |places|
      invariant 0 <= i <= |places|
      invariant filteredPlaces == Filter(places[..i], keep)
    {
      var place := places[i];
      var matched := true;
      var remaining := activeFilters;
      while remaining != {}
        invariant remaining <= activeFilters
        invariant matched <==> forall f :: f in activeFilters - remaining ==> Flag(place, f)
        decreases |remaining|
      {
        var f :| f in remaining;
        if !Flag(place, f) {
          matched := false;
          break;
        }
        remaining := remaining - {f};
      }
      assert matched <==> keep(place);
      FilterExtend(places, i, keep);
      if matched {
        filteredPlaces := filteredPlaces + [place];
      }
      i := i + 1;
    }
    assert places[..i] == places;
  }

  /** A place is kept exactly when every active id is set on it, a missing
      key counting as unset; the result is an order-preserving sublist. */
  lemma KeptIffAllSet(places: seq<GuidePlace>, activeFilters: set<string>, place: GuidePlace)
    ensures place in FilteredPlaces(places, activeFilters) <==> place in places && MatchesAll(place, activeFilters)
    ensures IsSubsequence(FilteredPlaces(places, activeFilters), places)
  {
    var keep := (p: GuidePlace) => MatchesAll(p, activeFilters);
    FilterMembership(places, keep, place);
    FilterIsSubsequence(places, keep);
    if activeFilters == {} {
      FilterAll(places, keep);
    }
  }

  /** Matching is a conjunction, so activating more filters can only drop
      places. */
  lemma MoreFiltersKeepLess(places: seq<GuidePlace>, fewer: set<string>, more: set<string>)
    requires fewer <= more
    ensures IsSubsequence(FilteredPlaces(places, more), FilteredPlaces(places, fewer))
  {
    var keepMore := (p: GuidePlace) => MatchesAll(p, more);
    var keepFewer := (p: GuidePlace) => MatchesAll(p, fewer);
    FilterMonotone(places, keepMore, keepFewer);
    if fewer == {} {
      FilterAll(places, keepFewer);
    }
    if more == {} {
      assert fewer == {};
      FilterIsSubsequence(places, keepFewer);
    }
  }

  /** A place that lacks the key of an active filter is never kept. */
  lemma MissingKeyExcluded(places: seq<GuidePlace>, activeFilters: set<string>, place: GuidePlace, key: string)
    requires key in activeFilters && key !in place.flags
    ensures place !in FilteredPlaces(places, activeFilters)
  {
    KeptIffAllSet(places, activeFilters, place);
  }
  /** A sample place that only has amenity flags. */
  function WithFlags(flags: map<string, bool>): GuidePlace {
    GuidePlace(None, flags, None, None, None)
  }

  const PlaceA := WithFlags(map["pet_friendly" := false, "wifi_available" := false])
  const PlaceB := WithFlags(map["pet_friendly" := true, "wifi_available" := true])
  const PlaceE := WithFlags(map["pet_friendly" := true])

  /** The Wi-Fi filter keeps the place that has it set and drops both the
      place where it is false and the place that lacks the key. */
  lemma WifiKeepsOnlyB()
    ensures FilteredPlaces([PlaceA, PlaceB, PlaceE], {"wifi_available"}) == [PlaceB]
    ensures FilteredPlaces([PlaceA, PlaceB, PlaceE], {"pet_friendly"}) == [PlaceB, PlaceE]
  {
    var places := [PlaceA, PlaceB, PlaceE];
    var wifi := (p: GuidePlace) => MatchesAll(p, {"wifi_available"});
    var pets := (p: GuidePlace) => MatchesAll(p, {"pet_friendly"});
    assert !wifi(PlaceA) && !wifi(PlaceE) && !pets(PlaceA);
    assert Filter(places[2..], wifi) == [];
    assert Filter(places[1..], wifi) == [PlaceB];
    assert Filter(places[2..], pets) == [PlaceE];
    assert Filter(places[1..], pets) == [PlaceB, PlaceE];
  }
}
