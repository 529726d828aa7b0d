/** Map queries of the wanderlust guide (wanderlust_guide/app/map_utils.py):
    the places inside a bounding box, the zoom-dependent quadrant grouping,
    and the coordinates of a place looked up by name. The grouping's centre
    is an input: the float averages that produce it are not modelled. */
module GuideMap {
  import opened Wrappers
  import opened Sequences
  import opened GuidePlaces

  /** A corner of the view: (latitude, longitude). */
  datatype Corner = Corner(lat: real, lon: real)

  /** Inside the box, bounds included; a place missing a coordinate is
      never inside. */
  predicate InArea(place: GuidePlace, northEast: Corner, southWest: Corner) {
    HasCoordinates(place)
    && southWest.lat <= place.latitude.value <= northEast.lat
    && southWest.lon <= place.longitude.value <= northEast.lon
  }

  /** `find_places_in_map_area`: each place with both coordinates inside the
      box is appended, in input order. */
  method FindPlacesInMapArea(places: seq<GuidePlace>, northEast: Corner, southWest: Corner) returns (visiblePlaces: seq<GuidePlace>)
    ensures visiblePlaces == Filter(places, (p: GuidePlace) => InArea(p, northEast, southWest))
  {
    var inside := (p: GuidePlace) => InArea(p, northEast, southWest);
    visiblePlaces := [];
    var i := 0;
    while i < |places|
      invariant 0 <= i <= |places|
      invariant visiblePlaces == Filter(places[..i], inside)
    {
      var place := places[i];
      FilterExtend(places, i, inside);
      if place.latitude.Some? && place.longitude.Some? {
        var lat := place.latitude.value;
        var lon := place.longitude.value;
        if southWest.lat <= lat <= northEast.lat && southWest.lon <= lon <= northEast.lon {
          visiblePlaces := visiblePlaces + [place];
        }
      }
      i := i + 1;
    }
    assert places[..i] == places;
  }

  /** There is no wrap-around: corners given the wrong way round (south of
      north, or west of east) show nothing. */
  lemma InvertedCornersShowNothing(places: seq<GuidePlace>, northEast: Corner, southWest: Corner)
    requires southWest.lat > northEast.lat || southWest.lon > northEast.lon
    ensures Filter(places, (p: GuidePlace) => InArea(p, northEast, southWest)) == []
  {
    FilterNone(places, (p: GuidePlace) => InArea(p, northEast, southWest));
  }

  /** A place sitting exactly on a corner of the box is shown. */
  lemma CornerIsInside(places: seq<GuidePlace>, northEast: Corner, southWest: Corner, place: GuidePlace)
    requires southWest.lat <= northEast.lat && southWest.lon <= northEast.lon
    requires place in places && place.latitude == Some(northEast.lat) && place.longitude == Some(southWest.lon)
    ensures place in Filter(places, (p: GuidePlace) => InArea(p, northEast, southWest))
  {
    FilterMembership(places, (p: GuidePlace) => InArea(p, northEast, southWest), place);
  }

  datatype Quadrant = NW | NE | SW | SE

  /** The quadrant of a point relative to the centre: on the centre line a
      point counts as north, or as east. */
  function QuadrantOf(lat: real, lon: real, centre: Corner): (q: Quadrant)
    ensures q == NW <==> lat >= centre.lat && lon < centre.lon
    ensures q == NE <==> lat >= centre.lat && lon >= centre.lon
    ensures q == SW <==> lat < centre.lat && lon < centre.lon
    ensures q == SE <==> lat < centre.lat && lon >= centre.lon
  {
    if lat >= centre.lat && lon < centre.lon then NW
    else if lat >= centre.lat && lon >= centre.lon then NE
    else if lat < centre.lat && lon < centre.lon then SW
    else SE
  }

  /** The place has both coordinates and they fall in quadrant `q`. */
  predicate InQuadrant(place: GuidePlace, centre: Corner, q: Quadrant) {
    HasCoordinates(place) && QuadrantOf(place.latitude.value, place.longitude.value, centre) == q
  }

  /** The places of one quadrant, in input order. */
  function QuadrantPlaces(places: seq<GuidePlace>, centre: Corner, q: Quadrant): seq<GuidePlace> {
    Filter(places, (p: GuidePlace) => InQuadrant(p, centre, q))
  }

  /** One more place extends a quadrant's list by that place exactly when
      it falls in the quadrant. */
  lemma QuadrantExtend(places: seq<GuidePlace>, i: int, centre: Corner, q: Quadrant)
    requires 0 <= i < |places|
    ensures QuadrantPlaces(places[..i + 1], centre, q)
            == QuadrantPlaces(places[..i], centre, q) + (if InQuadrant(places[i], centre, q) then [places[i]] else [])
  {
    FilterExtend(places, i, (p: GuidePlace) => InQuadrant(p, centre, q));
  }

  /** The four lists of `details`. */
  datatype QuadrantLists = QuadrantLists(nw: seq<GuidePlace>, ne: seq<GuidePlace>, sw: seq<GuidePlace>, se: seq<GuidePlace>)

  /** The result of `get_map_clusters`: the places themselves when zoomed
      in, else a summary of the non-empty quadrants' sizes with the lists. */
  datatype MapView =
    | PlacesView(data: seq<GuidePlace>)
    | ClustersView(summary: map<Quadrant, nat>, details: QuadrantLists)

  /** The list of quadrant `q`. */
  function ListOf(lists: QuadrantLists, q: Quadrant): seq<GuidePlace> {
    match q
    case NW => lists.nw
    case NE => lists.ne
    case SW => lists.sw
    case SE => lists.se
  }

  /** Above zoom 15 the places are returned as they are; otherwise each
      place with both coordinates is appended to its quadrant's list, and
      the summary maps each non-empty quadrant to its size. */
  method GetMapClusters(places: seq<GuidePlace>, zoomLevel: int, centre: Corner) returns (view: MapView)
    ensures zoomLevel > 15 ==> view == PlacesView(places)
    ensures zoomLevel <= 15 ==> view.ClustersView?
    ensures view.ClustersView? ==> forall q :: ListOf(view.details, q) == QuadrantPlaces(places, centre, q)
    ensures view.ClustersView? ==> forall q :: (q in view.summary <==> ListOf(view.details, q) != [])
    ensures view.ClustersView? ==> forall q :: q in view.summary ==> view.summary[q] == |ListOf(view.details, q)|
  {
    if zoomLevel > 15 {
      return PlacesView(places);
    }
    var nw, ne, sw, se := [], [], [], [];
    var i := 0;
    while i < |places|
      invariant 0 <= i <= |places|
      invariant nw == QuadrantPlaces(places[..i], centre, NW) && ne == QuadrantPlaces(places[..i], centre, NE)
      invariant sw == QuadrantPlaces(places[..i], centre, SW) && se == QuadrantPlaces(places[..i], centre, SE)
    {
      var place := places[i];
      QuadrantExtend(places, i, centre, NW);
      QuadrantExtend(places, i, centre, NE);
      QuadrantExtend(places, i, centre, SW);
      QuadrantExtend(places, i, centre, SE);
      if place.latitude.Some? && place.longitude.Some? {
        var lat := place.latitude.value;
        var lon := place.longitude.value;
        if lat >= centre.lat && lon < centre.lon {
          nw := nw + [place];
        } else if lat >= centre.lat && lon >= centre.lon {
          ne := ne + [place];
        } else if lat < centre.lat && lon < centre.lon {
          sw := sw + [place];
        } else {
          se := se + [place];
        }
      }
      i := i + 1;
    }
    assert places[..i] == places;
    var lists := QuadrantLists(nw, ne, sw, se);
    var summary: map<Quadrant, nat> := map[];
    if nw != [] { summary := summary[NW := |nw|]; }
    if ne != [] { summary := summary[NE := |ne|]; }
    if sw != [] { summary := summary[SW := |sw|]; }
    if se != [] { summary := summary[SE := |se|]; }
    view := ClustersView(summary, lists);
  }

  /** The four quadrants partition the places that have both coordinates:
      their sizes add up to the number of such places. */
  lemma {:induction false} QuadrantsPartition(places: seq<GuidePlace>, centre: Corner)
    ensures |QuadrantPlaces(places, centre, NW)| + |QuadrantPlaces(places, centre, NE)|
            + |QuadrantPlaces(places, centre, SW)| + |QuadrantPlaces(places, centre, SE)|
            == |Filter(places, HasCoordinates)|
  {
    if places != [] {
      QuadrantsPartition(places[1..], centre);
    }
  }

  /** A place with both coordinates is in exactly one quadrant's list, and
      a place missing one is in none. */
  lemma ExactlyOneQuadrant(places: seq<GuidePlace>, centre: Corner, place: GuidePlace, q: Quadrant)
    requires place in places
    ensures place in QuadrantPlaces(places, centre, q) <==> InQuadrant(place, centre, q)
    ensures !HasCoordinates(place) ==> place !in QuadrantPlaces(places, centre, q)
  {
    FilterMembership(places, (p: GuidePlace) => InQuadrant(p, centre, q), place);
  }

  /** `get_place_coordinates`: the coordinates of the first place whose name
      is exactly the query, each `None` where the place lacks it; `None`
      when no place has that name. */
  method GetPlaceCoordinates(placeName: string, placesData: seq<GuidePlace>) returns (r: Option<(Option<real>, Option<real>)>)
    ensures r.None? <==> forall k :: 0 <= k < |placesData| ==> placesData[k].name != Some(placeName)
    ensures r.Some? ==> exists k :: 0 <= k < |placesData| && placesData[k].name == Some(placeName)
                                    && r.value == (placesData[k].latitude, placesData[k].longitude)
                                    && forall j :: 0 <= j < k ==> placesData[j].name != Some(placeName)
  {
    var i := 0;
    while i < |placesData|
      invariant 0 <= i <= |placesData|
      invariant forall j :: 0 <= j < i ==> placesData[j].name != Some(placeName)
    {
      if placesData[i].name == Some(placeName) {
        return Some((placesData[i].latitude, placesData[i].longitude));
      }
      i := i + 1;
    }
    return None;
  }
}
