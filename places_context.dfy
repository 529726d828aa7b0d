/** The places provider of the tourist app
    (tourist-app/src/contexts/PlacesContext.tsx): one `PlacesState` record
    that every callback replaces, the trip being planned, and the query a
    fetch sends. Each network call is an input saying how it ended. */
module PlacesContext {
  import opened Wrappers
  import opened Text
  import opened Sequences

  /** The fields of `Place` that the provider and the planner read. */
  datatype Place = Place(id: string, name: string, category: string, tags: seq<string>)

  /** `NewTrip` as the planner submits it. */
  datatype NewTrip = NewTrip(name: string, placeIds: seq<string>)

  /** `Trip` as the server returns it. */
  datatype Trip = Trip(id: string, userId: string, name: string, placeIds: seq<string>)

  /** `PlacesState`. */
  datatype PlacesState = PlacesState(
    places: seq<Place>,
    currentTripPlaces: seq<Place>,
    isLoading: bool,
    error: Option<string>,
    isSubmittingTrip: bool,
    submitTripError: Option<string>,
    submitTripSuccess: bool)

  const InitialState := PlacesState([], [], false, None, false, None, false)

  /** How a request failed: the thrown error's `message`, when it has one. */
  datatype Failure = Failure(message: Option<string>)

  /** `err.message || fallback`: a non-empty message, else the fallback. */
  function ErrorText(f: Failure, fallback: string): (t: string)
    ensures f.message.Some? && f.message.value != "" ==> t == f.message.value
    ensures f.message.None? || f.message.value == "" ==> t == fallback
  {
    if f.message.Some? && f.message.value != "" then f.message.value else fallback
  }

  /** The query parameters `fetchPlaces` sends: `q` for a non-empty term,
      `category` for a given category other than 'all' in any letter case,
      and `tags` for a non-empty tag list, joined with commas. */
  function BuildQuery(searchTerm: Option<string>, category: Option<string>, tags: Option<seq<string>>): (q: map<string, string>)
    ensures "q" in q <==> searchTerm.Some? && searchTerm.value != ""
    ensures "q" in q ==> q["q"] == searchTerm.value
    ensures "category" in q <==> category.Some? && category.value != "" && Lower(category.value) != "all"
    ensures "category" in q ==> q["category"] == category.value
    ensures "tags" in q <==> tags.Some? && tags.value != []
    ensures "tags" in q ==> q["tags"] == Join(tags.value, ",")
    ensures q.Keys <= {"q", "category", "tags"}
  {
    var withTerm: map<string, string> := if searchTerm.Some? && searchTerm.value != "" then map["q" := searchTerm.value] else map[];
    var withCategory := if category.Some? && category.value != "" && Lower(category.value) != "all"
                        then withTerm["category" := category.value] else withTerm;
    if tags.Some? && |tags.value| > 0 then withCategory["tags" := Join(tags.value, ",")] else withCategory
  }

  /** 'All' and 'ALL' both mean no category restriction. */
  lemma AllInAnyCase()
    ensures "category" !in BuildQuery(None, Some("All"), None)
    ensures "category" !in BuildQuery(None, Some("ALL"), None)
    ensures BuildQuery(Some("beach"), Some("Culture"), Some(["sea", "sand"])) ==
              map["q" := "beach", "category" := "Culture", "tags" := "sea,sand"]
  {
    assert Lower("All") == "all" && Lower("ALL") == "all";
    assert Lower("Culture") != "all" by {
      assert |Lower("Culture")| == 7;
    }
    assert Join(["sea", "sand"], ",") == "sea,sand" by {
      assert ["sea", "sand"][..1] == ["sea"];
    }
  }

  /** Some place of the list has the id. */
  predicate HasPlace(places: seq<Place>, id: string) {
    exists i :: 0 <= i < |places| && places[i].id == id
  }

  /** `places.find(p => p.id === id)`. */
  function FindById(places: seq<Place>, id: string): (r: Option<Place>)
    ensures r.None? <==> !HasPlace(places, id)
    ensures r.Some? ==> exists k :: 0 <= k < |places| && places[k] == r.value && r.value.id == id
                                    && forall j :: 0 <= j < k ==> places[j].id != id
  {
    if places == [] then None
    else if places[0].id == id then Some(places[0])
    else
      var rest := FindById(places[1..], id);
      if rest.Some? then
        var k :| 0 <= k < |places[1..]| && places[1..][k] == rest.value && rest.value.id == id
                 && forall j :: 0 <= j < k ==> places[1..][j].id != id;
        assert places[k + 1] == rest.value;
        assert forall j :: 0 <= j < k + 1 ==> places[j].id != id by {
          forall j | 0 <= j < k + 1 ensures places[j].id != id {
            if j > 0 {
              assert places[j] == places[1..][j - 1];
            }
          }
        }
        rest
      else
        assert forall i :: 0 <= i < |places| ==> places[i].id != id by {
          forall i | 0 <= i < |places| ensures places[i].id != id {
            if i > 0 {
              assert places[i] == places[1..][i - 1];
            }
          }
        }
        None
  }

  /** The trip without every place carrying the id, the rest in order. */
  function RemovePlace(places: seq<Place>, placeId: string): (r: seq<Place>)
    ensures IsSubsequence(r, places)
    ensures forall p :: p in r <==> p in places && p.id != placeId
    ensures !HasPlace(r, placeId)
  {
    var keep := (p: Place) => p.id != placeId;
    FilterIsSubsequence(places, keep);
    forall p ensures p in Filter(places, keep) <==> p in places && keep(p) {
      FilterMembership(places, keep, p);
    }
    Filter(places, keep)
  }

  /** No two places of the list share an id. */
  predicate UniqueIds(places: seq<Place>) {
    forall i, j :: 0 <= i < j < |places| ==> places[i].id != places[j].id
  }

  /** The one state cell of `PlacesProvider`. */
  class PlacesProvider {
    var state: PlacesState

    constructor ()
      ensures state == InitialState
    {
      state := InitialState;
    }

    /** `getPlaceById`: the fetched places are searched first, then the trip. */
    function GetPlaceById(id: string): (r: Option<Place>)
      reads this
      ensures r.None? <==> !HasPlace(state.places, id) && !HasPlace(state.currentTripPlaces, id)
      ensures HasPlace(state.places, id) ==> r == FindById(state.places, id)
      ensures !HasPlace(state.places, id) ==> r == FindById(state.currentTripPlaces, id)
      ensures r.Some? ==> r.value.id == id
    {
      var fromPlaces := FindById(state.places, id);
      if fromPlaces.Some? then fromPlaces else FindById(state.currentTripPlaces, id)
    }

    /** The first update of `fetchPlaces`: loading, and the error cleared. */
    method BeginFetch()
      modifies this
      ensures state == old(state).(isLoading := true, error := None)
    {
      state := state.(isLoading := true, error := None);
    }

    /** The last update of `fetchPlaces`: the data replaces the places, or
        the error is recorded and the places stay. */
    method FinishFetch(outcome: Result<seq<Place>, Failure>)
      modifies this
      ensures outcome.Ok? ==> state == old(state).(places := outcome.value, isLoading := false)
      ensures outcome.Err? ==>
                state == old(state).(isLoading := false, error := Some(ErrorText(outcome.error, "Failed to fetch places")))
    {
      if outcome.Ok? {
        state := state.(places := outcome.value, isLoading := false);
      } else {
        state := state.(isLoading := false, error := Some(ErrorText(outcome.error, "Failed to fetch places")));
      }
    }

    /** `fetchPlaces`, given how the GET ended; returns the query it sent. */
    method FetchPlaces(searchTerm: Option<string>, category: Option<string>, tags: Option<seq<string>>,
                       outcome: Result<seq<Place>, Failure>) returns (query: map<string, string>)
      modifies this
      ensures query == BuildQuery(searchTerm, category, tags)
      ensures !state.isLoading
      ensures state.currentTripPlaces == old(state.currentTripPlaces)
      ensures state.isSubmittingTrip == old(state.isSubmittingTrip)
      ensures state.submitTripError == old(state.submitTripError) && state.submitTripSuccess == old(state.submitTripSuccess)
      ensures outcome.Ok? ==> state.places == outcome.value && state.error == None
      ensures outcome.Err? ==> state.places == old(state.places) && state.error.Some? && state.error.value != ""
      ensures outcome.Ok? ==> state == old(state).(places := outcome.value, isLoading := false, error := None)
      ensures outcome.Err? ==>
                state == old(state).(isLoading := false, error := Some(ErrorText(outcome.error, "Failed to fetch places")))
    {
      BeginFetch();
      query := BuildQuery(searchTerm, category, tags);
      FinishFetch(outcome);
    }

    /** `addPlaceToTrip`: a place whose id is already in the trip leaves the
        state exactly as it was; any other is appended. */
    method AddPlaceToTrip(place: Place)
      modifies this
      ensures HasPlace(old(state.currentTripPlaces), place.id) ==> state == old(state)
      ensures !HasPlace(old(state.currentTripPlaces), place.id) ==>
                state == old(state).(currentTripPlaces := old(state.currentTripPlaces) + [place])
    {
      if FindById(state.currentTripPlaces, place.id).Some? {
        return;
      }
      state := state.(currentTripPlaces := state.currentTripPlaces + [place]);
    }

    /** `removePlaceFromTrip`. */
    method RemovePlaceFromTrip(placeId: string)
      modifies this
      ensures state == old(state).(currentTripPlaces := RemovePlace(old(state.currentTripPlaces), placeId))
    {
      state := state.(currentTripPlaces := RemovePlace(state.currentTripPlaces, placeId));
    }

    /** `clearCurrentTrip`: only the trip list is emptied. */
    method ClearCurrentTrip()
      modifies this
      ensures state == old(state).(currentTripPlaces := [])
    {
      state := state.(currentTripPlaces := []);
    }

    /** The first update of `createTrip`: submitting, no error, no success. */
    method BeginCreateTrip()
      modifies this
      ensures state == old(state).(isSubmittingTrip := true, submitTripError := None, submitTripSuccess := false)
    {
      state := state.(isSubmittingTrip := true, submitTripError := None, submitTripSuccess := false);
    }

    /** The last update of `createTrip`: success empties the trip, failure
        keeps it and records the message or the default. */
    method FinishCreateTrip(outcome: Result<Trip, Failure>) returns (created: Option<Trip>)
      modifies this
      ensures outcome.Ok? ==>
                && created == Some(outcome.value)
                && state == old(state).(isSubmittingTrip := false, submitTripSuccess := true, currentTripPlaces := [])
      ensures outcome.Err? ==>
                && created == None
                && state == old(state).(isSubmittingTrip := false, submitTripSuccess := false,
                                        submitTripError := Some(ErrorText(outcome.error, "Failed to create trip")))
    {
      if outcome.Ok? {
        state := state.(isSubmittingTrip := false, submitTripSuccess := true, currentTripPlaces := []);
        return Some(outcome.value);
      }
      state := state.(isSubmittingTrip := false, submitTripSuccess := false,
                      submitTripError := Some(ErrorText(outcome.error, "Failed to create trip")));
      return None;
    }

    /** `createTrip`, given how the POST of `tripData` ended. */
    method CreateTrip(tripData: NewTrip, outcome: Result<Trip, Failure>) returns (created: Option<Trip>)
      modifies this
      ensures !state.isSubmittingTrip
      ensures state.places == old(state.places) && state.isLoading == old(state.isLoading) && state.error == old(state.error)
      ensures outcome.Ok? ==>
                && created == Some(outcome.value) && state.submitTripSuccess
                && state.submitTripError == None && state.currentTripPlaces == []
      ensures outcome.Err? ==>
                && created == None && !state.submitTripSuccess
                && state.submitTripError == Some(ErrorText(outcome.error, "Failed to create trip"))
                && state.currentTripPlaces == old(state.currentTripPlaces)
      ensures outcome.Ok? ==> state == old(state).(currentTripPlaces := [], isSubmittingTrip := false,
                                                   submitTripError := None, submitTripSuccess := true)
      ensures outcome.Err? ==> state == old(state).(isSubmittingTrip := false, submitTripSuccess := false,
                                                    submitTripError := Some(ErrorText(outcome.error, "Failed to create trip")))
    {
      BeginCreateTrip();
      created := FinishCreateTrip(outcome);
    }

    /** `resetSubmitTripStatus`: the three submit fields and nothing else. */
    method ResetSubmitTripStatus()
      modifies this
      ensures state == old(state).(isSubmittingTrip := false, submitTripError := None, submitTripSuccess := false)
    {
      state := state.(isSubmittingTrip := false, submitTripError := None, submitTripSuccess := false);
    }
  }

  /** Adding keeps an id-unique trip id-unique. */
  method AddKeepsTripUnique(provider: PlacesProvider, place: Place)
    requires UniqueIds(provider.state.currentTripPlaces)
    modifies provider
    ensures UniqueIds(provider.state.currentTripPlaces)
    ensures HasPlace(provider.state.currentTripPlaces, place.id)
  {
    ghost var before := provider.state.currentTripPlaces;
    provider.AddPlaceToTrip(place);
    var after := provider.state.currentTripPlaces;
    if !HasPlace(before, place.id) {
      assert after[|before|] == place;
      forall i, j | 0 <= i < j < |after| ensures after[i].id != after[j].id {
        if j == |before| {
          assert after[i] == before[i];
        }
      }
    }
  }

  /** Adding a new place and removing it again restores the trip. */
  method AddThenRemoveRestoresTrip(provider: PlacesProvider, place: Place)
    requires !HasPlace(provider.state.currentTripPlaces, place.id)
    modifies provider
    ensures provider.state == old(provider.state)
  {
    ghost var before := provider.state.currentTripPlaces;
    provider.AddPlaceToTrip(place);
    provider.RemovePlaceFromTrip(place.id);
    var keep := (p: Place) => p.id != place.id;
    FilterAppend(before, [place], keep);
    FilterAll(before, keep);
    assert [place][1..] == [];
  }
}
