/** Searching in the wanderlust guide (wanderlust_guide/app/search.py): the
    placeholder text search, the voice search that hands it a fixed
    transcript, and `activity_search`, a case-insensitive whole-word match
    against each place's activity list. */
module GuideSearch {
  import opened Wrappers
  import opened Text
  import opened Sequences
  import opened GuidePlaces

  /** A text-search hit: a name and a description. */
  datatype SearchHit = SearchHit(name: string, description: string)

  /** The transcript the simulated speech recogniser produces. */
  const TranscribedText := "restaurants near me"

  /** `text_search`: the same single placeholder hit for every query. */
  function TextSearch(query: string): (r: seq<SearchHit>)
    ensures |r| == 1 && r[0].name == "Test Place" && r[0].description == "A place for testing."
  {
    [SearchHit("Test Place", "A place for testing.")]
  }

  /** `voice_search`: the text search run on the fixed transcript. */
  function VoiceSearch(): (r: seq<SearchHit>)
    ensures r == TextSearch(TranscribedText)
    ensures |r| == 1 && r[0].name == "Test Place"
  {
    TextSearch(TranscribedText)
  }

  /** The place lists the activity, compared lower-cased and as a whole
      string; a place without an activity list offers nothing. */
  predicate OffersActivity(place: GuidePlace, activity: string) {
    place.activities.Some?
    && exists i :: 0 <= i < |place.activities.value| && Lower(place.activities.value[i]) == Lower(activity)
  }

  /** What `activity_search` returns: the input itself for an empty
      activity, otherwise the places offering it in their order. */
  function ActivityResults(places: seq<GuidePlace>, activity: string): seq<GuidePlace> {
    if activity == "" then places else Filter(places, (p: GuidePlace) => OffersActivity(p, activity))
  }

  /** `activity_search`: the lower-cased activity is looked up in each
      place's lower-cased list, and the places that have it are appended. */
  method ActivitySearch(places: seq<GuidePlace>, activity: string) returns (foundPlaces: seq<GuidePlace>)
    ensures foundPlaces == ActivityResults(places, activity)
  {
    if activity == "" {
      return places;
    }
    var keep := (p: GuidePlace) => OffersActivity(p, activity);
    var wanted := Lower(activity);
    foundPlaces := [];
    var i := 0;
    while i < |places|
      invariant 0 <= i <= |places|
      invariant foundPlaces == Filter(places[..i], keep)
    {
      var place := places[i];
      var listed := if place.activities.Some? then place.activities.value else [];
      var lowered := seq(|listed|, j requires 0 <= j < |listed| => Lower(listed[j]));
      assert wanted in lowered <==> keep(place) by {
        if wanted in lowered {
          var j :| 0 <= j < |lowered| && lowered[j] == wanted;
          assert Lower(listed[j]) == Lower(activity);
        }
        if keep(place) {
          var j :| 0 <= j < |listed| && Lower(listed[j]) == Lower(activity);
          assert lowered[j] == wanted;
        }
      }
      FilterExtend(places, i, keep);
      if wanted in lowered {
        foundPlaces := foundPlaces + [place];
      }
      i := i + 1;
    }
    assert places[..i] == places;
  }

  /** A place is kept exactly when it offers the activity, for a non-empty
      activity; the result is always an order-preserving sublist. */
  lemma KeptIffOffered(places: seq<GuidePlace>, activity: string, place: GuidePlace)
    requires activity != ""
    ensures place in ActivityResults(places, activity) <==> place in places && OffersActivity(place, activity)
    ensures IsSubsequence(ActivityResults(places, activity), places)
  {
    var keep := (p: GuidePlace) => OffersActivity(p, activity);
    FilterMembership(places, keep, place);
    FilterIsSubsequence(places, keep);
  }

  /** Two spellings of an activity that differ only in letter case find
      the same places. */
  lemma CaseInsensitive(places: seq<GuidePlace>, activity: string, other: string)
    requires Lower(activity) == Lower(other)
    ensures ActivityResults(places, activity) == ActivityResults(places, other)
  {
    assert |activity| == |Lower(activity)| == |other|;
    FilterSame(places, (p: GuidePlace) => OffersActivity(p, activity), (p: GuidePlace) => OffersActivity(p, other));
  }

  /** A place without an activity list is never found. */
  lemma NoActivitiesNeverFound(places: seq<GuidePlace>, activity: string, place: GuidePlace)
    requires activity != "" && place.activities.None?
    ensures place !in ActivityResults(places, activity)
  {
    KeptIffOffered(places, activity, place);
  }
  /** A sample place that only has an activity list. */
  function WithActivities(name: string, activities: seq<string>): GuidePlace {
    GuidePlace(Some(name), map[], Some(activities), None, None)
  }

  const SunnyPark := WithActivities("Sunny Park", ["hiking", "picnic"])
  const DowntownCafe := WithActivities("Downtown Cafe", ["coffee", "reading"])
  const MountainTrail := WithActivities("Mountain Peak Trail", ["hiking", "sightseeing"])
  const CafeWithoutList := GuidePlace(Some("Cafe B"), map[], None, None, None)

  /** 'HiKiNg' finds the two hiking places, in order, and neither the cafe
      nor the place without a list. */
  lemma HikingFound()
    ensures ActivityResults([SunnyPark, DowntownCafe, CafeWithoutList, MountainTrail], "HiKiNg") == [SunnyPark, MountainTrail]
  {
    var places := [SunnyPark, DowntownCafe, CafeWithoutList, MountainTrail];
    assert Lower("HiKiNg") == "hiking";
    assert Lower("hiking") == "hiking";
    assert OffersActivity(SunnyPark, "HiKiNg") by {
      assert Lower(SunnyPark.activities.value[0]) == "hiking";
    }
    assert OffersActivity(MountainTrail, "HiKiNg") by {
      assert Lower(MountainTrail.activities.value[0]) == "hiking";
    }
    assert !OffersActivity(DowntownCafe, "HiKiNg") by {
      LowerNoCapitals("coffee");
      LowerNoCapitals("reading");
      forall i | 0 <= i < 2 ensures Lower(DowntownCafe.activities.value[i]) != "hiking" {
        if i == 0 {
          assert "coffee"[0] != "hiking"[0];
        } else {
          assert "reading"[0] != "hiking"[0];
        }
      }
    }
    var keep := (p: GuidePlace) => OffersActivity(p, "HiKiNg");
    assert Filter(places[3..], keep) == [MountainTrail];
    assert Filter(places[2..], keep) == [MountainTrail];
    assert Filter(places[1..], keep) == [MountainTrail];
  }
}
