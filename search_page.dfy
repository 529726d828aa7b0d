/** The keyword search page of the tourist app
    (tourist-app/src/pages/SearchPage.tsx): a term and a category typed and
    picked freely, and results recomputed only when a search is run. */
module SearchPage {
  import opened Text
  import opened Sequences

  /** A row of the page's own mock table. */
  datatype SearchPlace = SearchPlace(id: string, name: string, category: string, tags: seq<string>)

  const MountainViewPoint := SearchPlace("1", "Mountain View Point", "Nature", ["hiking", "scenic"])
  const CityCentralPark := SearchPlace("2", "City Central Park", "Park", ["relax", "greenery"])
  const HistoricalMuseum := SearchPlace("3", "Historical Museum", "Culture", ["history", "exhibits"])
  const SunnyBeach := SearchPlace("4", "Sunny Beach", "Beach", ["sand", "sea", "relaxation"])
  const LocalMarket := SearchPlace("5", "Local Market", "Shopping", ["food", "souvenirs"])

  const MockPlaces: seq<SearchPlace> := [MountainViewPoint, CityCentralPark, HistoricalMuseum, SunnyBeach, LocalMarket]

  /** The category menu, 'All' first. */
  const Categories: seq<string> := ["All", "Nature", "Park", "Culture", "Beach", "Shopping", "Food"]

  /** The lower-cased name, or some lower-cased tag, contains the lower-cased term. */
  predicate MatchesTerm(place: SearchPlace, searchTerm: string) {
    Contains(Lower(place.name), Lower(searchTerm))
    || exists i :: 0 <= i < |place.tags| && Contains(Lower(place.tags[i]), Lower(searchTerm))
  }

  /** What one search keeps: an empty term keeps every place, and 'All'
      keeps every category. */
  predicate Passes(place: SearchPlace, searchTerm: string, selectedCategory: string) {
    (searchTerm == "" || MatchesTerm(place, searchTerm))
    && (selectedCategory == "All" || place.category == selectedCategory)
  }

  /** The results of `handleSearch` over a table: exactly the passing
      places, as an order-preserving sublist. */
  function SearchResults(places: seq<SearchPlace>, searchTerm: string, selectedCategory: string): (r: seq<SearchPlace>)
    ensures IsSubsequence(r, places)
    ensures forall p :: p in r <==> p in places && Passes(p, searchTerm, selectedCategory)
  {
    var keep := (p: SearchPlace) => Passes(p, searchTerm, selectedCategory);
    FilterIsSubsequence(places, keep);
    forall p ensures p in Filter(places, keep) <==> p in places && keep(p) {
      FilterMembership(places, keep, p);
    }
    Filter(places, keep)
  }

  /** An empty term with 'All' keeps the whole table. */
  lemma EmptySearchKeepsAll(places: seq<SearchPlace>)
    ensures SearchResults(places, "", "All") == places
  {
    FilterAll(places, (p: SearchPlace) => Passes(p, "", "All"));
  }

  /** No mock place is in the category 'Food', so it never yields results
      whatever the term. */
  lemma FoodFindsNothing(searchTerm: string)
    ensures SearchResults(MockPlaces, searchTerm, "Food") == []
  {
    var keep := (p: SearchPlace) => Passes(p, searchTerm, "Food");
    assert forall i :: 0 <= i < |MockPlaces| ==> MockPlaces[i].category != "Food";
    FilterNone(MockPlaces, keep);
  }

  /** The term 'sea' finds the beach by its tags. */
  lemma SeaFindsTheBeach()
    ensures SunnyBeach in SearchResults(MockPlaces, "sea", "All")
  {
    assert SunnyBeach.tags[1] == "sea";
    assert Lower("sea") == "sea";
    assert Contains(Lower(SunnyBeach.tags[1]), Lower("sea")) by {
      ContainsAt("sea", "sea");
      assert OccursAt("sea", "sea", 0);
    }
  }

  class SearchPageView {
    var searchTerm: string
    var selectedCategory: string
    var searchResults: seq<SearchPlace>

    /** The page opens with no term, 'All', and all five places. */
    constructor ()
      ensures searchTerm == "" && selectedCategory == "All" && searchResults == MockPlaces
    {
      searchTerm := "";
      selectedCategory := "All";
      searchResults := MockPlaces;
    }

    /** Typing changes the term and not the results. */
    method TypeTerm(value: string)
      modifies this
      ensures searchTerm == value && selectedCategory == old(selectedCategory) && searchResults == old(searchResults)
    {
      searchTerm := value;
    }

    /** Picking a category changes the selection and not the results. */
    method SelectCategory(value: string)
      modifies this
      ensures selectedCategory == value && searchTerm == old(searchTerm) && searchResults == old(searchResults)
    {
      selectedCategory := value;
    }

    /** `handleSearch` (the button, or Enter in the field): the term filter
        then the category filter, each applied only when it restricts. */
    method HandleSearch()
      modifies this
      ensures searchResults == SearchResults(MockPlaces, searchTerm, selectedCategory)
      ensures searchTerm == old(searchTerm) && selectedCategory == old(selectedCategory)
    {
      var filteredPlaces := MockPlaces;
      var term := searchTerm;
      var category := selectedCategory;
      var byTerm := (p: SearchPlace) => MatchesTerm(p, term);
      var byCategory := (p: SearchPlace) => p.category == category;
      if term != "" {
        filteredPlaces := Filter(filteredPlaces, byTerm);
      } else {
        FilterAll(MockPlaces, (p: SearchPlace) => term == "" || MatchesTerm(p, term));
      }
      var afterTerm := filteredPlaces;
      if category != "All" {
        filteredPlaces := Filter(filteredPlaces, byCategory);
      }
      var both := (p: SearchPlace) => Passes(p, term, category);
      var termStage := (p: SearchPlace) => term == "" || MatchesTerm(p, term);
      var categoryStage := (p: SearchPlace) => category == "All" || p.category == category;
      assert afterTerm == Filter(MockPlaces, termStage) by {
        if term != "" {
          FilterSame(MockPlaces, byTerm, termStage);
        }
      }
      assert filteredPlaces == Filter(afterTerm, categoryStage) by {
        if category != "All" {
          FilterSame(afterTerm, byCategory, categoryStage);
        } else {
          FilterAll(afterTerm, categoryStage);
        }
      }
      FilterFilter(MockPlaces, termStage, categoryStage, both);
      searchResults := filteredPlaces;
    }
  }

  /** Typing and then picking does not change the results until the next search. */
  method TypingDoesNotSearch(page: SearchPageView, term: string, category: string)
    modifies page
    ensures page.searchResults == old(page.searchResults)
  {
    page.TypeTerm(term);
    page.SelectCategory(category);
  }
}
