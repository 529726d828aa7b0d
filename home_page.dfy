/** The three lists of the discovery page (src/pages/HomePage.tsx): search
    results by name and category, recommendations by interest, and hidden
    gems, all selected from the loaded places in their original order. */
module HomePage {
  import opened Text
  import opened Sequences
  import opened MockPlaces

  /** The category button that stands for every category. */
  const AllCategories := "ทั้งหมด"

  /** The lower-cased name contains the lower-cased search term. */
  predicate MatchesSearch(place: Place, searchTerm: string) {
    Contains(Lower(place.name), Lower(searchTerm))
  }

  /** 'ทั้งหมด' admits every category; any other selection requires equality. */
  predicate MatchesCategory(place: Place, selectedCategory: string) {
    selectedCategory == AllCategories || place.category == selectedCategory
  }

  /** `filteredPlaces`: exactly the places matching both the term and the
      category, as an order-preserving sublist. */
  function FilteredPlaces(allPlaces: seq<Place>, searchTerm: string, selectedCategory: string): (r: seq<Place>)
    ensures IsSubsequence(r, allPlaces)
    ensures forall p :: p in r <==> p in allPlaces && MatchesSearch(p, searchTerm) && MatchesCategory(p, selectedCategory)
  {
    var keep := (p: Place) => MatchesSearch(p, searchTerm) && MatchesCategory(p, selectedCategory);
    FilterIsSubsequence(allPlaces, keep);
    forall p ensures p in Filter(allPlaces, keep) <==> p in allPlaces && keep(p) {
      FilterMembership(allPlaces, keep, p);
    }
    Filter(allPlaces, keep)
  }

  /** Some interest is one of the place's tags. */
  predicate SharesInterest(place: Place, userInterests: seq<string>) {
    exists i :: 0 <= i < |userInterests| && userInterests[i] in place.tags
  }

  /** `recommendedPlaces`: exactly the places with at least one tag among the
      user's interests, in order; no interests, no recommendations. */
  function RecommendedPlaces(allPlaces: seq<Place>, userInterests: seq<string>): (r: seq<Place>)
    ensures IsSubsequence(r, allPlaces)
    ensures forall p :: p in r <==> p in allPlaces && SharesInterest(p, userInterests)
    ensures userInterests == [] ==> r == []
  {
    var keep := (p: Place) => SharesInterest(p, userInterests);
    FilterIsSubsequence(allPlaces, keep);
    forall p ensures p in Filter(allPlaces, keep) <==> p in allPlaces && keep(p) {
      FilterMembership(allPlaces, keep, p);
    }
    Filter(allPlaces, keep)
  }

  /** `hiddenGems`: exactly the places flagged as hidden gems, in order. */
  function HiddenGems(allPlaces: seq<Place>): (r: seq<Place>)
    ensures IsSubsequence(r, allPlaces)
    ensures forall p :: p in r <==> p in allPlaces && p.hiddenGem
  {
    var keep := (p: Place) => p.hiddenGem;
    FilterIsSubsequence(allPlaces, keep);
    forall p ensures p in Filter(allPlaces, keep) <==> p in allPlaces && keep(p) {
      FilterMembership(allPlaces, keep, p);
    }
    Filter(allPlaces, keep)
  }

  /** The page shows the search-results section instead of the
      recommendation sections when a term is typed or a category chosen. */
  predicate ShowsSearchResults(searchTerm: string, selectedCategory: string) {
    searchTerm != "" || selectedCategory != AllCategories
  }

  /** While the search-results section is hidden, the filter admits every
      place, so the hidden list is the whole list. */
  lemma HiddenResultsAreEverything(allPlaces: seq<Place>, searchTerm: string, selectedCategory: string)
    requires !ShowsSearchResults(searchTerm, selectedCategory)
    ensures FilteredPlaces(allPlaces, searchTerm, selectedCategory) == allPlaces
  {
    var keep := (p: Place) => MatchesSearch(p, searchTerm) && MatchesCategory(p, selectedCategory);
    forall i | 0 <= i < |allPlaces| ensures keep(allPlaces[i]) {
      ContainsEmpty(Lower(allPlaces[i].name));
    }
    FilterAll(allPlaces, keep);
  }

  /** Narrowing the category keeps a sublist of what the unrestricted
      category shows for the same term. */
  lemma CategoryNarrows(allPlaces: seq<Place>, searchTerm: string, selectedCategory: string)
    ensures IsSubsequence(FilteredPlaces(allPlaces, searchTerm, selectedCategory),
                          FilteredPlaces(allPlaces, searchTerm, AllCategories))
  {
    var narrow := (p: Place) => MatchesSearch(p, searchTerm) && MatchesCategory(p, selectedCategory);
    var wide := (p: Place) => MatchesSearch(p, searchTerm) && MatchesCategory(p, AllCategories);
    FilterMonotone(allPlaces, narrow, wide);
  }
}

/** The same three lists over the static table (src/pages/HomePage.js with
    src/data/mockplaces.js). */
module HomePageStatic {
  import opened Text
  import opened Sequences
  import opened MockPlaces
  import opened HomePage

  /** Which static places are flagged as hidden gems. */
  lemma HiddenGemFlags()
    ensures !KhaoYai.hiddenGem && !Amphawa.hiddenGem && !ChiangKhan.hiddenGem
    ensures ArtistHouse.hiddenGem && ForestCafe.hiddenGem
  {
  }

  /** Over the static table the hidden gems are the places '3' and '4'. */
  lemma StaticHiddenGems()
    ensures HiddenGems(StaticPlaces) == [ArtistHouse, ForestCafe]
    ensures PlaceIds(HiddenGems(StaticPlaces)) == ["3", "4"]
  {
    var keep := (p: Place) => p.hiddenGem;
    HiddenGemFlags();
    var s4 := [ChiangKhan];
    var s3 := [ForestCafe] + s4;
    var s2 := [ArtistHouse] + s3;
    var s1 := [Amphawa] + s2;
    assert StaticPlaces == [KhaoYai] + s1;
    assert s4[1..] == [];
    assert Filter(s4, keep) == [];
    assert Filter(s3, keep) == [ForestCafe] by { assert s3[1..] == s4; }
    assert Filter(s2, keep) == [ArtistHouse, ForestCafe] by { assert s2[1..] == s3; }
    assert Filter(s1, keep) == [ArtistHouse, ForestCafe] by { assert s1[1..] == s2; }
    assert ([KhaoYai] + s1)[1..] == s1;
    PlaceIdsOfTwo(ArtistHouse, ForestCafe);
  }

  /** Which static places carry the tag 'คาเฟ่'. */
  lemma CafeTags()
    ensures "คาเฟ่" !in KhaoYai.tags && "คาเฟ่" !in Amphawa.tags && "คาเฟ่" !in ChiangKhan.tags
    ensures "คาเฟ่" in ArtistHouse.tags && "คาเฟ่" in ForestCafe.tags
  {
    assert ArtistHouse.tags[2] == "คาเฟ่" && ForestCafe.tags[0] == "คาเฟ่";
  }

  /** Which static places share the interest 'คาเฟ่'. */
  lemma CafeInterest()
    ensures !SharesInterest(KhaoYai, ["คาเฟ่"]) && !SharesInterest(Amphawa, ["คาเฟ่"])
    ensures SharesInterest(ArtistHouse, ["คาเฟ่"]) && SharesInterest(ForestCafe, ["คาเฟ่"])
    ensures !SharesInterest(ChiangKhan, ["คาเฟ่"])
  {
    CafeTags();
    assert ["คาเฟ่"][0] == "คาเฟ่";
  }

  /** The interest 'คาเฟ่' recommends the two places tagged 'คาเฟ่'. */
  lemma StaticCafeRecommendations()
    ensures RecommendedPlaces(StaticPlaces, ["คาเฟ่"]) == [ArtistHouse, ForestCafe]
  {
    var keep := (p: Place) => SharesInterest(p, ["คาเฟ่"]);
    CafeInterest();
    var s4 := [ChiangKhan];
    var s3 := [ForestCafe] + s4;
    var s2 := [ArtistHouse] + s3;
    var s1 := [Amphawa] + s2;
    assert StaticPlaces == [KhaoYai] + s1;
    assert s4[1..] == [];
    assert Filter(s4, keep) == [];
    assert Filter(s3, keep) == [ForestCafe] by { assert s3[1..] == s4; }
    assert Filter(s2, keep) == [ArtistHouse, ForestCafe] by { assert s2[1..] == s3; }
    assert Filter(s1, keep) == [ArtistHouse, ForestCafe] by { assert s1[1..] == s2; }
    assert ([KhaoYai] + s1)[1..] == s1;
  }

  /** Which static places the empty term and the category 'วัฒนธรรม' admit. */
  lemma CultureMatches()
    ensures !MatchesCategory(KhaoYai, "วัฒนธรรม") && MatchesCategory(Amphawa, "วัฒนธรรม")
    ensures MatchesCategory(ArtistHouse, "วัฒนธรรม") && !MatchesCategory(ForestCafe, "วัฒนธรรม")
    ensures !MatchesCategory(ChiangKhan, "วัฒนธรรม")
    ensures forall p :: MatchesSearch(p, "")
  {
    forall p ensures MatchesSearch(p, "") {
      ContainsEmpty(Lower(p.name));
    }
  }

  /** The category 'วัฒนธรรม' with no term shows the two culture places. */
  lemma StaticCultureResults()
    ensures FilteredPlaces(StaticPlaces, "", "วัฒนธรรม") == [Amphawa, ArtistHouse]
  {
    var keep := (p: Place) => MatchesSearch(p, "") && MatchesCategory(p, "วัฒนธรรม");
    CultureMatches();
    var s4 := [ChiangKhan];
    var s3 := [ForestCafe] + s4;
    var s2 := [ArtistHouse] + s3;
    var s1 := [Amphawa] + s2;
    assert StaticPlaces == [KhaoYai] + s1;
    assert s4[1..] == [];
    assert Filter(s4, keep) == [];
    assert Filter(s3, keep) == [] by { assert s3[1..] == s4; }
    assert Filter(s2, keep) == [ArtistHouse] by { assert s2[1..] == s3; }
    assert Filter(s1, keep) == [Amphawa, ArtistHouse] by { assert s1[1..] == s2; }
    assert ([KhaoYai] + s1)[1..] == s1;
  }
}
