/** The place details page (tourist-app/src/pages/PlaceDetailsPage.tsx): the
    record shown for a route id, with a fallback record, and the favourite
    toggle that writes through to the favourites store. */
module PlaceDetails {
  import opened Wrappers
  import opened FavoritesManager

  /** The fields of `PlaceDetailsType` the page reads when it builds a
      favourite. */
  datatype PlaceRecord = PlaceRecord(id: string, name: string, description: string, images: seq<string>, category: string)

  const MountainPeak := PlaceRecord("1", "Beautiful Mountain Peak",
    "Experience the breathtaking views from the top of the serene mountains. This destination offers challenging hikes and rewarding vistas, perfect for adventure seekers and nature lovers alike. Remember to bring appropriate gear.",
    ["https://via.placeholder.com/600x400.png?text=Mountain+View+1", "https://via.placeholder.com/300x200.png?text=Mountain+Path",
     "https://via.placeholder.com/300x200.png?text=Summit+Selfie"], "Adventure")
  const BeachResort := PlaceRecord("2", "Sunny Beach Resort",
    "Relax and unwind at this luxurious beach resort with golden sands and crystal clear waters. Enjoy various water sports, spa treatments, and exquisite dining options. Perfect for a family vacation or a romantic getaway.",
    ["https://via.placeholder.com/600x400.png?text=Beach+Resort+Main", "https://via.placeholder.com/300x200.png?text=Beach+Activities",
     "https://via.placeholder.com/300x200.png?text=Resort+Pool"], "Relaxation")
  const CityTour := PlaceRecord("3", "Historic City Tour",
    "Explore the rich history and culture of this ancient city.",
    ["https://via.placeholder.com/600x400.png?text=Historic+City+Main", "https://via.placeholder.com/300x200.png?text=Ancient+Ruins",
     "https://via.placeholder.com/300x200.png?text=Museum+Exhibit"], "Culture")
  const NotFound := PlaceRecord("unknown", "Place Not Found",
    "The place you are looking for does not exist or has been moved.",
    ["https://via.placeholder.com/600x400.png?text=Not+Found"], "Unknown")

  /** `mockPlaceDatabase`, with its 'default' entry. */
  const PlaceDatabase: map<string, PlaceRecord> := map["1" := MountainPeak, "2" := BeachResort, "3" := CityTour, "default" := NotFound]

  const PlaceholderImage := "https://via.placeholder.com/150"

  /** `mockPlaceDatabase[id] || mockPlaceDatabase['default']`. */
  function RecordFor(id: string): (r: PlaceRecord)
    ensures id in {"1", "2", "3"} ==> r == PlaceDatabase[id] && r.id == id
    ensures id !in {"1", "2", "3"} ==> r == NotFound && r.id == "unknown"
  {
    if id in PlaceDatabase then PlaceDatabase[id] else PlaceDatabase["default"]
  }

  /** JavaScript `substring(0, n)`: at most the first n characters. */
  function Prefix(s: string, n: nat): (r: string)
    ensures |r| <= n && r <= s
    ensures |s| <= n ==> r == s
  {
    if |s| <= n then s else s[..n]
  }

  /** The favourite stored for a record: its first image or the
      placeholder, and the first 100 characters of the description with
      '...' appended whatever its length. */
  function FavoriteFor(place: PlaceRecord): (f: FavoritePlace)
    ensures f.id == place.id && f.name == place.name && f.category == Some(place.category)
    ensures f.image == Some(if place.images != [] then place.images[0] else PlaceholderImage)
    ensures f.description.Some? && |f.description.value| <= 103
    ensures f.description.value == Prefix(place.description, 100) + "..."
  {
    var imageUrl := if |place.images| > 0 then place.images[0] else PlaceholderImage;
    FavoritePlace(place.id, place.name, Some(imageUrl), Some(place.category), Some(Prefix(place.description, 100) + "..."))
  }

  /** A description no longer than 100 characters keeps all of it, '...' added. */
  lemma ShortDescriptionGetsEllipsis()
    ensures FavoriteFor(CityTour).description == Some(CityTour.description + "...")
  {
    assert |CityTour.description| <= 100;
  }

  /** The page's state cells and the store it writes to. */
  class PlaceDetailsPage {
    var place: Option<PlaceRecord>
    var isFavorite: bool
    const store: FavoritesStore

    constructor (store: FavoritesStore)
      ensures place == None && !isFavorite && this.store == store
    {
      place := None;
      isFavorite := false;
      this.store := store;
    }

    /** The heart shown matches what the store holds for a known place. */
    predicate InSync()
      reads this, store
    {
      place.Some? && place.value.id != "unknown" ==> isFavorite == store.IsPlaceFavorite(place.value.id)
    }

    /** The effect run for the route id: a present id selects its record or
        the fallback, and only a known record reads its favourite status;
        for the fallback the previous flag stays. */
    method LoadPlace(id: Option<string>)
      modifies this
      ensures id.None? || id.value == "" ==> place == old(place) && isFavorite == old(isFavorite)
      ensures id.Some? && id.value != "" ==> place == Some(RecordFor(id.value))
      ensures id.Some? && id.value != "" && RecordFor(id.value).id != "unknown" ==>
                isFavorite == store.IsPlaceFavorite(id.value)
      ensures id.Some? && id.value != "" && RecordFor(id.value).id == "unknown" ==> isFavorite == old(isFavorite)
      ensures id.Some? && id.value != "" ==> InSync()
    {
      if id.Some? && id.value != "" {
        var currentPlace := RecordFor(id.value);
        place := Some(currentPlace);
        if currentPlace.id != "unknown" {
          isFavorite := store.IsPlaceFavorite(currentPlace.id);
        }
      }
    }

    /** `handleToggleFavorite`: nothing happens without a record or for the
        fallback; otherwise a favourite is removed, or the record built by
        `FavoriteFor` is appended after the stored favourites unless its id is
        already stored, and the flag flips. */
    method HandleToggleFavorite()
      modifies this, store
      ensures place == old(place)
      ensures old(place).None? || old(place).value.id == "unknown" ==>
                isFavorite == old(isFavorite) && store.slot == old(store.slot)
      ensures old(place).Some? && old(place).value.id != "unknown" ==> isFavorite == !old(isFavorite)
      ensures old(place).Some? && old(place).value.id != "unknown" && old(isFavorite) ==>
                store.slot == Stored(RemoveId(old(store.GetFavoritePlaces()), old(place).value.id))
      ensures old(place).Some? && old(place).value.id != "unknown" && !old(isFavorite) && old(place).value.id != "" ==>
                store.IsPlaceFavorite(old(place).value.id)
      ensures old(place).Some? && old(place).value.id != "unknown" && !old(isFavorite) && old(place).value.id != ""
              && !HasId(old(store.GetFavoritePlaces()), old(place).value.id) ==>
                store.slot == Stored(old(store.GetFavoritePlaces()) + [FavoriteFor(old(place).value)])
      ensures old(place).Some? && old(place).value.id != "unknown" && !old(isFavorite)
              && (old(place).value.id == "" || HasId(old(store.GetFavoritePlaces()), old(place).value.id)) ==>
                store.slot == old(store.slot)
      ensures old(InSync()) && (old(place).None? || old(place).value.id != "") ==> InSync()
    {
      if place.None? || place.value.id == "unknown" {
        return;
      }
      var favoritePlaceData := FavoriteFor(place.value);
      if isFavorite {
        store.RemoveFavoritePlace(place.value.id);
      } else {
        store.AddFavoritePlace(Some(favoritePlaceData));
      }
      isFavorite := !isFavorite;
    }
  }
}
