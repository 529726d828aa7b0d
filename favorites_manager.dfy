/** The favourites list kept under one local-storage key
    (tourist-app/src/utils/favoritesManager.ts). The store is a field of a
    class; what the key holds is either nothing, text that does not parse,
    or a stored list. Serialising and parsing a list back is taken to be
    the identity. */
module FavoritesManager {
  import opened Wrappers
  import opened Sequences

  /** `FavoritePlace`: id and name, plus the optional display fields. */
  datatype FavoritePlace = FavoritePlace(id: string, name: string, image: Option<string>,
                                         category: Option<string>, description: Option<string>)

  /** What `localStorage.getItem('touristAppFavorites')` finds. An empty
      string is falsy and reads like a missing key. */
  datatype StoreSlot = Missing | Unparsable | Stored(list: seq<FavoritePlace>)

  const FavoritesKey := "touristAppFavorites"

  /** Some entry of the list has the id (`favorites.some(p => p.id === placeId)`). */
  predicate HasId(list: seq<FavoritePlace>, placeId: string) {
    exists i :: 0 <= i < |list| && list[i].id == placeId
  }

  /** No two entries share an id. */
  predicate UniqueIds(list: seq<FavoritePlace>) {
    forall i, j :: 0 <= i < j < |list| ==> list[i].id != list[j].id
  }

  /** The list without any entry carrying `placeId`, the rest in order. */
  function RemoveId(list: seq<FavoritePlace>, placeId: string): (r: seq<FavoritePlace>)
    ensures IsSubsequence(r, list)
    ensures forall p :: p in r <==> p in list && p.id != placeId
    ensures !HasId(r, placeId)
  {
    var keep := (p: FavoritePlace) => p.id != placeId;
    FilterIsSubsequence(list, keep);
    forall p ensures p in Filter(list, keep) <==> p in list && keep(p) {
      FilterMembership(list, keep, p);
    }
    Filter(list, keep)
  }

  /** Removing an id that no entry has leaves the list equal. */
  lemma RemoveAbsentId(list: seq<FavoritePlace>, placeId: string)
    requires !HasId(list, placeId)
    ensures RemoveId(list, placeId) == list
  {
    FilterAll(list, (p: FavoritePlace) => p.id != placeId);
  }

  /** Removing the id of an entry just appended to a list without it gives
      the list back. */
  lemma RemoveAppended(list: seq<FavoritePlace>, place: FavoritePlace)
    requires !HasId(list, place.id)
    ensures RemoveId(list + [place], place.id) == list
  {
    var keep := (p: FavoritePlace) => p.id != place.id;
    FilterAppend(list, [place], keep);
    RemoveAbsentId(list, place.id);
    assert [place][1..] == [];
  }

  class FavoritesStore {
    var slot: StoreSlot

    constructor (initial: StoreSlot)
      ensures slot == initial
    {
      slot := initial;
    }

    /** `getFavoritePlaces`: the stored list, or [] when the key is missing
        or its text fails to parse. */
    function GetFavoritePlaces(): (r: seq<FavoritePlace>)
      reads this
      ensures slot.Stored? ==> r == slot.list
      ensures !slot.Stored? ==> r == []
    {
      if slot.Stored? then slot.list else []
    }

    /** `isPlaceFavorite`: some stored entry carries the id; a missing or
        unreadable key makes nothing a favourite. */
    predicate IsPlaceFavorite(placeId: string): (r: bool)
      reads this
      ensures r <==> slot.Stored? && exists p :: p in slot.list && p.id == placeId
    {
      HasId(GetFavoritePlaces(), placeId)
    }

    /** `addFavoritePlace`: a null place or an empty id is ignored; an id
        already stored leaves the store untouched; otherwise the list read
        is written back with the place appended. */
    method AddFavoritePlace(place: Option<FavoritePlace>)
      modifies this
      ensures place.None? || place.value.id == "" ==> slot == old(slot)
      ensures place.Some? && place.value.id != "" && HasId(old(GetFavoritePlaces()), place.value.id) ==> slot == old(slot)
      ensures place.Some? && place.value.id != "" && !HasId(old(GetFavoritePlaces()), place.value.id) ==>
                slot == Stored(old(GetFavoritePlaces()) + [place.value])
      ensures place.Some? && place.value.id != "" ==> IsPlaceFavorite(place.value.id)
    {
      if place.None? || place.value.id == "" {
        return;
      }
      var favorites := GetFavoritePlaces();
      if !HasId(favorites, place.value.id) {
        var updatedFavorites := favorites + [place.value];
        assert updatedFavorites[|favorites|].id == place.value.id;
        slot := Stored(updatedFavorites);
      }
    }

    /** `removeFavoritePlace`: the filtered list is always written back,
        which also replaces a missing or unreadable entry with []. */
    method RemoveFavoritePlace(placeId: string)
      modifies this
      ensures slot == Stored(RemoveId(old(GetFavoritePlaces()), placeId))
      ensures !IsPlaceFavorite(placeId)
    {
      var favorites := GetFavoritePlaces();
      slot := Stored(RemoveId(favorites, placeId));
    }
  }

  /** Adding keeps the stored ids unique. */
  method AddKeepsIdsUnique(store: FavoritesStore, place: Option<FavoritePlace>)
    requires UniqueIds(store.GetFavoritePlaces())
    modifies store
    ensures UniqueIds(store.GetFavoritePlaces())
  {
    ghost var before := store.GetFavoritePlaces();
    store.AddFavoritePlace(place);
    if place.Some? && place.value.id != "" && !HasId(before, place.value.id) {
      var after := store.GetFavoritePlaces();
      assert after == before + [place.value];
      forall i, j | 0 <= i < j < |after| ensures after[i].id != after[j].id {
        if j == |before| {
          assert after[i] == before[i];
        }
      }
    }
  }

  /** Adding a place not yet stored and then removing it reads back as the
      list before. */
  method AddThenRemove(store: FavoritesStore, place: FavoritePlace)
    requires place.id != "" && !store.IsPlaceFavorite(place.id)
    modifies store
    ensures store.GetFavoritePlaces() == old(store.GetFavoritePlaces())
  {
    ghost var before := store.GetFavoritePlaces();
    store.AddFavoritePlace(Some(place));
    store.RemoveFavoritePlace(place.id);
    RemoveAppended(before, place);
  }
}
