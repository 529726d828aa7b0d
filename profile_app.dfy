/** The profile lists of the Firestore variant of the application
    (src/app.js): interests, favourite place ids and itinerary places, and
    the message modal its handlers drive. Each Firestore call is an input
    that says whether the write went through; the local lists change only
    after a write succeeded, because the setters run after the `await`. */
module ProfileApp {
  import opened Wrappers
  import opened Sequences
  import opened MockPlaces

  /** The profile document as a snapshot delivers it; each field may be missing. */
  datatype ProfileDoc = ProfileDoc(interests: Option<seq<string>>, favorites: Option<seq<string>>,
                                   itinerary: Option<seq<Place>>)

  /** The Firestore write a handler issues. */
  datatype ProfileWrite =
    | MergeInterests(interests: seq<string>)
    | RemoveFavorite(placeId: string)
    | UnionFavorite(placeId: string)
    | UnionItinerary(place: Place)
    | SetItinerary(itinerary: seq<Place>)
    | CreateProfile

  /** `value || []` on an array field: a missing field reads as empty. */
  function OrEmpty<T>(field: Option<seq<T>>): (r: seq<T>)
    ensures field.None? ==> r == []
    ensures field.Some? ==> r == field.value
  {
    if field.Some? then field.value else []
  }

  /** The itinerary without every place carrying `placeId`, others in order. */
  function RemovePlace(places: seq<Place>, placeId: string): (r: seq<Place>)
    ensures IsSubsequence(r, places)
    ensures forall p :: p in r <==> p in places && p.id != placeId
  {
    var keep := (p: Place) => p.id != placeId;
    FilterIsSubsequence(places, keep);
    forall p ensures p in Filter(places, keep) <==> p in places && keep(p) {
      FilterMembership(places, keep, p);
    }
    Filter(places, keep)
  }

  /** Some place of the list carries `placeId`
      (`itineraryPlaces.some(p => p.id === place.id)`). */
  predicate HasPlace(places: seq<Place>, placeId: string) {
    exists i :: 0 <= i < |places| && places[i].id == placeId
  }

  /** Removing an id no place carries leaves the itinerary equal. */
  lemma RemoveAbsentPlace(places: seq<Place>, placeId: string)
    requires !HasPlace(places, placeId)
    ensures RemovePlace(places, placeId) == places
  {
    FilterAll(places, (p: Place) => p.id != placeId);
  }

  /** Appending a place whose id is new keeps the ids unique. */
  lemma AppendNewPlaceKeepsUnique(places: seq<Place>, place: Place)
    requires UniqueIds(places) && !HasPlace(places, place.id)
    ensures UniqueIds(places + [place])
  {
    var r := places + [place];
    forall i, j | 0 <= i < j < |r| ensures r[i].id != r[j].id {
      if j == |places| {
        assert r[i] == places[i];
      }
    }
  }

  /** The state cells of `MainApp` that the handlers change. */
  class MainApp {
    /** `db && userId`: whether a signed-in Firestore session exists. */
    const signedIn: bool
    var userInterests: seq<string>
    var favoritePlaceIds: seq<string>
    var itineraryPlaces: seq<Place>
    var message: string
    var messageType: string
    var showMessageModal: bool

    constructor (signedIn: bool)
      ensures this.signedIn == signedIn
      ensures userInterests == [] && favoritePlaceIds == [] && itineraryPlaces == []
      ensures message == "" && messageType == "info" && !showMessageModal
    {
      this.signedIn := signedIn;
      userInterests := [];
      favoritePlaceIds := [];
      itineraryPlaces := [];
      message := "";
      messageType := "info";
      showMessageModal := false;
    }

    /** The lists come back exactly as they were. */
    predicate ListsUnchanged(interests: seq<string>, favorites: seq<string>, itinerary: seq<Place>)
      reads this
    {
      userInterests == interests && favoritePlaceIds == favorites && itineraryPlaces == itinerary
    }

    /** Raise the message modal. */
    method Show(text: string, kind: string)
      modifies this
      ensures message == text && messageType == kind && showMessageModal
      ensures ListsUnchanged(old(userInterests), old(favoritePlaceIds), old(itineraryPlaces))
    {
      message := text;
      messageType := kind;
      showMessageModal := true;
    }

    /** The snapshot listener: an existing document fills the three lists,
        a missing field reading as empty; a missing document asks for the
        empty profile to be created and changes nothing locally. */
    method ApplySnapshot(doc: Option<ProfileDoc>) returns (issued: Option<ProfileWrite>)
      modifies this
      ensures doc.Some? ==> && userInterests == OrEmpty(doc.value.interests)
                            && favoritePlaceIds == OrEmpty(doc.value.favorites)
                            && itineraryPlaces == OrEmpty(doc.value.itinerary)
                            && issued == None
      ensures doc.None? ==> ListsUnchanged(old(userInterests), old(favoritePlaceIds), old(itineraryPlaces))
                            && issued == Some(CreateProfile)
      ensures message == old(message) && messageType == old(messageType) && showMessageModal == old(showMessageModal)
    {
      if doc.Some? {
        userInterests := OrEmpty(doc.value.interests);
        favoritePlaceIds := OrEmpty(doc.value.favorites);
        itineraryPlaces := OrEmpty(doc.value.itinerary);
        issued := None;
      } else {
        issued := Some(CreateProfile);
      }
    }

    /** The snapshot listener's error callback. */
    method SnapshotFailed()
      modifies this
      ensures message == "เกิดข้อผิดพลาดในการดึงข้อมูลผู้ใช้" && messageType == "error" && showMessageModal
      ensures ListsUnchanged(old(userInterests), old(favoritePlaceIds), old(itineraryPlaces))
    {
      Show("เกิดข้อผิดพลาดในการดึงข้อมูลผู้ใช้", "error");
    }

    /** `handleSaveInterests`: without a session nothing is written; after a
        successful merge the interests are replaced; after a failed one they
        are kept. */
    method HandleSaveInterests(interests: seq<string>, writeSucceeds: bool) returns (issued: Option<ProfileWrite>)
      modifies this
      ensures issued == if signedIn then Some(MergeInterests(interests)) else None
      ensures favoritePlaceIds == old(favoritePlaceIds) && itineraryPlaces == old(itineraryPlaces)
      ensures userInterests == if signedIn && writeSucceeds then interests else old(userInterests)
      ensures showMessageModal
      ensures !signedIn ==> message == "ไม่สามารถบันทึกความสนใจได้: ผู้ใช้ไม่ได้เข้าสู่ระบบ" && messageType == "error"
      ensures signedIn && writeSucceeds ==> message == "บันทึกความสนใจเรียบร้อยแล้ว!" && messageType == "success"
      ensures signedIn && !writeSucceeds ==> message == "เกิดข้อผิดพลาดในการบันทึกความสนใจ" && messageType == "error"
    {
      if !signedIn {
        Show("ไม่สามารถบันทึกความสนใจได้: ผู้ใช้ไม่ได้เข้าสู่ระบบ", "error");
        return None;
      }
      issued := Some(MergeInterests(interests));
      if writeSucceeds {
        userInterests := interests;
        Show("บันทึกความสนใจเรียบร้อยแล้ว!", "success");
      } else {
        Show("เกิดข้อผิดพลาดในการบันทึกความสนใจ", "error");
      }
    }

    /** `handleToggleFavorite`: a present id is removed from the list, an
        absent one appended, each only after its write went through. */
    method HandleToggleFavorite(placeId: string, writeSucceeds: bool) returns (issued: Option<ProfileWrite>)
      modifies this
      ensures !signedIn ==> issued == None
      ensures signedIn ==> issued == Some(if placeId in old(favoritePlaceIds) then RemoveFavorite(placeId) else UnionFavorite(placeId))
      ensures userInterests == old(userInterests) && itineraryPlaces == old(itineraryPlaces)
      ensures favoritePlaceIds == if signedIn && writeSucceeds then Toggle(old(favoritePlaceIds), placeId) else old(favoritePlaceIds)
      ensures showMessageModal
      ensures !signedIn ==> message == "ไม่สามารถบันทึกรายการโปรดได้: ผู้ใช้ไม่ได้เข้าสู่ระบบ" && messageType == "error"
      ensures signedIn && writeSucceeds && placeId in old(favoritePlaceIds) ==>
                message == "นำออกจากรายการโปรดแล้ว" && messageType == "info"
      ensures signedIn && writeSucceeds && placeId !in old(favoritePlaceIds) ==>
                message == "เพิ่มในรายการโปรดแล้ว!" && messageType == "success"
      ensures signedIn && !writeSucceeds ==> message == "เกิดข้อผิดพลาดในการบันทึกรายการโปรด" && messageType == "error"
    {
      if !signedIn {
        Show("ไม่สามารถบันทึกรายการโปรดได้: ผู้ใช้ไม่ได้เข้าสู่ระบบ", "error");
        return None;
      }
      var isCurrentlyFavorite := placeId in favoritePlaceIds;
      if isCurrentlyFavorite {
        issued := Some(RemoveFavorite(placeId));
        if writeSucceeds {
          favoritePlaceIds := Without(favoritePlaceIds, placeId);
          message := "นำออกจากรายการโปรดแล้ว";
          messageType := "info";
        }
      } else {
        issued := Some(UnionFavorite(placeId));
        if writeSucceeds {
          favoritePlaceIds := favoritePlaceIds + [placeId];
          message := "เพิ่มในรายการโปรดแล้ว!";
          messageType := "success";
        }
      }
      if writeSucceeds {
        showMessageModal := true;
      } else {
        Show("เกิดข้อผิดพลาดในการบันทึกรายการโปรด", "error");
      }
    }

    /** `handleAddToItinerary`: a place whose id is already listed is
        reported without any write; otherwise it is appended after a
        successful write. */
    method HandleAddToItinerary(place: Place, writeSucceeds: bool) returns (issued: Option<ProfileWrite>)
      modifies this
      ensures issued == if signedIn && !HasPlace(old(itineraryPlaces), place.id) then Some(UnionItinerary(place)) else None
      ensures userInterests == old(userInterests) && favoritePlaceIds == old(favoritePlaceIds)
      ensures itineraryPlaces == if issued.Some? && writeSucceeds then old(itineraryPlaces) + [place] else old(itineraryPlaces)
      ensures showMessageModal
      ensures !signedIn ==> message == "ไม่สามารถเพิ่มในแผนการเดินทางได้: ผู้ใช้ไม่ได้เข้าสู่ระบบ" && messageType == "error"
      ensures signedIn && HasPlace(old(itineraryPlaces), place.id) ==>
                message == "สถานที่นี้อยู่ในแผนการเดินทางของคุณแล้ว" && messageType == "info"
      ensures issued.Some? && writeSucceeds ==> message == "เพิ่มในแผนการเดินทางแล้ว!" && messageType == "success"
      ensures issued.Some? && !writeSucceeds ==> message == "เกิดข้อผิดพลาดในการเพิ่มในแผนการเดินทาง" && messageType == "error"
    {
      if !signedIn {
        Show("ไม่สามารถเพิ่มในแผนการเดินทางได้: ผู้ใช้ไม่ได้เข้าสู่ระบบ", "error");
        return None;
      }
      var isAlreadyInItinerary := HasPlace(itineraryPlaces, place.id);
      if isAlreadyInItinerary {
        Show("สถานที่นี้อยู่ในแผนการเดินทางของคุณแล้ว", "info");
        return None;
      }
      issued := Some(UnionItinerary(place));
      if writeSucceeds {
        itineraryPlaces := itineraryPlaces + [place];
        Show("เพิ่มในแผนการเดินทางแล้ว!", "success");
      } else {
        Show("เกิดข้อผิดพลาดในการเพิ่มในแผนการเดินทาง", "error");
      }
    }

    /** `handleRemoveFromItinerary`: the filtered list is written whole and,
        once the write went through, becomes the itinerary. */
    method HandleRemoveFromItinerary(placeId: string, writeSucceeds: bool) returns (issued: Option<ProfileWrite>)
      modifies this
      ensures issued == if signedIn then Some(SetItinerary(RemovePlace(old(itineraryPlaces), placeId))) else None
      ensures userInterests == old(userInterests) && favoritePlaceIds == old(favoritePlaceIds)
      ensures itineraryPlaces == if signedIn && writeSucceeds then RemovePlace(old(itineraryPlaces), placeId) else old(itineraryPlaces)
      ensures showMessageModal
      ensures !signedIn ==> message == "ไม่สามารถนำออกจากแผนการเดินทางได้: ผู้ใช้ไม่ได้เข้าสู่ระบบ" && messageType == "error"
      ensures signedIn && writeSucceeds ==> message == "นำออกจากแผนการเดินทางแล้ว" && messageType == "info"
      ensures signedIn && !writeSucceeds ==> message == "เกิดข้อผิดพลาดในการนำออกจากแผนการเดินทาง" && messageType == "error"
    {
      if !signedIn {
        Show("ไม่สามารถนำออกจากแผนการเดินทางได้: ผู้ใช้ไม่ได้เข้าสู่ระบบ", "error");
        return None;
      }
      var updatedItinerary := RemovePlace(itineraryPlaces, placeId);
      issued := Some(SetItinerary(updatedItinerary));
      if writeSucceeds {
        itineraryPlaces := updatedItinerary;
        Show("นำออกจากแผนการเดินทางแล้ว", "info");
      } else {
        Show("เกิดข้อผิดพลาดในการนำออกจากแผนการเดินทาง", "error");
      }
    }
  }

  /** Adding keeps an id-unique itinerary id-unique, whatever the outcome. */
  method AddKeepsItineraryUnique(app: MainApp, place: Place, writeSucceeds: bool)
    requires UniqueIds(app.itineraryPlaces)
    modifies app
    ensures UniqueIds(app.itineraryPlaces)
  {
    var before := app.itineraryPlaces;
    var issued := app.HandleAddToItinerary(place, writeSucceeds);
    if issued.Some? && writeSucceeds {
      AppendNewPlaceKeepsUnique(before, place);
    }
  }
}
