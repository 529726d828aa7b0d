/** The place records of the discovery pages (the `Place` shape of
    src/services/placeService.ts) and the static table of
    src/data/mockplaces.js, reduced to the fields the filters and the
    profile lists read. */
module MockPlaces {

  /** A place: its id, display name, category, tags and hidden-gem flag. */
  datatype Place = Place(id: string, name: string, category: string, tags: seq<string>, hiddenGem: bool)

  const KhaoYai := Place("1", "อุทยานแห่งชาติเขาใหญ่", "ธรรมชาติ",
                         ["ธรรมชาติ", "เดินป่า", "น้ำตก", "สัตว์ป่า", "พักผ่อน"], false)
  const Amphawa := Place("2", "ตลาดน้ำอัมพวา", "วัฒนธรรม",
                         ["วัฒนธรรม", "อาหาร", "ตลาด", "ช้อปปิ้ง", "ยามเย็น"], false)
  const ArtistHouse := Place("3", "บ้านศิลปิน คลองบางหลวง", "วัฒนธรรม",
                             ["วัฒนธรรม", "ศิลปะ", "คาเฟ่", "หุ่นกระบอก", "ริมคลอง"], true)
  const ForestCafe := Place("4", "คาเฟ่ลับในป่า", "คาเฟ่",
                            ["คาเฟ่", "ธรรมชาติ", "เงียบสงบ", "กาแฟ", "ขนม"], true)
  const ChiangKhan := Place("5", "ถนนคนเดินเชียงคาน", "ช้อปปิ้ง",
                            ["ช้อปปิ้ง", "วัฒนธรรม", "อาหาร", "แม่น้ำโขง", "วินเทจ"], false)

  /** `mockPlaces`, in declaration order. */
  const StaticPlaces: seq<Place> := [KhaoYai, Amphawa, ArtistHouse, ForestCafe, ChiangKhan]

  /** The ids of a list of places, in order. */
  function PlaceIds(places: seq<Place>): (r: seq<string>)
    ensures |r| == |places| && forall i :: 0 <= i < |places| ==> r[i] == places[i].id
  {
    seq(|places|, i requires 0 <= i < |places| => places[i].id)
  }

  /** The ids of two places. */
  lemma PlaceIdsOfTwo(a: Place, b: Place)
    ensures PlaceIds([a, b]) == [a.id, b.id]
  {
    assert PlaceIds([a, b])[0] == a.id && PlaceIds([a, b])[1] == b.id;
  }

  /** No two places of the list share an id. */
  predicate UniqueIds(places: seq<Place>) {
    forall i, j :: 0 <= i < j < |places| ==> places[i].id != places[j].id
  }
}
