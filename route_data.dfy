/** The location registry and the precomputed route table of the itinerary
    planner (src/data/mockData.ts). */
module RouteData {
  import opened Wrappers

  /** `TransitMode`: the closed set of segment modes. */
  datatype TransitMode = Walking | Driving | Transit | Mixed

  /** The enum's string value, as it appears in user-facing messages. */
  function ModeName(m: TransitMode): string {
    match m
    case Walking => "WALKING"
    case Driving => "DRIVING"
    case Transit => "TRANSIT"
    case Mixed => "MIXED"
  }

  datatype Coordinates = Coordinates(lat: real, lng: real)

  datatype Location = Location(id: string, name: string, address: Option<string>,
                               coordinates: Coordinates, details: Option<string>)

  datatype RouteSegment = RouteSegment(mode: TransitMode, durationMinutes: int,
                                       distanceKm: Option<real>, instructions: Option<string>)

  datatype CalculatedRoute = CalculatedRoute(origin: Location, destination: Location,
                                             totalDurationMinutes: int, totalDistanceKm: Option<real>,
                                             segments: seq<RouteSegment>, summary: Option<string>)

  /** origin id -> destination id -> candidate routes, in preference order. */
  type RouteTable = map<string, map<string, seq<CalculatedRoute>>>

  const EiffelTower := Location("loc1", "Eiffel Tower", None, Coordinates(48.8584, 2.2945),
                                Some("Iconic landmark in Paris, France."))
  const Louvre := Location("loc2", "Louvre Museum", None, Coordinates(48.8606, 2.3376),
                           Some("World-renowned art museum."))
  const NotreDame := Location("loc3", "Notre-Dame Cathedral", None, Coordinates(48.8530, 2.3499),
                              Some("Historic Catholic cathedral."))
  const SacreCoeur := Location("loc4", "Sacré-Cœur Basilica", None, Coordinates(48.8867, 2.3431),
                               Some("Roman Catholic church and minor basilica."))
  const GareDuNord := Location("loc5", "Gare du Nord", None, Coordinates(48.8809, 2.3553),
                               Some("Major railway station in Paris."))

  /** `sampleLocations`, in declaration order. */
  const SampleLocations: seq<Location> := [EiffelTower, Louvre, NotreDame, SacreCoeur, GareDuNord]

  /** `Array.prototype.find` on `id`: the first location carrying that id. */
  function FindLocation(locations: seq<Location>, id: string): (r: Option<Location>)
    ensures r.None? <==> forall i :: 0 <= i < |locations| ==> locations[i].id != id
    ensures r.Some? ==> exists k :: 0 <= k < |locations| && locations[k] == r.value && r.value.id == id
                                    && forall j :: 0 <= j < k ==> locations[j].id != id
  {
    if locations == [] then None
    else if locations[0].id == id then Some(locations[0])
    else FindLocation(locations[1..], id)
  }

  /** `getLocationById`: registry lookup. */
  function GetLocationById(id: string): (r: Option<Location>)
    ensures r.Some? <==> id in {"loc1", "loc2", "loc3", "loc4", "loc5"}
    ensures r.Some? ==> r.value in SampleLocations && r.value.id == id
  {
    SampleLocationIds(id);
    FindLocation(SampleLocations, id)
  }

  /** The registry's ids are exactly 'loc1' to 'loc5'. */
  lemma SampleLocationIds(id: string)
    ensures (exists i :: 0 <= i < |SampleLocations| && SampleLocations[i].id == id)
            <==> id in {"loc1", "loc2", "loc3", "loc4", "loc5"}
  {
    assert SampleLocations[0].id == "loc1" && SampleLocations[1].id == "loc2" && SampleLocations[2].id == "loc3";
    assert SampleLocations[3].id == "loc4" && SampleLocations[4].id == "loc5";
    forall i | 0 <= i < |SampleLocations|
      ensures SampleLocations[i].id in {"loc1", "loc2", "loc3", "loc4", "loc5"}
    {
      if i == 0 {} else if i == 1 {} else if i == 2 {} else if i == 3 {} else {}
    }
  }

  const EiffelToLouvreWalk := CalculatedRoute(
    EiffelTower, Louvre, 25, Some(2.5),
    [RouteSegment(Walking, 25, Some(2.5), Some("Walk along Quai Branly, cross Pont Royal."))],
    Some("Pleasant walk along the Seine"))

  const EiffelToLouvreDrive := CalculatedRoute(
    EiffelTower, Louvre, 15, Some(3.0),
    [RouteSegment(Driving, 15, Some(3.0), Some("Take Voie Georges Pompidou towards city center."))],
    Some("Quick drive via Voie Georges Pompidou"))

  const LouvreToNotreDameWalk := CalculatedRoute(
    Louvre, NotreDame, 15, Some(1.2),
    [RouteSegment(Walking, 15, Some(1.2), Some("Walk along Rue de Rivoli, then cross Pont Neuf."))],
    Some("Short walk through historic Paris"))

  const EiffelToGareDuNordMixed := CalculatedRoute(
    EiffelTower, GareDuNord, 40, Some(7.0),
    [RouteSegment(Driving, 15, Some(3.0), Some("Drive to Charles de Gaulle - Étoile station.")),
     RouteSegment(Transit, 20, Some(4.0), Some("Take Metro Line 2 towards Nation, get off at La Chapelle, walk to Gare du Nord.")),
     RouteSegment(Walking, 5, Some(0.3), Some("Walk from La Chapelle to Gare du Nord."))],
    Some("Mixed: Drive then Metro"))

  /** The `mockRoutes` object literal as written: its outer entries in source
      order, the key 'loc1' appearing twice. */
  const MockRouteEntries: seq<(string, map<string, seq<CalculatedRoute>>)> := [
    ("loc1", map["loc2" := [EiffelToLouvreWalk, EiffelToLouvreDrive]]),
    ("loc2", map["loc3" := [LouvreToNotreDameWalk]]),
    ("loc1", map["loc5" := [EiffelToGareDuNordMixed]])
  ]

  /** What a JavaScript object literal evaluates to: one property per key, a
      repeated key taking the value of its last occurrence. */
  function ObjectFromEntries<V>(entries: seq<(string, V)>): (m: map<string, V>)
    ensures forall k :: k in m <==> exists i :: 0 <= i < |entries| && entries[i].0 == k
  {
    if entries == [] then map[]
    else
      var last := entries[|entries| - 1];
      var m := ObjectFromEntries(entries[..|entries| - 1]);
      assert forall i :: 0 <= i < |entries| - 1 ==> entries[..|entries| - 1][i] == entries[i];
      m[last.0 := last.1]
  }

  /** A key takes the value of its last entry. */
  lemma {:induction false} ObjectFromEntriesLastWins<V>(entries: seq<(string, V)>, i: int)
    requires 0 <= i < |entries|
    requires forall j :: i < j < |entries| ==> entries[j].0 != entries[i].0
    ensures ObjectFromEntries(entries)[entries[i].0] == entries[i].1
  {
    if i < |entries| - 1 {
      var init := entries[..|entries| - 1];
      assert init[i] == entries[i];
      ObjectFromEntriesLastWins(init, i);
    }
  }

  /** `mockRoutes` as the program sees it. */
  const MockRoutes: RouteTable := ObjectFromEntries(MockRouteEntries)

  /** The table the literal evidently meant: both 'loc1' entries merged. */
  const IntendedMockRoutes: RouteTable := map[
    "loc1" := map["loc2" := [EiffelToLouvreWalk, EiffelToLouvreDrive], "loc5" := [EiffelToGareDuNordMixed]],
    "loc2" := map["loc3" := [LouvreToNotreDameWalk]]
  ]

  /** Sum of the segment durations. */
  function SegmentMinutes(segments: seq<RouteSegment>): int {
    if segments == [] then 0 else segments[0].durationMinutes + SegmentMinutes(segments[1..])
  }

  /** Every location id in the registry is different. */
  predicate DistinctIds(locations: seq<Location>) {
    forall i, j :: 0 <= i < j < |locations| ==> locations[i].id != locations[j].id
  }

  /** The invariants a route of the table keeps: it has at least one segment,
      its total duration is the sum of its segments' durations, and its
      endpoints are the registry entries named by the keys it is filed under. */
  predicate RouteOk(registry: seq<Location>, o: string, d: string, r: CalculatedRoute) {
    && r.segments != []
    && r.totalDurationMinutes == SegmentMinutes(r.segments)
    && FindLocation(registry, o) == Some(r.origin)
    && FindLocation(registry, d) == Some(r.destination)
  }

  /** Every candidate list of the table is non-empty and every candidate keeps
      the route invariants. */
  predicate WellFormedTable(registry: seq<Location>, table: RouteTable) {
    forall o, d :: o in table && d in table[o] ==>
      table[o][d] != [] && forall i :: 0 <= i < |table[o][d]| ==> RouteOk(registry, o, d, table[o][d][i])
  }

  /** The ids of the registry entries, in order. */
  lemma SampleIds()
    ensures |SampleLocations| == 5
    ensures SampleLocations[0].id == "loc1" && SampleLocations[1].id == "loc2"
    ensures SampleLocations[2].id == "loc3" && SampleLocations[3].id == "loc4"
    ensures SampleLocations[4].id == "loc5"
  {
  }

  /** `find` returns the entry at `k` when it is the first with that id. */
  lemma FindLocationAt(locations: seq<Location>, k: int)
    requires 0 <= k < |locations|
    requires forall j :: 0 <= j < k ==> locations[j].id != locations[k].id
    ensures FindLocation(locations, locations[k].id) == Some(locations[k])
  {
    var r := FindLocation(locations, locations[k].id);
    var k' :| 0 <= k' < |locations| && locations[k'] == r.value && r.value.id == locations[k].id
              && forall j :: 0 <= j < k' ==> locations[j].id != locations[k].id;
    assert !(k' < k) && !(k < k');
  }

  /** The five registry ids are pairwise distinct. */
  lemma SampleIdsDistinct()
    ensures DistinctIds(SampleLocations)
  {
    assert "loc1" != "loc2" && "loc1" != "loc3" && "loc1" != "loc4" && "loc1" != "loc5";
    assert "loc2" != "loc3" && "loc2" != "loc4" && "loc2" != "loc5";
    assert "loc3" != "loc4" && "loc3" != "loc5" && "loc4" != "loc5";
  }

  lemma LookupLoc1() ensures GetLocationById("loc1") == Some(EiffelTower) { }

  lemma LookupLoc2() ensures GetLocationById("loc2") == Some(Louvre) {
    assert SampleLocations[0].id == "loc1" && SampleLocations[1] == Louvre;
    FindLocationAt(SampleLocations, 1);
  }

  lemma LookupLoc3() ensures GetLocationById("loc3") == Some(NotreDame) {
    assert SampleLocations[0].id == "loc1" && SampleLocations[1].id == "loc2";
    assert SampleLocations[2] == NotreDame;
    FindLocationAt(SampleLocations, 2);
  }

  lemma LookupLoc4() ensures GetLocationById("loc4") == Some(SacreCoeur) {
    assert SampleLocations[0].id == "loc1" && SampleLocations[1].id == "loc2";
    assert SampleLocations[2].id == "loc3" && SampleLocations[3] == SacreCoeur;
    FindLocationAt(SampleLocations, 3);
  }

  lemma LookupLoc5() ensures GetLocationById("loc5") == Some(GareDuNord) {
    assert SampleLocations[0].id == "loc1" && SampleLocations[1].id == "loc2";
    assert SampleLocations[2].id == "loc3" && SampleLocations[3].id == "loc4";
    assert SampleLocations[4] == GareDuNord;
    FindLocationAt(SampleLocations, 4);
  }

  /** The registry resolves each of its five ids to its own entry. */
  lemma SampleLookups()
    ensures GetLocationById("loc1") == Some(EiffelTower)
    ensures GetLocationById("loc2") == Some(Louvre)
    ensures GetLocationById("loc3") == Some(NotreDame)
    ensures GetLocationById("loc4") == Some(SacreCoeur)
    ensures GetLocationById("loc5") == Some(GareDuNord)
  {
    LookupLoc1();
    LookupLoc2();
    LookupLoc3();
    LookupLoc4();
    LookupLoc5();
  }

  /** Each registry entry is what its own id looks up. */
  lemma LookupOwnId(k: int)
    requires 0 <= k < |SampleLocations|
    ensures GetLocationById(SampleLocations[k].id) == Some(SampleLocations[k])
  {
    if k == 0 { LookupLoc1(); assert SampleLocations[k] == EiffelTower; }
    else if k == 1 { LookupLoc2(); assert SampleLocations[k] == Louvre; }
    else if k == 2 { LookupLoc3(); assert SampleLocations[k] == NotreDame; }
    else if k == 3 { LookupLoc4(); assert SampleLocations[k] == SacreCoeur; }
    else { LookupLoc5(); assert SampleLocations[k] == GareDuNord; }
  }

  /** Ids outside 'loc1'..'loc5' are not in the registry. */
  lemma UnknownIdNotFound(id: string)
    requires id !in {"loc1", "loc2", "loc3", "loc4", "loc5"}
    ensures GetLocationById(id) == None
  {
  }

  /** Appending an entry to an object literal overrides that key. */
  lemma ObjectFromEntriesSnoc<V>(entries: seq<(string, V)>, e: (string, V))
    ensures ObjectFromEntries(entries + [e]) == ObjectFromEntries(entries)[e.0 := e.1]
  {
    assert (entries + [e])[..|entries|] == entries;
  }

  /** The repeated key leaves the effective table with exactly loc1 -> {loc5}
      and loc2 -> {loc3}: the Eiffel Tower to Louvre routes are unreachable. */
  lemma EffectiveMockRoutes()
    ensures MockRoutes == map["loc1" := map["loc5" := [EiffelToGareDuNordMixed]],
                              "loc2" := map["loc3" := [LouvreToNotreDameWalk]]]
    ensures "loc2" !in MockRoutes["loc1"]
  {
    var e := MockRouteEntries;
    ObjectFromEntriesSnoc([], e[0]);
    assert [] + [e[0]] == e[..1];
    ObjectFromEntriesSnoc(e[..1], e[1]);
    assert e[..1] + [e[1]] == e[..2];
    ObjectFromEntriesSnoc(e[..2], e[2]);
    assert e[..2] + [e[2]] == e;
  }

  lemma EiffelToLouvreWalkOk()
    ensures RouteOk(SampleLocations, "loc1", "loc2", EiffelToLouvreWalk)
  {
    LookupLoc1();
    LookupLoc2();
    assert EiffelToLouvreWalk.segments[1..] == [];
  }

  lemma EiffelToLouvreDriveOk()
    ensures RouteOk(SampleLocations, "loc1", "loc2", EiffelToLouvreDrive)
  {
    LookupLoc1();
    LookupLoc2();
    assert EiffelToLouvreDrive.segments[1..] == [];
  }

  lemma LouvreToNotreDameWalkOk()
    ensures RouteOk(SampleLocations, "loc2", "loc3", LouvreToNotreDameWalk)
  {
    LookupLoc2();
    LookupLoc3();
    assert LouvreToNotreDameWalk.segments[1..] == [];
  }

  lemma EiffelToGareDuNordMixedOk()
    ensures RouteOk(SampleLocations, "loc1", "loc5", EiffelToGareDuNordMixed)
  {
    LookupLoc1();
    LookupLoc5();
    var m := EiffelToGareDuNordMixed.segments;
    assert SegmentMinutes(m[2..]) == 5 by { assert m[2..][1..] == []; }
    assert m[1..][1..] == m[2..];
    assert SegmentMinutes(m) == 40;
  }

  /** The four routes of the literal keep the route invariants under the keys
      they are filed under (durations 25, 15, 15 and 40 = 15 + 20 + 5). */
  lemma RoutesOk()
    ensures RouteOk(SampleLocations, "loc1", "loc2", EiffelToLouvreWalk)
    ensures RouteOk(SampleLocations, "loc1", "loc2", EiffelToLouvreDrive)
    ensures RouteOk(SampleLocations, "loc2", "loc3", LouvreToNotreDameWalk)
    ensures RouteOk(SampleLocations, "loc1", "loc5", EiffelToGareDuNordMixed)
  {
    EiffelToLouvreWalkOk();
    EiffelToLouvreDriveOk();
    LouvreToNotreDameWalkOk();
    EiffelToGareDuNordMixedOk();
  }

  /** The effective table keeps the route invariants. */
  lemma EffectiveTableWellFormed()
    ensures WellFormedTable(SampleLocations, MockRoutes)
  {
    EffectiveMockRoutes();
    var t := MockRoutes;
    forall o, d | o in t && d in t[o]
      ensures t[o][d] != []
      ensures forall i :: 0 <= i < |t[o][d]| ==> RouteOk(SampleLocations, o, d, t[o][d][i])
    {
      if o == "loc1" {
        assert d == "loc5" && t[o][d] == [EiffelToGareDuNordMixed];
        EiffelToGareDuNordMixedOk();
      } else {
        assert o == "loc2" && d == "loc3" && t[o][d] == [LouvreToNotreDameWalk];
        LouvreToNotreDameWalkOk();
      }
    }
  }

  /** The intended (merged) table keeps the route invariants. */
  lemma IntendedTableWellFormed()
    ensures WellFormedTable(SampleLocations, IntendedMockRoutes)
  {
    var t := IntendedMockRoutes;
    forall o, d | o in t && d in t[o]
      ensures t[o][d] != []
      ensures forall i :: 0 <= i < |t[o][d]| ==> RouteOk(SampleLocations, o, d, t[o][d][i])
    {
      if o == "loc1" && d == "loc2" {
        assert t[o][d] == [EiffelToLouvreWalk, EiffelToLouvreDrive];
        EiffelToLouvreWalkOk();
        EiffelToLouvreDriveOk();
      } else if o == "loc1" {
        assert d == "loc5" && t[o][d] == [EiffelToGareDuNordMixed];
        EiffelToGareDuNordMixedOk();
      } else {
        assert o == "loc2" && d == "loc3" && t[o][d] == [LouvreToNotreDameWalk];
        LouvreToNotreDameWalkOk();
      }
    }
  }
}
