/** The route selection policy of `calculateMockRoute`
    (src/services/routeService.ts), as a pure function of a location registry
    and a route table; the promise and the simulated latency around it are
    not modelled. */
module RouteService {
  import opened Wrappers
  import opened RouteData

  /** `RouteRequest`; `departureTime` is never read and is left out. */
  datatype RouteRequest = RouteRequest(originId: string, destinationId: string,
                                       preferredMode: Option<TransitMode>)

  /** `RouteResponse`: each of the three fields may be absent. */
  datatype RouteResponse = RouteResponse(route: Option<CalculatedRoute>, error: Option<string>,
                                         message: Option<string>)

  /** Some segment of `r` travels by `m` (`segments.some(s => s.mode === m)`). */
  predicate HasMode(r: CalculatedRoute, m: TransitMode) {
    exists i :: 0 <= i < |r.segments| && r.segments[i].mode == m
  }

  /** The `find` predicate of the preferred-mode search: a segment of that
      mode, or, for MIXED, any route with more than one segment. */
  predicate MatchesPreference(r: CalculatedRoute, m: TransitMode) {
    HasMode(r, m) || (m == Mixed && |r.segments| > 1)
  }

  /** `routes.find(...)` with the preference predicate: the first candidate
      that matches, or nothing. */
  function FindPreferred(routes: seq<CalculatedRoute>, m: TransitMode): (r: Option<CalculatedRoute>)
    ensures r.None? <==> forall i :: 0 <= i < |routes| ==> !MatchesPreference(routes[i], m)
    ensures r.Some? ==> exists k :: 0 <= k < |routes| && routes[k] == r.value && MatchesPreference(r.value, m)
                                    && forall j :: 0 <= j < k ==> !MatchesPreference(routes[j], m)
  {
    if routes == [] then None
    else if MatchesPreference(routes[0], m) then Some(routes[0])
    else FindPreferred(routes[1..], m)
  }

  /** The candidate list the table holds for the request, empty when either
      level of the table has no entry. */
  function Candidates(table: RouteTable, req: RouteRequest): seq<CalculatedRoute> {
    if req.originId in table && req.destinationId in table[req.originId]
    then table[req.originId][req.destinationId] else []
  }

  /** Both ids name registry entries. */
  predicate ValidIds(registry: seq<Location>, req: RouteRequest) {
    FindLocation(registry, req.originId).Some? && FindLocation(registry, req.destinationId).Some?
  }

  /** The message when the origin has no table entry. */
  function NoRoutesFromMessage(originName: string): string {
    "No routes found from " + originName + "."
  }

  /** The message when the origin has no candidates for the destination. */
  function NoDirectRoutesMessage(originName: string, destinationName: string): string {
    "No direct routes found from " + originName + " to " + destinationName + "."
  }

  /** The degraded-result message for a preferred mode. */
  function DegradedMessage(m: TransitMode): string {
    "Could not find a " + ModeName(m) + " route. Showing available route."
  }

  /** The body of the `setTimeout` callback of `calculateMockRoute`. A route
      is returned exactly when both ids are known and the table holds a
      non-empty candidate list for them, and it is always one of those
      candidates; an error is returned exactly when an id is unknown. */
  function CalculateMockRoute(registry: seq<Location>, table: RouteTable, req: RouteRequest): (resp: RouteResponse)
    ensures resp.error.Some? <==> !ValidIds(registry, req)
    ensures resp.route.Some? <==> ValidIds(registry, req) && Candidates(table, req) != []
    ensures resp.route.Some? ==> resp.route.value in Candidates(table, req)
  {
    var origin := FindLocation(registry, req.originId);
    var destination := FindLocation(registry, req.destinationId);
    if origin.None? || destination.None? then
      RouteResponse(None, Some("Invalid origin or destination ID."), None)
    else
      var originName := origin.value.name;
      var destinationName := destination.value.name;
      if req.originId !in table then
        RouteResponse(None, None, Some(NoRoutesFromMessage(originName)))
      else if req.destinationId !in table[req.originId] || table[req.originId][req.destinationId] == [] then
        RouteResponse(None, None, Some(NoDirectRoutesMessage(originName, destinationName)))
      else
        var specificRoutes := table[req.originId][req.destinationId];
        var preferred := if req.preferredMode.Some? then FindPreferred(specificRoutes, req.preferredMode.value) else None;
        var foundRoute := if preferred.Some? then preferred else Some(specificRoutes[0]);
        if req.preferredMode.Some? && foundRoute.Some? && !HasMode(foundRoute.value, req.preferredMode.value) then
          RouteResponse(foundRoute, None, Some(DegradedMessage(req.preferredMode.value)))
        else if foundRoute.Some? then
          RouteResponse(foundRoute, None, None)
        else
          RouteResponse(None, None, Some("No routes available between " + originName + " and " + destinationName + "."))
  }

  /** An unknown id yields only the validation error. */
  lemma InvalidIdsGiveError(registry: seq<Location>, table: RouteTable, req: RouteRequest)
    requires !ValidIds(registry, req)
    ensures CalculateMockRoute(registry, table, req) == RouteResponse(None, Some("Invalid origin or destination ID."), None)
  {
  }

  /** An origin without a table entry yields only a "No routes found" message. */
  lemma NoOriginEntryGivesMessage(registry: seq<Location>, table: RouteTable, req: RouteRequest)
    requires ValidIds(registry, req) && req.originId !in table
    ensures CalculateMockRoute(registry, table, req)
         == RouteResponse(None, None, Some(NoRoutesFromMessage(FindLocation(registry, req.originId).value.name)))
  {
  }

  /** A missing or empty destination list yields only a "No direct routes" message. */
  lemma NoDestinationEntryGivesMessage(registry: seq<Location>, table: RouteTable, req: RouteRequest)
    requires ValidIds(registry, req) && req.originId in table
    requires req.destinationId !in table[req.originId] || table[req.originId][req.destinationId] == []
    ensures CalculateMockRoute(registry, table, req)
         == RouteResponse(None, None, Some(NoDirectRoutesMessage(FindLocation(registry, req.originId).value.name,
                                                                 FindLocation(registry, req.destinationId).value.name)))
  {
  }

  /** Without a preference the first candidate is returned, with no message. */
  lemma NoPreferenceTakesFirst(registry: seq<Location>, table: RouteTable, req: RouteRequest)
    requires ValidIds(registry, req) && Candidates(table, req) != [] && req.preferredMode.None?
    ensures CalculateMockRoute(registry, table, req) == RouteResponse(Some(Candidates(table, req)[0]), None, None)
  {
  }

  /** With a preference that some candidate matches, the first matching
      candidate in list order is returned; it carries the degraded message
      exactly when it has no segment of the preferred mode (a MIXED match
      through the segment count). */
  lemma PreferenceTakesFirstMatch(registry: seq<Location>, table: RouteTable, req: RouteRequest, k: int)
    requires ValidIds(registry, req) && req.preferredMode.Some?
    requires 0 <= k < |Candidates(table, req)| && MatchesPreference(Candidates(table, req)[k], req.preferredMode.value)
    requires forall j :: 0 <= j < k ==> !MatchesPreference(Candidates(table, req)[j], req.preferredMode.value)
    ensures CalculateMockRoute(registry, table, req).route == Some(Candidates(table, req)[k])
    ensures CalculateMockRoute(registry, table, req).error == None
    ensures CalculateMockRoute(registry, table, req).message
         == if HasMode(Candidates(table, req)[k], req.preferredMode.value) then None
            else Some(DegradedMessage(req.preferredMode.value))
  {
    var c := Candidates(table, req);
    var m := req.preferredMode.value;
    var r := FindPreferred(c, m);
    var k' :| 0 <= k' < |c| && c[k'] == r.value && MatchesPreference(r.value, m)
              && forall j :: 0 <= j < k' ==> !MatchesPreference(c[j], m);
    assert !(k' < k) && !(k < k');
  }

  /** With a preference no candidate matches, the first candidate is returned
      with the degraded message. */
  lemma NoMatchFallsBack(registry: seq<Location>, table: RouteTable, req: RouteRequest)
    requires ValidIds(registry, req) && Candidates(table, req) != [] && req.preferredMode.Some?
    requires forall i :: 0 <= i < |Candidates(table, req)| ==> !MatchesPreference(Candidates(table, req)[i], req.preferredMode.value)
    ensures CalculateMockRoute(registry, table, req)
         == RouteResponse(Some(Candidates(table, req)[0]), None, Some(DegradedMessage(req.preferredMode.value)))
  {
    assert !MatchesPreference(Candidates(table, req)[0], req.preferredMode.value);
  }

  /** The closing "No routes available" branch is dead: whenever no route is
      returned, the response is one of the three earlier outcomes. */
  lemma NoRoutesAvailableUnreachable(registry: seq<Location>, table: RouteTable, req: RouteRequest)
    ensures CalculateMockRoute(registry, table, req).route.None? ==>
              !ValidIds(registry, req) || req.originId !in table
              || req.destinationId !in table[req.originId] || table[req.originId][req.destinationId] == []
  {
  }

  /** No segment of the Eiffel Tower to Gare du Nord route is tagged MIXED. */
  lemma MixedRouteHasNoMixedSegment()
    ensures !HasMode(EiffelToGareDuNordMixed, Mixed)
    ensures MatchesPreference(EiffelToGareDuNordMixed, Mixed)
  {
    var s := EiffelToGareDuNordMixed.segments;
    assert s[0].mode == Driving && s[1].mode == Transit && s[2].mode == Walking;
  }

  /** A MIXED request for the three-segment Eiffel Tower to Gare du Nord route
      finds it through the segment count, yet still reports it as degraded. */
  lemma MixedRequestStillDegraded()
    ensures CalculateMockRoute(SampleLocations, MockRoutes, RouteRequest("loc1", "loc5", Some(Mixed)))
         == RouteResponse(Some(EiffelToGareDuNordMixed), None, Some(DegradedMessage(Mixed)))
  {
    var req := RouteRequest("loc1", "loc5", Some(Mixed));
    LookupLoc1();
    LookupLoc5();
    EffectiveMockRoutes();
    MixedRouteHasNoMixedSegment();
    assert Candidates(MockRoutes, req) == [EiffelToGareDuNordMixed];
    PreferenceTakesFirstMatch(SampleLocations, MockRoutes, req, 0);
  }

  /** An id outside the registry ('locX') is rejected. */
  lemma UnknownOriginRejected()
    ensures CalculateMockRoute(SampleLocations, MockRoutes, RouteRequest("locX", "loc2", None))
         == RouteResponse(None, Some("Invalid origin or destination ID."), None)
  {
    UnknownIdNotFound("locX");
  }

  /** Eiffel Tower to Notre-Dame has no table entry: a message, not an error. */
  lemma NoEntryIsMessageNotError()
    ensures CalculateMockRoute(SampleLocations, MockRoutes, RouteRequest("loc1", "loc3", None))
         == RouteResponse(None, None, Some(NoDirectRoutesMessage("Eiffel Tower", "Notre-Dame Cathedral")))
  {
    var req := RouteRequest("loc1", "loc3", None);
    LookupLoc1();
    LookupLoc3();
    EffectiveMockRoutes();
    NoDestinationEntryGivesMessage(SampleLocations, MockRoutes, req);
  }

  /** As written, the repeated 'loc1' key hides the Eiffel Tower to Louvre
      routes: a DRIVING request between them finds no route at all. */
  lemma EffectiveTableLosesEiffelToLouvre()
    ensures CalculateMockRoute(SampleLocations, MockRoutes, RouteRequest("loc1", "loc2", Some(Driving)))
         == RouteResponse(None, None, Some(NoDirectRoutesMessage("Eiffel Tower", "Louvre Museum")))
  {
    var req := RouteRequest("loc1", "loc2", Some(Driving));
    LookupLoc1();
    LookupLoc2();
    EffectiveMockRoutes();
    NoDestinationEntryGivesMessage(SampleLocations, MockRoutes, req);
  }

  /** With the two 'loc1' entries merged, the DRIVING request returns the
      15-minute, 3 km drive with no message. */
  lemma IntendedTableFindsEiffelToLouvre()
    ensures CalculateMockRoute(SampleLocations, IntendedMockRoutes, RouteRequest("loc1", "loc2", Some(Driving)))
         == RouteResponse(Some(EiffelToLouvreDrive), None, None)
  {
    var req := RouteRequest("loc1", "loc2", Some(Driving));
    LookupLoc1();
    LookupLoc2();
    var c := Candidates(IntendedMockRoutes, req);
    assert c == [EiffelToLouvreWalk, EiffelToLouvreDrive];
    assert !MatchesPreference(c[0], Driving) by {
      assert |c[0].segments| == 1 && c[0].segments[0].mode == Walking;
    }
    assert HasMode(c[1], Driving) by {
      assert c[1].segments[0].mode == Driving;
    }
    PreferenceTakesFirstMatch(SampleLocations, IntendedMockRoutes, req, 1);
  }

  /** With the merged table, the same trip without a preference is the walk. */
  lemma IntendedTableDefaultsToWalk()
    ensures CalculateMockRoute(SampleLocations, IntendedMockRoutes, RouteRequest("loc1", "loc2", None))
         == RouteResponse(Some(EiffelToLouvreWalk), None, None)
  {
    var req := RouteRequest("loc1", "loc2", None);
    LookupLoc1();
    LookupLoc2();
    assert Candidates(IntendedMockRoutes, req) == [EiffelToLouvreWalk, EiffelToLouvreDrive];
    NoPreferenceTakesFirst(SampleLocations, IntendedMockRoutes, req);
  }
}
