/** The mock weather and place-information services
    (src/services/mockAPIs.ts): weather derived from the character codes of
    a location's id, and details looked up in a fixed table. The simulated
    network delay is not part of the model. */
module MockApis {
  import opened Wrappers
  import opened RouteData

  /** The part of a forecast taken from the condition table. */
  datatype Condition = Condition(description: string, iconCode: string, humidity: int, windSpeedKph: int)

  /** `WeatherForecast`: the location id, a temperature and a spread condition. */
  datatype WeatherForecast = WeatherForecast(locationId: string, temperatureC: int, condition: Condition)

  /** `mockWeatherConditions`, in table order. */
  const WeatherConditions: seq<Condition> := [
    Condition("Sunny", "01d", 45, 10),
    Condition("Partly Cloudy", "02d", 55, 15),
    Condition("Cloudy", "03d", 65, 12),
    Condition("Light Rain", "10d", 75, 20),
    Condition("Clear Night", "01n", 50, 5)
  ]

  /** The `reduce` over `split('')`: the sum of the character codes. */
  function CharCodeSum(s: string): (n: int)
    ensures n >= 0
    ensures s != [] ==> n >= s[|s| - 1] as int
  {
    if s == [] then 0 else CharCodeSum(s[..|s| - 1]) + s[|s| - 1] as int
  }

  /** `Math.abs`. */
  function Abs(n: int): int {
    if n < 0 then -n else n
  }

  /** The sum over a concatenation is the sum of the sums, so the forecast
      depends on which characters the id holds. */
  lemma {:induction false} CharCodeSumAppend(a: string, b: string)
    ensures CharCodeSum(a + b) == CharCodeSum(a) + CharCodeSum(b)
  {
    if b == [] {
      assert a + b == a;
    } else {
      assert (a + b)[..|a + b| - 1] == a + b[..|b| - 1];
      assert (a + b)[|a + b| - 1] == b[|b| - 1];
      CharCodeSumAppend(a, b[..|b| - 1]);
    }
  }

  /** `fetchMockWeather`: the condition at position (sum mod 5) and a
      temperature of 10 plus (sum mod 20) degrees, for the given id. */
  function FetchMockWeather(location: Location): (w: WeatherForecast)
    ensures w.locationId == location.id
    ensures 10 <= w.temperatureC <= 29
    ensures w.condition in WeatherConditions
    ensures w.temperatureC == 10 + CharCodeSum(location.id) % 20
    ensures w.condition == WeatherConditions[CharCodeSum(location.id) % 5]
  {
    var sum := Abs(CharCodeSum(location.id));
    var randomIndex := sum % |WeatherConditions|;
    var temperatureC := 10 + sum % 20;
    WeatherForecast(location.id, temperatureC, WeatherConditions[randomIndex])
  }

  /** Two locations whose ids are the same characters in the two orders of a
      split get the same forecast apart from the id. */
  lemma SwappedHalvesSameWeather(l1: Location, l2: Location, a: string, b: string)
    requires l1.id == a + b && l2.id == b + a
    ensures FetchMockWeather(l1).temperatureC == FetchMockWeather(l2).temperatureC
    ensures FetchMockWeather(l1).condition == FetchMockWeather(l2).condition
  {
    CharCodeSumAppend(a, b);
    CharCodeSumAppend(b, a);
  }

  /** An id "loc" followed by one character `d` sums to 318 plus the code of `d`. */
  lemma LocIdWeather(location: Location, d: char)
    requires location.id == "loc" + [d]
    ensures FetchMockWeather(location).temperatureC == 10 + (318 + d as int) % 20
    ensures FetchMockWeather(location).condition == WeatherConditions[(318 + d as int) % 5]
  {
    CharCodeSumAppend("loc", [d]);
    assert CharCodeSum("loc") == 318 by {
      assert "loc"[..2] == "lo" && "lo"[..1] == "l" && "l"[..0] == "";
    }
    assert [d][..0] == "";
  }

  /** EiffelTower's id loc1 sums to 367: Cloudy at 17 degrees. */
  lemma EiffelTowerWeather()
    ensures FetchMockWeather(EiffelTower).condition.description == "Cloudy"
    ensures FetchMockWeather(EiffelTower).temperatureC == 17
  {
    LocIdWeather(EiffelTower, '1');
  }

  /** Louvre's id loc2 sums to 368: Light Rain at 18 degrees. */
  lemma LouvreWeather()
    ensures FetchMockWeather(Louvre).condition.description == "Light Rain"
    ensures FetchMockWeather(Louvre).temperatureC == 18
  {
    LocIdWeather(Louvre, '2');
  }

  /** NotreDame's id loc3 sums to 369: Clear Night at 19 degrees. */
  lemma NotreDameWeather()
    ensures FetchMockWeather(NotreDame).condition.description == "Clear Night"
    ensures FetchMockWeather(NotreDame).temperatureC == 19
  {
    LocIdWeather(NotreDame, '3');
  }

  /** SacreCoeur's id loc4 sums to 370: Sunny at 20 degrees. */
  lemma SacreCoeurWeather()
    ensures FetchMockWeather(SacreCoeur).condition.description == "Sunny"
    ensures FetchMockWeather(SacreCoeur).temperatureC == 20
  {
    LocIdWeather(SacreCoeur, '4');
  }

  /** GareDuNord's id loc5 sums to 371: Partly Cloudy at 21 degrees. */
  lemma GareDuNordWeather()
    ensures FetchMockWeather(GareDuNord).condition.description == "Partly Cloudy"
    ensures FetchMockWeather(GareDuNord).temperatureC == 21
  {
    LocIdWeather(GareDuNord, '5');
  }

  /** The optional fields of a `mockPlaceDetailsDb` entry. */
  datatype DetailsRecord = DetailsRecord(rating: Option<real>, photos: Option<seq<string>>, reviewsCount: Option<int>,
                                         openingHours: Option<string>, website: Option<string>)

  /** `PlaceDetails`: a table entry tagged with the id it was found under. */
  datatype PlaceDetails = PlaceDetails(locationId: string, details: DetailsRecord)

  /** `mockPlaceDetailsDb`. */
  const PlaceDetailsDb: map<string, DetailsRecord> := map[
    "loc1" := DetailsRecord(Some(4.7), Some(["https://via.placeholder.com/150/0000FF/808080?Text=Eiffel+Tower+1",
                                            "https://via.placeholder.com/150/FF0000/FFFFFF?Text=Eiffel+Tower+2"]),
                            Some(150000), Some("9 AM - 11 PM daily"), Some("https://www.toureiffel.paris/")),
    "loc2" := DetailsRecord(Some(4.8), Some(["https://via.placeholder.com/150/008000/FFFFFF?Text=Louvre+1"]),
                            Some(80000), Some("Wed-Mon: 9 AM - 6 PM (Closed Tue)"), Some("https://www.louvre.fr/")),
    "loc3" := DetailsRecord(Some(4.6), None, Some(60000), Some("Varies (check official site)"), None),
    "loc4" := DetailsRecord(Some(4.7), Some(["https://via.placeholder.com/150/FFFF00/000000?Text=Sacre+Coeur"]),
                            Some(45000), Some("6 AM - 10:30 PM daily"), None),
    "loc5" := DetailsRecord(Some(3.5), None, Some(15000), Some("24/7 (train services vary)"), None)
  ]

  /** `fetchMockPlaceDetails`: the entry under the location's id, tagged with
      that id, or `null` when the table has no such key. */
  function FetchMockPlaceDetails(location: Location): (r: Option<PlaceDetails>)
    ensures r.Some? <==> location.id in PlaceDetailsDb
    ensures r.Some? ==> r.value.locationId == location.id && r.value.details == PlaceDetailsDb[location.id]
  {
    if location.id in PlaceDetailsDb then Some(PlaceDetails(location.id, PlaceDetailsDb[location.id])) else None
  }

  /** Every location of the registry has details, and an id outside it has none. */
  lemma RegistryHasDetails(location: Location)
    ensures location in SampleLocations ==> FetchMockPlaceDetails(location).Some?
    ensures location.id !in {"loc1", "loc2", "loc3", "loc4", "loc5"} ==> FetchMockPlaceDetails(location) == None
  {
    SampleIds();
    if location in SampleLocations {
      var k :| 0 <= k < |SampleLocations| && SampleLocations[k] == location;
      assert location.id in {"loc1", "loc2", "loc3", "loc4", "loc5"};
    }
  }
}
