/** The dashboard's data service: place lookup through a process-wide cache
    with a fixed fallback, reverse lookup, place suggestions, the US EPA
    Air Quality Index categories, the air-quality snapshot with its 'N/A'
    substitutions and mock fallback, and the eight-entry forecast. Each
    HTTP answer is a parameter (`Result`: the decoded body or the error). */
module ApiService {
  import opened Wrappers
  import opened JsStrings

  // ---------------------------------------------------------------------
  // geocodeLocation and its cache

  /** One entry of a Nominatim search answer (`lat`/`lon` already numbers). */
  datatype Place = Place(lat: real, lon: real, displayName: string)

  /** The value `geocodeLocation` resolves to. */
  datatype Geocoded = Geocoded(lat: real, lon: real, displayName: string)

  type SearchResponse = Result<seq<Place>, string>

  /** Central London, named after the text that was asked for. */
  function Fallback(location: string): Geocoded
  {
    Geocoded(51.5074, -0.1278, location)
  }

  /** What one call does: its result, the cache afterwards, and whether a
      request went out. `response` is what the search service would answer
      for `location`. */
  datatype GeocodeOutcome = GeocodeOutcome(result: Geocoded, cache: map<string, Geocoded>, requested: bool)

  function GeocodeStep(cache: map<string, Geocoded>, location: string, response: SearchResponse): (o: GeocodeOutcome)
    ensures location in cache ==> o == GeocodeOutcome(cache[location], cache, false)
    ensures location !in cache ==> o.requested
    ensures location !in cache && response.Ok? && |response.value| > 0 ==>
              var p := response.value[0];
              o.result == Geocoded(p.lat, p.lon, p.displayName) && o.cache == cache[location := o.result]
    ensures location !in cache && (response.Err? || response.value == []) ==>
              o.result == Fallback(location) && o.cache == cache
  {
    if location in cache then GeocodeOutcome(cache[location], cache, false)
    else match response
      case Err(_) => GeocodeOutcome(Fallback(location), cache, true)
      case Ok(data) =>
        if |data| == 0 then GeocodeOutcome(Fallback(location), cache, true)
        else
          var result := Geocoded(data[0].lat, data[0].lon, data[0].displayName);
          GeocodeOutcome(result, cache[location := result], true)
  }

  /** The module-level `geocodeCache` Map, keyed by the exact input text. */
  class GeocodeCache {
    var entries: map<string, Geocoded>

    constructor ()
      ensures entries == map[]
    {
      entries := map[];
    }

    /** `geocodeLocation`: a hit answers from the cache without a request;
        a miss asks the service, stores a found place and answers it, or
        answers the fallback without storing it. */
    method GeocodeLocation(location: string, response: SearchResponse) returns (result: Geocoded, requested: bool)
      modifies this
      ensures GeocodeOutcome(result, entries, requested) == GeocodeStep(old(entries), location, response)
    {
      if location in entries {
        return entries[location], false;
      }
      requested := true;
      match response {
        case Err(_) =>
          result := Fallback(location);
        case Ok(data) =>
          if |data| == 0 {
            result := Fallback(location);
          } else {
            result := Geocoded(data[0].lat, data[0].lon, data[0].displayName);
            entries := entries[location := result];
          }
      }
    }
  }

  /** Entries are never evicted or overwritten, and the only entry ever
      added is a found place under the exact text asked for: the fallback
      is never stored. */
  lemma CacheOnlyGrowsWithFoundPlaces(cache: map<string, Geocoded>, location: string, response: SearchResponse)
    ensures var o := GeocodeStep(cache, location, response);
            && (forall k :: k in cache ==> k in o.cache && o.cache[k] == cache[k])
            && (forall k :: k in o.cache && k !in cache ==>
                  k == location && response.Ok? && |response.value| > 0 && o.cache[k] == o.result)
  {
  }

  /** Asking twice for a place that was found issues one request in all:
      the second call is answered from the cache with the same value,
      whatever the service would now say. */
  lemma RepeatedLookupHitsCache(cache: map<string, Geocoded>, location: string, first: SearchResponse, second: SearchResponse)
    requires first.Ok? && |first.value| > 0
    ensures var o1 := GeocodeStep(cache, location, first);
            var o2 := GeocodeStep(o1.cache, location, second);
            !o2.requested && o2.result == o1.result && o2.cache == o1.cache
  {
  }

  /** A failed lookup is retried on the next call, since nothing was stored. */
  lemma FailedLookupRetried(cache: map<string, Geocoded>, location: string, first: SearchResponse, second: SearchResponse)
    requires location !in cache && first.Err?
    ensures var o1 := GeocodeStep(cache, location, first);
            o1.result == Fallback(location) && GeocodeStep(o1.cache, location, second).requested
  {
  }

  // ---------------------------------------------------------------------
  // reverseGeocode

  datatype Address = Address(city: Option<string>, town: Option<string>, village: Option<string>)

  /** A reverse-lookup answer: `address` and `display_name`, each may be absent. */
  datatype ReverseData = ReverseData(address: Option<Address>, displayName: Option<string>)

  /** A string field is truthy when present and non-empty. */
  predicate Truthy(s: Option<string>)
  {
    s.Some? && s.value != ""
  }

  /** `a || b || ... || last`: the first truthy candidate, else `last`. */
  function FirstTruthy(candidates: seq<Option<string>>, last: Option<string>): (r: Option<string>)
    ensures r == last || r in candidates
    ensures (forall k :: 0 <= k < |candidates| ==> !Truthy(candidates[k])) ==> r == last
    ensures forall k ::
              0 <= k < |candidates| && Truthy(candidates[k]) && (forall j :: 0 <= j < k ==> !Truthy(candidates[j]))
              ==> r == candidates[k]
  {
    if candidates == [] then last
    else if Truthy(candidates[0]) then candidates[0]
    else FirstTruthy(candidates[1..], last)
  }

  /** `reverseGeocode`: city, else town, else village, else the display
      name; a failed request propagates. */
  function ReverseGeocode(response: Result<ReverseData, string>): (r: Result<Option<string>, string>)
    ensures response.Err? ==> r == Err(response.error)
    ensures response.Ok? ==> r.Ok?
    ensures response.Ok? && r.value.None? ==> response.value.displayName.None?
  {
    match response
    case Err(e) => Err(e)
    case Ok(data) =>
      var a := data.address;
      if a.Some? && Truthy(a.value.city) then Ok(a.value.city)
      else if a.Some? && Truthy(a.value.town) then Ok(a.value.town)
      else if a.Some? && Truthy(a.value.village) then Ok(a.value.village)
      else Ok(data.displayName)
  }

  /** The lookup follows the priority chain city, town, village, display name. */
  lemma ReverseGeocodePriority(data: ReverseData)
    ensures data.address.Some? ==>
              var a := data.address.value;
              ReverseGeocode(Ok(data)) == Ok(FirstTruthy([a.city, a.town, a.village], data.displayName))
    ensures data.address.None? ==> ReverseGeocode(Ok(data)) == Ok(data.displayName)
  {
    if data.address.Some? {
      var a := data.address.value;
      var d := data.displayName;
      assert FirstTruthy([], d) == d;
      assert FirstTruthy([a.village], d) == if Truthy(a.village) then a.village else d by {
        assert [a.village][1..] == [];
      }
      assert FirstTruthy([a.town, a.village], d) == if Truthy(a.town) then a.town else FirstTruthy([a.village], d) by {
        assert [a.town, a.village][1..] == [a.village];
      }
      assert [a.city, a.town, a.village][1..] == [a.town, a.village];
    }
  }

  // ---------------------------------------------------------------------
  // searchLocations

  datatype Suggestion = Suggestion(name: string, lat: real, lon: real)

  /** Whether a request was made, and the suggestions returned. */
  datatype SearchOutcome = SearchOutcome(requested: bool, suggestions: seq<Suggestion>)

  /** `searchLocations`: no request for a missing query or one shorter than
      two characters once trimmed; a failure yields no suggestions;
      otherwise one suggestion per place, in order. */
  function SearchLocations(query: Option<string>, response: SearchResponse): (o: SearchOutcome)
    ensures query.None? || |Trim(query.value)| < 2 ==> o == SearchOutcome(false, [])
    ensures query.Some? && |Trim(query.value)| >= 2 ==> o.requested
    ensures o.requested && response.Err? ==> o.suggestions == []
    ensures o.requested && response.Ok? ==>
              |o.suggestions| == |response.value| &&
              forall k :: 0 <= k < |o.suggestions| ==>
                o.suggestions[k] == Suggestion(response.value[k].displayName, response.value[k].lat, response.value[k].lon)
  {
    if query.None? || query.value == [] || |Trim(query.value)| < 2 then SearchOutcome(false, [])
    else match response
      case Err(_) => SearchOutcome(true, [])
      case Ok(data) =>
        SearchOutcome(true, seq(|data|, k requires 0 <= k < |data| =>
                                  Suggestion(data[k].displayName, data[k].lat, data[k].lon)))
  }

  /** A query of blanks around a single character never reaches the service. */
  lemma ShortQueryNoRequest(c: char, response: SearchResponse)
    requires !IsWhitespace(c)
    ensures SearchLocations(Some("  " + [c] + " "), response) == SearchOutcome(false, [])
  {
  }

  // ---------------------------------------------------------------------
  // getAQILevel

  const AqiLevelNames: seq<string> :=
    ["Good", "Moderate", "Unhealthy for Sensitive", "Unhealthy", "Very Unhealthy", "Hazardous"]

  /** `getAQILevel`: the US EPA AQI categories with inclusive upper bounds
      50, 100, 150, 200 and 300. */
  function GetAQILevel(aqi: real): (level: string)
    ensures level in AqiLevelNames
  {
    if aqi <= 50.0 then "Good"
    else if aqi <= 100.0 then "Moderate"
    else if aqi <= 150.0 then "Unhealthy for Sensitive"
    else if aqi <= 200.0 then "Unhealthy"
    else if aqi <= 300.0 then "Very Unhealthy"
    else "Hazardous"
  }

  /** The band a value falls in, by counting the bounds it exceeds. */
  function AqiBand(aqi: real): (b: nat)
    ensures b < |AqiLevelNames|
  {
    (if aqi > 50.0 then 1 else 0) + (if aqi > 100.0 then 1 else 0) + (if aqi > 150.0 then 1 else 0) +
    (if aqi > 200.0 then 1 else 0) + (if aqi > 300.0 then 1 else 0)
  }

  /** The if-chain picks the name of the band the value falls in, so a
      higher index never gets a milder name. */
  lemma GetAQILevelIsBand(aqi: real, aqi2: real)
    ensures GetAQILevel(aqi) == AqiLevelNames[AqiBand(aqi)]
    ensures aqi <= aqi2 ==> AqiBand(aqi) <= AqiBand(aqi2)
  {
  }

  // ---------------------------------------------------------------------
  // fetchAirQualityData

  /** A pollutant figure, or the text 'N/A'. */
  datatype Reading = Value(v: real) | NotAvailable

  /** `iaqi.x?.v || 'N/A'`: a missing figure and a zero figure both give 'N/A'. */
  function OrNA(v: Option<real>): (r: Reading)
    ensures r.Value? <==> v.Some? && v.value != 0.0
    ensures r.Value? ==> r.v == v.value
  {
    if v.Some? && v.value != 0.0 then Value(v.value) else NotAvailable
  }

  /** The station's individual indices, each of which may be absent. */
  datatype Iaqi = Iaqi(pm25: Option<real>, pm10: Option<real>, no2: Option<real>,
                       o3: Option<real>, so2: Option<real>, co: Option<real>)

  /** The WAQI feed answer: `status`, `data.aqi`, `data.iaqi`. */
  datatype AqiFeed = AqiFeed(status: string, aqi: real, iaqi: Option<Iaqi>)

  datatype AirQuality = AirQuality(aqi: real, level: string, pm25: Reading, pm10: Reading, no2: Reading,
                                   o3: Reading, so2: Reading, co: Reading)

  const MockAirQuality: AirQuality :=
    AirQuality(45.0, "Good", Value(12.0), Value(25.0), Value(15.0), Value(35.0), Value(8.0), Value(0.3))

  /** `fetchAirQualityData`: mock data without an API key, on a failed
      request and on a status other than 'ok'; otherwise the AQI, its
      level and the six pollutants with 'N/A' for the missing ones. */
  function FetchAirQualityData(apiKeyConfigured: bool, response: Result<AqiFeed, string>): (q: AirQuality)
    ensures !apiKeyConfigured || response.Err? || response.value.status != "ok" ==> q == MockAirQuality
    ensures apiKeyConfigured && response.Ok? && response.value.status == "ok" ==>
              q.aqi == response.value.aqi && q.level == GetAQILevel(q.aqi)
    ensures apiKeyConfigured && response.Ok? && response.value.status == "ok" && response.value.iaqi.None? ==>
              q.pm25 == q.pm10 == q.no2 == q.o3 == q.so2 == q.co == NotAvailable
    ensures apiKeyConfigured && response.Ok? && response.value.status == "ok" && response.value.iaqi.Some? ==>
              var i := response.value.iaqi.value;
              && q.pm25 == OrNA(i.pm25) && q.pm10 == OrNA(i.pm10) && q.no2 == OrNA(i.no2)
              && q.o3 == OrNA(i.o3) && q.so2 == OrNA(i.so2) && q.co == OrNA(i.co)
  {
    if !apiKeyConfigured then MockAirQuality
    else match response
      case Err(_) => MockAirQuality
      case Ok(feed) =>
        if feed.status != "ok" then MockAirQuality
        else
          var i := feed.iaqi.GetOr(Iaqi(None, None, None, None, None, None));
          AirQuality(feed.aqi, GetAQILevel(feed.aqi), OrNA(i.pm25), OrNA(i.pm10), OrNA(i.no2),
                     OrNA(i.o3), OrNA(i.so2), OrNA(i.co))
  }

  /** The mock snapshot is internally consistent: its level is the level of
      its AQI. */
  lemma MockLevelConsistent()
    ensures GetAQILevel(MockAirQuality.aqi) == MockAirQuality.level
  {
  }

  // ---------------------------------------------------------------------
  // fetchForecastData

  /** One entry of the 3-hourly forecast list: `dt` and `main.temp`. */
  datatype ForecastItem = ForecastItem(dt: int, temp: real)

  /** The clock label of an entry: a fixed text (mock data) or the local
      time of an instant. */
  datatype ClockTime = Fixed(text: string) | LocalTimeOf(dt: int)

  datatype ForecastEntry = ForecastEntry(time: ClockTime, temp: int)

  const MockForecast: seq<ForecastEntry> := [
    ForecastEntry(Fixed("00:00"), 15), ForecastEntry(Fixed("03:00"), 14),
    ForecastEntry(Fixed("06:00"), 13), ForecastEntry(Fixed("09:00"), 16),
    ForecastEntry(Fixed("12:00"), 20), ForecastEntry(Fixed("15:00"), 22),
    ForecastEntry(Fixed("18:00"), 19), ForecastEntry(Fixed("21:00"), 17)]

  /** `Math.round`: halves round up. */
  function Round(x: real): int
  {
    (x + 0.5).Floor
  }

  /** `fetchForecastData`: the first eight entries with rounded
      temperatures, or the mock forecast without a key or on failure. */
  function FetchForecastData(apiKeyConfigured: bool, response: Result<seq<ForecastItem>, string>): (entries: seq<ForecastEntry>)
    ensures |entries| <= 8
    ensures !apiKeyConfigured || response.Err? ==> entries == MockForecast
    ensures apiKeyConfigured && response.Ok? ==>
              |entries| == (if |response.value| < 8 then |response.value| else 8) &&
              forall k :: 0 <= k < |entries| ==>
                entries[k] == ForecastEntry(LocalTimeOf(response.value[k].dt), Round(response.value[k].temp))
  {
    if !apiKeyConfigured then MockForecast
    else match response
      case Err(_) => MockForecast
      case Ok(list) =>
        var first := if |list| <= 8 then list else list[..8];
        seq(|first|, k requires 0 <= k < |first| => ForecastEntry(LocalTimeOf(first[k].dt), Round(first[k].temp)))
  }
}
