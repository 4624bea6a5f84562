/**
 * backend/app.py, weather side: the module-level weather cache behind
 * `get_weather_data`, its two maintenance endpoints, and the regional
 * fallback used when the weather API gives nothing. The clock, the API's
 * answer and the random variations are parameters.
 */
module Weather {
  import opened Common

  /** Seconds an entry fetched from the API stays fresh. */
  const CacheDuration: real := 3600.0
  /** Seconds a fallback entry stays fresh. */
  const FallbackLifetime: real := 300.0
  /** The key shipped in the source; with it the API is never called. */
  const PlaceholderKey: string := "your-openweather-api-key"

  datatype Source = Api | Fallback

  /** The weather dictionary the endpoint returns (without its ISO timestamp). */
  datatype Report = Report(
    temperature: real, humidity: int, rainfall: real, description: string, source: Source, region: string)

  /** A cache value: the report and the time it counts as stored at. */
  datatype Entry = Entry(report: Report, storedAt: real)

  /** The fields read from a successful API response; `rain.1h` may be absent. */
  datatype ApiReading = ApiReading(temperature: real, humidity: int, rainLastHour: Option<real>, description: string)

  /** The three random draws of the fallback: uniform(-2, 2), randint(-5, 5), uniform(-20, 20). */
  datatype Variation = Variation(temperature: real, humidity: int, rainfall: real)

  datatype Pattern = Pattern(temperature: real, humidity: int, rainfall: real, description: string)

  /** The regional patterns, in the dictionary's order. */
  const RegionalPatterns: seq<(string, Pattern)> := [
    ("punjab", Pattern(31.0, 60, 180.0, "clear sky")),
    ("haryana", Pattern(32.5, 55, 160.0, "partly cloudy")),
    ("uttar pradesh", Pattern(30.0, 70, 220.0, "scattered clouds")),
    ("bihar", Pattern(29.5, 75, 280.0, "light rain")),
    ("west bengal", Pattern(28.5, 80, 320.0, "moderate rain")),
    ("tamil nadu", Pattern(34.0, 65, 120.0, "hot")),
    ("karnataka", Pattern(26.5, 70, 200.0, "pleasant weather")),
    ("maharashtra", Pattern(30.5, 60, 180.0, "clear sky")),
    ("rajasthan", Pattern(35.0, 40, 80.0, "hot and dry")),
    ("delhi", Pattern(31.5, 58, 150.0, "haze")),
    ("gujarat", Pattern(33.0, 50, 100.0, "sunny"))]

  const DefaultPattern: Pattern := Pattern(29.5, 65, 200.0, "partly cloudy")

  /** The pattern of the first listed state whose name occurs in the lower-cased region. */
  function FirstMatch(patterns: seq<(string, Pattern)>, regionLower: string): Option<Pattern>
    decreases |patterns|
  {
    if patterns == [] then None
    else if Contains(regionLower, patterns[0].0) then Some(patterns[0].1)
    else FirstMatch(patterns[1..], regionLower)
  }

  /** FirstMatch picks an entry whose name occurs in the region and no earlier entry's name occurs. */
  lemma {:induction false} FirstMatchSpec(patterns: seq<(string, Pattern)>, regionLower: string)
    ensures FirstMatch(patterns, regionLower).None? <==>
      forall j :: 0 <= j < |patterns| ==> !Contains(regionLower, patterns[j].0)
    ensures FirstMatch(patterns, regionLower).Some? ==>
      exists i :: 0 <= i < |patterns| && patterns[i].1 == FirstMatch(patterns, regionLower).value
        && Contains(regionLower, patterns[i].0)
        && forall j :: 0 <= j < i ==> !Contains(regionLower, patterns[j].0)
    decreases |patterns|
  {
    if patterns != [] && !Contains(regionLower, patterns[0].0) {
      FirstMatchSpec(patterns[1..], regionLower);
      if FirstMatch(patterns, regionLower).Some? {
        var i :| 0 <= i < |patterns[1..]| && patterns[1..][i].1 == FirstMatch(patterns, regionLower).value
          && Contains(regionLower, patterns[1..][i].0)
          && forall j :: 0 <= j < i ==> !Contains(regionLower, patterns[1..][j].0);
        assert patterns[i + 1] == patterns[1..][i];
        forall j | 0 <= j < i + 1 ensures !Contains(regionLower, patterns[j].0) {
          if j > 0 {
            assert patterns[j] == patterns[1..][j - 1];
          }
        }
      } else {
        forall j | 0 <= j < |patterns| ensures !Contains(regionLower, patterns[j].0) {
          if j > 0 {
            assert patterns[j] == patterns[1..][j - 1];
          }
        }
      }
    }
    if patterns != [] && Contains(regionLower, patterns[0].0) {
      assert !forall j :: 0 <= j < |patterns| ==> !Contains(regionLower, patterns[j].0);
    }
  }

  /** The report `get_regional_fallback_weather` builds from a pattern and the variations. */
  function FallbackReport(region: string, pattern: Pattern, v: Variation): (r: Report)
    ensures 30 <= r.humidity <= 90
    ensures r.rainfall >= 0.0
    ensures r.source == Fallback && r.region == region && r.description == pattern.description
  {
    var humidity := pattern.humidity + v.humidity;
    var rainfall := pattern.rainfall + v.rainfall;
    Report(
      pattern.temperature + v.temperature,
      if humidity < 30 then 30 else if humidity > 90 then 90 else humidity,
      if rainfall < 0.0 then 0.0 else rainfall,
      pattern.description, Fallback, region)
  }

  /** The fallback for a region: its state's pattern if one is named in it, the default otherwise. */
  function RegionalFallback(region: string, v: Variation): Report
  {
    match FirstMatch(RegionalPatterns, Lower(region))
    case Some(pattern) => FallbackReport(region, pattern, v)
    case None => FallbackReport(region, DefaultPattern, v)
  }

  /** `get_regional_fallback_weather`: scan the patterns, stop at the first match. */
  method GetRegionalFallbackWeather(region: string, v: Variation) returns (r: Report)
    ensures r == RegionalFallback(region, v)
    ensures 30 <= r.humidity <= 90 && r.rainfall >= 0.0
  {
    var regionLower := Lower(region);
    var found: Option<Pattern> := None;
    var i := 0;
    while i < |RegionalPatterns|
      invariant 0 <= i <= |RegionalPatterns|
      invariant found.None? ==> FirstMatch(RegionalPatterns, regionLower) == FirstMatch(RegionalPatterns[i..], regionLower)
      invariant found.Some? ==> found == FirstMatch(RegionalPatterns, regionLower)
    {
      assert RegionalPatterns[i..][1..] == RegionalPatterns[i + 1..];
      if Contains(regionLower, RegionalPatterns[i].0) {
        found := Some(RegionalPatterns[i].1);
        break;
      }
      i := i + 1;
    }
    var pattern := if found.Some? then found.value else DefaultPattern;
    r := FallbackReport(region, pattern, v);
  }

  /** The report built from a successful API answer; `rain.1h` is scaled to a day. */
  function ApiReport(region: string, reading: ApiReading): (r: Report)
    ensures r.source == Api && r.region == region
    ensures r.temperature == reading.temperature && r.humidity == reading.humidity
    ensures r.description == reading.description
    ensures reading.rainLastHour.None? ==> r.rainfall == 0.0
    ensures reading.rainLastHour.Some? ==> r.rainfall == 24.0 * reading.rainLastHour.value
  {
    var rainLastHour := match reading.rainLastHour case Some(x) => x case None => 0.0;
    Report(reading.temperature, reading.humidity, rainLastHour * 24.0, reading.description, Api, region)
  }

  /** A cache lookup at time `now`: a hit exactly when the entry is younger than an hour. */
  function Lookup(cache: map<string, Entry>, key: string, now: real): (r: Option<Report>)
    ensures r.Some? <==> key in cache && now - cache[key].storedAt < CacheDuration
    ensures r.Some? ==> r.value == cache[key].report
  {
    if key in cache && now - cache[key].storedAt < CacheDuration then Some(cache[key].report) else None
  }

  /** An entry stored from the API at `now` is served to every lookup less than an hour later. */
  lemma ApiEntryFreshForAnHour(cache: map<string, Entry>, key: string, r: Report, now: real, later: real)
    ensures Lookup(cache[key := Entry(r, now)], key, later) == if later - now < 3600.0 then Some(r) else None
  {
  }

  /** A fallback entry is back-dated so that only lookups less than 300 s later are served from it. */
  lemma FallbackEntryFreshForFiveMinutes(cache: map<string, Entry>, key: string, r: Report, now: real, later: real)
    ensures Lookup(cache[key := Entry(r, now - CacheDuration + FallbackLifetime)], key, later)
      == if later - now < 300.0 then Some(r) else None
  {
  }

  /**
   * Regions that differ only in the case of their letters share one cache
   * entry: what `GetWeatherData` stores for `a` is what a later call for `b`
   * looks up.
   */
  lemma CaseInsensitiveKey(cache: map<string, Entry>, a: string, b: string, r: Report, storedAt: real, later: real)
    requires |a| == |b| && forall i :: 0 <= i < |a| ==> LowerChar(a[i]) == LowerChar(b[i])
    ensures Lower(a) == Lower(b)
    ensures Lookup(cache[Lower(a) := Entry(r, storedAt)], Lower(b), later) ==
      if later - storedAt < CacheDuration then Some(r) else None
  {
  }

  class WeatherService {
    /** `weather_cache`: lower-cased region to entry. */
    var cache: map<string, Entry>
    /** `OPENWEATHER_API_KEY`. */
    var apiKey: string

    constructor(apiKey: string)
      ensures this.cache == map[] && this.apiKey == apiKey
    {
      this.cache := map[];
      this.apiKey := apiKey;
    }

    predicate ApiConfigured()
      reads this
    {
      apiKey != "" && apiKey != PlaceholderKey
    }

    /**
     * `get_weather_data`: a fresh cache entry wins; otherwise the API's answer
     * (asked only with a real key) is cached for an hour; otherwise the regional
     * fallback is cached for five minutes. `reading` is what the API call
     * yields, None for an error status or an exception.
     */
    method GetWeatherData(region: string, now: real, reading: Option<ApiReading>, v: Variation)
      returns (r: Report)
      modifies this
      ensures apiKey == old(apiKey)
      ensures var key := Lower(region);
        var hit := Lookup(old(cache), key, now);
        && (hit.Some? ==> r == hit.value && cache == old(cache))
        && (hit.None? && ApiConfigured() && reading.Some? ==>
              r == ApiReport(region, reading.value) && cache == old(cache)[key := Entry(r, now)])
        && (hit.None? && !(ApiConfigured() && reading.Some?) ==>
              r == RegionalFallback(region, v)
              && cache == old(cache)[key := Entry(r, now - CacheDuration + FallbackLifetime)])
    {
      var key := Lower(region);
      if key in cache {
        var entry := cache[key];
        if now - entry.storedAt < CacheDuration {
          return entry.report;
        }
      }
      if ApiConfigured() && reading.Some? {
        r := ApiReport(region, reading.value);
        cache := cache[key := Entry(r, now)];
        return;
      }
      r := GetRegionalFallbackWeather(region, v);
      cache := cache[key := Entry(r, now - CacheDuration + FallbackLifetime)];
    }

    /** `clear_weather_cache`. */
    method ClearWeatherCache()
      modifies this
      ensures cache == map[] && apiKey == old(apiKey)
    {
      cache := map[];
    }

    /** `update_weather_config`: a non-empty key replaces the old one and empties the cache; otherwise 400. */
    method UpdateWeatherConfig(newKey: Option<string>) returns (ok: bool)
      modifies this
      ensures ok <==> newKey.Some? && newKey.value != ""
      ensures ok ==> apiKey == newKey.value && cache == map[]
      ensures !ok ==> apiKey == old(apiKey) && cache == old(cache)
    {
      if newKey.Some? && newKey.value != "" {
        apiKey := newKey.value;
        cache := map[];
        return true;
      }
      return false;
    }
  }
}
