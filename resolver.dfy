/** The `cityRanking` query resolver (server/src/index.ts): geocode the city,
    fetch the weather and marine series at its coordinates, align them day
    by day on the weather's dates, score the days and wrap the result.
    The upstream calls are the function parameters `geocode`,
    `fetchWeather` and `fetchMarine`, standing for what each call returns. */
module Resolver {
  import opened Wrappers
  import opened SharedTypes
  import Scoring

  /** The geocoder's best match. */
  datatype GeoResult = GeoResult(name: string, country: Option<string>, latitude: Num, longitude: Num)

  /** The daily weather block: one date axis and five parallel reading
      arrays, any of which may be shorter than the dates or hold `null`. */
  datatype WeatherSeries = WeatherSeries(
    dates: seq<string>,
    tMax: seq<Option<Num>>,
    tMin: seq<Option<Num>>,
    precipProb: seq<Option<Num>>,
    windMax: seq<Option<Num>>,
    snowfall: seq<Option<Num>>)

  /** The daily marine block: its own date axis and wave heights. */
  datatype MarineSeries = MarineSeries(dates: seq<string>, wave: seq<Option<Num>>)

  /** The two errors the resolver throws. */
  datatype ResolveError = CityNotFound | WeatherUnavailable
  {
    /** The message of the thrown `Error`. */
    function Message(): string
    {
      match this
      case CityNotFound => "City not found"
      case WeatherUnavailable => "Weather data unavailable"
    }
  }

  /** The two messages differ, so a client can tell the errors apart. */
  lemma MessagesIdentifyErrors(e1: ResolveError, e2: ResolveError)
    ensures e1.Message() == e2.Message() <==> e1 == e2
  {
  }

  /** The cache lifetime the server uses when none is configured: 30 minutes. */
  const DefaultCacheTtlMs: int := 30 * 60 * 1000

  /** `xs[i] ?? null`: the reading at `i`, absent past the end. */
  function At(xs: seq<Option<Num>>, i: nat): Option<Num>
  {
    if i < |xs| then xs[i] else None
  }

  /** `xs.indexOf(x)`: the first position of `x`, or -1. */
  function IndexOf(xs: seq<string>, x: string): (j: int)
    ensures -1 <= j < |xs|
    ensures j == -1 <==> x !in xs
    ensures j >= 0 ==> xs[j] == x && forall k :: 0 <= k < j ==> xs[k] != x
  {
    if |xs| == 0 then -1
    else if xs[0] == x then 0
    else
      var j := IndexOf(xs[1..], x);
      if j < 0 then -1 else j + 1
  }

  /** The wave height for `date`: none without marine data, none when the
      date is not on the marine axis, else the reading at its first match. */
  function WaveHeightOn(marine: Option<MarineSeries>, date: string): (h: Option<Num>)
    ensures h.Some? ==> marine.Some? && date in marine.value.dates
  {
    match marine
    case None => None
    case Some(m) =>
      var j := IndexOf(m.dates, date);
      if j >= 0 then At(m.wave, j) else None
  }

  /** The merged record for the `i`-th weather date. */
  function AlignedDay(weather: WeatherSeries, marine: Option<MarineSeries>, i: nat): (d: DayWeather)
    requires i < |weather.dates|
    ensures d.date == weather.dates[i]
    ensures d.waveHeight.Some? ==> marine.Some? && weather.dates[i] in marine.value.dates
  {
    var date := weather.dates[i];
    DayWeather(
      date,
      At(weather.tMax, i),
      At(weather.tMin, i),
      At(weather.precipProb, i),
      At(weather.windMax, i),
      At(weather.snowfall, i),
      WaveHeightOn(marine, date))
  }

  /** The `days` map: one record per weather date, in weather order. */
  function AlignDays(weather: WeatherSeries, marine: Option<MarineSeries>): (days: seq<DayWeather>)
    ensures |days| == |weather.dates|
    ensures forall i :: 0 <= i < |days| ==> days[i].date == weather.dates[i]
  {
    seq(|weather.dates|, i requires 0 <= i < |weather.dates| => AlignedDay(weather, marine, i))
  }

  /** `country` appears only when the geocoder gave a non-empty one. */
  function CountryOf(geo: GeoResult): (c: Option<string>)
    ensures c.Some? <==> geo.country.Some? && geo.country.value != ""
    ensures c.Some? ==> c == geo.country
  {
    match geo.country
    case Some(c) => if c != "" then Some(c) else None
    case None => None
  }

  /** The resolver body: error exits in source order, then the envelope. */
  function ResolveCityRanking(
    city: string,
    geocode: string -> Option<GeoResult>,
    fetchWeather: (Num, Num) -> Option<WeatherSeries>,
    fetchMarine: (Num, Num) -> Option<MarineSeries>,
    generatedAt: string,
    cacheTtlMs: int): (r: Result<CityRanking, ResolveError>)
    ensures r == Failure(CityNotFound) <==> geocode(city).None?
    ensures r == Failure(WeatherUnavailable) <==>
      geocode(city).Some? && fetchWeather(geocode(city).value.latitude, geocode(city).value.longitude).None?
  {
    match geocode(city)
    case None => Failure(CityNotFound)
    case Some(geo) =>
      match fetchWeather(geo.latitude, geo.longitude)
      case None => Failure(WeatherUnavailable)
      case Some(weather) =>
        var marine := fetchMarine(geo.latitude, geo.longitude);
        var days := AlignDays(weather, marine);
        Success(CityRanking(
          geo.name,
          CountryOf(geo),
          geo.latitude,
          geo.longitude,
          Scoring.BuildActivityRankings(days),
          generatedAt,
          CacheMeta(false, cacheTtlMs / 1000)))
  }

  /** Each weather field of day `i` is the `i`-th reading, or none when that
      array is shorter or holds `null`. */
  lemma AlignedReadings(weather: WeatherSeries, marine: Option<MarineSeries>, i: nat)
    requires i < |weather.dates|
    ensures var d := AlignDays(weather, marine)[i];
      && (d.tMax.Some? <==> i < |weather.tMax| && weather.tMax[i].Some?)
      && (d.tMax.Some? ==> d.tMax == weather.tMax[i])
      && (d.tMin.Some? <==> i < |weather.tMin| && weather.tMin[i].Some?)
      && (d.tMin.Some? ==> d.tMin == weather.tMin[i])
      && (d.precipProb.Some? <==> i < |weather.precipProb| && weather.precipProb[i].Some?)
      && (d.precipProb.Some? ==> d.precipProb == weather.precipProb[i])
      && (d.windMax.Some? <==> i < |weather.windMax| && weather.windMax[i].Some?)
      && (d.windMax.Some? ==> d.windMax == weather.windMax[i])
      && (d.snowfall.Some? <==> i < |weather.snowfall| && weather.snowfall[i].Some?)
      && (d.snowfall.Some? ==> d.snowfall == weather.snowfall[i])
  {
  }

  /** Without marine data no day has a wave height. */
  lemma NoMarineNoWaves(weather: WeatherSeries)
    ensures forall i :: 0 <= i < |weather.dates| ==> AlignDays(weather, None)[i].waveHeight == None
  {
  }

  /** With marine data, a day's wave height is the reading at the first
      marine position of its date; it is absent when the date is not on the
      marine axis or that reading is missing or `null`. */
  lemma {:induction false} AlignedWaveHeight(weather: WeatherSeries, m: MarineSeries, i: nat)
    requires i < |weather.dates|
    ensures var w := AlignDays(weather, Some(m))[i].waveHeight;
      && (weather.dates[i] !in m.dates ==> w == None)
      && (forall j :: 0 <= j < |m.dates| && m.dates[j] == weather.dates[i]
            && (forall k :: 0 <= k < j ==> m.dates[k] != weather.dates[i])
            ==> w == At(m.wave, j))
      && (w.Some? ==>
            exists j :: 0 <= j < |m.dates| && j < |m.wave| && m.dates[j] == weather.dates[i] && m.wave[j] == w)
  {
  }

  /** Geocoding failure is reported before any weather or marine result is
      looked at: the outcome does not depend on those fetches. */
  lemma NotFoundIgnoresFetches(
    city: string, geocode: string -> Option<GeoResult>,
    w1: (Num, Num) -> Option<WeatherSeries>, m1: (Num, Num) -> Option<MarineSeries>,
    w2: (Num, Num) -> Option<WeatherSeries>, m2: (Num, Num) -> Option<MarineSeries>,
    generatedAt: string, cacheTtlMs: int)
    requires geocode(city).None?
    ensures ResolveCityRanking(city, geocode, w1, m1, generatedAt, cacheTtlMs)
         == ResolveCityRanking(city, geocode, w2, m2, generatedAt, cacheTtlMs)
         == Failure(CityNotFound)
  {
  }

  /** A missing marine result is never an error: once the city is found and
      the weather arrives, the request succeeds. */
  lemma MarineNeverFails(
    city: string, geocode: string -> Option<GeoResult>,
    fetchWeather: (Num, Num) -> Option<WeatherSeries>,
    fetchMarine: (Num, Num) -> Option<MarineSeries>,
    generatedAt: string, cacheTtlMs: int)
    requires geocode(city).Some?
    requires fetchWeather(geocode(city).value.latitude, geocode(city).value.longitude).Some?
    ensures ResolveCityRanking(city, geocode, fetchWeather, fetchMarine, generatedAt, cacheTtlMs).Success?
  {
  }

  /** A successful result: name and coordinates from the geocoder, miss
      metadata with the full lifetime (1800 seconds under the default),
      `country` only when non-empty, and the scorer's rankings of the
      aligned days: each lists the first min(n, 7) weather dates, or
      DAY_1 … DAY_7 when the weather has no dates. */
  lemma SuccessEnvelope(
    city: string, geocode: string -> Option<GeoResult>,
    fetchWeather: (Num, Num) -> Option<WeatherSeries>,
    fetchMarine: (Num, Num) -> Option<MarineSeries>,
    generatedAt: string, cacheTtlMs: int)
    requires ResolveCityRanking(city, geocode, fetchWeather, fetchMarine, generatedAt, cacheTtlMs).Success?
    ensures var r := ResolveCityRanking(city, geocode, fetchWeather, fetchMarine, generatedAt, cacheTtlMs).value;
      var geo := geocode(city).value;
      var weather := fetchWeather(geo.latitude, geo.longitude).value;
      var n := |weather.dates|;
      && r.city == geo.name
      && r.latitude == geo.latitude && r.longitude == geo.longitude
      && r.cache == CacheMeta(false, cacheTtlMs / 1000)
      && (cacheTtlMs == DefaultCacheTtlMs ==> r.cache.ttlSeconds == 1800)
      && r.generatedAt == generatedAt
      && (r.country.Some? <==> geo.country.Some? && geo.country.value != "")
      && (r.country.Some? ==> r.country == geo.country)
      && r.activities == Scoring.BuildActivityRankings(AlignDays(weather, fetchMarine(geo.latitude, geo.longitude)))
      && |r.activities| == 4
      && (forall k :: 0 <= k < 4 ==>
            |r.activities[k].days| == (if n == 0 || n >= Scoring.MaxDays then Scoring.MaxDays else n))
      && (forall k, i :: 0 <= k < 4 && 0 <= i < |r.activities[k].days| && n > 0 ==>
            r.activities[k].days[i].date == weather.dates[i])
      && (forall k, i :: 0 <= k < 4 && 0 <= i < 7 && n == 0 ==>
            r.activities[k].days[i].date == ["DAY_1", "DAY_2", "DAY_3", "DAY_4", "DAY_5", "DAY_6", "DAY_7"][i])
  {
    var geo := geocode(city).value;
    var weather := fetchWeather(geo.latitude, geo.longitude).value;
    var days := AlignDays(weather, fetchMarine(geo.latitude, geo.longitude));
    forall k | 0 <= k < 4 {
      Scoring.RankingDaysFollowInput(days, k);
    }
  }

  /** Weather dates D1..D7 with marine dates [D2, D5] carrying readings:
      seven days in weather order, wave heights only on D2 and D5. */
  lemma SparseMarineExample(weather: WeatherSeries, m: MarineSeries, h2: Num, h5: Num)
    requires |weather.dates| == 7
    requires forall a, b :: 0 <= a < b < 7 ==> weather.dates[a] != weather.dates[b]
    requires m.dates == [weather.dates[1], weather.dates[4]]
    requires m.wave == [Some(h2), Some(h5)]
    ensures var days := AlignDays(weather, Some(m));
      && |days| == 7
      && (forall i :: 0 <= i < 7 ==> days[i].date == weather.dates[i])
      && days[1].waveHeight == Some(h2) && days[4].waveHeight == Some(h5)
      && (forall i :: 0 <= i < 7 && i != 1 && i != 4 ==> days[i].waveHeight == None)
  {
  }
}
