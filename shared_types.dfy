/** The record shapes shared by server and client
    (packages/shared/src/types.ts). */
module SharedTypes {
  import opened Wrappers

  /** A JavaScript number that the core only copies (coordinates, weather
      readings); nothing in the model computes with it. */
  type Num = real

  /** The four activities, in the order the product lists them. */
  datatype Activity = Skiing | Surfing | OutdoorSightseeing | IndoorSightseeing

  /** The string by which the source names an activity. */
  function ActivityName(a: Activity): string
  {
    match a
    case Skiing => "SKIING"
    case Surfing => "SURFING"
    case OutdoorSightseeing => "OUTDOOR_SIGHTSEEING"
    case IndoorSightseeing => "INDOOR_SIGHTSEEING"
  }

  /** One date's merged weather and marine readings; `None` is the source's `null`. */
  datatype DayWeather = DayWeather(
    date: string,
    tMax: Option<Num>,
    tMin: Option<Num>,
    precipProb: Option<Num>,
    windMax: Option<Num>,
    snowfall: Option<Num>,
    waveHeight: Option<Num>)

  datatype DayScore = DayScore(date: string, score: int, reason: string)

  datatype ActivityRanking = ActivityRanking(
    activity: Activity,
    score: int,
    reason: string,
    days: seq<DayScore>)

  /** The `cache` metadata of a result: hit flag and remaining seconds. */
  datatype CacheMeta = CacheMeta(hit: bool, ttlSeconds: int)

  /** The query result; `country` is `None` when the property is absent. */
  datatype CityRanking = CityRanking(
    city: string,
    country: Option<string>,
    latitude: Num,
    longitude: Num,
    activities: seq<ActivityRanking>,
    generatedAt: string,
    cache: CacheMeta)
}
