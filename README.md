# Activity ranker core, modelled in Dafny

This project models the core of the activity ranker. The service answers
"which activity suits city X over the next seven days?". It geocodes the
city, fetches a daily weather series and an optional marine series, and
aligns them on the weather dates. It then scores the days with a
placeholder scorer and returns a `CityRanking` envelope with cache
metadata. Beside the resolver sit an in-memory TTL cache keyed by the
normalized city name and a city-name validator. The client formats
activity names and colours scores.

Modules:

- `Wrappers` (`wrappers.dfy`): `Option` for `null`/`undefined`, and `Result` for thrown errors.
- `JsString` (`js_string.dfy`): the JavaScript string primitives the core uses. These are the regex classes `[a-zA-Z]`, `\d`, `\w` and `\s`, plus `toLowerCase`, `toUpperCase` and `trim`, with the lemmas about trimming.
- `SharedTypes` (`shared_types.dfy`): `Activity`, `DayWeather`, `DayScore`, `ActivityRanking` and `CityRanking` from `packages/shared/src/types.ts`.
- `Scoring` (`scoring.dfy`): `buildActivityRankings` and its inner `stub`.
- `Validation` (`validation.dfy`): the `cityInputSchema` chain and `validateCityInput`.
- `Cache` (`cache.dfy`): the class `CacheManager` over a `map<string, CacheEntry>`. The clock is an explicit `now` argument in milliseconds.
- `Resolver` (`resolver.dfy`): the `cityRanking` resolver, meaning its error exits, the `days` alignment and the envelope. The three upstream calls are function parameters (`geocode`, `fetchWeather`, `fetchMarine`) that stand for what each call returns. Weather and marine are requested at the geocoded coordinates.
- `ActivityCard` (`activity_card.dfy`): `pretty`, `getScoreColor` and `getScoreBgColor`.

Where the repository's design description and its code disagree, the model follows the code:

- The resolver does not consult the cache (`server/src/index.ts:30`) and does not call the validator. Cache and validator are modelled as standalone components.
- The alignment does not cut the days to seven. The scorer's slice is the only truncation.
- The design says a `get` right after a `set` reports fewer seconds than the lifetime. The code reports exactly `floor(ttl / 1000)` when `now` equals the store time (`Cache.ImmediateGetHits`).
- The design asks the scorer for one day score per input day. The placeholder scorer gives seven `DAY_n` entries for an empty input and at most seven entries otherwise.
- Errors are plain messages ("City not found", "Weather data unavailable"), not distinct error classes.
- The design checks that the name is "non-empty after trimming". The code checks the length before trimming. Its pattern already forbids surrounding white space, so a blank name is rejected either way.

## Model

| member | source | states |
|---|---|---|
| `JsString.Lower` | server/src/lib/cache.ts:17 | `toLowerCase` keeps the length, leaves no upper-case letter, maps each upper-case letter to its lower-case partner and keeps every other character |
| `JsString.Trim` | server/src/lib/validation.ts:14 | `trim` returns a slice of the string that neither starts nor ends with white space, with only white space cut on either side |
| `Cache.CacheKey` | server/src/lib/cache.ts:16-18 | a key has no upper-case letter and neither starts nor ends with white space |
| `Cache.CacheKeyIdempotent` | server/src/lib/cache.ts:16-18 | normalizing an already normalized key (lower-case, then trim) changes nothing |
| `Cache.KeyIgnoresPadding` | server/src/lib/cache.ts:16-18 | white space around a name does not change its key, which is the lower-cased name |
| `Cache.LondonKeys` | server/src/lib/cache.ts:16-18 | "London" and "  LONDON  " have the same key, "london" |
| `Cache.SecondsLeft` | server/src/lib/cache.ts:38 | the reported seconds are the floor of the remaining milliseconds over 1000 (`secs*1000 <= rest < secs*1000 + 1000`) |
| `Cache.Lookup` | server/src/lib/cache.ts:20-41 | what `get` returns from a given map: nothing for a missing or stale key, else the stored data with hit metadata (characterized by `LookupMissing`, `LookupExpired`, `LookupFresh`) |
| `Cache.AfterLookup` | server/src/lib/cache.ts:26-32 | the map after `get`: the stale entry under the key, if any, is deleted (characterized by `LookupMissing`, `LookupExpired`, `LookupFresh`) |
| `Cache.Stored` | server/src/lib/cache.ts:43-52 | the map after `set` (characterized by `StoredEntry`) |
| `Cache.CacheManager.constructor` | server/src/lib/cache.ts:9-14 | a new cache is empty and keeps the given lifetime |
| `Cache.CacheManager.Get` | server/src/lib/cache.ts:20-41 | returns the lookup result for the normalized key and leaves the map with any stale entry for that key deleted |
| `Cache.CacheManager.Set` | server/src/lib/cache.ts:43-52 | the map afterwards holds the data with miss metadata and the time of the call under the normalized key |
| `Cache.CacheManager.Clear` | server/src/lib/cache.ts:54-56 | the map is empty afterwards |
| `Cache.CacheManager.Size` | server/src/lib/cache.ts:58-60 | returns the number of stored keys |
| `Cache.LookupMissing` | server/src/lib/cache.ts:21-24 | a key with no entry misses and leaves the map unchanged |
| `Cache.LookupExpired` | server/src/lib/cache.ts:26-32 | when strictly more than the lifetime has passed, `get` misses, removes exactly that key, keeps every other entry, and the size drops by one |
| `Cache.LookupFresh` | server/src/lib/cache.ts:26-40 | when at most the lifetime has passed (equality included), `get` returns the stored data with `{hit: true, ttlSeconds: floor((ttl - (now - timestamp))/1000)}` and leaves the map unchanged |
| `Cache.SecondsLeftBounds` | server/src/lib/cache.ts:38 | for `timestamp <= now <= timestamp + ttl` the reported seconds lie in `[0, floor(ttl/1000)]` |
| `Cache.StoredEntry` | server/src/lib/cache.ts:43-52 | `set` adds or overwrites the key with the data, miss metadata `floor(ttl/1000)` and timestamp `now`, and leaves every other key as it was |
| `Cache.SetThenGet` | server/src/lib/cache.ts:20-52 | after `set` under one name, a `get` under any name with the same key and within the lifetime hits and returns the stored data with in-range seconds |
| `Cache.ImmediateGetHits` | server/src/lib/cache.ts:34-48 | a `get` at the time of the `set` reports the full `floor(ttl/1000)` seconds |
| `Cache.SetLondonGetLondonUpper` | server/src/lib/cache.ts:16-52 | on a real `CacheManager`, `set("London", r)` then `get("  LONDON  ")` returns `r` with hit metadata |
| `Validation.MatchesCityPattern` | server/src/lib/validation.ts:9-12 | the regular expression: one letter, or a letter, name characters, and a letter (read back by `PatternMeaning`) |
| `Validation.PassesRefinement` | server/src/lib/validation.ts:13-24 | the four tests of the refinement, applied to the trimmed name (implied by the pattern: `PatternImpliesRefinement`) |
| `Validation.Issues` | server/src/lib/validation.ts:7-24 | the issues in the order of the checks; there are none exactly when the length is 1 to 100 and the pattern matches |
| `Validation.ValidateCityInput` | server/src/lib/validation.ts:4-31 | success exactly when the input is a string of 1 to 100 characters that matches the pattern, and then the value is the input itself; every failure carries at least one issue |
| `Validation.MessagesIdentifyIssues` | server/src/lib/validation.ts:7-24 | the four checks have four different messages |
| `Validation.Accepted` | server/src/lib/validation.ts:7-25 | every name of 1 to 100 characters that matches the pattern is accepted and returned unchanged |
| `Validation.PatternMeaning` | server/src/lib/validation.ts:9-12 | the pattern holds exactly when the name is non-empty, starts and ends with an ASCII letter, and has only letters, white space or `-'.,` |
| `Validation.PatternTrimUnchanged` | server/src/lib/validation.ts:9-25 | trimming a name that matches the pattern returns it unchanged |
| `Validation.PatternImpliesRefinement` | server/src/lib/validation.ts:9-24 | the refinement never rejects a name that the pattern accepted |
| `Validation.LengthBoundsRejected` | server/src/lib/validation.ts:7-8 | the empty string is rejected with the "required" issue, and strings over 100 characters (measured before trimming) with the "too long" issue |
| `Validation.AcceptedShape` | server/src/lib/validation.ts:7-25 | an accepted name is returned unchanged, has 1 to 100 characters, starts and ends with a letter, and has only letters, white space or `-'.,` |
| `Validation.IssuesOfNonName` | server/src/lib/validation.ts:7-24 | a non-empty name failing pattern and refinement gets the pattern issue and the refinement issue, in that order, plus "too long" first when over 100 |
| `Validation.DigitsAndPunctuationRejected` | server/src/lib/validation.ts:9-22 | all-digit and punctuation-only strings fail both the pattern and the refinement and are rejected |
| `Validation.EmptyIssues` | server/src/lib/validation.ts:7-24 | "" gets the issues "required", pattern and refinement |
| `Validation.DigitsIssues` | server/src/lib/validation.ts:9-20 | "12345" gets the pattern and refinement issues |
| `Validation.PunctuationIssues` | server/src/lib/validation.ts:9-22 | "-----" gets the pattern and refinement issues |
| `Validation.ExamplesAccepted` | server/src/lib/validation.ts:9-25 | "New York", "O'Fallon" and "St. Louis" are accepted and returned unchanged |
| `Scoring.DayLabel` | packages/shared/src/scoring.ts:7 | the placeholder label for day n is `DAY_` followed by the digit n |
| `Scoring.PlaceholderDatesAreDay1To7` | packages/shared/src/scoring.ts:7 | the placeholder dates are DAY_1 … DAY_7 |
| `Scoring.RankingDates` | packages/shared/src/scoring.ts:4-8 | the date axis has 1 to 7 entries: the first `min(n, 7)` input dates in order, or the seven placeholders for an empty input |
| `Scoring.Stub` | packages/shared/src/scoring.ts:10-11 | `stub` gives one day score per date |
| `Scoring.BuildActivityRankings` | packages/shared/src/scoring.ts:13-38 | always four rankings |
| `Scoring.RankingsCoverActivities` | packages/shared/src/scoring.ts:13-38 | the rankings are SKIING, SURFING, OUTDOOR_SIGHTSEEING, INDOOR_SIGHTSEEING in that order: every activity appears, each once |
| `Scoring.RankingDaysFollowInput` | packages/shared/src/scoring.ts:4-11 | for a non-empty input each ranking lists the first `min(n, 7)` input dates in order; for an empty input it lists exactly DAY_1 … DAY_7 |
| `Scoring.RankingsShareDates` | packages/shared/src/scoring.ts:4-11 | all four rankings have the same number of days and the same date on each day |
| `Scoring.RankingHeadline` | packages/shared/src/scoring.ts:13-38 | each activity's own score is SKIING 30, SURFING 55, OUTDOOR_SIGHTSEEING 70, INDOOR_SIGHTSEEING 60, with reason "hardcoded" |
| `Scoring.RankingScoresUniform` | packages/shared/src/scoring.ts:10-37 | within an activity every day has the same score (25, 50, 70, 60) and reason "hardcoded", and all day scores are in [0, 100] |
| `Scoring.RankingsDependOnDatesOnly` | packages/shared/src/scoring.ts:4-8 | two inputs with the same dates give the same rankings, whatever their readings |
| `Resolver.MessagesIdentifyErrors` | server/src/index.ts:32-38 | "City not found" and "Weather data unavailable" tell the two errors apart |
| `Resolver.IndexOf` | server/src/index.ts:49 | `indexOf` gives -1 exactly when the date is absent, else the first position holding it |
| `Resolver.WaveHeightOn` | server/src/index.ts:47-51 | a wave height is present only with marine data whose axis holds the date |
| `Resolver.AlignedDay` | server/src/index.ts:40-52 | the record for day i carries the i-th weather date, and a wave height only when marine data lists that date |
| `Resolver.AlignDays` | server/src/index.ts:40-41 | one record per weather date, in the same order and with the same date |
| `Resolver.ResolveCityRanking` | server/src/index.ts:31-64 | "City not found" exactly when geocoding gives nothing; "Weather data unavailable" exactly when geocoding succeeds and the weather at its coordinates is absent |
| `Resolver.CountryOf` | server/src/index.ts:58 | `country` is present exactly when the geocoded country is non-empty, and then equals it |
| `Resolver.AlignedReadings` | server/src/index.ts:42-46 | each weather field of day i is present exactly when that array reaches i and holds a value there, and then equals it |
| `Resolver.NoMarineNoWaves` | server/src/index.ts:47-48 | without marine data no day has a wave height |
| `Resolver.AlignedWaveHeight` | server/src/index.ts:47-51 | the wave height is the reading at the first marine position of the date; it is absent when the date is not on the marine axis, and when present it is a reading stored under that date |
| `Resolver.NotFoundIgnoresFetches` | server/src/index.ts:31-37 | a geocoding failure gives "City not found" whatever the weather and marine fetches would return |
| `Resolver.MarineNeverFails` | server/src/index.ts:34-64 | once the city is found and the weather arrives the request succeeds, whatever the marine result |
| `Resolver.SuccessEnvelope` | server/src/index.ts:17-64 | on success, name and coordinates come from the geocoder; cache is `{hit: false, ttlSeconds: floor(ttl/1000)}`, 1800 under the default lifetime; `country` is present exactly when non-empty; the activities are the scorer's rankings of the aligned days, each with `min(n, 7)` days carrying the weather dates, or DAY_1 … DAY_7 when the weather has no dates |
| `Resolver.SparseMarineExample` | server/src/index.ts:40-52 | weather dates D1..D7 with marine dates [D2, D5] give seven days in order, with wave heights only on D2 and D5 |
| `ActivityCard.Pretty` | client/app/components/ActivityCard.tsx:4-8 | `pretty` keeps the length, leaves no `_`, and puts a space where each `_` was |
| `ActivityCard.PrettyCapitalizesWords` | client/app/components/ActivityCard.tsx:7-8 | a letter of the output is upper-case exactly when it starts the string or follows a non-word character, and lower-case otherwise |
| `ActivityCard.PrettyOnlyRecases` | client/app/components/ActivityCard.tsx:4-8 | lower-casing `pretty`'s output gives the lower-cased input with underscores as spaces, so only case changes |
| `ActivityCard.PrettyOutdoorSightseeing` | client/app/components/ActivityCard.tsx:4-8 | the heading for the activity `OUTDOOR_SIGHTSEEING` is "Outdoor Sightseeing" |
| `ActivityCard.ScoreColor` | client/app/components/ActivityCard.tsx:10-14 | `getScoreColor` gives the text class of the score's band |
| `ActivityCard.ScoreBgColor` | client/app/components/ActivityCard.tsx:16-20 | `getScoreBgColor` gives the background class of the same band, so text and background share a colour family |
| `ActivityCard.BandThresholds` | client/app/components/ActivityCard.tsx:10-14 | green for scores ≥ 70, yellow for [40, 70), red below 40, and every score falls in exactly one band |
| `ActivityCard.BandMonotone` | client/app/components/ActivityCard.tsx:10-14 | raising a score never moves it to a worse band |

## Left out

- Network I/O in `server/src/services/openMeteo.ts`: URL building, `fetch` and JSON field picking. Its results are the optional inputs of the resolver. The rescaling of precipitation probability by 1/100 happens there and is not modelled.
- Concurrency: `Promise.all` over the weather and marine fetches, the async plumbing, and atomicity of cache access across concurrent requests. The model is sequential.
- Process bootstrap: `main()`, server start-up, logging, and reading `PORT`, `NODE_ENV` and `CACHE_TTL_MS` from the environment. The lifetime is the parameter `cacheTtlMs`, and `DefaultCacheTtlMs` is the 30-minute default. A non-numeric or fractional setting is not modelled.
- Clocks: `Date.now()` is the `now` argument, and `new Date().toISOString()` is the opaque `generatedAt` string argument.
- Floating point: coordinates and readings are `real` values that are only copied. Timestamps and lifetimes are integers in milliseconds. Colour helpers take a `real` score, and `NaN` is not modelled.
- Unicode case mapping: `toLowerCase`/`toUpperCase` are modelled on ASCII letters only, and other characters are kept. String length counts characters, not UTF-16 code units. `\s` and `trim` use the full ECMAScript white-space set.
- The schema library's own behaviour beyond the checks: the wording of its invalid-type issue, the shape of the thrown error object, and unknown object keys. A non-string or missing `city` is `NotACityString`.
- Weather responses without a date array, where `weather.dates.map` would throw, are not modelled. The date axis is always a sequence.
- Resolver.ResolveCityRanking: a reading array missing from the weather (`tMax`, `tMin`, `precipProb`, `windMax` or `snowfall` undefined) or a marine block without `wave` makes `server/src/index.ts:42-50` throw a `TypeError`. The model's series always carry every array, so that failure is not captured.
- Resolver.ResolveCityRanking: a fetch that rejects (a transport failure in `fetch`, invalid JSON in `res.json()`) makes the resolver throw that error. The fetch parameters only return a value or nothing, so the "exactly when" error conditions hold only for fetches that do not throw.
- Resolver.MarineNeverFails: a rejected marine fetch fails the whole request through `Promise.all` (`server/src/index.ts:34-37`), even when the weather arrived. The lemma covers a marine result that is present or `null`, not one that throws.
- Cache.CacheManager.Get: `get` and `set` make shallow copies (`server/src/lib/cache.ts:34-35`, `46-47`), so a stored entry shares its `activities` array with the caller's object and later mutation of one shows in the other. The model uses value semantics, so that aliasing is not captured.
- The JSX of `ActivityCard`, `client/app/page.tsx`, `client/app/lib/apollo.tsx`, `client/app/lib/queries.ts` and `server/src/schema.ts`. These are markup, the GraphQL client and schema text.
- Capacity bounds, LRU eviction, single-flight de-duplication, and wiring of cache and validator into the resolver. The repository describes these, but the code does not implement them.
