# Weather Dashboard backend: forecast reshaping and search history

This project models the server core of the Weather Dashboard app in Dafny. The server
resolves a city name to coordinates and fetches a multi-day, three-hourly forecast from
OpenWeather. It reduces that forecast to a current reading followed by one reading per
later day, and it keeps the searched cities in a JSON file (`searchHistory.json`).

The repository has three near-duplicate implementations of this core. Each one is
modelled as its code behaves; they are not merged:

- `server/src/routes/api/weatherRoutes.ts` (module `ApiRoutes`):
  - `processWeatherData` returns up to six elements: the first reading with the city,
    then every noon reading whose day of the month is not today's. The scan starts at
    index 0.
  - `saveToHistory` skips a name already present. Otherwise it puts the name at the
    head and keeps five entries.
  - GET and DELETE fail when the file is missing or does not parse.
- `server/src/service/weatherService.ts` (module `WeatherService`), the singleton
  service:
  - It builds the forecast URL and destructures the first geocoding match.
  - It returns the current reading followed by the first four noon readings among the
    first forty. Nothing excludes the current day, although the comment at line 85
    says today is skipped.
  - Its `city` field is written by each lookup.
- `server/src/routes/weatherRoutes.ts` (module `WeatherRoutes`):
  - `ensureHistoryFile` creates a missing file as `[]`.
  - POST puts every resolved search at the head, with no duplicate check and no length
    limit.
  - DELETE filters by id.

Modules shared by these:

- `Calendar`: local hour, day number and Gregorian date of a Unix time under a fixed
  UTC offset. The date is counted from 1970-01-01 a year at a time and then a month at
  a time.
- `Upstream`: the forecast points and geocoding matches as the provider sends them,
  plus JavaScript's `Math.round`.
- `Selection`: filter-by-position (`Matches`), `Pick` and `Take`, i.e. `filter` and
  `slice(0, n)`.
- `History`: history entries, `find` by name and the filter by id.
- `Wrappers`: `Option` and `Result`.

How the model represents the inputs:

- Readings are integers in hundredths: 72.35 °F is `7235`. `Round(c) = (c + 50) / 100`
  with Dafny's floor division, which is exactly `Math.round`, including on negative
  values.
- The host clock reaches the model only as parameters: "today" is the day of the month
  of `new Date()`, and the host time zone is a fixed offset.
- `toLocaleDateString()` is modelled as the civil `Date` of the reading in that zone.
- The history file has three states:
  - `Missing`;
  - `Unparsable`, for text that `JSON.parse` rejects;
  - `Stored(entries)`.
- The id (`Date.now().toString()` or `uuidv4()`) and the ISO timestamp are parameters.
- Network answers are functions passed in:
  - geocoding: query string to `Option<seq<GeoMatch>>`;
  - forecast: URL to `Option<seq<RawPoint>>`.

How the three implementations differ, as their code reads:

- `processWeatherData` keeps up to six elements, the current reading and five later
  days, matching its "next 5 days" comment at line 121.
- The comment at `weatherService.ts:85` says today is skipped, but the filter at lines
  86-89 does not skip it.
- `routes/weatherRoutes.ts` neither deduplicates nor caps its history, unlike
  `saveToHistory`.
- The api-route GET and DELETE fail on a missing file, while `routes/weatherRoutes.ts`
  first creates it as `[]`.

## Model

| member | source | states |
|---|---|---|
| Calendar.HourOf | server/src/routes/api/weatherRoutes.ts:123-125 | `getHours()` of a Unix time in the host zone: an hour 0..23 that places the local time inside that hour of its local day |
| Calendar.SameHourLaterDay | server/src/service/weatherService.ts:85-88 | two readings with the same local hour, at least an hour apart, lie on strictly later local days, which is why the noon filter yields one reading per day |
| Calendar.DateFromValid | server/src/service/weatherService.ts:94 | counting any number of days, forward or back, from 1 January of a year lands on a valid date: month 1..12 and day within that month's length |
| Calendar.LocalDateValid | server/src/routes/api/weatherRoutes.ts:123-127 | the local date of every instant is a valid Gregorian date, so `getDate()` is between 1 and 31 |
| Calendar.LocalDate | server/src/service/weatherService.ts:94 | `toLocaleDateString()` as the local date of a Unix time: a valid Gregorian date from which `DaysFromCivil` recovers the local day number |
| Calendar.DayOfMonth | server/src/routes/api/weatherRoutes.ts:125 | `getDate()`: the local day of the month, between 1 and 31 |
| Calendar.DateFromInverse | server/src/routes/api/weatherRoutes.ts:127 | counting days from 1 January of any year and counting them back from the resulting date gives the same number |
| Calendar.CivilFromDaysInverse | server/src/routes/api/weatherRoutes.ts:113 | `DaysFromCivil` undoes `CivilFromDays`, so no two day numbers share a date |
| Calendar.LocalDatesDiffer | server/src/routes/api/weatherRoutes.ts:127 | instants on different local days render different dates |
| Upstream.Round | server/src/routes/api/weatherRoutes.ts:116-117 | `Math.round` on hundredths: the result is the integer whose half-open interval [r - 0.5, r + 0.5) holds the reading |
| Upstream.RoundIsUnique | server/src/service/weatherService.ts:73-75 | that interval determines the rounded value uniquely, so the bounds specify `Math.round` completely |
| Upstream.SpacedApart | server/src/service/weatherService.ts:86-88 | in a series whose consecutive samples lie at least an hour apart, any later sample is at least an hour after any earlier one |
| Selection.Matches | server/src/service/weatherService.ts:86-88 | the positions kept by `filter((reading, index) => …)`: every one is below the bound and satisfies the predicate |
| Selection.MatchesComplete | server/src/service/weatherService.ts:86-88 | every position below the bound that satisfies the predicate is kept |
| Selection.MatchesIncreasing | server/src/service/weatherService.ts:86-88 | the kept positions are strictly increasing, so `filter` keeps relative order |
| Selection.MatchesBefore | server/src/routes/api/weatherRoutes.ts:122-135 | the matches below the k-th match are exactly the first k matches |
| Selection.TakeMatchesRank | server/src/service/weatherService.ts:86-89 | after `slice(0, cap)`, a match with fewer than `cap` earlier matches sits at the position given by that count |
| Selection.TakeAppend | server/src/routes/api/weatherRoutes.ts:125-126 | a push onto a list shorter than the cap survives the cap; on a full list it is dropped |
| History.Find | server/src/routes/api/weatherRoutes.ts:155 | `history.find(item => item.name === cityName)`: none exactly when no entry has the name, otherwise an entry with that name |
| History.WithoutId | server/src/routes/api/weatherRoutes.ts:93 | `history.filter(item => item.id !== id)` never lengthens the history |
| History.WithoutIdKeepsOrder | server/src/routes/weatherRoutes.ts:81 | the filter's result is the subsequence of entries whose id differs, in their original order |
| History.WithoutIdMembers | server/src/routes/api/weatherRoutes.ts:93 | an entry is in the result exactly when it was in the history and its id differs: every matching entry goes, all others stay |
| History.WithoutIdAppend | server/src/routes/weatherRoutes.ts:81 | filtering a concatenation is the concatenation of the filtered parts |
| History.WithoutAbsentId | server/src/routes/weatherRoutes.ts:81-82 | deleting an id that no entry has leaves the history unchanged |
| History.WithoutIdIdempotent | server/src/routes/api/weatherRoutes.ts:93-94 | deleting the same id twice gives the same history as deleting it once |
| History.PickKeepsUnique | server/src/routes/api/weatherRoutes.ts:93 | a subsequence taken at increasing positions keeps ids and names unique |
| History.WithoutIdKeepsUnique | server/src/routes/weatherRoutes.ts:81 | delete keeps unique ids unique and unique names unique |
| History.PrependKeepsIdsUnique | server/src/routes/weatherRoutes.ts:53-58 | putting an entry with a fresh id at the head keeps the ids unique |
| ApiRoutes.ProcessWeatherData | server/src/routes/api/weatherRoutes.ts:106-138 | an empty list fails (`list[0]` throws); otherwise the forEach loop yields the current summary followed by the summaries of the first five positions that pass the noon and not-today test |
| ApiRoutes.ProcessStep | server/src/routes/api/weatherRoutes.ts:125-134 | one forEach iteration appends the point exactly when it passes the test and fewer than six elements exist, and keeps the loop's correspondence with the selected positions |
| ApiRoutes.ProcessedLength | server/src/routes/api/weatherRoutes.ts:125 | the result holds 1 + min(qualifying points, 5) elements and never more than six |
| ApiRoutes.ProcessedCurrent | server/src/routes/api/weatherRoutes.ts:111-119 | the first element carries the city and `list[0]`'s date, icon, description and humidity unchanged, with temperature and wind speed rounded |
| ApiRoutes.ProcessedForecast | server/src/routes/api/weatherRoutes.ts:125-133 | element k ≥ 1 comes from a noon reading whose day of the month is not today's, preceded by exactly k - 1 qualifying points; it has no city, its humidity is passed through and its temperature rounded |
| ApiRoutes.ProcessedInOrder | server/src/routes/api/weatherRoutes.ts:122-135 | the forecast elements appear in the order of their points in `list` |
| ApiRoutes.ProcessedFirstFive | server/src/routes/api/weatherRoutes.ts:122-135 | each of the first five qualifying points of the whole list becomes an element, at the position given by the number of qualifying points before it |
| ApiRoutes.ScanIncludesFirstPoint | server/src/routes/api/weatherRoutes.ts:111-126 | the scan covers index 0: a qualifying `list[0]` appears both as the current element and as the first forecast element |
| ApiRoutes.ProcessedDistinctDays | server/src/routes/api/weatherRoutes.ts:121-125 | for samples at least an hour apart, the forecast elements fall on strictly increasing local day numbers |
| ApiRoutes.ProcessedDistinctDates | server/src/routes/api/weatherRoutes.ts:125-127 | for samples at least an hour apart, no two forecast elements carry the same `date` |
| ApiRoutes.SavedPresent | server/src/routes/api/weatherRoutes.ts:155-163 | saving a name already present leaves the history unchanged |
| ApiRoutes.SavedNew | server/src/routes/api/weatherRoutes.ts:155-161 | saving a new name puts it at the head; the rest is the old history's prefix in order, and the length is min(old + 1, 5) |
| ApiRoutes.SaveTwice | server/src/routes/api/weatherRoutes.ts:155 | saving the same name twice is the same as saving it once |
| ApiRoutes.SavedKeepsUnique | server/src/routes/api/weatherRoutes.ts:155-161 | saving keeps names unique, and keeps ids unique when the new id is fresh |
| ApiRoutes.SavedEvictsOldest | server/src/routes/api/weatherRoutes.ts:160-161 | saving a sixth distinct name into a full history drops exactly the oldest entry |
| ApiRoutes.HistoryFile.SaveToHistory | server/src/routes/api/weatherRoutes.ts:143-164 | a missing or unparsable file counts as empty; the file is written exactly when the name is absent, and then holds the saved history; otherwise nothing changes; unique names and the five-entry bound are kept |
| ApiRoutes.HistoryFile.GetHistory | server/src/routes/api/weatherRoutes.ts:70-80 | the stored array unchanged; an error when the file is missing or does not parse |
| ApiRoutes.HistoryFile.DeleteFromHistory | server/src/routes/api/weatherRoutes.ts:86-101 | the stored array without the entries carrying the id, never longer and keeping ids and names unique; an error, with the file unchanged, when it is missing or does not parse |
| WeatherService.DestructureLocationData | server/src/service/weatherService.ts:37-40 | the lat, lon and name of the first geocoding match; an empty answer fails |
| WeatherService.OnlyFirstMatchUsed | server/src/service/weatherService.ts:38 | later geocoding matches never affect the coordinates |
| WeatherService.BuildWeatherQuery | server/src/service/weatherService.ts:48-50 | the forecast URL begins with the service's base URL and extends it; `WeatherQueryRoundTrip` gives its full reading |
| WeatherService.IndexOf | server/src/service/weatherService.ts:48-50 | the position of the first given separator in a string |
| WeatherService.WeatherQueryRoundTrip | server/src/service/weatherService.ts:48-50 | read back at `?` and `&`, the forecast URL is `baseURL/forecast` with exactly lat, lon, appid and units=imperial in that order, provided no value holds a separator |
| WeatherService.ToWeather | server/src/service/weatherService.ts:93-100 | a reading maps to its local date, rounded temperature and wind, and unchanged humidity, icon and description |
| WeatherService.ParseCurrentWeather | server/src/service/weatherService.ts:69-79 | the mapped first reading of the list; an empty list fails |
| WeatherService.BuildForecastArray | server/src/service/weatherService.ts:82-104 | the forEach loop yields the current weather followed by the mapped daily readings |
| WeatherService.DailySources | server/src/service/weatherService.ts:86-89 | every position behind `dailyData` lies inside the input |
| WeatherService.DailyDataAtSources | server/src/service/weatherService.ts:86-89 | `filter(...).slice(0, 4)` equals the readings at the first four kept positions |
| WeatherService.ForecastLength | server/src/service/weatherService.ts:82-104 | the result starts with the current weather and has 1 + min(noon readings among the first 40, 4) entries, at most five |
| WeatherService.ForecastEntry | server/src/service/weatherService.ts:86-100 | entry k ≥ 1 comes from a noon reading at an index below 40, preceded by exactly k - 1 such readings, and is mapped like the current reading |
| WeatherService.ForecastInOrder | server/src/service/weatherService.ts:86-92 | the daily entries keep the order of their readings |
| WeatherService.ForecastFirstFour | server/src/service/weatherService.ts:85-89 | each of the first four noon readings at an index below 40 becomes an entry, whatever its date |
| WeatherService.SameDayNoonSelected | server/src/service/weatherService.ts:85-89 | a noon reading on the current local day that comes first in the list is still the first daily entry: nothing excludes today |
| WeatherService.ForecastDistinctDays | server/src/service/weatherService.ts:85-89 | for samples at least an hour apart, the daily entries fall on strictly increasing local days |
| WeatherService.ForecastDistinctDates | server/src/service/weatherService.ts:86-94 | for samples at least an hour apart, no two daily entries carry the same `date` |
| WeatherService.WeatherForCityFound | server/src/service/weatherService.ts:106-121 | when the city resolves and its forecast arrives, the result is the forecast at the first match's coordinates, led by its first reading, at most five entries |
| WeatherService.WeatherForCityFailures | server/src/service/weatherService.ts:27-79 | a failed geocoding response, an empty geocoding answer, a failed forecast response and an empty forecast list each give their own error |
| WeatherService.Service.constructor | server/src/service/weatherService.ts:21-24 | the base URL constant, the API key from the environment or `''`, and an empty city |
| WeatherService.Service.GetWeatherForCity | server/src/service/weatherService.ts:107-126 | the method records the city in the field and returns the pipeline's result for it |
| WeatherRoutes.Ensured | server/src/routes/weatherRoutes.ts:17-23 | a missing file becomes `[]`; an existing file, parsable or not, is untouched |
| WeatherRoutes.NewEntry | server/src/routes/weatherRoutes.ts:52-56 | the new entry carries the given id, the geocoder's resolved name and the timestamp |
| WeatherRoutes.AppendDoesNotDeduplicate | server/src/routes/weatherRoutes.ts:58 | recording a name already present leaves two entries with that name |
| WeatherRoutes.DeleteUndoesAppend | server/src/routes/weatherRoutes.ts:53-58 | deleting the id just recorded gives back the previous history when that id was fresh |
| WeatherRoutes.AppendFreshId | server/src/routes/weatherRoutes.ts:53-58 | recording with a fresh id keeps ids unique, adds exactly one entry and leaves the previous history as the tail |
| WeatherRoutes.HistoryFile.EnsureHistoryFile | server/src/routes/weatherRoutes.ts:17-23 | creates a missing file as `[]` and changes nothing else |
| WeatherRoutes.HistoryFile.GetHistory | server/src/routes/weatherRoutes.ts:26-36 | after ensuring the file, the stored array unchanged; an error when the file does not parse |
| WeatherRoutes.HistoryFile.PostWeather | server/src/routes/weatherRoutes.ts:39-71 | a failed lookup leaves the file alone; otherwise the new entry, under the resolved name, goes at the head with the previous history behind it, with no duplicate check and no length limit; a fresh id keeps the ids unique |
| WeatherRoutes.HistoryFile.DeleteFromHistory | server/src/routes/weatherRoutes.ts:74-89 | after ensuring the file, the stored array without the entries carrying the id, keeping ids unique; an error, with the file unchanged, when it does not parse |

## Left out

- Network calls (`fetch` in the service and the axios calls in `server/src/utils/weatherApi.ts`): their answers are function parameters, and a response that is not ok, or an exception, is `None`.
- The geocoding URL of `fetchLocationData` (`weatherService.ts:28`) and the query strings in `weatherApi.ts` are not modelled; only the forecast URL is.
- Express wiring, status codes and JSON response bodies: each handler returns a `Result` whose failure stands for the status-500 reply.
- The routes in `server/src/routes/api/weatherRoutes.ts` that call the network and then `processWeatherData` and `saveToHistory`, and the client script `public/js/script.js`, are not part of this model.
- Floating point: readings are integers in hundredths, so readings finer than 0.01 are not represented.
- `toLocaleDateString()` text formatting is represented by the civil date it prints. The host zone is a fixed UTC offset, so daylight-saving changes are not modelled.
- The wall clock, `Date.now()`, `uuidv4()` and `new Date().toISOString()` are parameters rather than sources of values.
- JSON that parses but is not an array is treated like a stored array of entries; its other failure modes (`filter`, `find` or `unshift` on a non-array) are not modelled.
- Concurrent requests racing on the history file are not modelled: each handler's read and write form one step.
- `weather[0]` is assumed present on every forecast point; a point without a `weather` entry, which would throw, is not represented.
- `WeatherService.WeatherQueryRoundTrip`: states the round trip only for values without `&` and a base URL without `?`; the source does not encode the values, so other inputs do not read back.
