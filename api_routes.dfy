/**
 * server/src/routes/api/weatherRoutes.ts: the normalisation of a forecast answer into
 * "current reading + one noon reading per later day" (`processWeatherData`) and the
 * deduplicated, capped search history (`saveToHistory`, GET and DELETE of the history).
 */
module ApiRoutes {

  import opened Wrappers
  import opened Calendar
  import opened Upstream
  import opened Selection
  import opened History

  /** `processed.length < 6`: the current reading and at most five forecast readings. */
  const MaxProcessed: nat := 6
  /** `history.slice(0, 5)`. */
  const MaxHistory: nat := 5
  /** `date.getHours() === 12`. */
  const NoonHour: int := 12

  /** One element of the array `processWeatherData` returns; only the first has a `city`. */
  datatype Summary = Summary(
    city: Option<string>,
    date: Date,
    icon: string,
    iconDescription: string,
    tempF: int,
    windSpeed: int,
    humidity: int)

  datatype RouteError =
    | EmptyForecast       // `weatherData.list[0]` of an empty list throws: status 500
    | HistoryUnreadable   // the history file is missing or not JSON: status 500

  /** The first element, built from `list[0]`. */
  function CurrentSummary(pt: RawPoint, cityName: string, zone: Zone): Summary
  {
    Summary(Some(cityName), LocalDate(zone, pt.dt), pt.icon, pt.description,
            Round(pt.temp), Round(pt.windSpeed), pt.humidity)
  }

  /** A later element, built from a selected point; it has no `city`. */
  function ForecastSummary(pt: RawPoint, zone: Zone): Summary
  {
    Summary(None, LocalDate(zone, pt.dt), pt.icon, pt.description,
            Round(pt.temp), Round(pt.windSpeed), pt.humidity)
  }

  /** The forEach test without the length guard: not today's day of the month, and noon. */
  predicate IsFutureNoon(zone: Zone, today: int, pt: RawPoint)
  {
    DayOfMonth(zone, pt.dt) != today && HourOf(zone, pt.dt) == NoonHour
  }

  function FutureNoon(zone: Zone, today: int): RawPoint -> bool
  {
    pt => IsFutureNoon(zone, today, pt)
  }

  /** The positions below `n` that the forEach has turned into forecast elements. */
  function SourcesBelow(list: seq<RawPoint>, today: int, zone: Zone, n: nat): (src: seq<nat>)
    requires n <= |list|
    ensures forall k :: 0 <= k < |src| ==> src[k] < n
  {
    Take(Matches(FutureNoon(zone, today), list, n), MaxProcessed - 1)
  }

  /** The positions of `list` that become forecast elements. */
  function ForecastSources(list: seq<RawPoint>, today: int, zone: Zone): (src: seq<nat>)
    ensures forall k :: 0 <= k < |src| ==> src[k] < |list|
  {
    SourcesBelow(list, today, zone, |list|)
  }

  /** The forecast elements for the positions `src`, in that order. */
  function Rendered(list: seq<RawPoint>, src: seq<nat>, zone: Zone): seq<Summary>
    requires forall k :: 0 <= k < |src| ==> src[k] < |list|
  {
    seq(|src|, k requires 0 <= k < |src| => ForecastSummary(list[src[k]], zone))
  }

  /** What `processWeatherData` returns for a non-empty list. */
  function Processed(list: seq<RawPoint>, cityName: string, today: int, zone: Zone): seq<Summary>
    requires |list| > 0
  {
    [CurrentSummary(list[0], cityName, zone)] + Rendered(list, ForecastSources(list, today, zone), zone)
  }

  /**
   * `processWeatherData(weatherData, cityName)`, with the upstream `list`, the local
   * day of the month of the wall clock (`today`) and the host's time zone as inputs.
   */
  method ProcessWeatherData(list: seq<RawPoint>, cityName: string, today: int, zone: Zone)
    returns (r: Result<seq<Summary>, RouteError>)
    ensures |list| == 0 ==> r == Failure(EmptyForecast)
    ensures |list| > 0 ==> r == Success(Processed(list, cityName, today, zone))
  {
    if |list| == 0 {
      return Failure(EmptyForecast);
    }
    var current := CurrentSummary(list[0], cityName, zone);
    var processed := [current];
    var i := 0;
    while i < |list|
      invariant 0 <= i <= |list|
      invariant processed == [current] + Rendered(list, SourcesBelow(list, today, zone, i), zone)
    {
      var item := list[i];
      ProcessStep(list, today, zone, i, current, processed);
      if IsFutureNoon(zone, today, item) && |processed| < MaxProcessed {
        processed := processed + [ForecastSummary(item, zone)];
      }
      i := i + 1;
    }
    return Success(processed);
  }

  /** One iteration of the forEach: the point at `i` is appended exactly when it passes the test and there is room. */
  lemma ProcessStep(list: seq<RawPoint>, today: int, zone: Zone, i: nat, current: Summary, processed: seq<Summary>)
    requires i < |list|
    requires processed == [current] + Rendered(list, SourcesBelow(list, today, zone, i), zone)
    ensures (if IsFutureNoon(zone, today, list[i]) && |processed| < MaxProcessed
             then processed + [ForecastSummary(list[i], zone)] else processed)
            == [current] + Rendered(list, SourcesBelow(list, today, zone, i + 1), zone)
  {
    var p := FutureNoon(zone, today);
    var m := Matches(p, list, i);
    var before := Take(m, MaxProcessed - 1);
    assert Matches(p, list, i + 1) == m + (if p(list[i]) then [i] else []);
    TakeAppend(m, i, MaxProcessed - 1);
    if p(list[i]) && |m| < MaxProcessed - 1 {
      assert Rendered(list, before + [i], zone) == Rendered(list, before, zone) + [ForecastSummary(list[i], zone)];
    }
  }

  /** At most six elements: the current reading and the first five qualifying points. */
  lemma ProcessedLength(list: seq<RawPoint>, cityName: string, today: int, zone: Zone)
    requires |list| > 0
    ensures var count := |Matches(FutureNoon(zone, today), list, |list|)|;
            |Processed(list, cityName, today, zone)|
            == 1 + (if count < MaxProcessed - 1 then count else MaxProcessed - 1)
    ensures |Processed(list, cityName, today, zone)| <= MaxProcessed
  {
  }

  /**
   * The first element is `list[0]` with the city: rounded temperature and wind speed,
   * humidity, icon and description passed through.
   */
  lemma ProcessedCurrent(list: seq<RawPoint>, cityName: string, today: int, zone: Zone)
    requires |list| > 0
    ensures var c := Processed(list, cityName, today, zone)[0];
            && c.city == Some(cityName)
            && c.date == LocalDate(zone, list[0].dt)
            && c.icon == list[0].icon && c.iconDescription == list[0].description
            && c.humidity == list[0].humidity
            && c.tempF * Scale - Scale / 2 <= list[0].temp < c.tempF * Scale + Scale / 2
            && c.windSpeed * Scale - Scale / 2 <= list[0].windSpeed < c.windSpeed * Scale + Scale / 2
  {
  }

  /** The element after the current one at offset c is rendered from the c-th source position. */
  lemma ProcessedAt(list: seq<RawPoint>, cityName: string, today: int, zone: Zone, c: nat)
    requires |list| > 0 && c < |ForecastSources(list, today, zone)|
    ensures |Processed(list, cityName, today, zone)| == 1 + |ForecastSources(list, today, zone)|
    ensures Processed(list, cityName, today, zone)[c + 1]
            == ForecastSummary(list[ForecastSources(list, today, zone)[c]], zone)
  {
  }

  /**
   * Every later element is the k-th qualifying point of the scan: a noon reading whose
   * day of the month is not today's, preceded by exactly k - 1 qualifying points. It has
   * no city field and carries the point's rounded readings.
   */
  lemma ProcessedForecast(list: seq<RawPoint>, cityName: string, today: int, zone: Zone, k: nat)
    requires |list| > 0 && 1 <= k < |Processed(list, cityName, today, zone)|
    ensures var i := ForecastSources(list, today, zone)[k - 1];
            var e := Processed(list, cityName, today, zone)[k];
            && i < |list|
            && HourOf(zone, list[i].dt) == NoonHour
            && DayOfMonth(zone, list[i].dt) != today
            && |Matches(FutureNoon(zone, today), list, i)| == k - 1
            && e == ForecastSummary(list[i], zone)
            && e.city.None?
            && e.humidity == list[i].humidity
            && e.tempF * Scale - Scale / 2 <= list[i].temp < e.tempF * Scale + Scale / 2
  {
    MatchesBefore(FutureNoon(zone, today), list, |list|, k - 1);
  }

  /** The forecast elements appear in the order of their points in `list`. */
  lemma ProcessedInOrder(list: seq<RawPoint>, today: int, zone: Zone)
    ensures Increasing(ForecastSources(list, today, zone))
  {
    MatchesIncreasing(FutureNoon(zone, today), list, |list|);
  }

  /**
   * Each of the first five qualifying points of the whole list becomes an element, at the
   * position given by the number of qualifying points before it.
   */
  lemma ProcessedFirstFive(list: seq<RawPoint>, cityName: string, today: int, zone: Zone, i: nat)
    requires i < |list| && IsFutureNoon(zone, today, list[i])
    requires |Matches(FutureNoon(zone, today), list, i)| < MaxProcessed - 1
    ensures var k := 1 + |Matches(FutureNoon(zone, today), list, i)|;
            k < |Processed(list, cityName, today, zone)|
            && Processed(list, cityName, today, zone)[k] == ForecastSummary(list[i], zone)
  {
    var p := FutureNoon(zone, today);
    TakeMatchesRank(p, list, |list|, MaxProcessed - 1, i);
    ProcessedAt(list, cityName, today, zone, |Matches(p, list, i)|);
  }

  /** The scan starts at index 0: a qualifying `list[0]` is also the first forecast element. */
  lemma ScanIncludesFirstPoint(list: seq<RawPoint>, cityName: string, today: int, zone: Zone)
    requires |list| > 0 && IsFutureNoon(zone, today, list[0])
    ensures |Processed(list, cityName, today, zone)| >= 2
    ensures Processed(list, cityName, today, zone)[1] == ForecastSummary(list[0], zone)
  {
    ProcessedFirstFive(list, cityName, today, zone, 0);
  }

  /** In a series whose samples lie at least an hour apart, the forecast points fall on strictly later local days. */
  lemma ProcessedDistinctDays(list: seq<RawPoint>, today: int, zone: Zone, j: nat, k: nat)
    requires Spaced(list)
    requires j < k < |ForecastSources(list, today, zone)|
    ensures var src := ForecastSources(list, today, zone);
            DayNumber(zone, list[src[j]].dt) < DayNumber(zone, list[src[k]].dt)
  {
    var src := ForecastSources(list, today, zone);
    ProcessedInOrder(list, today, zone);
    SpacedApart(list, src[j], src[k]);
    SameHourLaterDay(zone, list[src[j]].dt, list[src[k]].dt);
  }

  /** One element per selected position, after the current one. */
  lemma ProcessedSize(list: seq<RawPoint>, cityName: string, today: int, zone: Zone)
    requires |list| > 0
    ensures |Processed(list, cityName, today, zone)| == 1 + |ForecastSources(list, today, zone)|
  {
  }

  /** Forecast summaries of points on different local days carry different dates. */
  lemma SummaryDatesDiffer(a: RawPoint, b: RawPoint, zone: Zone)
    requires DayNumber(zone, a.dt) != DayNumber(zone, b.dt)
    ensures ForecastSummary(a, zone).date != ForecastSummary(b, zone).date
  {
    LocalDatesDiffer(zone, a.dt, b.dt);
  }

  /** In a series whose samples lie at least an hour apart, no two forecast elements carry the same date. */
  lemma ProcessedDistinctDates(list: seq<RawPoint>, cityName: string, today: int, zone: Zone, j: nat, k: nat)
    requires |list| > 0 && Spaced(list)
    requires 1 <= j < k < |Processed(list, cityName, today, zone)|
    ensures Processed(list, cityName, today, zone)[j].date != Processed(list, cityName, today, zone)[k].date
  {
    ProcessedSize(list, cityName, today, zone);
    var src := ForecastSources(list, today, zone);
    var a, b := list[src[j - 1]], list[src[k - 1]];
    assert DayNumber(zone, a.dt) < DayNumber(zone, b.dt) by {
      ProcessedDistinctDays(list, today, zone, j - 1, k - 1);
    }
    SummaryDatesDiffer(a, b, zone);
    assert Processed(list, cityName, today, zone)[j] == ForecastSummary(a, zone) by {
      ProcessedAt(list, cityName, today, zone, j - 1);
    }
    assert Processed(list, cityName, today, zone)[k] == ForecastSummary(b, zone) by {
      ProcessedAt(list, cityName, today, zone, k - 1);
    }
  }

  /** `saveToHistory`'s read: a file that is missing or does not parse counts as `[]`. */
  function LoadedOrEmpty(state: FileState): seq<Entry>
  {
    if state.Stored? then state.entries else []
  }

  /** The history after `saveToHistory(cityName)` with the id `Date.now().toString()`. */
  function Saved(h: seq<Entry>, cityName: string, id: string): seq<Entry>
  {
    if Find(h, cityName).Some? then h else Take([Entry(id, cityName, None)] + h, MaxHistory)
  }

  /** Saving a name that is already present changes nothing. */
  lemma SavedPresent(h: seq<Entry>, cityName: string, id: string, i: nat)
    requires i < |h| && h[i].name == cityName
    ensures Saved(h, cityName, id) == h
  {
  }

  /**
   * Saving a new name puts it at the head; the rest is the old history's prefix in the
   * same order, and at most five entries remain.
   */
  lemma SavedNew(h: seq<Entry>, cityName: string, id: string)
    requires forall i :: 0 <= i < |h| ==> h[i].name != cityName
    ensures var r := Saved(h, cityName, id);
            && |r| == (if |h| < MaxHistory then |h| + 1 else MaxHistory)
            && r[0] == Entry(id, cityName, None)
            && r[1..] == h[..|r| - 1]
  {
    var r := Saved(h, cityName, id);
    assert r[1..] == ([Entry(id, cityName, None)] + h)[1..|r|];
  }

  /** The second of two saves of the same name is a no-op. */
  lemma SaveTwice(h: seq<Entry>, cityName: string, id1: string, id2: string)
    ensures Saved(Saved(h, cityName, id1), cityName, id2) == Saved(h, cityName, id1)
  {
    var r := Saved(h, cityName, id1);
    if Find(h, cityName).None? {
      SavedNew(h, cityName, id1);
      SavedPresent(r, cityName, id2, 0);
    }
  }

  /** Saving keeps names unique, and ids too when the new id is fresh. */
  lemma SavedKeepsUnique(h: seq<Entry>, cityName: string, id: string)
    ensures UniqueNames(h) ==> UniqueNames(Saved(h, cityName, id))
    ensures UniqueIds(h) && (forall i :: 0 <= i < |h| ==> h[i].id != id)
            ==> UniqueIds(Saved(h, cityName, id))
  {
    if Find(h, cityName).None? {
      var full := [Entry(id, cityName, None)] + h;
      assert UniqueNames(h) ==> UniqueNames(full);
      if UniqueIds(h) && (forall i :: 0 <= i < |h| ==> h[i].id != id) {
        PrependKeepsIdsUnique(Entry(id, cityName, None), h);
      }
    }
  }

  /** Saving a sixth distinct name into a full history evicts the oldest entry. */
  lemma SavedEvictsOldest(h: seq<Entry>, cityName: string, id: string)
    requires |h| == MaxHistory && UniqueIds(h)
    requires forall i :: 0 <= i < |h| ==> h[i].name != cityName && h[i].id != id
    ensures h[MaxHistory - 1] !in Saved(h, cityName, id)
    ensures Saved(h, cityName, id) == [Entry(id, cityName, None)] + h[..MaxHistory - 1]
  {
    SavedNew(h, cityName, id);
  }

  /** `searchHistory.json` as the three handlers of this file see it. */
  class HistoryFile {
    var state: FileState

    constructor (initial: FileState)
      ensures state == initial
    {
      state := initial;
    }

    /**
     * `saveToHistory(cityName)`: writes the file (returning true) exactly when the name
     * is not yet in the history it read.
     */
    method SaveToHistory(cityName: string, id: string) returns (wrote: bool)
      modifies this
      ensures wrote <==> Find(LoadedOrEmpty(old(state)), cityName).None?
      ensures state == if wrote then Stored(Saved(LoadedOrEmpty(old(state)), cityName, id)) else old(state)
      ensures state.Stored? && UniqueNames(LoadedOrEmpty(old(state))) ==> UniqueNames(state.entries)
      ensures state.Stored? && |LoadedOrEmpty(old(state))| <= MaxHistory ==> |state.entries| <= MaxHistory
    {
      var history: seq<Entry> := [];
      if state.Stored? {
        history := state.entries;
      }
      SavedKeepsUnique(history, cityName, id);
      if Find(history, cityName).None? {
        history := [Entry(id, cityName, None)] + history;
        history := Take(history, MaxHistory);
        state := Stored(history);
        wrote := true;
      } else {
        wrote := false;
      }
    }

    /** GET /history: the stored array, or status 500 when the file is missing or not JSON. */
    method GetHistory() returns (r: Result<seq<Entry>, RouteError>)
      ensures state.Stored? ==> r == Success(state.entries)
      ensures !state.Stored? ==> r == Failure(HistoryUnreadable)
    {
      if state.Stored? {
        r := Success(state.entries);
      } else {
        r := Failure(HistoryUnreadable);
      }
    }

    /** DELETE /history/:id: rewrites the file without that id; fails, writing nothing, on a missing or unparsable file. */
    method DeleteFromHistory(id: string) returns (r: Result<(), RouteError>)
      modifies this
      ensures old(state).Stored? ==> r == Success(()) && state == Stored(WithoutId(old(state).entries, id))
      ensures !old(state).Stored? ==> r == Failure(HistoryUnreadable) && state == old(state)
      ensures old(state).Stored? && UniqueIds(old(state).entries) ==> UniqueIds(state.entries)
      ensures old(state).Stored? && UniqueNames(old(state).entries) ==> UniqueNames(state.entries)
      ensures old(state).Stored? ==> |state.entries| <= |old(state).entries|
    {
      if state.Stored? {
        WithoutIdKeepsUnique(state.entries, id);
        state := Stored(WithoutId(state.entries, id));
        r := Success(());
      } else {
        r := Failure(HistoryUnreadable);
      }
    }
  }

  /** A caller's view: save, save again, delete, delete again. */
  method SaveAndDeleteScenario()
  {
    var file := new HistoryFile(Missing);
    var wrote := file.SaveToHistory("Tokyo", "1");
    assert wrote && file.state == Stored([Entry("1", "Tokyo", None)]);
    wrote := file.SaveToHistory("Tokyo", "2");
    assert !wrote && file.state == Stored([Entry("1", "Tokyo", None)]);
    var r := file.DeleteFromHistory("1");
    assert file.state == Stored([]);
    r := file.DeleteFromHistory("1");
    assert r.Success? && file.state == Stored([]);
  }
}
