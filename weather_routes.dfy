/**
 * The second router's search history: `ensureHistoryFile` creates an absent file as
 * an empty array, GET returns what the file holds, POST puts every resolved search at
 * the head (no duplicate check, no length limit) and DELETE filters by id.
 */
module WeatherRoutes {
  import opened Wrappers
  import opened Upstream
  import opened History

  /** The catch blocks' status 500: the lookup failed or the file did not parse. */
  datatype RouteError = LookupFailed | HistoryUnparsable

  /** The file after `ensureHistoryFile`: an absent file now holds an empty array. */
  function Ensured(s: FileState): (r: FileState)
    ensures !r.Missing?
    ensures s.Missing? ==> r == Stored([])
    ensures !s.Missing? ==> r == s
  {
    if s.Missing? then Stored([]) else s
  }

  /** The entry POST records: the name the geocoder resolved, not the text the client sent. */
  function NewEntry(coords: Coordinates, id: string, timestamp: string): (e: Entry)
    ensures e.id == id && e.name == coords.name && e.timestamp == Some(timestamp)
  {
    Entry(id, coords.name, Some(timestamp))
  }

  /** Recording a name already in the history leaves two entries with that name. */
  lemma AppendDoesNotDeduplicate(h: seq<Entry>, e: Entry)
    requires Find(h, e.name).Some?
    ensures !UniqueNames([e] + h)
  {
    var i :| 0 <= i < |h| && h[i].name == e.name;
    assert ([e] + h)[0].name == ([e] + h)[i + 1].name;
  }

  /** Deleting the id just recorded gives back the history as it was before, when that id was fresh. */
  lemma DeleteUndoesAppend(h: seq<Entry>, e: Entry)
    requires forall i :: 0 <= i < |h| ==> h[i].id != e.id
    ensures WithoutId([e] + h, e.id) == h
  {
    WithoutIdAppend([e], h, e.id);
    WithoutAbsentId(h, e.id);
  }

  /** Recording with a fresh id keeps the ids unique and grows the history by one. */
  lemma AppendFreshId(h: seq<Entry>, e: Entry)
    requires UniqueIds(h)
    requires forall i :: 0 <= i < |h| ==> h[i].id != e.id
    ensures UniqueIds([e] + h) && |[e] + h| == |h| + 1
    ensures ([e] + h)[1..] == h
  {
    PrependKeepsIdsUnique(e, h);
  }

  /** `searchHistory.json` as this router sees it. */
  class HistoryFile {
    var state: FileState

    constructor (initial: FileState)
      ensures state == initial
    {
      state := initial;
    }

    /** `ensureHistoryFile()`: writes `[]` when the file is absent and touches nothing otherwise. */
    method EnsureHistoryFile()
      modifies this
      ensures state == Ensured(old(state))
    {
      if state.Missing? {
        state := Stored([]);
      }
    }

    /** GET /history: the stored array unchanged; a file that does not parse gives status 500. */
    method GetHistory() returns (r: Result<seq<Entry>, RouteError>)
      modifies this
      ensures state == Ensured(old(state))
      ensures state.Stored? ==> r == Success(state.entries)
      ensures state.Unparsable? ==> r == Failure(HistoryUnparsable)
    {
      EnsureHistoryFile();
      if state.Stored? {
        r := Success(state.entries);
      } else {
        r := Failure(HistoryUnparsable);
      }
    }

    /**
     * POST /: resolves the city with `lookup` (the geocoding and forecast calls); on
     * success puts the new entry at the head of the history and writes it back.
     * A failed lookup returns before the file is touched.
     */
    method PostWeather(city: string, lookup: string -> Option<Coordinates>, id: string, timestamp: string)
      returns (r: Result<Entry, RouteError>)
      modifies this
      ensures lookup(city).None? ==> r == Failure(LookupFailed) && state == old(state)
      ensures lookup(city).Some? && Ensured(old(state)).Unparsable? ==>
                r == Failure(HistoryUnparsable) && state == old(state)
      ensures lookup(city).Some? && Ensured(old(state)).Stored? ==>
                r == Success(NewEntry(lookup(city).value, id, timestamp)) &&
                state == Stored([r.value] + Ensured(old(state)).entries)
      ensures r.Success? && UniqueIds(Ensured(old(state)).entries)
              && (forall i :: 0 <= i < |Ensured(old(state)).entries| ==> Ensured(old(state)).entries[i].id != id)
              ==> UniqueIds(state.entries)
    {
      var coords := lookup(city);
      if coords.None? {
        return Failure(LookupFailed);
      }
      EnsureHistoryFile();
      if !state.Stored? {
        return Failure(HistoryUnparsable);
      }
      var history := state.entries;
      var newCity := NewEntry(coords.value, id, timestamp);
      if UniqueIds(history) && forall i :: 0 <= i < |history| ==> history[i].id != id {
        AppendFreshId(history, newCity);
      }
      history := [newCity] + history;
      state := Stored(history);
      r := Success(newCity);
    }

    /** DELETE /history/:id: rewrites the file without the entries carrying that id. */
    method DeleteFromHistory(id: string) returns (r: Result<(), RouteError>)
      modifies this
      ensures Ensured(old(state)).Stored? ==>
                r == Success(()) && state == Stored(WithoutId(Ensured(old(state)).entries, id))
      ensures Ensured(old(state)).Unparsable? ==> r == Failure(HistoryUnparsable) && state == old(state)
      ensures state.Stored? && UniqueIds(Ensured(old(state)).entries) ==> UniqueIds(state.entries)
    {
      EnsureHistoryFile();
      if state.Stored? {
        WithoutIdKeepsUnique(state.entries, id);
        state := Stored(WithoutId(state.entries, id));
        r := Success(());
      } else {
        r := Failure(HistoryUnparsable);
      }
    }
  }

  /** A caller's view: two searches for the same city are both kept, newest first; deleting one leaves the other. */
  method RepeatSearchScenario()
  {
    var file := new HistoryFile(Missing);
    var lookup := (city: string) => Some(Coordinates("35.68", "139.69", "Tokyo"));
    var first := file.PostWeather("tokyo", lookup, "1", "2024-05-01T00:00:00.000Z");
    var second := file.PostWeather("TOKYO", lookup, "2", "2024-05-01T00:05:00.000Z");
    assert file.state == Stored([second.value, first.value]);
    assert first.value.name == "Tokyo" && second.value.name == "Tokyo";
    var r := file.DeleteFromHistory("2");
    assert file.state == Stored([first.value]);
    var h := file.GetHistory();
    assert h == Success([first.value]);
  }
}
