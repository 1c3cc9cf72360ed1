/**
 * The search history kept in `searchHistory.json`: a JSON array of entries, newest first,
 * with the two list operations both route files apply to it.
 */
module History {

  import opened Wrappers
  import opened Selection

  /** A history entry; only the entries written by one of the two routes carry a timestamp. */
  datatype Entry = Entry(id: string, name: string, timestamp: Option<string>)

  /** What reading the history file yields: no file, text that is not JSON, or an array of entries. */
  datatype FileState = Missing | Unparsable | Stored(entries: seq<Entry>)

  /** `history.find(item => item.name === name)`: the first entry with that name. */
  function Find(h: seq<Entry>, name: string): (r: Option<Entry>)
    ensures r.None? <==> forall i :: 0 <= i < |h| ==> h[i].name != name
    ensures r.Some? ==> exists i :: 0 <= i < |h| && h[i] == r.value && h[i].name == name
                                  && forall j :: 0 <= j < i ==> h[j].name != name
  {
    if |h| == 0 then None
    else if h[0].name == name then Some(h[0])
    else
      var r := Find(h[1..], name);
      assert forall i :: 0 < i < |h| ==> h[i] == h[1..][i - 1];
      r
  }

  /** The entry test of the delete handlers' `filter`. */
  function KeepsId(id: string): Entry -> bool
  {
    (e: Entry) => e.id != id
  }

  /** `history.filter(item => item.id !== id)`. */
  function WithoutId(h: seq<Entry>, id: string): (r: seq<Entry>)
    ensures |r| <= |h|
  {
    if |h| == 0 then []
    else (if h[0].id != id then [h[0]] else []) + WithoutId(h[1..], id)
  }

  predicate UniqueIds(h: seq<Entry>)
  {
    forall i, j :: 0 <= i < j < |h| ==> h[i].id != h[j].id
  }

  predicate UniqueNames(h: seq<Entry>)
  {
    forall i, j :: 0 <= i < j < |h| ==> h[i].name != h[j].name
  }

  /** The filter distributes over concatenation. */
  lemma {:induction false} WithoutIdAppend(a: seq<Entry>, b: seq<Entry>, id: string)
    ensures WithoutId(a + b, id) == WithoutId(a, id) + WithoutId(b, id)
  {
    if |a| == 0 {
      assert a + b == b;
    } else {
      assert (a + b)[0] == a[0];
      assert (a + b)[1..] == a[1..] + b;
      WithoutIdAppend(a[1..], b, id);
    }
  }

  /**
   * Delete keeps exactly the entries whose id differs, in their original order: the
   * result is the history read at the ascending positions of those entries.
   */
  lemma {:induction false} WithoutIdKeepsOrder(h: seq<Entry>, id: string)
    ensures WithoutId(h, id) == Pick(h, Matches(KeepsId(id), h, |h|))
  {
    if |h| > 0 {
      var n := |h|;
      var init := h[..n - 1];
      assert h == init + [h[n - 1]];
      WithoutIdAppend(init, [h[n - 1]], id);
      WithoutIdKeepsOrder(init, id);
      MatchesPrefix(KeepsId(id), h, init, n - 1);
      var m := Matches(KeepsId(id), h, n - 1);
      var tail := if KeepsId(id)(h[n - 1]) then [n - 1] else [];
      assert Matches(KeepsId(id), h, n) == m + tail;
      PickPrefix(init, h, m);
      PickAppend(h, m, tail);
      assert WithoutId([h[n - 1]], id) == Pick(h, tail);
    }
  }

  /** Delete keeps exactly the entries whose id differs. */
  lemma {:induction false} WithoutIdMembers(h: seq<Entry>, id: string)
    ensures forall e :: e in WithoutId(h, id) <==> e in h && e.id != id
  {
    if |h| > 0 {
      WithoutIdMembers(h[1..], id);
      assert h == [h[0]] + h[1..];
    }
  }

  /** Deleting an id no entry carries changes nothing. */
  lemma {:induction false} WithoutAbsentId(h: seq<Entry>, id: string)
    requires forall i :: 0 <= i < |h| ==> h[i].id != id
    ensures WithoutId(h, id) == h
  {
    if |h| > 0 {
      WithoutAbsentId(h[1..], id);
    }
  }

  /** Delete is idempotent. */
  lemma WithoutIdIdempotent(h: seq<Entry>, id: string)
    ensures WithoutId(WithoutId(h, id), id) == WithoutId(h, id)
  {
    var r := WithoutId(h, id);
    WithoutIdMembers(h, id);
    assert forall i :: 0 <= i < |r| ==> r[i] in r;
    WithoutAbsentId(r, id);
  }

  /** A selection of a history keeps its ids and names unique. */
  lemma PickKeepsUnique(h: seq<Entry>, idx: seq<nat>)
    requires forall k :: 0 <= k < |idx| ==> idx[k] < |h|
    requires Increasing(idx)
    ensures UniqueIds(h) ==> UniqueIds(Pick(h, idx))
    ensures UniqueNames(h) ==> UniqueNames(Pick(h, idx))
  {
  }

  /** Delete keeps ids and names unique. */
  lemma WithoutIdKeepsUnique(h: seq<Entry>, id: string)
    ensures UniqueIds(h) ==> UniqueIds(WithoutId(h, id))
    ensures UniqueNames(h) ==> UniqueNames(WithoutId(h, id))
  {
    WithoutIdKeepsOrder(h, id);
    MatchesIncreasing(KeepsId(id), h, |h|);
    PickKeepsUnique(h, Matches(KeepsId(id), h, |h|));
  }

  /** Putting an entry with a fresh id at the head keeps ids unique. */
  lemma PrependKeepsIdsUnique(e: Entry, h: seq<Entry>)
    requires UniqueIds(h)
    requires forall i :: 0 <= i < |h| ==> h[i].id != e.id
    ensures UniqueIds([e] + h)
  {
  }
}
