/**
 * Selection of the elements of a sequence that satisfy a condition, by position: the
 * common core of `Array.prototype.filter` and of a `forEach` loop that pushes the
 * elements passing a test.
 */
module Selection {

  /** Strictly ascending positions. */
  predicate Increasing(r: seq<nat>)
  {
    forall j, k :: 0 <= j < k < |r| ==> r[j] < r[k]
  }

  /** The positions below `n` whose element satisfies `p`, in ascending order. */
  function Matches<T>(p: T -> bool, s: seq<T>, n: nat): (r: seq<nat>)
    requires n <= |s|
    ensures |r| <= n
    ensures forall k :: 0 <= k < |r| ==> r[k] < n && p(s[r[k]])
  {
    if n == 0 then [] else Matches(p, s, n - 1) + (if p(s[n - 1]) then [n - 1] else [])
  }

  /** The elements of `s` at the positions `idx`, in the order of `idx`. */
  function Pick<T>(s: seq<T>, idx: seq<nat>): seq<T>
    requires forall k :: 0 <= k < |idx| ==> idx[k] < |s|
  {
    seq(|idx|, k requires 0 <= k < |idx| => s[idx[k]])
  }

  /** `s.slice(0, n)`. */
  function Take<T>(s: seq<T>, n: nat): seq<T>
  {
    if |s| <= n then s else s[..n]
  }

  /** The positions are selected in ascending order. */
  lemma {:induction false} MatchesIncreasing<T>(p: T -> bool, s: seq<T>, n: nat)
    requires n <= |s|
    ensures Increasing(Matches(p, s, n))
  {
    if n > 0 {
      MatchesIncreasing(p, s, n - 1);
    }
  }

  /** Every position below `n` whose element satisfies `p` is selected. */
  lemma {:induction false} MatchesComplete<T>(p: T -> bool, s: seq<T>, n: nat, i: nat)
    requires i < n <= |s| && p(s[i])
    ensures i in Matches(p, s, n)
  {
    if i < n - 1 {
      MatchesComplete(p, s, n - 1, i);
    }
  }

  /** Picking along two position lists one after the other. */
  lemma PickAppend<T>(s: seq<T>, a: seq<nat>, b: seq<nat>)
    requires forall k :: 0 <= k < |a| ==> a[k] < |s|
    requires forall k :: 0 <= k < |b| ==> b[k] < |s|
    ensures Pick(s, a + b) == Pick(s, a) + Pick(s, b)
  {
  }

  /** Picking positions inside a common prefix. */
  lemma PickPrefix<T>(s: seq<T>, t: seq<T>, a: seq<nat>)
    requires |s| <= |t| && s == t[..|s|]
    requires forall k :: 0 <= k < |a| ==> a[k] < |s|
    ensures Pick(s, a) == Pick(t, a)
  {
  }

  /** Appending to a list under a cap of n: the element is kept only while there is room. */
  lemma TakeAppend<T>(s: seq<T>, x: T, n: nat)
    ensures |s| < n ==> Take(s + [x], n) == Take(s, n) + [x]
    ensures |s| >= n ==> Take(s + [x], n) == Take(s, n)
  {
    if |s| >= n {
      assert (s + [x])[..n] == s[..n];
    }
  }

  /** Only the elements before `n` decide the positions below `n`. */
  lemma {:induction false} MatchesPrefix<T>(p: T -> bool, s: seq<T>, t: seq<T>, n: nat)
    requires n <= |s| && n <= |t|
    requires s[..n] == t[..n]
    ensures Matches(p, s, n) == Matches(p, t, n)
  {
    if n > 0 {
      assert s[n - 1] == s[..n][n - 1] == t[..n][n - 1] == t[n - 1];
      assert s[..n - 1] == s[..n][..n - 1] == t[..n][..n - 1] == t[..n - 1];
      MatchesPrefix(p, s, t, n - 1);
    }
  }

  /** Scanning further only appends positions: the matches below `m` prefix those below `n`. */
  lemma {:induction false} MatchesGrow<T>(p: T -> bool, s: seq<T>, m: nat, n: nat)
    requires m <= n <= |s|
    ensures |Matches(p, s, m)| <= |Matches(p, s, n)|
    ensures Matches(p, s, n)[..|Matches(p, s, m)|] == Matches(p, s, m)
  {
    if m < n {
      MatchesGrow(p, s, m, n - 1);
      var a, b := Matches(p, s, m), Matches(p, s, n - 1);
      var tail := if p(s[n - 1]) then [n - 1] else [];
      assert Matches(p, s, n) == b + tail;
      assert (b + tail)[..|a|] == b[..|a|];
    }
  }

  /**
   * A matching position `i` below `n` is the k-th selected one, where k is the number of
   * matches before `i`.
   */
  lemma MatchesRank<T>(p: T -> bool, s: seq<T>, n: nat, i: nat)
    requires i < n <= |s| && p(s[i])
    ensures |Matches(p, s, i)| < |Matches(p, s, n)|
    ensures Matches(p, s, n)[|Matches(p, s, i)|] == i
  {
    MatchesGrow(p, s, i + 1, n);
    assert Matches(p, s, i + 1) == Matches(p, s, i) + [i];
  }

  /** Under a cap, a matching position is kept when fewer than `cap` matches precede it. */
  lemma TakeMatchesRank<T>(p: T -> bool, s: seq<T>, n: nat, cap: nat, i: nat)
    requires i < n <= |s| && p(s[i]) && |Matches(p, s, i)| < cap
    ensures |Matches(p, s, i)| < |Take(Matches(p, s, n), cap)|
    ensures Take(Matches(p, s, n), cap)[|Matches(p, s, i)|] == i
  {
    MatchesRank(p, s, n, i);
  }

  /** Exactly k matches precede the k-th selected position. */
  lemma MatchesBefore<T>(p: T -> bool, s: seq<T>, n: nat, k: nat)
    requires n <= |s| && k < |Matches(p, s, n)|
    ensures Matches(p, s, Matches(p, s, n)[k]) == Matches(p, s, n)[..k]
  {
    var r := Matches(p, s, n);
    var j := r[k];
    MatchesGrow(p, s, j, n);
    MatchesRank(p, s, n, j);
    MatchesIncreasing(p, s, n);
  }
}
