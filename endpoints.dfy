/**
 * The indexer pool: the list `configure` derives from the `server`
 * parameter, the URL `get_baseurl` builds for one indexer, and the
 * round-robin order in which the cursor `@idx_indexers` visits the list.
 */
module Endpoints {
  import opened Strings

  /** The separator between indexers in the `server` parameter. */
  const Comma: char := ','

  /**
   * `@indexers` as `configure` sets it: with a comma in `server`, Ruby's
   * `server.split(',')` (pieces kept as written, trailing empty pieces
   * dropped); without one, the single-element list `[server]`.
   */
  function IndexerList(server: string): (r: seq<string>)
    ensures Comma !in server ==> r == [server]
    ensures Comma in server ==>
              |r| <= |SplitOn(server, Comma)| && r == SplitOn(server, Comma)[..|r|]
    ensures Comma in server ==> r != [] ==> r[|r| - 1] != ""
    ensures Comma in server ==> forall k :: |r| <= k < |SplitOn(server, Comma)| ==> SplitOn(server, Comma)[k] == ""
    ensures forall k :: 0 <= k < |r| ==> Comma !in r[k]
  {
    if Comma in server then RubySplit(server, Comma) else [server]
  }

  /** A string of commas only splits into empty pieces. */
  lemma {:induction false} AllCommasSplit(s: string)
    requires forall i :: 0 <= i < |s| ==> s[i] == Comma
    ensures forall k :: 0 <= k < |SplitOn(s, Comma)| ==> SplitOn(s, Comma)[k] == ""
    decreases |s|
  {
    if |s| > 0 {
      AllCommasSplit(s[1..]);
    }
  }

  /**
   * The list comes out empty exactly when `server` is made of commas only
   * (`","`, `",,"`, ...); `get_baseurl` then has no indexer to return.
   */
  lemma {:induction false} EmptyIndexerList(server: string)
    ensures IndexerList(server) == [] <==>
              |server| > 0 && forall i :: 0 <= i < |server| ==> server[i] == Comma
  {
    var parts := SplitOn(server, Comma);
    if IndexerList(server) == [] {
      assert Comma in server;
      forall k | 0 <= k < |parts| ensures parts[k] == "" { }
      JoinOfEmptyPieces(parts, Comma);
      SplitThenJoin(server, Comma);
    }
    if |server| > 0 && forall i :: 0 <= i < |server| ==> server[i] == Comma {
      assert server[0] == Comma;
      AllCommasSplit(server);
    }
  }

  /**
   * A comma-joined list of two or more comma-free indexers whose last one
   * is not empty is split back into exactly that list, in order; nothing
   * is trimmed, so `"a:8088, b:8088"` yields `" b:8088"` as second entry.
   */
  lemma JoinedListRoundTrip(indexers: seq<string>)
    requires |indexers| >= 2
    requires forall k :: 0 <= k < |indexers| ==> Comma !in indexers[k]
    requires indexers[|indexers| - 1] != ""
    ensures IndexerList(JoinWith(indexers, Comma)) == indexers
  {
    var server := JoinWith(indexers, Comma);
    assert Comma in server by {
      assert JoinWith(indexers, Comma) == indexers[0] + [Comma] + JoinWith(indexers[1..], Comma);
      assert server[|indexers[0]|] == Comma;
    }
    JoinThenSplit(indexers, Comma);
  }

  /** The collector URL `get_baseurl` builds for one indexer. */
  function BaseUrl(server: string): (url: string)
    ensures |url| == |server| + 28
    ensures StartsWith(url, "https://")
    ensures url[8..8 + |server|] == server
    ensures url[8 + |server|..] == "/services/collectors"
  {
    var url := "https://" + server + "/services/collectors";
    assert url[..8] == "https://";
    url
  }

  /** Different indexers give different URLs. */
  lemma BaseUrlInjective(a: string, b: string)
    requires BaseUrl(a) == BaseUrl(b)
    ensures a == b
  {
    assert |a| == |b|;
    assert a == BaseUrl(a)[8..8 + |a|];
  }

  /** The cursor update of `get_baseurl`: `(idx + 1) % n`. */
  function Advance(n: nat, idx: nat): (next: nat)
    requires idx < n
    ensures next < n
    ensures next == (idx + 1) % n
  {
    if idx + 1 == n then 0 else idx + 1
  }

  /** The cursor after `k` calls of `get_baseurl` that started at `start`. */
  function Cursor(n: nat, start: nat, k: nat): (idx: nat)
    requires start < n
    ensures idx < n
  {
    if k == 0 then start else Advance(n, Cursor(n, start, k - 1))
  }

  /** Within one lap the cursor is `start + k`, wrapped once past the end. */
  lemma {:induction false} CursorWithinLap(n: nat, start: nat, k: nat)
    requires start < n && k < n
    ensures Cursor(n, start, k) == if start + k < n then start + k else start + k - n
  {
    if k > 0 {
      CursorWithinLap(n, start, k - 1);
    }
  }

  /** Some call among the first `n` from `start` lands on position `j`. */
  predicate VisitedWithinLap(n: nat, start: nat, j: nat)
    requires start < n
  {
    exists k :: 0 <= k < n && Cursor(n, start, k) == j
  }

  /**
   * Round robin over `n` indexers from cursor `start < n`: the first `n`
   * calls visit every position exactly once, call `n + 1` (after `n` steps)
   * is back at `start`, and from `start == 0` call `k + 1` visits position `k`.
   */
  lemma RoundRobin(n: nat, start: nat)
    requires start < n
    ensures forall j :: 0 <= j < n ==> VisitedWithinLap(n, start, j)
    ensures forall k1, k2 :: 0 <= k1 < k2 < n ==> Cursor(n, start, k1) != Cursor(n, start, k2)
    ensures Cursor(n, start, n) == start
    ensures start == 0 ==> forall k :: 0 <= k < n ==> Cursor(n, start, k) == k
  {
    forall k | 0 <= k < n
      ensures Cursor(n, start, k) == if start + k < n then start + k else start + k - n
    {
      CursorWithinLap(n, start, k);
    }
    forall j | 0 <= j < n
      ensures VisitedWithinLap(n, start, j)
    {
      var k := if j >= start then j - start else j + n - start;
      assert Cursor(n, start, k) == j;
    }
    CursorWithinLap(n, start, n - 1);
  }
}
