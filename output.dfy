/**
 * The output plugin object: the configuration it keeps, the indexer
 * cursor it updates in place, and its `chunk_to_buffers`, `get_baseurl`
 * and `write`, each proved against the reference definitions of the
 * other modules.
 */
module SplunkOutput {
  import opened Wrappers
  import opened Strings
  import opened Events
  import opened Endpoints
  import opened Buffering
  import opened Delivery

  /** The plugin's parameters, as the host framework hands them over. */
  datatype Config = Config(
    server: string,
    verify: bool,
    token: Option<string>,
    host: Option<string>,
    index: Option<string>,
    source: string,
    sourcetype: string,
    postRetryMax: int,
    postRetryInterval: int)

  /** The declared defaults of the parameters. */
  const Defaults: Config := Config("localhost:8088", true, None, None, None, "{TAG}", "_json", 5, 5)

  class Output {
    /** The parameters `configure` received. */
    const config: Config
    /** `@source_formatter`. */
    const sourceFormatter: SourceFormatter
    /** `@indexers`. */
    const indexers: seq<string>
    /** `@idx_indexers`: the indexer the next `get_baseurl` returns. */
    var idxIndexers: nat

    ghost predicate Valid()
      reads this
    {
      CursorOk(indexers, idxIndexers)
    }

    /**
     * `initialize` followed by `configure`: the cursor starts at 0, the
     * source formatter follows the `source` template and the indexer list
     * is read from `server`.
     */
    constructor Configure(conf: Config)
      ensures Valid()
      ensures config == conf
      ensures sourceFormatter == SourceFormatterFor(conf.source)
      ensures indexers == IndexerList(conf.server)
      ensures idxIndexers == 0
    {
      config := conf;
      sourceFormatter := SourceFormatterFor(conf.source);
      indexers := IndexerList(conf.server);
      idxIndexers := 0;
    }

    /**
     * `get_baseurl`: the URL of the indexer under the cursor, and the
     * cursor moved on by one, wrapping around. With no indexers the `% 0`
     * raises (`None`) and the cursor stays where it was.
     */
    method GetBaseUrl() returns (url: Option<string>)
      requires Valid()
      modifies this`idxIndexers
      ensures Valid()
      ensures |indexers| == 0 ==> url == None && idxIndexers == old(idxIndexers)
      ensures |indexers| > 0 ==>
                url == Some(BaseUrl(indexers[old(idxIndexers)]))
                && idxIndexers == (old(idxIndexers) + 1) % |indexers|
    {
      if |indexers| == 0 {
        return None;
      }
      var server := indexers[idxIndexers];
      idxIndexers := (idxIndexers + 1) % |indexers|;
      url := Some(BaseUrl(server));
    }

    /**
     * `chunk_to_buffers`: one pass over the decoded chunk, appending each
     * line to the group of its resolved source and creating a group the
     * first time a source is seen.
     */
    method ChunkToBuffers(chunk: seq<Entry>) returns (b: Buffers)
      ensures b.order == Sources(sourceFormatter, chunk)
      ensures b.groups.Keys == set s | s in b.order
      ensures forall s :: s in b.groups ==> b.groups[s] == LinesFor(sourceFormatter, chunk, s)
    {
      b := Buffers([], map[]);
      var i := 0;
      while i < |chunk|
        invariant 0 <= i <= |chunk|
        invariant b.order == Sources(sourceFormatter, chunk[..i])
        invariant b.groups.Keys == set s | s in b.order
        invariant forall s :: s in b.groups ==> b.groups[s] == LinesFor(sourceFormatter, chunk[..i], s)
      {
        var key := ResolveSource(sourceFormatter, chunk[i].tag);
        assert chunk[..i + 1][..i] == chunk[..i];
        if key in b.groups {
          b := b.(groups := b.groups[key := b.groups[key] + [chunk[i].line]]);
        } else {
          GroupsAreNonEmpty(sourceFormatter, chunk[..i], key);
          b := Buffers(b.order + [key], b.groups[key := [chunk[i].line]]);
        }
        i := i + 1;
      }
      assert chunk[..i] == chunk;
    }

    /**
     * The `1.upto(@post_retry_max)` loop of `write` for one request: post,
     * stop on `"200"` or `/^40/`, otherwise sleep and go again while
     * attempts are left, and raise on the last one. Request number
     * `first` of this flush is the first one it sends.
     */
    method PostWithRetry(req: Request, server: Server, first: nat)
      returns (r: GroupResult, posted: seq<Request>, sleeps: nat)
      ensures r == Post(server, req, config.postRetryMax, first)
      ensures posted == Repeat(req, r.attempts)
      ensures sleeps == Sleeps(r)
    {
      var max := config.postRetryMax;
      r := GroupResult(0, NotSent);
      posted, sleeps := [], 0;
      var c := 1;
      while c <= max
        invariant 1 <= c
        invariant c <= max || (c == 1 && max < 1)
        invariant c <= max ==> TryFrom(server, req, max, c, first) == Post(server, req, max, first)
        invariant posted == Repeat(req, c - 1) && sleeps == c - 1
        decreases max - c
      {
        var reply := server(req, first + c - 1);
        assert TryFrom(server, req, max, c, first) ==
                 if Retryable(reply) && c < max then TryFrom(server, req, max, c + 1, first)
                 else GroupResult(c, Settle(reply, req.uri));
        posted := posted + [req];
        if reply.ConnectionError? {
          r := GroupResult(c, Failed(reply.message));
          break;
        } else if reply.code == "200" {
          r := GroupResult(c, Delivered);
          break;
        } else if MatchesUserError(reply.code) {
          r := GroupResult(c, Dropped(reply.code, reply.message));
          break;
        } else if c < max {
          sleeps := sleeps + 1;
          c := c + 1;
        } else {
          r := GroupResult(c, Failed(req.uri + ": " + reply.message));
          break;
        }
      }
    }

    /**
     * `write`: group the chunk, then for each group in insertion order take
     * one URL from `get_baseurl`, build the request with the group's lines
     * joined by nothing, and run the retry loop; a raise ends the pass.
     */
    method Write(chunk: seq<Entry>, server: Server) returns (f: Flush)
      requires Valid()
      modifies this`idxIndexers
      ensures Valid()
      ensures f == Run(indexers, Authorization(config.token), config.postRetryMax, server,
                       Start(old(idxIndexers)), Grouped(sourceFormatter, chunk))
      ensures idxIndexers == f.idx
    {
      var b := ChunkToBuffers(chunk);
      var auth := Authorization(config.token);
      var max := config.postRetryMax;
      ghost var groups := Grouped(sourceFormatter, chunk);
      f := Start(idxIndexers);
      ghost var start := f;
      var i := 0;
      while i < |b.order| && f.error.None?
        invariant 0 <= i <= |b.order|
        invariant Valid() && f.idx == idxIndexers
        invariant Run(indexers, auth, max, server, f, groups[i..])
                    == Run(indexers, auth, max, server, start, groups)
      {
        var lines := b.groups[b.order[i]];
        assert lines == groups[i];
        assert groups[i..][1..] == groups[i + 1..];
        var url := GetBaseUrl();
        if url.None? {
          f := f.(error := Some(NoIndexer));
        } else {
          var req := Request(url.value, auth, Concat(lines));
          var r, posted, _ := PostWithRetry(req, server, |f.posts|);
          f := Flush(idxIndexers, f.requests + [req], f.results + [r], f.posts + posted,
                     if r.end.Failed? then Some(Raised(r.end.error)) else None);
        }
        i := i + 1;
      }
      if f.error.Some? {
        RunAfterError(indexers, auth, max, server, f, groups[i..]);
      } else {
        assert groups[i..] == [];
      }
    }
  }

  /** `"a:8088,b:8088"` configures the two indexers, in that order. */
  lemma TwoIndexerList()
    ensures IndexerList("a:8088,b:8088") == ["a:8088", "b:8088"]
  {
    var indexers := ["a:8088", "b:8088"];
    assert JoinWith(indexers, ',') == "a:8088,b:8088";
    JoinedListRoundTrip(indexers);
  }

  /** The collector URLs of the two indexers. */
  lemma ScenarioUrls()
    ensures BaseUrl("a:8088") == "https://a:8088/services/collectors"
    ensures BaseUrl("b:8088") == "https://b:8088/services/collectors"
  {
    assert "https://" + "a:8088" + "/services/collectors" == "https://a:8088/services/collectors";
    assert "https://" + "b:8088" + "/services/collectors" == "https://b:8088/services/collectors";
  }

  /** Under the `{TAG}` template, events tagged `app.log` then `db.log` form two groups, in that order. */
  lemma TwoTagGroups(line1: string, line2: string)
    ensures Grouped(SourceFormatterFor(Defaults.source), [Entry("app.log", line1), Entry("db.log", line2)])
              == [[line1], [line2]]
  {
    var chunk := [Entry("app.log", line1), Entry("db.log", line2)];
    var f := SourceFormatterFor(Defaults.source);
    assert f == TagAsSource;
    var head := chunk[..1];
    assert head == [chunk[0]] && head[..0] == [] && chunk[..|chunk| - 1] == head;
    assert Sources(f, head) == ["app.log"];
    assert LinesFor(f, head, "app.log") == [line1] && LinesFor(f, head, "db.log") == [];
    assert "db.log" != "app.log" by {
      assert "db.log"[0] != "app.log"[0];
    }
    assert Sources(f, chunk) == ["app.log", "db.log"];
    assert LinesFor(f, chunk, "app.log") == [line1];
    assert LinesFor(f, chunk, "db.log") == [line2];
  }

  /**
   * Two groups of one line each, sent from a fresh cursor over the indexers
   * `a:8088` and `b:8088` to a collector that accepts everything: the
   * first goes to `a:8088`, the second to `b:8088`, both are delivered,
   * nothing is raised, and the cursor is back at the first indexer.
   */
  lemma TwoGroupRun(auth: string, server: Server, line1: string, line2: string,
                    indexers: seq<string>, groups: seq<seq<string>>)
    requires indexers == ["a:8088", "b:8088"]
    requires |groups| == 2 && groups[0] == [line1] && groups[1] == [line2]
    requires forall q: Request, i: nat :: server(q, i) == Response("200", "OK", "")
    ensures var r := Run(indexers, auth, Defaults.postRetryMax, server, Start(0), groups);
      && r.error == None
      && |r.requests| == 2
      && r.requests[0].uri == "https://a:8088/services/collectors" && r.requests[0].body == line1
      && r.requests[1].uri == "https://b:8088/services/collectors" && r.requests[1].body == line2
      && r.results == [GroupResult(1, Delivered), GroupResult(1, Delivered)]
      && r.idx == 0
  {
    AllAcceptedWrite(indexers, auth, Defaults.postRetryMax, server, 0, groups);
    WriteRequests(indexers, auth, Defaults.postRetryMax, server, 0, groups);
    WriteShape(indexers, auth, Defaults.postRetryMax, server, 0, groups);
    var r := Run(indexers, auth, Defaults.postRetryMax, server, Start(0), groups);
    assert Concat([line1]) == line1 && Concat([line2]) == line2;
    assert Cursor(2, 0, 1) == 1 && Cursor(2, 0, 2) == 0;
    assert indexers[Cursor(2, 0, 0)] == "a:8088" && indexers[Cursor(2, 0, 1)] == "b:8088";
    assert r.requests[0] == Request(BaseUrl("a:8088"), auth, line1);
    assert r.requests[1] == Request(BaseUrl("b:8088"), auth, line2);
    assert |r.results| == 2;
    assert r.results[0] == GroupResult(1, Delivered) && r.results[1] == GroupResult(1, Delivered);
    assert r.results == [GroupResult(1, Delivered), GroupResult(1, Delivered)];
    ScenarioUrls();
    assert r.idx == 0;
  }

  /**
   * The same with the groups `write` builds under the default `{TAG}`
   * template from a chunk with one event tagged `app.log` and one tagged
   * `db.log`: the `app.log` line goes to `a:8088`, the `db.log` line to
   * `b:8088`.
   */
  lemma TwoIndexerScenario(auth: string, server: Server, line1: string, line2: string,
                           indexers: seq<string>, groups: seq<seq<string>>)
    requires indexers == ["a:8088", "b:8088"]
    requires groups == Grouped(SourceFormatterFor(Defaults.source), [Entry("app.log", line1), Entry("db.log", line2)])
    requires forall q: Request, i: nat :: server(q, i) == Response("200", "OK", "")
    ensures var r := Run(indexers, auth, Defaults.postRetryMax, server, Start(0), groups);
      && r.error == None
      && |r.requests| == 2
      && r.requests[0].uri == "https://a:8088/services/collectors" && r.requests[0].body == line1
      && r.requests[1].uri == "https://b:8088/services/collectors" && r.requests[1].body == line2
      && r.results == [GroupResult(1, Delivered), GroupResult(1, Delivered)]
      && r.idx == 0
  {
    TwoTagGroups(line1, line2);
    TwoGroupRun(auth, server, line1, line2, indexers, groups);
  }
}
