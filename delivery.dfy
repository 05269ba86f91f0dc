/**
 * The delivery path of `write`: how one HTTP response is classified, the
 * bounded retry loop that posts one group, and the pass over all groups of
 * a chunk that stops at the first raised error. The HTTP client is an
 * oracle: a function from the request and the number of requests already
 * sent in this flush to the reply the collector gives.
 */
module Delivery {
  import opened Wrappers
  import opened Strings
  import opened Endpoints

  /** One POST: target URL, `Authorization` header and body. */
  datatype Request = Request(uri: string, authorization: string, body: string)

  /**
   * What `@http.request` gives back: a response with its status code,
   * message and body, or an exception from the transport.
   */
  datatype Reply =
    | Response(code: string, message: string, body: string)
    | ConnectionError(message: string)

  /** The collector: the reply to a request, given how many requests came before it. */
  type Server = (Request, nat) -> Reply

  /** The three classes `write` sorts a status code into. */
  datatype Verdict = Success | UserError | Transient

  /**
   * Ruby's `code.match(/^40/)`: `^` anchors at the start of any line, so
   * the code matches when some line of it starts with `"40"`.
   */
  predicate MatchesUserError(code: string)
    ensures StartsWith(code, "40") ==> MatchesUserError(code)
  {
    exists i :: 0 <= i < |code| && (i == 0 || code[i - 1] == '\n') && OccursAt(code, "40", i)
  }

  /** `"200"` succeeds, a code matching `/^40/` is a user error, anything else is retried. */
  function Classify(code: string): (v: Verdict)
    ensures v == Success <==> code == "200"
    ensures v == UserError <==> MatchesUserError(code)
    ensures v == Transient <==> code != "200" && !MatchesUserError(code)
  {
    if code == "200" then SuccessIsNoUserError(); Success
    else if MatchesUserError(code) then UserError
    else Transient
  }

  /** `"200"` has no line starting with `40`. */
  lemma SuccessIsNoUserError()
    ensures !MatchesUserError("200")
  {
    forall i | 0 <= i < 3
      ensures !OccursAt("200", "40", i)
    {
      if i + 2 <= 3 {
        assert "200"[i..i + 2][0] == "200"[i] != '4';
      }
    }
  }

  /**
   * For a single-line code the user-error test is exactly "starts with
   * 40": `400` to `409` qualify, `410`, `429`, `4xx` beyond do not.
   */
  lemma UserErrorIsPrefix40(code: string)
    requires '\n' !in code
    ensures MatchesUserError(code) <==> StartsWith(code, "40")
  {
    if StartsWith(code, "40") {
      assert 0 < |code| && OccursAt(code, "40", 0);
    }
  }

  /** A three-character status code is a user error exactly when it is `40` and one more character. */
  lemma UserErrorThreeDigits(code: string)
    requires |code| == 3 && '\n' !in code
    ensures MatchesUserError(code) <==> code[0] == '4' && code[1] == '0'
  {
    assert code[..2] == [code[0], code[1]];
    UserErrorIsPrefix40(code);
  }

  /** The three-digit codes the plugin sees in practice, classified. */
  lemma ClassifyExamples()
    ensures Classify("200") == Success
    ensures Classify("400") == UserError && Classify("403") == UserError && Classify("404") == UserError
    ensures Classify("410") == Transient && Classify("429") == Transient
    ensures Classify("500") == Transient && Classify("503") == Transient
    ensures Classify("201") == Transient && Classify("301") == Transient
  {
    UserErrorThreeDigits("400");
    UserErrorThreeDigits("403");
    UserErrorThreeDigits("404");
    UserErrorThreeDigits("410");
    UserErrorThreeDigits("429");
    UserErrorThreeDigits("500");
    UserErrorThreeDigits("503");
    UserErrorThreeDigits("201");
    UserErrorThreeDigits("301");
  }

  /** How the retry loop for one group ended. */
  datatype GroupEnd =
    | Delivered                                   // "200": `break`
    | Dropped(code: string, message: string)      // `/^40/`: logged, `break`, no exception
    | NotSent                                     // `post_retry_max < 1`: the loop never ran
    | Failed(error: string)                       // raised: retries exhausted, or the transport failed

  /** The outcome for one group and the number of requests it took. */
  datatype GroupResult = GroupResult(attempts: nat, end: GroupEnd)

  /** A reply after which the loop sleeps and tries again, unless it was the last attempt. */
  predicate Retryable(reply: Reply) {
    reply.Response? && Classify(reply.code) == Transient
  }

  /** The end of the loop when `reply` is the last one it receives. */
  function Settle(reply: Reply, uri: string): (e: GroupEnd)
    ensures e != NotSent
    ensures e.Failed? <==> reply.ConnectionError? || Retryable(reply)
  {
    match reply
    case ConnectionError(m) => Failed(m)
    case Response(code, message, _) =>
      match Classify(code)
      case Success => Delivered
      case UserError => Dropped(code, message)
      case Transient => Failed(uri + ": " + message)
  }

  /** Attempt `c` of `max` and the ones after it; the group's first attempt was request number `first`. */
  function TryFrom(server: Server, req: Request, max: int, c: nat, first: nat): (r: GroupResult)
    requires 1 <= c <= max
    decreases max - c
    ensures c <= r.attempts <= max
    ensures r.end == Settle(server(req, first + r.attempts - 1), req.uri)
    ensures r.attempts < max ==> !Retryable(server(req, first + r.attempts - 1))
  {
    var reply := server(req, first + c - 1);
    if Retryable(reply) && c < max then TryFrom(server, req, max, c + 1, first)
    else GroupResult(c, Settle(reply, req.uri))
  }

  /** `1.upto(max)` around one request: the reference for the retry loop. */
  function Post(server: Server, req: Request, max: int, first: nat): (r: GroupResult)
    ensures r.attempts == 0 <==> max < 1
    ensures r.attempts == 0 ==> r.end == NotSent
    ensures r.attempts > 0 ==> r.attempts <= max && r.end == Settle(server(req, first + r.attempts - 1), req.uri)
  {
    if max < 1 then GroupResult(0, NotSent) else TryFrom(server, req, max, 1, first)
  }

  /** The number of sleeps the loop makes before it ends. */
  function Sleeps(r: GroupResult): nat {
    if r.attempts == 0 then 0 else r.attempts - 1
  }

  /** The replies to requests `from` up to `to`, exclusive, were all retryable. */
  predicate AllRetryable(server: Server, req: Request, from: nat, to: nat) {
    forall i :: from <= i < to ==> Retryable(server(req, i))
  }

  /**
   * Attempt `k` is the one the loop ends on: every earlier reply was
   * retryable, and this one is not or no retries are left.
   */
  predicate EndsAt(server: Server, req: Request, max: int, first: nat, k: nat) {
    1 <= k <= max
    && AllRetryable(server, req, first, first + k - 1)
    && (k == max || !Retryable(server(req, first + k - 1)))
  }

  lemma {:induction false} TryFromEndsAt(server: Server, req: Request, max: int, c: nat, first: nat)
    requires 1 <= c <= max
    requires AllRetryable(server, req, first, first + c - 1)
    ensures EndsAt(server, req, max, first, TryFrom(server, req, max, c, first).attempts)
    ensures TryFrom(server, req, max, c, first).end
              == Settle(server(req, first + TryFrom(server, req, max, c, first).attempts - 1), req.uri)
    decreases max - c
  {
    var reply := server(req, first + c - 1);
    if Retryable(reply) && c < max {
      TryFromEndsAt(server, req, max, c + 1, first);
    }
  }

  /** At most one attempt is the one the loop ends on. */
  lemma EndsAtUnique(server: Server, req: Request, max: int, first: nat, k1: nat, k2: nat)
    requires EndsAt(server, req, max, first, k1) && EndsAt(server, req, max, first, k2)
    ensures k1 == k2
  {
  }

  /**
   * The retry loop, exactly: with `max < 1` nothing is sent; otherwise it
   * makes `k` attempts for the one `k` it ends on (never more than `max`),
   * and the last reply decides the outcome.
   */
  lemma PostOutcome(server: Server, req: Request, max: int, first: nat, k: nat)
    ensures Post(server, req, max, first).attempts == 0 <==> max < 1
    ensures max < 1 ==> Post(server, req, max, first).end == NotSent
    ensures Post(server, req, max, first).attempts <= if max < 1 then 0 else max
    ensures max >= 1 ==>
              (Post(server, req, max, first).attempts == k <==> EndsAt(server, req, max, first, k))
    ensures max >= 1 ==>
              Post(server, req, max, first).end
                == Settle(server(req, first + Post(server, req, max, first).attempts - 1), req.uri)
  {
    if max >= 1 {
      TryFromEndsAt(server, req, max, 1, first);
      if EndsAt(server, req, max, first, k) {
        EndsAtUnique(server, req, max, first, k, Post(server, req, max, first).attempts);
      }
    }
  }

  /**
   * The loop raises only on a transport failure or after `max` attempts
   * whose replies were all retryable (and so after `max - 1` sleeps);
   * `"200"` and `/^40/` end it without raising.
   */
  lemma PostRaisesOnlyWhenExhausted(server: Server, req: Request, max: int, first: nat)
    requires Post(server, req, max, first).end.Failed?
    ensures var n := Post(server, req, max, first).attempts;
      1 <= n <= max
      && (server(req, first + n - 1).ConnectionError?
          || (n == max && AllRetryable(server, req, first, first + n)))
  {
    var n := Post(server, req, max, first).attempts;
    PostOutcome(server, req, max, first, n);
  }

  /** A collector that only ever answers transiently gets exactly `max` attempts, then the raise. */
  lemma AlwaysTransientExhausts(server: Server, req: Request, max: int, first: nat, message: string)
    requires max >= 1
    requires forall i :: first <= i < first + max ==> server(req, i) == Response("503", message, "")
    ensures Post(server, req, max, first) == GroupResult(max, Failed(req.uri + ": " + message))
    ensures Sleeps(Post(server, req, max, first)) == max - 1
  {
    ClassifyExamples();
    assert server(req, first + max - 1) == Response("503", message, "");
    PostOutcome(server, req, max, first, max);
  }

  /** Success on attempt `k` after transient replies: `k` attempts, no raise. */
  lemma SuccessAfterRetries(server: Server, req: Request, max: int, first: nat, k: nat)
    requires 1 <= k <= max
    requires AllRetryable(server, req, first, first + k - 1)
    requires server(req, first + k - 1).Response? && server(req, first + k - 1).code == "200"
    ensures Post(server, req, max, first) == GroupResult(k, Delivered)
  {
    PostOutcome(server, req, max, first, k);
  }

  /** A `/^40/` reply on the first attempt: one attempt, dropped, whatever `max` is. */
  lemma UserErrorShortCircuits(server: Server, req: Request, max: int, first: nat)
    requires max >= 1
    requires server(req, first).Response? && MatchesUserError(server(req, first).code)
    ensures Post(server, req, max, first)
              == GroupResult(1, Dropped(server(req, first).code, server(req, first).message))
  {
    assert server(req, first).code != "200" by {
      ClassifyExamples();
    }
    PostOutcome(server, req, max, first, 1);
  }

  /** The `Authorization` header: `"Splunk #{token}"`, where a nil token prints as nothing. */
  function Authorization(token: Option<string>): (h: string)
    ensures StartsWith(h, "Splunk ")
    ensures token.Some? ==> h[|"Splunk "|..] == token.value
    ensures token.None? ==> h == "Splunk "
  {
    var h := "Splunk " + (match token case Some(t) => t case None => "");
    assert h[..7] == "Splunk ";
    h
  }

  /** The reasons `write` raises. */
  datatype WriteError =
    | NoIndexer              // `get_baseurl` on an empty list: `% 0` raises ZeroDivisionError
    | Raised(message: string)

  /**
   * The state of one `write` call: the cursor, the request built for each
   * group so far, each group's outcome, every request sent (retries
   * included), and the error that stopped the pass, if any.
   */
  datatype Flush = Flush(
    idx: nat,
    requests: seq<Request>,
    results: seq<GroupResult>,
    posts: seq<Request>,
    error: Option<WriteError>)

  /** `n` copies of `req`: the requests one group's loop sends. */
  function Repeat(req: Request, n: nat): (r: seq<Request>)
    ensures |r| == n && forall i :: 0 <= i < n ==> r[i] == req
  {
    if n == 0 then [] else Repeat(req, n - 1) + [req]
  }

  /** The cursor is a valid index into the list, or 0 when the list is empty. */
  predicate CursorOk(indexers: seq<string>, idx: nat) {
    if |indexers| == 0 then idx == 0 else idx < |indexers|
  }

  /**
   * One group of the `each` in `write`: `get_baseurl` (which raises on an
   * empty list), the request with the lines joined by nothing, the retry
   * loop, and the raise that ends the pass. Once an error is raised the
   * remaining groups are not touched.
   */
  function Step(indexers: seq<string>, auth: string, max: int, server: Server, s: Flush, lines: seq<string>): (r: Flush)
    requires CursorOk(indexers, s.idx)
    ensures CursorOk(indexers, r.idx)
    ensures s.error.Some? ==> r == s
    ensures s.error.None? && |indexers| == 0 ==> r == s.(error := Some(NoIndexer))
    ensures s.error.None? && |indexers| > 0 ==>
              && |r.requests| == |s.requests| + 1 && r.requests[..|s.requests|] == s.requests
              && r.requests[|s.requests|].uri == BaseUrl(indexers[s.idx])
              && |r.results| == |s.results| + 1
              && (r.error.Some? <==> r.results[|s.results|].end.Failed?)
              && r.idx == (s.idx + 1) % |indexers|
  {
    if s.error.Some? then s
    else if |indexers| == 0 then s.(error := Some(NoIndexer))
    else
      var req := Request(BaseUrl(indexers[s.idx]), auth, Concat(lines));
      var r := Post(server, req, max, |s.posts|);
      Flush(Advance(|indexers|, s.idx),
            s.requests + [req],
            s.results + [r],
            s.posts + Repeat(req, r.attempts),
            if r.end.Failed? then Some(Raised(r.end.error)) else None)
  }

  /** The groups, in order, through `Step`. */
  function Run(indexers: seq<string>, auth: string, max: int, server: Server, s: Flush, groups: seq<seq<string>>): (r: Flush)
    requires CursorOk(indexers, s.idx)
    ensures CursorOk(indexers, r.idx)
    ensures |s.requests| <= |r.requests| <= |s.requests| + |groups|
    ensures r.requests[..|s.requests|] == s.requests
    ensures r.error.None? ==> s.error.None? && |r.requests| == |s.requests| + |groups|
    decreases |groups|
  {
    if groups == [] then s
    else Run(indexers, auth, max, server, Step(indexers, auth, max, server, s, groups[0]), groups[1..])
  }

  /** The state `write` starts from: the current cursor, nothing sent. */
  function Start(idx: nat): Flush {
    Flush(idx, [], [], [], None)
  }

  /** A pass that has raised ignores the groups that are left. */
  lemma {:induction false} RunAfterError(indexers: seq<string>, auth: string, max: int, server: Server, s: Flush, groups: seq<seq<string>>)
    requires CursorOk(indexers, s.idx) && s.error.Some?
    ensures Run(indexers, auth, max, server, s, groups) == s
    decreases |groups|
  {
    if groups != [] {
      RunAfterError(indexers, auth, max, server, s, groups[1..]);
    }
  }

  /** Running a longer list is one more `Step` after running the shorter one. */
  lemma {:induction false} RunSnoc(indexers: seq<string>, auth: string, max: int, server: Server, s: Flush, groups: seq<seq<string>>, lines: seq<string>)
    requires CursorOk(indexers, s.idx)
    ensures Run(indexers, auth, max, server, s, groups + [lines])
              == Step(indexers, auth, max, server, Run(indexers, auth, max, server, s, groups), lines)
    decreases |groups|
  {
    if groups == [] {
      assert groups + [lines] == [lines];
    } else {
      assert (groups + [lines])[1..] == groups[1..] + [lines];
      RunSnoc(indexers, auth, max, server, Step(indexers, auth, max, server, s, groups[0]), groups[1..], lines);
    }
  }

  /** The requests each group's loop sent, group after group. */
  function Expand(requests: seq<Request>, results: seq<GroupResult>): seq<Request>
    requires |requests| == |results|
    decreases |requests|
  {
    if requests == [] then []
    else
      var n := |requests| - 1;
      Expand(requests[..n], results[..n]) + Repeat(requests[n], results[n].attempts)
  }

  /**
   * The shape of a pass over `groups` from cursor `idx0` that ended in
   * state `r`: one request and one outcome per group reached, the cursor
   * one step further per group (and untouched without indexers), only the
   * last group reached can have failed, without an error every group was
   * reached, and an empty indexer list raises before anything is sent.
   */
  predicate ShapeOf(indexers: seq<string>, idx0: nat, groups: seq<seq<string>>, r: Flush)
    requires CursorOk(indexers, idx0)
  {
    var n := |r.results|;
    && |r.requests| == n <= |groups|
    && (r.error.None? ==> n == |groups|)
    && (|indexers| > 0 ==> r.idx == Cursor(|indexers|, idx0, n))
    && (|indexers| == 0 ==> r.idx == idx0 && n == 0)
    && (forall k :: 0 <= k < n - 1 ==> !r.results[k].end.Failed?)
    && (r.error.None? ==> forall k :: 0 <= k < n ==> !r.results[k].end.Failed?)
    && (r.error.Some? && r.error.value.Raised? ==>
          n >= 1 && r.results[n - 1].end == Failed(r.error.value.message))
    && (r.error == Some(NoIndexer) <==> |indexers| == 0 && groups != [])
  }

  /** Group `k` went to the indexer `k` steps on from `idx0`, with its lines joined by nothing as body. */
  predicate RequestsOf(indexers: seq<string>, auth: string, idx0: nat, groups: seq<seq<string>>, r: Flush)
    requires CursorOk(indexers, idx0)
  {
    forall k :: 0 <= k < |r.requests| ==>
      |indexers| > 0 && k < |groups|
      && r.requests[k] == Request(BaseUrl(indexers[Cursor(|indexers|, idx0, k)]), auth, Concat(groups[k]))
  }

  /**
   * The requests sent are, group after group, the group's one request once
   * per attempt, and each group's outcome is the retry loop's on the
   * replies to those requests, numbered across the whole pass.
   */
  predicate SentOf(server: Server, max: int, r: Flush) {
    && |r.requests| == |r.results|
    && r.posts == Expand(r.requests, r.results)
    && forall k :: 0 <= k < |r.results| ==>
         r.results[k] == Post(server, r.requests[k], max, |Expand(r.requests[..k], r.results[..k])|)
  }

  lemma StepShape(indexers: seq<string>, auth: string, max: int, server: Server, idx0: nat,
                  init: seq<seq<string>>, lines: seq<string>, p: Flush)
    requires CursorOk(indexers, idx0) && CursorOk(indexers, p.idx)
    requires ShapeOf(indexers, idx0, init, p)
    ensures ShapeOf(indexers, idx0, init + [lines], Step(indexers, auth, max, server, p, lines))
  {
    var s := Step(indexers, auth, max, server, p, lines);
    if p.error.None? && |indexers| > 0 {
      var n := |p.results|;
      assert s.results == p.results + [s.results[n]];
      forall k | 0 <= k < n ensures s.results[k] == p.results[k] { }
    }
  }

  lemma StepRequests(indexers: seq<string>, auth: string, max: int, server: Server, idx0: nat,
                     init: seq<seq<string>>, lines: seq<string>, p: Flush)
    requires CursorOk(indexers, idx0) && CursorOk(indexers, p.idx)
    requires ShapeOf(indexers, idx0, init, p) && RequestsOf(indexers, auth, idx0, init, p)
    ensures RequestsOf(indexers, auth, idx0, init + [lines], Step(indexers, auth, max, server, p, lines))
  {
    var s := Step(indexers, auth, max, server, p, lines);
    var groups := init + [lines];
    if p.error.None? && |indexers| > 0 {
      forall k | 0 <= k < |p.requests|
        ensures s.requests[k] == p.requests[k] && groups[k] == init[k]
      {
      }
    }
  }

  lemma StepSent(indexers: seq<string>, auth: string, max: int, server: Server, lines: seq<string>, p: Flush)
    requires CursorOk(indexers, p.idx) && SentOf(server, max, p)
    ensures SentOf(server, max, Step(indexers, auth, max, server, p, lines))
  {
    var s := Step(indexers, auth, max, server, p, lines);
    if p.error.None? && |indexers| > 0 {
      var n := |p.results|;
      assert s.requests[..n] == p.requests && s.results[..n] == p.results;
      ExpandSnoc(p.requests, p.results, s.requests[n], s.results[n]);
      forall k | 0 <= k < n
        ensures s.results[k] == Post(server, s.requests[k], max, |Expand(s.requests[..k], s.results[..k])|)
      {
        assert s.requests[k] == p.requests[k] && s.results[k] == p.results[k];
        assert s.requests[..k] == p.requests[..k] && s.results[..k] == p.results[..k];
      }
    }
  }

  lemma ExpandSnoc(requests: seq<Request>, results: seq<GroupResult>, req: Request, r: GroupResult)
    requires |requests| == |results|
    ensures Expand(requests + [req], results + [r]) == Expand(requests, results) + Repeat(req, r.attempts)
  {
    assert (requests + [req])[..|requests|] == requests;
    assert (results + [r])[..|results|] == results;
  }

  /** A whole `write` from cursor `idx0` has the shape `ShapeOf` describes. */
  lemma {:induction false} WriteShape(indexers: seq<string>, auth: string, max: int, server: Server, idx0: nat, groups: seq<seq<string>>)
    requires CursorOk(indexers, idx0)
    ensures ShapeOf(indexers, idx0, groups, Run(indexers, auth, max, server, Start(idx0), groups))
    decreases |groups|
  {
    if groups != [] {
      var init, lines := groups[..|groups| - 1], groups[|groups| - 1];
      assert groups == init + [lines];
      WriteShape(indexers, auth, max, server, idx0, init);
      RunSnoc(indexers, auth, max, server, Start(idx0), init, lines);
      StepShape(indexers, auth, max, server, idx0, init, lines, Run(indexers, auth, max, server, Start(idx0), init));
    }
  }

  /**
   * In a whole `write`, group `k` goes to the indexer `k` steps on from
   * `idx0`: one `get_baseurl` per group, with the group's lines joined by
   * nothing as the body.
   */
  lemma {:induction false} WriteRequests(indexers: seq<string>, auth: string, max: int, server: Server, idx0: nat, groups: seq<seq<string>>)
    requires CursorOk(indexers, idx0)
    ensures RequestsOf(indexers, auth, idx0, groups, Run(indexers, auth, max, server, Start(idx0), groups))
    decreases |groups|
  {
    if groups != [] {
      var init, lines := groups[..|groups| - 1], groups[|groups| - 1];
      assert groups == init + [lines];
      WriteRequests(indexers, auth, max, server, idx0, init);
      WriteShape(indexers, auth, max, server, idx0, init);
      RunSnoc(indexers, auth, max, server, Start(idx0), init, lines);
      StepRequests(indexers, auth, max, server, idx0, init, lines, Run(indexers, auth, max, server, Start(idx0), init));
    }
  }

  /**
   * In a whole `write`, every retry of a group re-sends that group's one
   * request, and each group's outcome is the retry loop's on the replies
   * to its own requests.
   */
  lemma {:induction false} WriteSent(indexers: seq<string>, auth: string, max: int, server: Server, idx0: nat, groups: seq<seq<string>>)
    requires CursorOk(indexers, idx0)
    ensures SentOf(server, max, Run(indexers, auth, max, server, Start(idx0), groups))
    decreases |groups|
  {
    if groups != [] {
      var init, lines := groups[..|groups| - 1], groups[|groups| - 1];
      assert groups == init + [lines];
      WriteSent(indexers, auth, max, server, idx0, init);
      RunSnoc(indexers, auth, max, server, Start(idx0), init, lines);
      StepSent(indexers, auth, max, server, lines, Run(indexers, auth, max, server, Start(idx0), init));
    }
  }

  /** When every group took one attempt, the requests sent are exactly the requests built. */
  lemma {:induction false} ExpandSingleAttempts(requests: seq<Request>, results: seq<GroupResult>)
    requires |requests| == |results|
    requires forall k :: 0 <= k < |results| ==> results[k].attempts == 1
    ensures Expand(requests, results) == requests
    decreases |requests|
  {
    if requests != [] {
      var n := |requests| - 1;
      ExpandSingleAttempts(requests[..n], results[..n]);
      assert requests == requests[..n] + [requests[n]];
    }
  }

  /**
   * A collector that answers `"200"` to everything: with indexers to send
   * to and `max >= 1`, every group is reached and delivered on its first
   * attempt, nothing is raised, and exactly one request per group is sent.
   */
  lemma AllAcceptedWrite(indexers: seq<string>, auth: string, max: int, server: Server, idx0: nat, groups: seq<seq<string>>)
    requires CursorOk(indexers, idx0) && |indexers| > 0 && max >= 1
    requires forall q: Request, i: nat :: server(q, i).Response? && server(q, i).code == "200"
    ensures var r := Run(indexers, auth, max, server, Start(idx0), groups);
      && r.error.None?
      && |r.results| == |groups|
      && (forall k :: 0 <= k < |groups| ==> r.results[k] == GroupResult(1, Delivered))
      && r.posts == r.requests
  {
    var r := Run(indexers, auth, max, server, Start(idx0), groups);
    WriteShape(indexers, auth, max, server, idx0, groups);
    WriteSent(indexers, auth, max, server, idx0, groups);
    forall k | 0 <= k < |r.results| ensures r.results[k] == GroupResult(1, Delivered) {
      var first := |Expand(r.requests[..k], r.results[..k])|;
      SuccessAfterRetries(server, r.requests[k], max, first, 1);
    }
    ExpandSingleAttempts(r.requests, r.results);
  }
}
