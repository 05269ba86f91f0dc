# Splunk HTTP Event Collector output plugin — a Dafny model

This project models the delivery path of the Fluentd output plugin
`splunk-http-eventcollector`. The plugin batches log events into chunks and
posts them to Splunk's HTTP Event Collector. It does five things:

- **Source resolution.** The `source` template turns an event's tag into a
  source name. `{TAG}` maps a tag to itself. Any other template has its
  first `{TAG}` replaced by the tag.
- **Event formatting.** `format` turns one event into the line
  `"<time>: <record-json>\n"`. The tag travels beside the line, not inside it.
- **Chunk grouping.** `chunk_to_buffers` makes one ordered pass over a
  decoded chunk. It builds a hash from source to that source's lines, in
  insertion order.
- **Indexer round robin.** `configure` reads the indexer list from
  `server`: split on `,` when there is a comma, otherwise a single entry.
  `get_baseurl` returns `https://<indexer>/services/collectors` and moves
  the cursor `@idx_indexers` on by one, modulo the list length.
- **Bounded retry.** `write` takes each group in order. It picks one URL,
  posts the group's lines joined by nothing, and runs the
  `1.upto(post_retry_max)` loop:
  - `"200"` stops the loop;
  - a code matching `/^40/` is logged and stops the loop without raising;
  - anything else sleeps and retries, and on the last attempt raises, which
    ends the whole `write`.

The HTTP client is an oracle. `Delivery.Server` is a function from the
request and the number of requests already sent in this `write` to the
reply. The reply is a response with a code, a message and a body, or a
transport exception. `to_json` and `time.to_s` are opaque: the model takes
their text as inputs. A chunk is the sequence of `(tag, line)` entries that
msgpack decoding gives back.

Modules (one file each):

| file | module | content |
|---|---|---|
| `wrappers.dfy` | `Wrappers` | `Option` (Ruby's `nil`) |
| `strings.dfy` | `Strings` | Ruby `String#sub` with a literal pattern, `String#split(',')`, `Array#join('')` |
| `events.dfy` | `Events` | the source formatter `configure` chooses, and `format` |
| `endpoints.dfy` | `Endpoints` | the indexer list, the collector URL, the cursor arithmetic |
| `buffering.dfy` | `Buffering` | reference definitions of the groups `chunk_to_buffers` builds |
| `delivery.dfy` | `Delivery` | response classification, the retry loop, the pass over the groups of one `write` |
| `output.dfy` | `SplunkOutput` | the plugin object: configuration, cursor, `get_baseurl`, `chunk_to_buffers`, `write` |

The plugin object is `SplunkOutput.Output`. Its cursor `idxIndexers` is a
field that `GetBaseUrl` and `Write` update in place. Its methods run the
source's loops and are proved equal to pure reference functions:
`Buffering.Sources` and `Buffering.LinesFor` for grouping, `Delivery.Post`
for the retry loop, and `Delivery.Run` for `write`. The lemmas about those
functions state what the plugin promises.

## Model

| member | source | states |
|---|---|---|
| `Strings.Sub` | lib/fluent/plugin/out_splunk-http-eventcollector.rb:57 | Ruby `sub` with a literal pattern: without an occurrence the string is unchanged; otherwise exactly the first occurrence is replaced and everything before and after it is kept |
| `Strings.SplitOn` | lib/fluent/plugin/out_splunk-http-eventcollector.rb:64 | the pieces between commas hold no comma; without a comma the result is the whole string; with one there are at least two pieces |
| `Strings.SplitThenJoin` | lib/fluent/plugin/out_splunk-http-eventcollector.rb:64 | splitting on `,` and joining with `,` gives back the original string: nothing is trimmed or lost |
| `Strings.JoinThenSplit` | lib/fluent/plugin/out_splunk-http-eventcollector.rb:64 | comma-free pieces joined with `,` split back into exactly those pieces |
| `Strings.RubySplit` | lib/fluent/plugin/out_splunk-http-eventcollector.rb:64 | Ruby `split(',')`: a prefix of the comma-separated pieces, ending in a non-empty piece, with only empty pieces cut off and no comma in any piece |
| `Strings.DropTrailingEmpty` | lib/fluent/plugin/out_splunk-http-eventcollector.rb:64 | Ruby `split` drops only trailing empty pieces: the result is a prefix, ends in a non-empty piece, and everything dropped is empty |
| `Strings.ConcatAppend` | lib/fluent/plugin/out_splunk-http-eventcollector.rb:113 | `join('')` of two lists appended is the two joins appended |
| `Strings.Concat` | lib/fluent/plugin/out_splunk-http-eventcollector.rb:113 | `messages.join('')`: the body is exactly as long as its lines together, so no separator is added, and it begins with the first line |
| `Events.SourceFormatterFor` | lib/fluent/plugin/out_splunk-http-eventcollector.rb:53-58 | the formatter `configure` installs: the identity exactly for the template `{TAG}`, otherwise substitution into the template as given |
| `Events.ResolveSource` | lib/fluent/plugin/out_splunk-http-eventcollector.rb:55-57 | `@source_formatter.call(tag)`: the identity formatter gives the tag; a template without `{TAG}` gives itself; otherwise the template with its first `{TAG}` replaced by the tag |
| `Events.TagTemplateIsIdentity` | lib/fluent/plugin/out_splunk-http-eventcollector.rb:53-58 | template `{TAG}` gives source = tag, and the general substitution would give the same |
| `Events.TemplateReplacesFirstPlaceholder` | lib/fluent/plugin/out_splunk-http-eventcollector.rb:53-58 | any template gives itself with only its first `{TAG}` replaced by the tag |
| `Events.TemplateWithoutPlaceholderIsConstant` | lib/fluent/plugin/out_splunk-http-eventcollector.rb:56-57 | a template without `{TAG}` gives itself, the same source for every tag |
| `Events.PrefixedTemplate` | lib/fluent/plugin/out_splunk-http-eventcollector.rb:56-57 | `prefix{TAG}suffix` gives `prefix<tag>suffix` for any prefix without a `{TAG}` of its own, `{` and other placeholders included (`{env}-{TAG}` gives `{env}-<tag>`) |
| `Events.FormatLine` | lib/fluent/plugin/out_splunk-http-eventcollector.rb:87-95 | the event line starts with the time prefix (`"<time>: "`, or nothing without a time formatter) and always ends in a newline |
| `Events.Format` | lib/fluent/plugin/out_splunk-http-eventcollector.rb:87-97 | the packed pair keeps the tag as it is; the line is the time prefix, then exactly the record text, then one newline |
| `Events.FormatRoundTrip` | lib/fluent/plugin/out_splunk-http-eventcollector.rb:87-97 | `format` keeps the tag beside the line, and the record text can be recovered from the line |
| `Events.ParseLineRoundTrip` | lib/fluent/plugin/out_splunk-http-eventcollector.rb:95 | every line the parser accepts is the line `format` writes for its record text |
| `Endpoints.IndexerList` | lib/fluent/plugin/out_splunk-http-eventcollector.rb:63-67 | without a comma the list is exactly `[server]`; with one it is the comma-split pieces in order, trailing empty ones dropped, none containing a comma |
| `Endpoints.EmptyIndexerList` | lib/fluent/plugin/out_splunk-http-eventcollector.rb:63-67 | the list is empty exactly when `server` is a non-empty run of commas |
| `Endpoints.JoinedListRoundTrip` | lib/fluent/plugin/out_splunk-http-eventcollector.rb:63-64 | two or more comma-free indexers, the last non-empty, joined by commas, are split back into exactly that list, untrimmed |
| `Endpoints.BaseUrl` | lib/fluent/plugin/out_splunk-http-eventcollector.rb:144 | the URL is `https://`, then the indexer, then `/services/collectors` |
| `Endpoints.BaseUrlInjective` | lib/fluent/plugin/out_splunk-http-eventcollector.rb:144 | different indexers give different URLs |
| `Endpoints.Advance` | lib/fluent/plugin/out_splunk-http-eventcollector.rb:143 | the cursor update equals `(idx + 1) % n` and stays below `n` |
| `Endpoints.Cursor` | lib/fluent/plugin/out_splunk-http-eventcollector.rb:142-143 | the cursor after `k` calls of `get_baseurl`, one `Advance` per call; always a valid index |
| `Endpoints.CursorWithinLap` | lib/fluent/plugin/out_splunk-http-eventcollector.rb:142-143 | within one lap the cursor after `k` calls is `start + k`, wrapped once past the end |
| `Endpoints.RoundRobin` | lib/fluent/plugin/out_splunk-http-eventcollector.rb:140-146 | `n` consecutive calls visit each of the `n` positions exactly once; call `n + 1` is back at the start; from cursor 0, call `k + 1` visits position `k` |
| `Buffering.Sources` | lib/fluent/plugin/out_splunk-http-eventcollector.rb:100-106 | definition: the hash keys, each source once, in the order it first appears in the chunk (no contract; its properties are the lemmas below) |
| `Buffering.LinesFor` | lib/fluent/plugin/out_splunk-http-eventcollector.rb:102-103 | definition: the lines of the entries resolving to one source, in chunk order (no contract; its properties are the lemmas below) |
| `Buffering.Grouped` | lib/fluent/plugin/out_splunk-http-eventcollector.rb:109 | the groups `write` walks: one per key, in key order, each that key's lines |
| `Buffering.SourcesAreResolvedTags` | lib/fluent/plugin/out_splunk-http-eventcollector.rb:100-106 | the hash keys are exactly the resolved sources of the chunk's tags |
| `Buffering.SourcesDistinct` | lib/fluent/plugin/out_splunk-http-eventcollector.rb:103 | each source becomes a key once: groups are created lazily on first sight |
| `Buffering.GroupsAreNonEmpty` | lib/fluent/plugin/out_splunk-http-eventcollector.rb:103 | a source is a key exactly when its group has at least one line |
| `Buffering.LinesForAppend` | lib/fluent/plugin/out_splunk-http-eventcollector.rb:102-103 | a group of a chunk cut in two is the first part's group followed by the second's: original relative order is kept |
| `Buffering.GroupSizesSum` | lib/fluent/plugin/out_splunk-http-eventcollector.rb:100-106 | the group sizes sum to the number of entries |
| `Buffering.ConstantSourceOneGroup` | lib/fluent/plugin/out_splunk-http-eventcollector.rb:100-106 | with a template without `{TAG}`, a non-empty chunk forms one group holding every line in order |
| `Delivery.MatchesUserError` | lib/fluent/plugin/out_splunk-http-eventcollector.rb:122 | `code.match(/^40/)`: some line of the code starts with `40`; in particular every code starting with `40` matches |
| `Delivery.SuccessIsNoUserError` | lib/fluent/plugin/out_splunk-http-eventcollector.rb:119-122 | `"200"` does not match `/^40/`, so the `200` branch and the user-error branch never compete |
| `Delivery.Classify` | lib/fluent/plugin/out_splunk-http-eventcollector.rb:119-131 | the `if`/`elsif` chain: success exactly for `"200"`, user error exactly for a `/^40/` match, retry for everything else |
| `Delivery.UserErrorIsPrefix40` | lib/fluent/plugin/out_splunk-http-eventcollector.rb:122 | for a single-line code, `/^40/` matches exactly when the code starts with `40` |
| `Delivery.UserErrorThreeDigits` | lib/fluent/plugin/out_splunk-http-eventcollector.rb:122 | a three-character code is a user error exactly when its first two characters are `4`, `0` |
| `Delivery.ClassifyExamples` | lib/fluent/plugin/out_splunk-http-eventcollector.rb:119-131 | `200` succeeds; `400`, `403`, `404` are user errors; `410`, `429`, `500`, `503`, `201`, `301` are retried |
| `Delivery.Settle` | lib/fluent/plugin/out_splunk-http-eventcollector.rb:117-134 | how the loop ends on its last reply: never "not sent"; it raises exactly on a transport exception or a reply that would be retried |
| `Delivery.TryFrom` | lib/fluent/plugin/out_splunk-http-eventcollector.rb:116-136 | the loop from attempt `c`: it stops between `c` and `max`, its end is settled by the reply to its last attempt, and it stops early only on a reply that is not retried |
| `Delivery.Post` | lib/fluent/plugin/out_splunk-http-eventcollector.rb:116-136 | `1.upto(post_retry_max)`: no attempt exactly when the maximum is below 1 (the group is skipped, nothing raised); otherwise at most `max` attempts, the last reply settling the end |
| `Delivery.TryFromEndsAt` | lib/fluent/plugin/out_splunk-http-eventcollector.rb:116-136 | from any attempt reached after retryable replies, the loop ends on an attempt after which no retry is taken, and that attempt's reply decides the outcome |
| `Delivery.PostOutcome` | lib/fluent/plugin/out_splunk-http-eventcollector.rb:116-136 | nothing is sent exactly when `post_retry_max < 1`; otherwise there are at most `post_retry_max` attempts; they stop exactly at the first non-retryable reply or at the last allowed attempt; that reply decides success, drop or raise |
| `Delivery.PostRaisesOnlyWhenExhausted` | lib/fluent/plugin/out_splunk-http-eventcollector.rb:126-134 | the loop raises only on a transport failure, or after `post_retry_max` attempts whose replies were all retryable (for a non-negative `post_retry_interval`; see "Left out") |
| `Delivery.AlwaysTransientExhausts` | lib/fluent/plugin/out_splunk-http-eventcollector.rb:116-134 | a collector that always answers `503` gets exactly `post_retry_max` attempts, `post_retry_max - 1` sleeps, then a raise naming the URL and message |
| `Delivery.SuccessAfterRetries` | lib/fluent/plugin/out_splunk-http-eventcollector.rb:116-121 | `200` on attempt `k` after retryable replies: delivered after exactly `k` attempts, no raise |
| `Delivery.UserErrorShortCircuits` | lib/fluent/plugin/out_splunk-http-eventcollector.rb:122-125 | a `/^40/` reply on the first attempt drops the group after one attempt, without raising, for any `post_retry_max >= 1` |
| `Delivery.Authorization` | lib/fluent/plugin/out_splunk-http-eventcollector.rb:112 | the header value is `Splunk ` followed by the token (nothing for a nil token) |
| `Delivery.Step` | lib/fluent/plugin/out_splunk-http-eventcollector.rb:109-137 | one group of `write`: nothing changes after a raise; an empty list raises `NoIndexer` and sends nothing; otherwise one more request, to the indexer under the cursor, one more outcome, the cursor moved on by one, and a raise exactly when that outcome failed |
| `Delivery.Run` | lib/fluent/plugin/out_splunk-http-eventcollector.rb:108-137 | the groups in order through `Step`: earlier requests are kept, at most one request per group is added, and without an error every group got exactly one |
| `Delivery.RunAfterError` | lib/fluent/plugin/out_splunk-http-eventcollector.rb:109-137 | once a group has raised, the remaining groups are not processed |
| `Delivery.StepShape` | lib/fluent/plugin/out_splunk-http-eventcollector.rb:109-137 | one more group keeps the shape below: a group reached adds one request and one outcome and moves the cursor one step; a raise or a missing indexer ends the pass |
| `Delivery.WriteShape` | lib/fluent/plugin/out_splunk-http-eventcollector.rb:108-137 | one request and outcome per group reached; the cursor is one step further per group; only the last group reached can have failed; without an error every group was reached; an empty indexer list raises before anything is sent |
| `Delivery.WriteRequests` | lib/fluent/plugin/out_splunk-http-eventcollector.rb:109-113 | group `k` goes to the indexer `k` cursor steps on, with the group's lines joined by nothing as body: one `get_baseurl` per group |
| `Delivery.WriteSent` | lib/fluent/plugin/out_splunk-http-eventcollector.rb:116-136 | the requests sent are, group after group, that group's one request repeated once per attempt, so every retry goes to the same URI; each group's outcome is the retry loop's on the replies to its own requests |
| `Delivery.AllAcceptedWrite` | lib/fluent/plugin/out_splunk-http-eventcollector.rb:108-137 | when the collector accepts everything, every group is delivered on its first attempt, nothing is raised, and exactly one request per group is sent |
| `SplunkOutput.Output.Configure` | lib/fluent/plugin/out_splunk-http-eventcollector.rb:42-68 | the cursor starts at 0; the source formatter follows the `source` template; the indexer list is read from `server` |
| `SplunkOutput.Output.GetBaseUrl` | lib/fluent/plugin/out_splunk-http-eventcollector.rb:140-146 | returns the URL of `indexers[idx]` and sets `idx := (idx + 1) % n`, keeping `0 <= idx < n`; with no indexers it raises and leaves the cursor alone |
| `SplunkOutput.Output.ChunkToBuffers` | lib/fluent/plugin/out_splunk-http-eventcollector.rb:100-106 | the in-place pass builds keys in first-appearance order, the key set equal to that order, and for each key exactly that source's lines in chunk order |
| `SplunkOutput.Output.PostWithRetry` | lib/fluent/plugin/out_splunk-http-eventcollector.rb:116-136 | the `upto` loop with `break`, `next` and `raise` computes the retry outcome, sends the one request once per attempt, and sleeps one time fewer than it attempts (for a non-negative `post_retry_interval`; see "Left out") |
| `SplunkOutput.Output.Write` | lib/fluent/plugin/out_splunk-http-eventcollector.rb:108-138 | `write` groups the chunk, visits the groups in insertion order and stops at the first raise; its result and the new cursor are those of the reference pass over the chunk's groups |
| `SplunkOutput.TwoIndexerList` | lib/fluent/plugin/out_splunk-http-eventcollector.rb:63-64 | `server = "a:8088,b:8088"` configures the indexers `a:8088` and `b:8088`, in that order |
| `SplunkOutput.TwoTagGroups` | lib/fluent/plugin/out_splunk-http-eventcollector.rb:100-106 | under `{TAG}`, events tagged `app.log` then `db.log` form two one-line groups, in that order |
| `SplunkOutput.TwoGroupRun` | lib/fluent/plugin/out_splunk-http-eventcollector.rb:108-146 | two one-line groups, indexers `a:8088` and `b:8088`, a collector that always answers `200`: the first group goes to `a:8088`, the second to `b:8088`, both delivered, nothing raised, the cursor back at 0 |
| `SplunkOutput.TwoIndexerScenario` | lib/fluent/plugin/out_splunk-http-eventcollector.rb:108-146 | end to end under the default `{TAG}` template: a chunk with an `app.log` event then a `db.log` event, sent over those indexers to a collector that always answers `200`, posts the `app.log` line to `a:8088` and the `db.log` line to `b:8088`; both are delivered, nothing is raised, and the cursor is back at 0 |

## Behaviour worth knowing

- **User errors.** Only a code with a line starting with `40` is a user
  error (line 122), so `410` and `429` are retried like a `5xx`. Ruby's `^`
  also anchors after a newline; `Delivery.MatchesUserError` models that too.
- **Transport exceptions.** An exception from `@http.request` (line 117) is
  not rescued and ends `write` at once. In the model a `ConnectionError`
  reply fails the group on that attempt, with no retry.
- **Indexer list.** `split(',')` does not trim: `"a:8088, b:8088"` yields
  `" b:8088"`. Empty pieces in the middle are kept; trailing ones are
  dropped.
- **Empty indexer list.** A `server` made only of commas gives an empty
  list. Nothing notices until `get_baseurl` runs at the first group of a
  `write`: the `% 0` at line 143 raises `ZeroDivisionError`. The model has
  the `NoIndexer` error for this case.
- **Concurrency.** The cursor update at line 143 is not synchronised. The
  model treats the cursor as single-threaded object state.

## Left out

- `Strings.Sub`: does not model Ruby's backslash sequences (`\0`, `\&`, `\\`, `\1`) in the replacement. A tag holding a backslash is substituted literally in the model. In Ruby such a tag is read as a back-reference.
- `SplunkOutput.Output.Write`: does not model `URI(...)` parsing of the URL. An indexer that is not a valid host (one with a leading space, for example) makes the source raise `URI::InvalidURIError`. The model sends to the URL string as it is.
- `Net::HTTP::Persistent`, TLS verification (`verify`), the `Content-Type` and `User-Agent` override headers, and `start`/`shutdown` (lines 70-85) are transport and lifecycle. They are replaced by the reply oracle `Delivery.Server`.
- `SplunkOutput.Output.PostWithRetry`: does not model a negative `post_retry_interval`. Nothing validates the parameter (line 40), and `sleep` with a negative interval (line 129) raises `ArgumentError` at the first retry, ending `write` after one attempt. The model retries as if the interval were non-negative: it makes up to `post_retry_max` attempts and sleeps one time fewer.
- `Delivery.Post`: the same gap. Its contract and the lemmas about it (`PostRaisesOnlyWhenExhausted`, `AlwaysTransientExhausts`, `SuccessAfterRetries`) describe the source only for a non-negative `post_retry_interval`.
- `$log` calls are left out. The sleep between attempts is counted (`PostWithRetry` returns the count), but its `post_retry_interval` duration is not modelled.
- `to_json`, `time.to_s`, `to_msgpack` and `msgpack_each` are foreign serialisers. The model takes the JSON and time text as inputs and the chunk as already decoded `(tag, line)` entries. A chunk that fails to decode is therefore not modelled.
- `config_param` parsing and plugin registration (lines 27-40) are host plumbing. `SplunkOutput.Defaults` keeps the declared defaults. `host`, `index` and `sourcetype` are kept in `Config` but are never read by the code, so they play no part in the model.
- `configure` always installs a time formatter, so `format` always writes the `"<time>: "` prefix. `Events.TimePrefix` still models the `else` branch at line 91 for completeness.
- The `source` a group was keyed under is not sent with the request. The code uses it only for grouping, and so does the model.
