# Subscription-filter reconciler and Discord endpoint, in Dafny

This project models the two handlers of the repository that make decisions:

- **The subscription-filter reconciler** (`src/create_sub_filters/main.py`).
  It runs on a CloudTrail change notification about a Lambda function. It
  chooses *upsert* for `CreateFunction`, or for `TagResource` carrying the
  watched tag key. It chooses *remove* for `DeleteFunction`, or for
  `UntagResource` carrying the key. Otherwise it does nothing. It then
  applies the choice to the CloudWatch Logs subscription filter of that
  function's log group.
- **The Discord interaction endpoint** (`src/discord_bot/main.py`). It maps
  a request to a status code and a JSON body. It answers pings and the
  `hello` command. Every exception becomes a 500.

The log service is an immutable value. Log groups are a set, and filters
are a map from (log group, filter name) to (pattern, destination). Each
invocation is a pure function from the service before to the service
after, plus an `Outcome`. The source returns nothing and reports only
through log lines, so `Outcome` has one alternative per log line. Two more
alternatives cover "skipped, nothing logged" and "an exception escaped the
handler".

Decoded JSON is modelled field by field as `Absent | Null | Present(v)`.
This follows the code's Python semantics:

- `d["k"]` raises on a missing key; `d.get("k", default)` does not.
- A `null` fails later, when it is used as a dictionary or a string.

So a `null` `requestParameters` makes the handler raise, while a `null`
`eventName` is simply skipped.

Files:

- `pyjson.dfy`: JSON fields, scalars, Python exceptions, `Result`.
- `text.dfy`: `str.split` with one separator, its last segment, and a
  backwards-scanning method that computes that segment.
- `log_backend.dfy`: the describe / put / delete calls of the log service.
  Errors other than not-found come from a caller-supplied set of failing
  calls.
- `sub_filters.dfy`: configuration, routing, naming, the two paths, and
  the handler.
- `sub_filters_properties.dfy`, `sub_filters_scenarios.dfy`: routing,
  naming, idempotence, framing, commutation, and concrete cases.
- `discord_bot.dfy`, `discord_bot_properties.dfy`: the endpoint and its
  properties.

The model follows these details of the code:

- The routed event names are `CreateFunction`, `TagResource`,
  `DeleteFunction` and `UntagResource`.
- The tag value becomes the pattern verbatim. A tag value `"TIMEOUT"` with
  its quotes is stored with its quotes.
- The default pattern is `"ERROR"` including the double quotes.
- The existence check is a name *prefix* look-up. So an unrelated filter
  `ErrorSubscription-foo-bar` makes `foo` log "Updated".
- Create and update issue the identical put.
- On removal, a missing filter and a missing log group both log "Log group
  ... not found." (`LogGroupNotFound`).
- Failures carry no reason text.

## Model

| member | source | states |
|---|---|---|
| `Text.Split` | src/create_sub_filters/main.py:29 | `split(":")` yields at least one segment; no segment contains the separator; a single segment exactly when the string has no separator |
| `Text.SplitJoin` | src/create_sub_filters/main.py:29 | joining the segments of a split with the separator gives back the original string |
| `Text.LastSegmentAt` | src/create_sub_filters/main.py:29 | `split(":")[-1]` is the suffix that starts right after the last separator, or the whole string when there is none |
| `Text.LastSegmentAfter` | src/create_sub_filters/main.py:29 | a separator-free tail after a separator is exactly what `[-1]` returns |
| `Text.LastSegmentProperties` | src/create_sub_filters/main.py:29 | the fallback name never contains `:`, is a suffix of the ARN, and is either the whole ARN or preceded by `:` |
| `Text.FindLastSegment` | src/create_sub_filters/main.py:29 | scanning back from the end to the last `:` computes the same segment as `split(":")[-1]` |
| `LogBackend.Describe` | src/create_sub_filters/main.py:51-53 | the look-up returns exactly the filters on the group whose names begin with the given prefix; it is not-found when the group is missing |
| `LogBackend.Put` | src/create_sub_filters/main.py:56-61 | a put on an existing group maps the key to the new filter and changes nothing else; a failed put changes nothing |
| `LogBackend.Delete` | src/create_sub_filters/main.py:87-89 | a delete removes exactly that key; a missing group or filter is not-found; a failed call changes nothing |
| `SubFilters.ResolveFunctionName` | src/create_sub_filters/main.py:26-30 | a truthy `functionName` is used as is; otherwise the text after the last `:` of `resourceArn`: a suffix of the ARN with no `:`, either the whole ARN or preceded by `:`; `""` when the ARN is missing; a `null` ARN raises |
| `SubFilters.LogGroupName` | src/create_sub_filters/main.py:46 | the log group is `/aws/lambda/` followed by the function name, which can be read back from it |
| `SubFilters.FilterName` | src/create_sub_filters/main.py:47 | the filter name is the configured prefix and `-` followed by the function name, which can be read back from it |
| `SubFilters.Route` | src/create_sub_filters/main.py:22-33 | routing succeeds only when `detail` and `eventName` can be read; a `null` event name routes nowhere; a routed action names the function resolved from the parameters |
| `SubFilters.Decide` | src/create_sub_filters/main.py:34-42 | upsert only for `CreateFunction` or `TagResource`, remove only for `DeleteFunction` or `UntagResource`, both on the resolved name; a `TagResource` upsert carries the watched key and uses its value; no event name means no action |
| `SubFilters.UpsertFilter` | src/create_sub_filters/main.py:45-79 | on success the key holds (pattern, destination) and every other filter and the groups are unchanged; "Updated" only when a filter on the group had the name as a prefix, "Created" only when none did; a missing group or a failing call changes nothing |
| `SubFilters.RemoveFilter` | src/create_sub_filters/main.py:82-96 | removal succeeds exactly when the filter exists and the call does not fail; only that key can disappear; otherwise nothing changes |
| `SubFilters.Handle` | src/create_sub_filters/main.py:21-42 | an exception escapes only before any backend call, and a skipped event leaves the service unchanged |
| `SubFilterProperties.RouteTotalOnWellFormed` | src/create_sub_filters/main.py:22-42 | routing raises exactly when some lookup on the event fails (missing detail or event name, `null` parameters, `null` ARN without a name, `null` tags when they are read) |
| `SubFilterProperties.RouteDecision` | src/create_sub_filters/main.py:34-42 | upsert iff `CreateFunction` or `TagResource` with the key; remove iff not upsert and (`DeleteFunction` or `UntagResource` with the key); otherwise nothing; both act on the resolved name |
| `SubFilterProperties.UpsertPattern` | src/create_sub_filters/main.py:37 | the upsert pattern is the tag value when the tags carry the key, else the configured default; on `TagResource` it is always the tag value |
| `SubFilterProperties.NamingInjective` | src/create_sub_filters/main.py:83-84 | the remove path derives the same log group and filter name as the upsert path; distinct function names give distinct groups, filter names and keys |
| `SubFilterProperties.UpsertEffect` | src/create_sub_filters/main.py:49-72 | the whole effect of an upsert is one put of (pattern, destination) under the function's key, or no change |
| `SubFilterProperties.RemoveEffect` | src/create_sub_filters/main.py:86-89 | the whole effect of a removal is dropping the function's key, or no change |
| `SubFilterProperties.UpsertIdempotent` | src/create_sub_filters/main.py:54-72 | a repeated upsert leaves the service as one did, and the second reports "Updated" when the first wrote |
| `SubFilterProperties.UpsertLastWriteWins` | src/create_sub_filters/main.py:56-61 | two upserts of one function leave the service as the second alone would |
| `SubFilterProperties.RemoveIdempotent` | src/create_sub_filters/main.py:86-96 | a repeated removal leaves the service as one did, and the second reports not-found |
| `SubFilterProperties.RemoveUndoesUpsert` | src/create_sub_filters/main.py:82-89 | a removal after a successful upsert removes exactly that filter, whatever was there before |
| `SubFilterProperties.UpsertsCommute` | src/create_sub_filters/main.py:45-61 | upserts for different functions give the same service in either order |
| `SubFilterProperties.UpsertRemoveCommute` | src/create_sub_filters/main.py:82-89 | an upsert for one function and a removal for another give the same service in either order |
| `SubFilterProperties.HandleFrame` | src/create_sub_filters/main.py:34-42 | an invocation changes no filter other than the routed function's, and never the log groups |
| `SubFilterProperties.HandleIdempotent` | src/create_sub_filters/main.py:21-42 | handling the same event twice leaves the service as handling it once |
| `SubFilterProperties.HandleRaisesOnlyOnMalformed` | src/create_sub_filters/main.py:76-79 | the handler raises exactly for events that cannot be read, and then leaves the service untouched; backend errors never escape |
| `SubFilterProperties.SkippedMakesNoCall` | src/create_sub_filters/main.py:34-42 | an event that routes nowhere is skipped, and the result does not depend on which calls would fail |
| `SubFilterProperties.HandlePreservesValid` | src/create_sub_filters/main.py:56-61 | every filter stays attached to an existing log group |
| `SubFilterScenarios.PrefixMatchReportsUpdate` | src/create_sub_filters/main.py:51-64 | a filter `ErrorSubscription-foo-bar` makes the upsert for `foo` log "Updated" while creating a second filter |
| `SubFilterScenarios.TagResourceByArn` | src/create_sub_filters/main.py:26-38 | with only an ARN, the name is its last segment, and `TagResource` stores the tag value `"TIMEOUT"` with its quotes |
| `SubFilterScenarios.ArnFallback` | src/create_sub_filters/main.py:29 | `arn:aws:lambda:us-west-2:123:function:billing-worker` resolves to `billing-worker` |
| `SubFilterScenarios.CreateFunctionUsesQuotedDefault` | src/create_sub_filters/main.py:17 | an untagged `CreateFunction` stores the default pattern `"ERROR"`, quotes included, for any function name |
| `SubFilterScenarios.UnknownEventSkipped` | src/create_sub_filters/main.py:34-42 | `UpdateFunctionCode` is skipped whatever its tags, even `null` ones |
| `SubFilterScenarios.TagWithoutKeySkipped` | src/create_sub_filters/main.py:34-36 | `TagResource` without the watched key is skipped |
| `SubFilterScenarios.NullParametersRaise` | src/create_sub_filters/main.py:24-26 | a `null` `requestParameters` raises `AttributeError`, even for an event that would be skipped |
| `DiscordBot.Decode` | src/discord_bot/main.py:17 | the body decodes exactly when it is present and valid JSON |
| `DiscordBot.CheckSignature` | src/discord_bot/main.py:21-39 | the step succeeds exactly when both headers are present and verification does not raise; a bad signature is a verdict, not an exception |
| `DiscordBot.Dispatch` | src/discord_bot/main.py:42-58 | dispatch answers 200 or 400 with a JSON body; the reply is `{"type": 1}` exactly for type 1; it raises only for a non-object, a missing type, or a command |
| `DiscordBot.HandleCommand` | src/discord_bot/main.py:68-92 | a command answer is 200 with the greeting or 400 "Unhandled command"; nothing else is returned |
| `DiscordBot.Handle` | src/discord_bot/main.py:15-65 | the status is 200, 400 or 500, always with a JSON body; 500 exactly for an error body; 200 exactly for the ping or greeting reply |
| `DiscordBotProperties.PingAnswered` | src/discord_bot/main.py:42-48 | type 1 is answered with 200 and `{"type": 1}` |
| `DiscordBotProperties.CommandForwarded` | src/discord_bot/main.py:49-51 | type 2 is answered with exactly the command handler's response, or 500 when it raises |
| `DiscordBotProperties.OtherTypeRejected` | src/discord_bot/main.py:52-58 | any other type, `null` included, is answered with 400 "Unhandled request type" |
| `DiscordBotProperties.HelloAnswered` | src/discord_bot/main.py:72-78 | `hello` is answered with 200 and the message "Hello, YVR DevOps!" |
| `DiscordBotProperties.HighFiveFails` | src/discord_bot/main.py:79-80 | `hifive` raises `AttributeError` at the logging call, so the answer is 500 |
| `DiscordBotProperties.OtherCommandRejected` | src/discord_bot/main.py:86-92 | any other readable command name is answered with 400 "Unhandled command" |
| `DiscordBotProperties.ForgedSignatureIgnored` | src/discord_bot/main.py:35-39 | when verification does not raise, its verdict does not change the response |
| `DiscordBotProperties.ServerErrorExactly` | src/discord_bot/main.py:59-65 | the answer is 500 exactly when decoding, the headers, verification or dispatch raises |
| `DiscordBotProperties.MalformedBodyFirst` | src/discord_bot/main.py:16-17 | an undecodable body is answered with a 500 `ValueError`, whatever the headers |
| `DiscordBotProperties.MissingHeadersFail` | src/discord_bot/main.py:23-24 | a missing signature header gives a 500 `KeyError`, even for a ping |

## Left out

- `src/issue_creator/main.py` is not part of this model. It consists of log-payload decoding, Lambda, HTTP, LLM, SSM and GitHub calls, with no decision logic of its own.
- `scripts/discord_register_commands.py` and `src/example_lambda/main.py` are not part of this model. One is a one-shot registration request, the other a demonstration handler.
- Ed25519 verification (RFC 8032) and the `json.dumps` canonicalisation it signs are an opaque `Verifier` parameter. It returns valid, forged, or the exception it raised.
- JSON encoding of response bodies is left out. Bodies are the `Reply` datatype, and the text of a caught exception is reduced to its class.
- The reply of the `hifive` branch is left out, since no execution reaches it.
- Environment reads are left out. The reconciler's settings are a `Config` value, with the source's defaults in `DefaultConfig`. A missing `DESTINATION_ARN`, which fails at module load, is not modelled.
- boto3 clients and log messages are left out. Log lines are the `Outcome` values, without their text.
- Service errors other than not-found are inputs rather than decisions of the model. Examples are throttling, permissions and the per-group filter limit. The caller passes the set of calls that fail.
- Pagination and the order of `describe_subscription_filters` results are left out. Only whether a match exists matters to the handler.
- Changes to the service between the describe and the put, and concurrent invocations, are left out. Each invocation is one sequential step.
- Non-string values in `functionName`, `resourceArn` and the tags of a notification are left out. The model reads these fields as strings.
