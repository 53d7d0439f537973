# jclient balancing core, modelled in Dafny

This project models the core of an asynchronous HTTP client library with client-side load balancing:

- **Servers** (`server.dfy`): an upstream server's load and health counters.
  - The historic "stat" counter and the live "current" counter are packed into one 64-bit word.
  - `acquire`, `release` and `rescaleStatsRequests` update that word.
  - `getStatLoad` returns a server's load.
  - A slow-start window makes a new server look infinitely loaded until the window ends.
  - When the window ends, the server's stat counter is seeded from the most loaded server.
- **RetryPolicies** (`retry_policy.dfy`): the retry rule table.
  - The table is parsed from a comma-separated configuration string.
  - Its `isRetriable` and `isServerError` decisions are modelled.
- **UpstreamManagers** (`upstream_manager.dfy`): the registry that maps a service name to its group of per-profile upstreams.
  - `updateUpstream` writes the registry.
  - `getUpstream` looks up a service name after stripping any URL scheme.
- **ExternalRequestors** (`external_url_requestor.dfy`): the request balancer for a fixed external URL.
  - Its monitoring hooks are modelled: the events each monitoring sink receives, and the first status code remembered for retry metrics.
- **ResultOrErrorProcessors** (`result_or_error_processor.dfy`): classification of a response into an expected value, a parsed error or neither.
  - `OK_STATUS` and the two converters are parameters.
  - The debug listener calls are recorded.
- **OperationSelectors** (`operation_selector.dfy`): the choice between a default value and an HTTP error status when a result-or-error holds an error.
- **MediaTypes** (`media_types.dfy`): the `charset` parameter helpers and the media-type constants.
- **StatsDMetricConsumers** (`statsd_metric_consumer.dfy`): the metric-name builders, and the guards of `accept` and `disconnect`.

Two shared modules model the Java semantics the rest relies on:

- `JavaInts` (`java_ints.dfy`) models `int`/`long` wrap-around, the narrowing `(int)` cast, and `(int)`/`(long)` casts of a `double` (truncating and saturating).
- `JavaStrings` (`java_strings.dfy`) models `indexOf`, `replace`, `String.join`, ASCII `toLowerCase`, and integer printing and parsing.

Collaborators whose source is not part of this model are parameters:

- `Upstream.UpstreamKey.ofComplexName`, the configuration service and the server service (function-valued constants).
- `HttpClient.OK_STATUS`.
- `Uri.toString`.
- The response converters.
- The status constants of `HttpStatuses` and `ResponseStatusMessages`, which are constants without a value.

Integers are mathematical and every Java width is written out.

## Model

| member | source | states |
|---|---|---|
| Servers.PackRequests | balancing/src/main/java/ru/hh/jclient/common/balancing/Server.java:241-248 | the packed word is a non-negative `long`; for non-negative counters it is exactly stat·2^32 + current (the overflow branch yields `Long.MAX_VALUE`) |
| Servers.UnpackStatRequests | balancing/src/main/java/ru/hh/jclient/common/balancing/Server.java:250-252 | the high half is an `int`, non-negative exactly when the word is |
| Servers.UnpackCurrentRequests | balancing/src/main/java/ru/hh/jclient/common/balancing/Server.java:254-256 | the low half is an `int`; together with the high half it recomposes the word, a negative low half standing for its value plus 2^32 |
| Servers.PackRoundTrip | balancing/src/main/java/ru/hh/jclient/common/balancing/Server.java:241-256 | packing two non-negative `int`s never overflows and unpacking returns both |
| Servers.Repack | balancing/src/main/java/ru/hh/jclient/common/balancing/Server.java:241-256 | a word with non-negative counters is the packing of its own counters |
| Servers.AcquiredValue | balancing/src/main/java/ru/hh/jclient/common/balancing/Server.java:66-68 | for non-negative counters, each half grows by one in `int` arithmetic with no carry from the low half into the high half |
| Servers.AcquireIncrementsBoth | balancing/src/main/java/ru/hh/jclient/common/balancing/Server.java:66-68 | below the `int` limit, adding the packed (1,1) raises stat and current by one each and keeps them non-negative |
| Servers.AcquireWrapsCurrentAtLimit | balancing/src/main/java/ru/hh/jclient/common/balancing/Server.java:66-68 | at current = `Integer.MAX_VALUE` the live count wraps to `Integer.MIN_VALUE` while stat still grows by one |
| Servers.ReleasedValue | balancing/src/main/java/ru/hh/jclient/common/balancing/Server.java:72-80 | current drops by one floored at 0, so a wrapped negative live count is reset to 0; stat drops by one floored at 0 only on a retry; the counters end non-negative whenever stat was non-negative or the release is a retry; a negative stat without a retry takes the overflow branch and gives `Long.MAX_VALUE` |
| Servers.FailsAfter | balancing/src/main/java/ru/hh/jclient/common/balancing/Server.java:81-87 | an error raises the failure count unless it is saturated at `Integer.MAX_VALUE`; a success clears it |
| Servers.FailsCountsConsecutiveErrors | balancing/src/main/java/ru/hh/jclient/common/balancing/Server.java:81-87 | from zero, after any run of releases `fails` equals the number of errors since the last success, saturated at `Integer.MAX_VALUE` |
| Servers.RescaledValue | balancing/src/main/java/ru/hh/jclient/common/balancing/Server.java:103-112 | below the limit the word is unchanged; otherwise stat is halved and current kept, counters stay non-negative |
| Servers.RescaleChangesIffNeeded | balancing/src/main/java/ru/hh/jclient/common/balancing/Server.java:103-112 | a rescale changes the word exactly when stat has reached the limit and is positive |
| Servers.RepeatedRescaleStaysNonNegative | balancing/src/main/java/ru/hh/jclient/common/balancing/Server.java:103-112 | any number of rescales keeps counters non-negative, never changes current and never raises stat |
| Servers.Load | balancing/src/main/java/ru/hh/jclient/common/balancing/Server.java:206-209 | load is non-negative and load × weight is stat + current when the `int` sum does not wrap |
| Servers.LoadMonotone | balancing/src/main/java/ru/hh/jclient/common/balancing/Server.java:206-209 | more requests or less weight never gives a lower load |
| Servers.SeededValue | balancing/src/main/java/ru/hh/jclient/common/balancing/Server.java:178-185 | for a non-negative live count and product, the seeded stat is ⌊maxLoad × weight⌋, saturated at `Integer.MAX_VALUE` as the `(int)` cast gives; current is kept and the counters are non-negative |
| Servers.MaxRealStatLoad | balancing/src/main/java/ru/hh/jclient/common/balancing/Server.java:202-204 | the result bounds every server's load, is attained by one of them, and is 0 for no servers |
| Servers.Server.constructor | balancing/src/main/java/ru/hh/jclient/common/balancing/Server.java:50-60 | address, weight and datacenter as given; all counters zero; no slow start armed |
| Servers.Server.StatsRequests | balancing/src/main/java/ru/hh/jclient/common/balancing/Server.java:194-196 | the stat counter is an `int`, non-negative exactly when the word is |
| Servers.Server.CurrentRequests | balancing/src/main/java/ru/hh/jclient/common/balancing/Server.java:190-192 | the live count is an `int` that recomposes the word with the stat counter |
| Servers.Server.CalculateLoad | balancing/src/main/java/ru/hh/jclient/common/balancing/Server.java:206-209 | for non-negative counters whose sum fits an `int`, the load is non-negative and load × weight is stat + current |
| Servers.Server.NeedsRescale | balancing/src/main/java/ru/hh/jclient/common/balancing/Server.java:198-200 | when no rescale is needed, `rescaleStatsRequests` leaves the word alone; when one is needed and stat is positive, it changes the word |
| Servers.Server.Equals | balancing/src/main/java/ru/hh/jclient/common/balancing/Server.java:287-297 | two servers are equal exactly when they have the same address and the same (possibly null) datacenter |
| Servers.Server.Acquire | balancing/src/main/java/ru/hh/jclient/common/balancing/Server.java:66-68 | the word becomes the wrapped sum with packed (1,1); below the limit both counters rise by one |
| Servers.Server.Release | balancing/src/main/java/ru/hh/jclient/common/balancing/Server.java:70-89 | the word becomes `ReleasedValue`; `fails` goes up by one saturating on an error and resets to 0 on success |
| Servers.Server.RescaleStatsRequests | balancing/src/main/java/ru/hh/jclient/common/balancing/Server.java:103-112 | the word becomes `RescaledValue`; below the limit it is unchanged |
| Servers.Server.SetStatLimit | balancing/src/main/java/ru/hh/jclient/common/balancing/Server.java:219-221 | the limit becomes the argument |
| Servers.Server.SetSlowStartEndTimeIfNeeded | balancing/src/main/java/ru/hh/jclient/common/balancing/Server.java:223-231 | only for positive seconds and an unarmed window: slow start on, end = now + jitter (truncated), so now ≤ end < now + seconds·1000; otherwise nothing changes |
| Servers.Server.GetStatLoad | balancing/src/main/java/ru/hh/jclient/common/balancing/Server.java:162-188 | infinite and nothing changed inside an armed window; otherwise slow start is off, statistics are marked filled, the first time the stat is seeded from the highest load and the end time set to -1, and the load is returned |
| Servers.EqualsIsEquivalence | balancing/src/main/java/ru/hh/jclient/common/balancing/Server.java:287-297 | `equals` (same object, or same address and datacenter) is reflexive, symmetric and transitive |
| Servers.AddressFromHostPort | balancing/src/main/java/ru/hh/jclient/common/balancing/Server.java:62-64 | the address starts with the host and a colon |
| Servers.AddressFromHostPortKeepsPort | balancing/src/main/java/ru/hh/jclient/common/balancing/Server.java:62-64 | what follows the host and colon is a decimal integer that parses back to the port |
| RetryPolicies.DefaultRules | client/src/main/java/ru/hh/jclient/common/balancing/RetryPolicy.java:25-28 | a fresh table holds REQUEST_TIMEOUT and SERVICE_UNAVAILABLE, both idempotent-only |
| RetryPolicies.SplitOnComma | client/src/main/java/ru/hh/jclient/common/balancing/RetryPolicy.java:31 | splitting yields at least one piece and no piece holds a comma |
| RetryPolicies.SplitOnCommaJoins | client/src/main/java/ru/hh/jclient/common/balancing/RetryPolicy.java:31 | joining the pieces with commas gives the configuration string back |
| RetryPolicies.ParseToken | client/src/main/java/ru/hh/jclient/common/balancing/RetryPolicy.java:32-48 | `timeout` maps to (REQUEST_TIMEOUT, false), `http_DDD` to (DDD, false), `non_idempotent_DDD` to (DDD, true), anything else to nothing; a parsed code other than REQUEST_TIMEOUT is below 1000 |
| RetryPolicies.MalformedTokensIgnored | client/src/main/java/ru/hh/jclient/common/balancing/RetryPolicy.java:19-20 | whole-token matching: padded, short, long, non-digit, wrongly prefixed and empty tokens map to nothing; `http_503` and `non_idempotent_007` parse |
| RetryPolicies.ParseTokensSpec | client/src/main/java/ru/hh/jclient/common/balancing/RetryPolicy.java:32-49 | the mapped-and-filtered rules are exactly the mappings of the tokens that have one |
| RetryPolicies.CollectSpec | client/src/main/java/ru/hh/jclient/common/balancing/RetryPolicy.java:50 | the collected table holds exactly the rules' codes, and a code's flag is the OR of its rules' flags |
| RetryPolicies.ParseTokensCollect | client/src/main/java/ru/hh/jclient/common/balancing/RetryPolicy.java:31-50 | a code is in the table exactly when some token maps to it; its flag is set exactly when some `non_idempotent_` token names it |
| RetryPolicies.ParseRulesSpec | client/src/main/java/ru/hh/jclient/common/balancing/RetryPolicy.java:30-51 | the same, stated for the configuration string; the old table does not survive |
| RetryPolicies.IsRetriable | client/src/main/java/ru/hh/jclient/common/balancing/RetryPolicy.java:53-66 | a non-idempotent request is retried only on a connect error or under a rule whose flag allows it |
| RetryPolicies.IsServerError | client/src/main/java/ru/hh/jclient/common/balancing/RetryPolicy.java:68-76 | a response that is not a server error is not retried, even for an idempotent request |
| RetryPolicies.RetriableCases | client/src/main/java/ru/hh/jclient/common/balancing/RetryPolicy.java:53-66 | a connect error is always retriable; otherwise retriable exactly when the code has a rule and the rule allows non-idempotent retries or the request is idempotent |
| RetryPolicies.RetriableIsServerError | client/src/main/java/ru/hh/jclient/common/balancing/RetryPolicy.java:53-76 | every retriable response is a server error, and a server error is exactly what is retriable for an idempotent request |
| RetryPolicies.DefaultRulesRetry | client/src/main/java/ru/hh/jclient/common/balancing/RetryPolicy.java:53-66 | under the default rules only REQUEST_TIMEOUT and SERVICE_UNAVAILABLE are retried, and only for idempotent requests |
| RetryPolicies.RetryPolicy.constructor | client/src/main/java/ru/hh/jclient/common/balancing/RetryPolicy.java:25-28 | the table starts as the default rules |
| RetryPolicies.RetryPolicy.Update | client/src/main/java/ru/hh/jclient/common/balancing/RetryPolicy.java:30-51 | the map/filter loop and the merge loop replace the table with the rules parsed from the string |
| RetryPolicies.RetryPolicy.GetRules | client/src/main/java/ru/hh/jclient/common/balancing/RetryPolicy.java:78-80 | the copy has the table's codes and flags |
| UpstreamManagers.GetNameWithoutScheme | balancing/src/main/java/ru/hh/jclient/common/balancing/BalancingUpstreamManager.java:94-97 | the result is a suffix of the host; the host itself when it has no "://"; otherwise what follows the first "://" |
| UpstreamManagers.SchemeIsStripped | balancing/src/main/java/ru/hh/jclient/common/balancing/BalancingUpstreamManager.java:94-97 | `http://` or `https://` in front of a scheme-less name is removed, and a scheme-less name is kept |
| UpstreamManagers.NormalizeDatacenter | balancing/src/main/java/ru/hh/jclient/common/balancing/BalancingUpstreamManager.java:48 | the datacenter is stored lower-cased, null staying null |
| UpstreamManagers.BalancingUpstreamManager.CreateUpstream | balancing/src/main/java/ru/hh/jclient/common/balancing/BalancingUpstreamManager.java:79-81 | the upstream gets the key, config and servers given and the manager's datacenter and cross-DC flag |
| UpstreamManagers.BalancingUpstreamManager.constructor | balancing/src/main/java/ru/hh/jclient/common/balancing/BalancingUpstreamManager.java:40-55 | the datacenter is normalised and the registry is the result of updating every listed name in order |
| UpstreamManagers.BalancingUpstreamManager.UpdateUpstream | balancing/src/main/java/ru/hh/jclient/common/balancing/BalancingUpstreamManager.java:63-77 | the registry becomes the one-name upsert of the old registry |
| UpstreamManagers.BalancingUpstreamManager.UpsertedChangesOneEntry | balancing/src/main/java/ru/hh/jclient/common/balancing/BalancingUpstreamManager.java:69-76 | only the key's service name is written: a new group if absent, `addOrUpdate` of the existing group with the key's profile otherwise |
| UpstreamManagers.BalancingUpstreamManager.UpsertedAllKeys | balancing/src/main/java/ru/hh/jclient/common/balancing/BalancingUpstreamManager.java:54 | after the constructor's loop a service has a group exactly when some listed name has that service |
| UpstreamManagers.BalancingUpstreamManager.GetUpstream | balancing/src/main/java/ru/hh/jclient/common/balancing/BalancingUpstreamManager.java:84-87 | null exactly when the scheme-less name has no group; otherwise that group asked for the profile |
| UpstreamManagers.GetUpstreamIgnoresScheme | balancing/src/main/java/ru/hh/jclient/common/balancing/BalancingUpstreamManager.java:84-97 | looking up `http://x` or `https://x` is the same as looking up `x` |
| UpstreamManagers.LookupAfterUpdate | balancing/src/main/java/ru/hh/jclient/common/balancing/BalancingUpstreamManager.java:63-87 | after `updateUpstream`, a lookup of its service name finds the group just written |
| ExternalRequestors.ExternalUrlRequestor.constructor | balancing/src/main/java/ru/hh/jclient/common/balancing/ExternalUrlRequestor.java:22-31 | the name is the upstream's (null without one); dc is the upstream's datacenter, or "externalRequest" without an upstream or a datacenter; first status 0 |
| ExternalRequestors.ExternalUrlRequestor.MonitoringName | balancing/src/main/java/ru/hh/jclient/common/balancing/ExternalUrlRequestor.java:53 | the upstream name when there is one, the server address otherwise |
| ExternalRequestors.ServerAddressUsesSchemeHostPort | balancing/src/main/java/ru/hh/jclient/common/balancing/ExternalUrlRequestor.java:49-52 | requests differing only in user info, path or query report the same server address |
| ExternalRequestors.ExternalUrlRequestor.GetResultOrContext | balancing/src/main/java/ru/hh/jclient/common/balancing/ExternalUrlRequestor.java:33-36 | the request unchanged, with the empty context |
| ExternalRequestors.ExternalUrlRequestor.ReportOf | balancing/src/main/java/ru/hh/jclient/common/balancing/ExternalUrlRequestor.java:46-53 | every sink is told the monitoring name, the datacenter, the scheme-host-port address, the status code, the time to last byte, the tries used, the retry flag and the first status code |
| ExternalRequestors.ExternalUrlRequestor.OnResponse | balancing/src/main/java/ru/hh/jclient/common/balancing/ExternalUrlRequestor.java:43-62 | the sinks' log grows by the events of every sink in turn for this response |
| ExternalRequestors.ExternalUrlRequestor.Notify | balancing/src/main/java/ru/hh/jclient/common/balancing/ExternalUrlRequestor.java:55-60 | one sink receives `countRequest` (marked final when no retry follows), then `countRequestTime`, then `countRetry` only after the first try |
| ExternalRequestors.EachSinkGetsItsEvents | balancing/src/main/java/ru/hh/jclient/common/balancing/ExternalUrlRequestor.java:44-61 | each sink receives exactly one `countRequest` (last attempt = no retry follows), one `countRequestTime`, and a `countRetry` with the first status code only when more than one try was used; other sinks receive nothing |
| ExternalRequestors.ExternalUrlRequestor.OnRetry | balancing/src/main/java/ru/hh/jclient/common/balancing/ExternalUrlRequestor.java:69-74 | the first status code is written only after the first try |
| ExternalRequestors.ExternalUrlRequestor.CheckRetry | balancing/src/main/java/ru/hh/jclient/common/balancing/ExternalUrlRequestor.java:64-67 | the default rules retry a non-idempotent request only on a connect error |
| ExternalRequestors.FirstStatusIsKept | balancing/src/main/java/ru/hh/jclient/common/balancing/ExternalUrlRequestor.java:69-74 | once the retry after try 1 stored its status, later retries never overwrite it |
| ExternalRequestors.CheckRetryUsesDefaultRules | balancing/src/main/java/ru/hh/jclient/common/balancing/ExternalUrlRequestor.java:64-67 | retry exactly on a connect error, or on REQUEST_TIMEOUT/SERVICE_UNAVAILABLE for idempotent requests |
| ResultOrErrorProcessors.ResultOrErrorProcessor.constructor | client/src/main/java/ru/hh/jclient/common/ResultOrErrorProcessor.java:16-21 | error statuses start as "not OK_STATUS" |
| ResultOrErrorProcessors.DefaultErrorStatusIsNotOk | client/src/main/java/ru/hh/jclient/common/ResultOrErrorProcessor.java:16 | by default a status is an error status exactly when it is not an OK status |
| ResultOrErrorProcessors.ResultOrErrorProcessor.ForStatuses | client/src/main/java/ru/hh/jclient/common/ResultOrErrorProcessor.java:37-43 | IllegalArgumentException exactly when some code is an OK status, leaving the error statuses alone; otherwise they become exactly the set |
| ResultOrErrorProcessors.ResultOrErrorProcessor.ForStatus | client/src/main/java/ru/hh/jclient/common/ResultOrErrorProcessor.java:28-30 | the same for the one-element set |
| ResultOrErrorProcessors.ErrorStatusNeverOk | client/src/main/java/ru/hh/jclient/common/ResultOrErrorProcessor.java:37-43 | whatever `forStatus` accepted, no OK status is an error status |
| ResultOrErrorProcessors.ParseError | client/src/main/java/ru/hh/jclient/common/ResultOrErrorProcessor.java:112-117 | the error converter runs exactly for an error status that is not a mapped transport error; otherwise no error |
| ResultOrErrorProcessors.ResultOrErrorProcessor.WrapResponseAndError | client/src/main/java/ru/hh/jclient/common/ResultOrErrorProcessor.java:81-110 | returns the wrapper or the exception `Wrap` gives and appends the debug calls `WrapDebugEvents` gives |
| ResultOrErrorProcessors.Wrap | client/src/main/java/ru/hh/jclient/common/ResultOrErrorProcessor.java:81-110 | a wrapper always carries the response it was built from; the only exceptions that escape are a `ClientResponseException` and a `ResponseConverterException` |
| ResultOrErrorProcessors.WrapDebugEvents | client/src/main/java/ru/hh/jclient/common/ResultOrErrorProcessor.java:81-110 | at most two debug calls, the last and only the last of them `onProcessingFinished` |
| ResultOrErrorProcessors.OkResponseYieldsValue | client/src/main/java/ru/hh/jclient/common/ResultOrErrorProcessor.java:85-90 | an OK response gives the converted value with no error, or the converter's exception (wrapped unless it is a `ClientResponseException`) |
| ResultOrErrorProcessors.NonOkResponseYieldsError | client/src/main/java/ru/hh/jclient/common/ResultOrErrorProcessor.java:91-96 | a non-OK response gives no value; the error is parsed only for an error status without a mapped transport error, and is empty otherwise |
| ResultOrErrorProcessors.NeverBothValueAndError | client/src/main/java/ru/hh/jclient/common/ResultOrErrorProcessor.java:81-97 | value and error are never both present; a value implies an OK status; an error implies a non-OK error status and no mapped transport error |
| ResultOrErrorProcessors.DebugEventsMatchOutcome | client/src/main/java/ru/hh/jclient/common/ResultOrErrorProcessor.java:99-109 | processing always ends with `onProcessingFinished`; `onConverterProblem` is signalled exactly when a `ResponseConverterException` is thrown; a success reports its conversion once |
| ResultOrErrorProcessors.HideResponse | client/src/main/java/ru/hh/jclient/common/ResultOrErrorProcessor.java:77-79 | value and error kept, the response replaced by its status code |
| OperationSelectors.SetDefault | client-errors/src/main/java/ru/hh/jclient/errors/impl/check/ApplyResultOrErrorOperationSelector.java:31-33 | no code, the given default, selector fields kept |
| OperationSelectors.SetDefaultFrom | client-errors/src/main/java/ru/hh/jclient/errors/impl/check/ApplyResultOrErrorOperationSelector.java:41-43 | the same as `setDefault` of the supplier's value, taken once |
| OperationSelectors.ThrowWithCode | client-errors/src/main/java/ru/hh/jclient/errors/impl/check/ApplyResultOrErrorOperationSelector.java:45-47 | the given code, no default, selector fields kept |
| OperationSelectors.ThrowBadGateway | client-errors/src/main/java/ru/hh/jclient/errors/impl/check/ApplyResultOrErrorOperationSelector.java:49-51 | code 502, no default |
| OperationSelectors.ThrowGatewayTimeout | client-errors/src/main/java/ru/hh/jclient/errors/impl/check/ApplyResultOrErrorOperationSelector.java:53-55 | code 504, no default |
| OperationSelectors.ThrowInternalServerError | client-errors/src/main/java/ru/hh/jclient/errors/impl/check/ApplyResultOrErrorOperationSelector.java:57-59 | code 500, no default |
| OperationSelectors.ThrowConflict | client-errors/src/main/java/ru/hh/jclient/errors/impl/check/ApplyResultOrErrorOperationSelector.java:61-63 | code 409, no default |
| OperationSelectors.ThrowForbidden | client-errors/src/main/java/ru/hh/jclient/errors/impl/check/ApplyResultOrErrorOperationSelector.java:65-67 | code 403, no default |
| OperationSelectors.ThrowNotFound | client-errors/src/main/java/ru/hh/jclient/errors/impl/check/ApplyResultOrErrorOperationSelector.java:69-71 | code 404, no default |
| OperationSelectors.ThrowBadRequest | client-errors/src/main/java/ru/hh/jclient/errors/impl/check/ApplyResultOrErrorOperationSelector.java:73-75 | code 400, no default |
| OperationSelectors.ProxyStatusCode | client-errors/src/main/java/ru/hh/jclient/errors/impl/check/ApplyResultOrErrorOperationSelector.java:81-83 | neither code nor default, selector fields kept |
| OperationSelectors.OnlySetDefaultGivesDefault | client-errors/src/main/java/ru/hh/jclient/errors/impl/check/ApplyResultOrErrorOperationSelector.java:31-83 | of the ten choices only the two `setDefault`s set a default, which is the value asked for; only the seven `throwX`s fix a code; `proxyStatusCode` fixes neither; all keep the selector's fields |
| MediaTypes.Of | client/src/main/java/ru/hh/jclient/common/util/MediaTypes.java:31-32 | the two-argument media type has no parameters |
| MediaTypes.AddCharset | client/src/main/java/ru/hh/jclient/common/util/MediaTypes.java:16-18 | type and subtype kept, parameters exactly `{charset: c}` |
| MediaTypes.AddUtf8Charset | client/src/main/java/ru/hh/jclient/common/util/MediaTypes.java:12-14 | the same as adding charset "UTF-8" |
| MediaTypes.GetCharset | client/src/main/java/ru/hh/jclient/common/util/MediaTypes.java:20-22 | present exactly when the type has a `charset` parameter, and then its value |
| MediaTypes.CharsetRoundTrip | client/src/main/java/ru/hh/jclient/common/util/MediaTypes.java:16-22 | reading the charset just added gives it back |
| MediaTypes.AddCharsetOverrides | client/src/main/java/ru/hh/jclient/common/util/MediaTypes.java:16-18 | a second charset replaces the first; re-adding the only parameter changes nothing |
| MediaTypes.ConstantCharsets | client/src/main/java/ru/hh/jclient/common/util/MediaTypes.java:24-32 | the text, XML and JSON constants carry UTF-8 with their type and subtype; the protobuf ones carry no charset |
| StatsDMetricConsumers.BuildNameTag | client-metrics/src/main/java/ru/hh/jclient/common/metrics/StatsDMetricConsumer.java:36-38 | "clientName_is_" followed by the name with every '.' turned into '-' |
| StatsDMetricConsumers.NameTagHasNoDot | client-metrics/src/main/java/ru/hh/jclient/common/metrics/StatsDMetricConsumer.java:17-38 | the tag never contains '.', and a dot-free name is kept verbatim |
| StatsDMetricConsumers.GetFullMetricName | client-metrics/src/main/java/ru/hh/jclient/common/metrics/StatsDMetricConsumer.java:75-80 | without tags the name itself; otherwise name + "." + the tags joined by "." |
| StatsDMetricConsumers.FullMetricNameInjective | client-metrics/src/main/java/ru/hh/jclient/common/metrics/StatsDMetricConsumer.java:75-80 | with the same tags, different metric names give different full names |
| StatsDMetricConsumers.StatsDMetricConsumer.constructor | client-metrics/src/main/java/ru/hh/jclient/common/metrics/StatsDMetricConsumer.java:27-34 | the name tag is built from the name; nothing scheduled |
| StatsDMetricConsumers.StatsDMetricConsumer.Accept | client-metrics/src/main/java/ru/hh/jclient/common/metrics/StatsDMetricConsumer.java:44-73 | a null provider schedules nothing; otherwise one fixed-rate task with delay 0 and the configured interval, which becomes the future |
| StatsDMetricConsumers.StatsDMetricConsumer.Disconnect | client-metrics/src/main/java/ru/hh/jclient/common/metrics/StatsDMetricConsumer.java:40-42 | no future: nothing happens; otherwise the future is cancelled once, without interrupting |

## Left out

- Concurrency: the atomic counters' compare-and-set retries, the optional shared `StampedLock`, the non-volatile slow-start flags and the concurrent registry map. Each operation is modelled as one sequential step.
- `Server.releaseAdaptive`, `DowntimeDetector` and `ResponseTimeTracker`: they belong to the adaptive strategy, whose classes are not part of this model.
- Float and double arithmetic: loads are exact reals.
  - The `(float)` rounding of the load is not modelled.
  - Infinity and NaN are not modelled.
- Servers.Server.constructor: requires a positive weight, which Java does not check. A weight of 0 makes the load a float infinity or NaN, which the model does not represent. A negative weight gives negative loads and negative seeded stat counters, which the model does not cover.
- Null arguments: Java throws `NullPointerException` for each of these, and the model cannot represent a null argument:
  - `Servers.Server.constructor`: a null address (`Server.java`, line 51).
  - `UpstreamManagers.BalancingUpstreamManager.constructor`: a null executor, monitoring set or upstream list (`BalancingUpstreamManager.java`, lines 46-53).
  - `ResultOrErrorProcessors.ResultOrErrorProcessor.constructor`: a null response processor or error converter (`ResultOrErrorProcessor.java`, lines 19-20).
  - `OperationSelectors.SetDefault` and `OperationSelectors.SetDefaultFrom`: a null default value, passed to `Optional.of` (`ApplyResultOrErrorOperationSelector.java`, lines 32 and 42).
  - `MediaTypes.AddCharset`: a null charset, passed to `Map.of` (`MediaTypes.java`, line 17).
- Servers.Server.GetStatLoad: computes the highest load before the slow-start flags change rather than inside the update. Loads read only counters and weights, so the value is the same.
- `getSlowStartEndMillis`, `toString`, `hashCode`, and the `meta`/`tags`/`weight` getters and setters, plus `setSharedLock`: plain accessors, or text formatting only.
- Logging everywhere.
- The values of `HttpStatuses` (REQUEST_TIMEOUT, SERVICE_UNAVAILABLE, CONNECT_ERROR) and of `CONNECT_ERROR_MESSAGE`, which are not part of this model. Their constants have no value.
- RetryPolicies.SplitOnComma: unlike `splitAsStream`, it keeps trailing empty pieces. An empty piece maps to no rule, so the parsed table is the same.
- `UpstreamGroup`, `Upstream`, `UpstreamConfig` and `UpstreamKey.ofComplexName` are not part of this model. Groups are kept as the calls that built them, and key parsing, configuration and server lookup are parameters.
- `getServersForService` and `getMonitoring` only delegate or copy.
- `Uri.toString` is a parameter.
- `MediaType`'s case-insensitive parameter names: parameter names are taken as given.
- `JavaStrings.ToLowerCase` lowers ASCII letters only; `String.toLowerCase` follows the full Unicode tables.
- The base request balancer, which calls `onResponse`/`onRetry`/`checkRetry` and decides `triesUsed`, is not part of this model. `FirstStatusIsKept` states the property for any series of retries.
- `onRequestReceived` has an empty body.
- ResultOrErrorProcessors.ResultOrErrorProcessor.ForStatuses: keeps a copy of the set. Java keeps a reference (`statusCodes::contains`), so a caller that later mutates its set would change the error statuses; that aliasing is not modelled.
- `resultWithResponse`/`resultWithStatus` only chain futures. What they add is `HideResponse`.
- The abstract operation selector's message formatting and predicate list: they are carried unchanged.
- StatsD scheduling and I/O: the task body that sends the nine gauges and the real scheduler and future. Scheduling and cancelling are recorded as requests.
