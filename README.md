# Learning-pipeline sender: token cache and bounded retry

A Dafny model of `SenderTask` from `learning_pipeline_plugin/sender_task.py`. This is the on-device
component that uploads captured samples to the learning-pipeline data-collect endpoint. It models:

- construction-time enablement and its notifications;
- the two endpoint URLs, built with POSIX `os.path.join`;
- the data-collect token cache: refresh on absence or expiry, and replacement on a 200 reply;
- the bounded retry chain of `_retry_call_api`, with its classification of statuses and exceptions;
- the single final report that `_proc` makes per item.

The outside world is a `Script`. Each interaction is appended to a trace `io`: an upload, a token
request or a clock reading. The reply to the interaction at position `k` of the trace is
`upload(k)`, `token(k)` or `clock(k)`. Every interaction has its own position, so any sequence of
server answers and clock readings can be written as a script. Exceptions are result values:
`Refresh.raised`, and `CallOutcome.SendingError` / `RequestError`. The notifier is an
append-only `log`.

Modules:

- `Paths`: `os.path.join`, with `Basename`/`Head` as its inverse, and the two URLs.
- `Messages`: the notifier strings, `str(int)` and its inverse.
- `Protocol`: the protocol as functions on values. `RequestToken` is `_request_data_collect_token`,
  `CallApi` is `_call_api`, `TryOnce` is one pass through `_retry_call_api`, `RetryCallApi` is the
  whole chain and `Proc` is `_proc`.
- `TokenProperties` and `RetryProperties`: lemmas about those functions.
- `Scenarios`: concrete and parametric runs against scripted servers.
- `Sender`: the imperative model. `class SenderTask` has the fields the source mutates
  (`sendingEnabled`, `dataCollectToken`, `dataCollectTokenExpires`, `log`). `class Remote` holds the
  script and the trace. Each method is proved to have exactly the effect of its `Protocol`
  function, and the recursion of `_retry_call_api` becomes a `while` loop over the counter.

The model follows the code as written; points a reader may not expect:

- A token refresh answered with a 4xx/5xx status raises `HTTPError` through `raise_for_status`.
  Line 100 catches that, so the refresh failure is retried like a transport failure. It does not
  end the chain (`Scenarios.TokenFailuresAreRetried`).
- A refresh answered with a non-200 status below 400 or above 599 does not raise. The upload then
  goes ahead with the token that was already held.
- With sending disabled, the one message is "Data Collect Token request failure", then the final
  "Failure" report.
- Every non-200 upload status is reported with its own "Data collect failed with status …" message
  before the retry. After a 401 this happens only when the forced refresh did not raise.

## Model

| member | source | states |
|---|---|---|
| Paths.Join | learning_pipeline_plugin/sender_task.py:64 | an absolute component replaces the prefix; otherwise the result is `a`, then one '/' exactly when `a` is non-empty and does not end in '/', then `b` |
| Paths.JoinThenSplit | learning_pipeline_plugin/sender_task.py:64 | for a non-empty component without '/', the basename of the join is that component and the head is the prefix plus its separator |
| Paths.UrlShapes | learning_pipeline_plugin/sender_task.py:62-68 | `data_collect_url` is root + sep + "data_collect" and `request_data_collect_token_url` is root + sep + "device/token", the same as a single join with "device/token" |
| Paths.TestEndpointUrls | learning_pipeline_plugin/sender_task.py:62-68 | for the test endpoint root the URLs are `…/data_collect` and `…/device/token`, and a trailing '/' on the root gives the same data-collect URL |
| Paths.DataCollectUrl | learning_pipeline_plugin/sender_task.py:63-64 | definition: the join of the endpoint root with "data_collect"; its shape is stated by UrlShapes |
| Paths.TokenUrl | learning_pipeline_plugin/sender_task.py:67-68 | definition: the join of the endpoint root with "device" and then "token"; its shape is stated by UrlShapes |
| Messages.NatDecimal | learning_pipeline_plugin/sender_task.py:160 | the rendering of a status code is a non-empty string of decimal digits with no leading zero (only 0 itself renders as "0"), as `str(int)` gives |
| Messages.DecimalRoundTrip | learning_pipeline_plugin/sender_task.py:103 | reading the decimal rendering back gives the number |
| Messages.TriedDistinguishes | learning_pipeline_plugin/sender_task.py:77-78 | the final report for success differs from the one for failure |
| Messages.Tried | learning_pipeline_plugin/sender_task.py:77-78 | definition: "Tried to send data sample: " followed by "Success" or "Failure"; the two differ by TriedDistinguishes |
| Messages.UploadFailed | learning_pipeline_plugin/sender_task.py:103 | definition: "Data collect failed with status <code> (reason: <text>)", with the code rendered by NatDecimal |
| Messages.TokenRequestFailed | learning_pipeline_plugin/sender_task.py:160 | definition: "Data Collect Token request failure (<code>)", with the code rendered by NatDecimal |
| Protocol.RaisesForStatus | learning_pipeline_plugin/sender_task.py:161 | definition: `raise_for_status` raises for statuses 400 to 599; used by RefreshOutcome and TokenFailuresAreRetried |
| Protocol.Bearer | learning_pipeline_plugin/sender_task.py:127 | definition: the authorization header, "Bearer None" when no token is held; stated on the upload by CallApiShape |
| Protocol.TokenRequestFor | learning_pipeline_plugin/sender_task.py:139-143 | definition: the token request is sent to `request_data_collect_token_url` with the device id, group id and pipeline id as headers |
| Protocol.UploadRequestFor | learning_pipeline_plugin/sender_task.py:115-128 | definition: the upload is sent to `data_collect_url` with the timestamp, the image, the ids, the metadata and the `Bearer` header of the held token |
| Protocol.Stale | learning_pipeline_plugin/sender_task.py:112 | definition: the token is absent or its expiry is strictly before the clock reading; described by TokenReuse |
| Protocol.RequestToken | learning_pipeline_plugin/sender_task.py:133-161 | definition of `_request_data_collect_token` on values; described by RefreshOutcome and RefreshCounts, implemented by Sender.SenderTask.RequestDataCollectToken |
| Protocol.Upload | learning_pipeline_plugin/sender_task.py:115-131 | definition: the `requests.post` step of `_call_api`; a reply gives its status and text, an unreachable server a `RequestException`; stated by CallApiShape |
| Protocol.CallApi | learning_pipeline_plugin/sender_task.py:106-131 | definition of `_call_api` on values; described by TokenReuse, CallApiShape, CallApiCounts and CallApiAccepted, implemented by Sender.SenderTask.CallApi |
| Protocol.AfterStatus | learning_pipeline_plugin/sender_task.py:95-96 | definition: after a returned status, a 401 forces a token refresh and any other status leaves the state as it is, with nothing raised; stated by StatusHandling |
| Protocol.TryOnce | learning_pipeline_plugin/sender_task.py:91-104 | definition of one pass through `_retry_call_api`; described by TryOnceShape, TryOnceCounts, TryOnceAccepted and StatusHandling |
| Protocol.RetryCallApi | learning_pipeline_plugin/sender_task.py:80-104 | definition of the recursive chain; described by RetryBound, RetryAccepted, RetryDisabled, RetryExhausted and TokenFailuresAreRetried, implemented by Sender.SenderTask.RetryCallApi |
| Protocol.Proc | learning_pipeline_plugin/sender_task.py:70-78 | definition of `_proc` for an encoded image; described by ProcReport and ProcDisabled, implemented by Sender.SenderTask.Proc |
| TokenProperties.RefreshOutcome | learning_pipeline_plugin/sender_task.py:133-161 | disabled: no effect; a 200 reply sets token and expiry (clock + expires_in) together after one token request and one clock reading, with no message and no exception; any other status keeps both, logs "Data Collect Token request failure (code)" and raises exactly for 400..599; a transport failure only adds the request and raises |
| TokenProperties.RefreshCounts | learning_pipeline_plugin/sender_task.py:136-152 | a refresh only extends trace and log, makes exactly one token request (none when disabled), that request comes first, and it makes no upload |
| TokenProperties.TokenReuse | learning_pipeline_plugin/sender_task.py:112-113 | a token request happens before the upload iff the token is absent or its expiry is strictly before the clock; otherwise token, expiry and log are unchanged and the trace gains only the clock reading and the upload with that token |
| TokenProperties.CallApiShape | learning_pipeline_plugin/sender_task.py:106-131 | `SendingError` iff sending is disabled, and then nothing changes; a returned status is the server's reply to the last interaction, which is the upload carrying `Bearer <held token>`; the trace and log only grow |
| TokenProperties.CallApiCounts | learning_pipeline_plugin/sender_task.py:110-131 | one `_call_api` makes at most one upload and at most one token request |
| TokenProperties.CallApiAccepted | learning_pipeline_plugin/sender_task.py:115-131 | the only upload of a call that can have been accepted is its last interaction, and then the call returned status 200 |
| RetryProperties.TryOnceShape | learning_pipeline_plugin/sender_task.py:91-104 | one attempt keeps the enablement flag and only extends trace and log; with sending disabled it stops with exactly one message "Data Collect Token request failure" and returns False; it never stops with False otherwise |
| RetryProperties.TryOnceCounts | learning_pipeline_plugin/sender_task.py:91-104 | one attempt makes at most one upload and at most two token requests |
| RetryProperties.TryOnceAccepted | learning_pipeline_plugin/sender_task.py:92-94 | an attempt returns True only when its last interaction is an accepted upload, and any accepted upload of it is that one |
| RetryProperties.StatusHandling | learning_pipeline_plugin/sender_task.py:91-104 | transport failures and raising refreshes retry silently; 200 returns True; 401 forces exactly one token request, right after the upload, then logs the status message unless the refresh raised; any other status logs exactly the status message and retries |
| RetryProperties.RaisedRefreshRetried | learning_pipeline_plugin/sender_task.py:100-101 | whenever the refresh inside `_call_api` raises (absent or expired token), the call ends in `RequestException` with the refresh's state and no upload, and the attempt is retried silently; `_call_api` raises exactly when its refresh raised or its upload did not reach the server |
| RetryProperties.RetryBound | learning_pipeline_plugin/sender_task.py:88-104 | the chain makes at most `max_retry - retry_count` uploads and twice as many token requests, only extends trace and log, and returns False with no effect once the counter equals `max_retry` |
| RetryProperties.RetryAccepted | learning_pipeline_plugin/sender_task.py:88-104 | the chain returns True only when its last interaction is an accepted upload; an accepted upload anywhere in the chain means True and is the last interaction, so nothing follows the first 200 |
| RetryProperties.SummaryGivesIff | learning_pipeline_plugin/sender_task.py:92-94 | from that summary: True iff some upload of the chain was accepted |
| RetryProperties.RetryDisabled | learning_pipeline_plugin/sender_task.py:97-99 | with sending disabled the chain returns False on its first attempt; the state gains exactly the one message and no interaction, and token fields are unchanged |
| RetryProperties.RetryExhausted | learning_pipeline_plugin/sender_task.py:88-104 | if tokens are always granted and no upload is accepted, the chain returns False after exactly `max_retry - retry_count` uploads |
| RetryProperties.ProcReport | learning_pipeline_plugin/sender_task.py:70-78 | `_proc` appends exactly one report after the chain; it reads "Success" iff some upload of the item was accepted; at most 3 uploads and 6 token requests per item |
| RetryProperties.ProcDisabled | learning_pipeline_plugin/sender_task.py:110-111 | with sending disabled an item adds exactly two messages, the token failure and the "Failure" report, and no interaction |
| Scenarios.EndToEnd | learning_pipeline_plugin/sender_task.py:112-113 | items at t=0, 1 and 4 with `expires_in=3`: two token requests, three uploads, three "Success" reports, final expiry 7 |
| Scenarios.UnauthorizedThenAccepted | learning_pipeline_plugin/sender_task.py:95-96 | a 401 followed by a 200 gives exactly one token request between the two uploads, the second upload with the new token, the 401 message and then "Success" |
| Scenarios.TokenFailuresAreRetried | learning_pipeline_plugin/sender_task.py:159-161 | with no token and a token endpoint always answering an error status, every attempt makes one token request, logs its status and is retried; no upload is made and the chain returns False with the token still absent |
| Scenarios.ExpiredRefusedAttempt | learning_pipeline_plugin/sender_task.py:112-113 | with a held token that has expired and a token endpoint answering 4xx/5xx, one attempt reads the clock, makes one token request, logs its status and is retried, with no upload |
| Sender.SenderTask.constructor | learning_pipeline_plugin/sender_task.py:47-60 | sending is enabled iff the endpoint root is non-empty and the group id is present; one notification per missing value, endpoint first; no token |
| Sender.SenderTask.DataCollectUrl | learning_pipeline_plugin/sender_task.py:62-64 | the URL is root + separator + "data_collect" |
| Sender.SenderTask.RequestDataCollectTokenUrl | learning_pipeline_plugin/sender_task.py:66-68 | the URL is root + separator + "device/token" |
| Sender.SenderTask.RequestDataCollectToken | learning_pipeline_plugin/sender_task.py:133-161 | the new fields and trace, and whether it raised, are those of `RequestToken`, the function described by `RefreshOutcome` |
| Sender.SenderTask.CallApi | learning_pipeline_plugin/sender_task.py:106-131 | the new fields, trace and outcome are those of `Protocol.CallApi` |
| Sender.SenderTask.RetryCallApi | learning_pipeline_plugin/sender_task.py:80-104 | the loop ends in the state and with the result of the recursive chain `Protocol.RetryCallApi`, which the lemmas above bound and characterise |
| Sender.SenderTask.Proc | learning_pipeline_plugin/sender_task.py:70-78 | the new state is `Protocol.Proc` of the old one |
| Sender.Remote.Post | learning_pipeline_plugin/sender_task.py:115-131 | `requests.post`: the trace gains the upload and the reply is the script's answer at its position |
| Sender.Remote.Get | learning_pipeline_plugin/sender_task.py:148-152 | `requests.get`: the trace gains the token request and the reply is the script's answer at its position |
| Sender.Remote.Time | learning_pipeline_plugin/sender_task.py:112 | `time.time()`: the trace gains a clock reading and the result is the script's clock at its position |

## Left out

- HTTP transport, the SOCKS proxy, `resp.json()` and `resp.text` are scripted replies. A token payload without the expected keys is not modelled.
- PNG encoding and base64 (lines 71-74) are not modelled. `Proc` takes the already encoded image as a string.
- JSON serialisation of the metadata and of the token headers is not modelled. The metadata is an opaque string fixed at construction.
- The `rs256` signature of the token request is not modelled, so the token request records its URL and headers without the signature.
- `os.environ` is read once into `Config`. The source re-reads it on every request. The device id and the SOCKS server are assumed present, so the `KeyError` they would raise is not modelled.
- `time.time()` is an integer clock reading, not a float.
- `data_collect_token_expires` is unset until the first successful refresh. The model starts it at 0, which is never read while the token is absent.
- The `IsolatedTask` queue and its worker thread are not modelled, because `actfw_utils` is not part of this model. Neither are the pass-through pipe, the uncertainty measures or the notifier's printing.
- The sender tests in `tests/test_sender.py` target a different `SenderTask` interface. Only the timing of their end-to-end scenario is used, in `Scenarios.EndToEnd`.
- Sender.SenderTask.RetryCallApi: requires `retry_count <= max_retry`. With a larger counter the check at line 88 never stops the chain, which then ends only on a 200, a `SendingError` or Python's `RecursionError`. The only caller, `_proc` (line 76), starts at 0.
- `raise_for_status` is modelled as raising for statuses 400 to 599, as the requests library does, and not for other non-200 statuses. The requests library itself is not part of this model.
