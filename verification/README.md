# go-pagerduty request core in Dafny

This project models the request-execution core of the go-pagerduty client library. It has four parts:

- **Request building.** `newRequestDo` and `newRequestDoOptions` append an encoded query string to the path. `newRequest` then prefixes the client's base URL, encodes the body, and attaches the option headers followed by `Accept`, `Authorization`, `Content-Type` and an optional `User-Agent`.
- **The retry executor.** `do` calls `doRetry` up to five times (try numbers 0 to 4, `maxtries = 4`) and sleeps 30 seconds after every retryable failure. It stops at once on a non-retryable error. When the tries run out, it returns the last error marked as exhausted.
- **Error classification.**
  - `doRetry` tags each failure with its kind: network, body read, API status, or JSON decode.
  - `checkResponse` accepts statuses 200 to 299.
  - `decodeErrorResponse` turns any other status into the decoded API error document. When the body does not decode, it builds a generic error naming the method, URL and status line.
  - `handleErrorResponse` decides whether the failure is retried. It checks in this order: connection reset, broken pipe, temporary network error, body-read failure, status 429 or any status of at least 500, JSON decode failure. Anything else is non-retryable and carries its try number.
- **The offset pagination walker.** `newRequestPagedGetDo` issues `GET base?offset=N`, starting at 0. It hands each response to a page handler and continues at `offset + limit` while the page says `more`. That sum is a Go `int` and wraps around on overflow. `VendorService.List` is the walker's client: its handler decodes a vendor page and collects the vendors in order.

The core lives in one file, `pagerduty/pagerduty.go`, plus `pagerduty/vendor.go` for the vendor list. The modules split it by concern:

| file | module | models |
|---|---|---|
| `wrappers.dfy` | `Wrappers` | `Option` and `Result` |
| `http.dfy` | `Http` | requests, responses, attempts, the error taxonomy |
| `classify.dfy` | `Classify` | `handleErrorResponse`, `checkResponse`, `decodeErrorResponse`, `doRetry` |
| `retry.dfy` | `Retry` | `do` |
| `decimal.dfy` | `Decimal` | the `%d` rendering of an offset |
| `requests.dfy` | `Requests` | `newRequest`, `newRequestDo`, `newRequestDoOptions` |
| `paging.dfy` | `Paging` | `newRequestPagedGetDo` |
| `vendor.dfy` | `Vendors` | `VendorService.List` |

The world outside the library becomes parameters:

- **The server.** The server's behaviour for one logical request is a function `server: nat -> Attempt` from try number to what that try observed. A try either fails in transport, fails reading the body, or receives a status, a status line, a body, and what that body decodes to as an API error document.
- **Pagination.** A paginated walk receives one such function per page request.
- **JSON decoding.** Decoding into a caller's target is a predicate on the body bytes. Decoding a vendor page is a function from bytes to an optional page.

## Model

| member | source | states |
|---|---|---|
| Classify.HandleErrorResponse | pagerduty/pagerduty.go:274-297 | The failure is kept with its error kind. It is retried exactly when `RetryableKind` holds: connection reset, broken pipe, temporary network error, body-read failure, status 429 or at least 500, or JSON decode failure. A non-retryable verdict carries the try number. The verdict names the first rule that fired: connection reset (even when the transport also calls it temporary), broken pipe, temporary network error, body-read failure, the retried status, or invalid JSON. |
| Classify.RetryableKind | pagerduty/pagerduty.go:277-296 | The table of retryable failures. A reset or a broken pipe is retryable whatever stage it came from. Only a network or an API failure can be fatal. |
| Classify.DecodeErrorResponse | pagerduty/pagerduty.go:430-438 | When the body decodes as an error document, the result is exactly that document. Otherwise it is a generic error carrying the request's method and URL and the response's status line. |
| Classify.CheckResponse | pagerduty/pagerduty.go:422-428 | Reports no error exactly when the status lies in 200..299. Otherwise it reports the decoded error document, or a generic error carrying the status line when the body does not decode. The reported error is the one `decodeErrorResponse` builds for the response, so a generic error also carries the request's method and URL. |
| Classify.DoRetry | pagerduty/pagerduty.go:330-366 | A try succeeds exactly when a 2xx response arrived and the target, if any, decodes the body. The returned response is that attempt's response to the given request. A failed try carries exactly the failure of the stage that failed: the transport error, the body-read error, the API error the non-2xx response decodes to (or the generic one), or a JSON decode error for a 2xx body. It also carries that stage's error kind. The retry flag is `RetryableKind` of that failure. The verdict and the try number are those `handleErrorResponse` gives that failure on this try, so a fatal failure on try k is reported as non-retryable at k. |
| Classify.DoRetryRetryTable | pagerduty/pagerduty.go:283-293 | The retry flag of a failed try, stated directly from the attempt: retried for connection reset, broken pipe, a temporary transport error, any body-read error, status 429 or at least 500, and a 2xx body the target cannot decode. |
| Classify.TargetOnlyDecodedOn2xx | pagerduty/pagerduty.go:347-356 | Outside 2xx responses, the decode target has no influence on the try's outcome. |
| Classify.ClientErrorIsFatal | pagerduty/pagerduty.go:289-296 | A 4xx status other than 429 fails without retry, carrying the try number. The error is the decoded error document when the body holds one. Otherwise it is a generic error with the request's method and URL and the status line. |
| Retry.FirstDecisive | pagerduty/pagerduty.go:305-318 | Finds the first try from a given number on that succeeds or fails without retry, within the five allowed tries. Every earlier try in that range was a retryable failure. |
| Retry.Run | pagerduty/pagerduty.go:299-328 | Between one and five tries are made. Every try before the last failed retryably. A success is the response to the caller's request after k sleeps and k+1 tries. A fatal error is wrapped as non-retryable after the same counts. Exhaustion reports the fifth try's error with 4 retries, after five tries and five sleeps. There is no other failure. |
| Retry.Do | pagerduty/pagerduty.go:299-328 | The loop that mirrors the source's `for trynum <= maxtries` computes exactly the result, try count and sleep count of `Retry.Run`. |
| Retry.RunSucceedsAt | pagerduty/pagerduty.go:305-316 | After k retryable failures, a successful try k returns its response after k+1 tries and k sleeps. |
| Retry.RunFatalAt | pagerduty/pagerduty.go:309-313 | After k retryable failures, a non-retryable try k ends the call with that error after k+1 tries and k sleeps, without a further sleep. |
| Retry.RunExhausted | pagerduty/pagerduty.go:305-321 | Five retryable failures end the call with the last error marked exhausted after 4 retries. Five tries and five 30-second sleeps are made, including one after the last try. |
| Retry.RateLimitThenSuccess | pagerduty/pagerduty_test.go:149-189 | A 429 followed by a 200 yields the 200 response after two tries and one sleep. |
| Retry.ForbiddenFailsAtOnce | pagerduty/ability_test.go:32-44 | A 403 fails on the first try with no sleep, as a non-retryable error at try 0. |
| Decimal.NatToString | pagerduty/pagerduty.go:392 | The `%d` rendering of a natural number is a non-empty digit string without a leading zero. |
| Decimal.IntToString | pagerduty/pagerduty.go:392 | The `%d` rendering of an integer starts with `-` exactly when the integer is negative. |
| Decimal.NatRoundTrip | pagerduty/pagerduty.go:392 | Reading back the digits of a rendered natural number gives that number. |
| Decimal.IntRoundTrip | pagerduty/pagerduty.go:392 | Parsing the `%d` rendering of any integer gives that integer back. |
| Decimal.IntToStringInjective | pagerduty/pagerduty.go:392 | Distinct integers render differently. |
| Paging.WrapInt | pagerduty/pagerduty.go:404 | Go's 64-bit `int` arithmetic: the result is in the `int` range and congruent to its argument modulo 2^64. It is the argument itself when that is already in range. |
| Paging.NextOffsetWraps | pagerduty/pagerduty.go:404 | The next offset is `offset + limit` when the sum fits an `int`. One past the largest `int` it wraps to the smallest. A wrapped negative offset is requested with a minus sign. |
| Paging.PagePath | pagerduty/pagerduty.go:392 | The page path is the base path, then `?offset=`, then a rendering that parses back to the offset. |
| Paging.NextOffset | pagerduty/pagerduty.go:404 | The next offset is always a Go `int`. It equals `offset + limit` whenever that sum fits, and on overflow it differs from the sum by a multiple of 2^64, which is Go's wrap-around. |
| Paging.PagePathDeterminesOffset | pagerduty/pagerduty.go:392 | Distinct offsets give distinct page paths, so a page request names its offset unambiguously. |
| Requests.WithQuery | pagerduty/pagerduty.go:238-247 | Fails exactly when the query options cannot be encoded. A non-empty encoded query gives the path, a `?` and the query text. No query or an empty encoding leaves the path unchanged. |
| Requests.QueryRoundTrip | pagerduty/pagerduty.go:245-247 | For a path without `?`, splitting the URL built from an encoded query at its first `?` recovers the path and the query text. |
| Requests.OptionHeaders | pagerduty/pagerduty.go:220-226 | A header is added exactly when some request option of type "header" names it with that value. Options of other types add nothing. |
| Requests.OptionHeadersConcat | pagerduty/pagerduty.go:221-225 | Options are taken one by one, in order: the headers of a concatenation of options are the concatenation of their headers. Together with `Requests.OptionHeadersOne` this fixes the order and the repeats. |
| Requests.OptionHeadersOne | pagerduty/pagerduty.go:222-224 | A single option adds its header exactly when it is of type "header". |
| Requests.RepeatedHeaderKept | pagerduty/pagerduty.go:223 | Two header options with the same name both reach the request, in option order, as `Header.Add` keeps them. |
| Requests.FixedHeaders | pagerduty/pagerduty.go:227-233 | Three headers are always set, and a fourth only when a user agent is configured. |
| Requests.FixedHeaderNames | pagerduty/pagerduty.go:227-233 | The fixed headers are `Accept` with the PagerDuty v2 media type, `Authorization: Token token=<token>` and `Content-Type: application/json`. `User-Agent` is present exactly when one is configured. No other name occurs, and no name occurs twice. |
| Requests.NewRequest | pagerduty/pagerduty.go:198-235 | Fails exactly when the body cannot be encoded. Otherwise it builds a request with the given method, the base URL followed by the path, the encoded body, and the option headers followed by the fixed headers. |
| Requests.RequestHeaders | pagerduty/pagerduty.go:227-233 | Every built request carries the PagerDuty v2 `Accept` value, `Authorization: Token token=<token>` and a JSON `Content-Type`. It carries `User-Agent` exactly when one is configured, unless an option supplies one itself. |
| Requests.RequestDo | pagerduty/pagerduty.go:255-272 | No try is made exactly when the query or the body cannot be encoded. An unencodable query fails with the query error even when the body would not encode either, since the query is encoded first. Otherwise a body that does not encode fails with the body error. When a try is made, the outcome is the retry executor's on the built request. |
| Requests.NewRequestDoOptions | pagerduty/pagerduty.go:255-272 | Computes the outcome described by `Requests.RequestDo`. |
| Requests.NewRequestDo | pagerduty/pagerduty.go:237-253 | Like `Requests.NewRequestDoOptions` with no request options. A success answers a request carrying exactly the fixed headers. |
| Paging.FetchAnsweredPage | pagerduty/pagerduty.go:392-395 | A page whose first try returns 2xx is fetched as that response to `GET base?offset=N` on the first try. |
| Paging.Fetch | pagerduty/pagerduty.go:392-395 | A fetched page is a 2xx response to the `GET base?offset=N` request built with the walker's options. A failed fetch is the executor's error, non-retryable or exhausted, since a page GET has no query or body to fail encoding. |
| Paging.FetchIsRun | pagerduty/pagerduty.go:392-395 | A page fetch is exactly the retry executor's result for the page's `GET base?offset=N` request. |
| Paging.Step | pagerduty/pagerduty.go:392-401 | A failed fetch aborts the page with the executor's error. After a successful fetch the page's result is the handler's on that response, so a handler error is returned as the page's error. |
| Paging.WalkPages | pagerduty/pagerduty.go:391-406 | A walk requests at most one offset per page. With any page available, it starts at the given offset. It runs out of pages only after requesting every one. |
| Paging.WalkTrace | pagerduty/pagerduty.go:383-409 | The walk starts at the given offset. Each next offset is the previous page's offset plus limit, wrapped as a Go `int`, and is reached only through a page that said `more`. It finishes at the first page without `more`, aborts with the first fetch or handler error, and gathers exactly the items of the pages it visited, in order. |
| Paging.WalkStep | pagerduty/pagerduty.go:392-406 | One page decides the walk: an error aborts it, a page without `more` finishes it, and a page with `more` continues at `offset + limit`, wrapped as a Go `int`. |
| Paging.WalkContinues | pagerduty/pagerduty.go:404-406 | A page with `more` contributes its offset and items and hands over to `offset + limit`, wrapped as a Go `int`. |
| Paging.WalkFinishes | pagerduty/pagerduty.go:404-406 | A page without `more` ends the walk with its offset and items. |
| Paging.NewRequestPagedGetDo | pagerduty/pagerduty.go:383-409 | The loop requests exactly the offsets of the walk and gathers exactly its items. It returns the error that aborted the walk, or no error when it finished. |
| Vendors.PageHandler | pagerduty/vendor.go:57-71 | For every response, the closure fails exactly when the body does not decode, and then with a JSON error. Otherwise it forwards the page's offset, limit and `more` and yields exactly its vendors. |
| Vendors.HandlerForwardsPage | pagerduty/vendor.go:57-71 | The handler fails with a JSON error exactly when the page does not decode. Otherwise it reports the page's offset, limit and `more`, and yields its vendors. |
| Vendors.ListSpec | pagerduty/vendor.go:51-80 | Never returns a raw response. It returns an error exactly when it returns no list, and that error is the one that aborted the walk. It returns a list exactly when the walk finished, so no partial result is ever returned. A list holds only the walk's gathered vendors. |
| Vendors.List | pagerduty/vendor.go:51-80 | Computes the result described by `Vendors.ListSpec`. |
| Vendors.ListConcatenatesPages | pagerduty/vendor.go:55-77 | When listing succeeds, at least one page and at most one per server behaviour was requested. The list is the concatenation of the requested pages' vendors in request order. |
| Vendors.ListPagesDecoded | pagerduty/vendor.go:55-77 | When listing succeeds, every requested page was fetched with a 2xx response and its body decoded. The page contributed exactly its decoded vendors. |
| Vendors.DecodedPageStep | pagerduty/vendor.go:57-71 | A 200 page that decodes is one walk step reporting that page's offset, limit and `more`, and yielding its vendors. |
| Vendors.SinglePageList | pagerduty/vendor_test.go:9-33 | A single page without `more` is requested once, at offset 0, and listing returns its vendors. |
| Vendors.ThreePageWalk | pagerduty/incident_test.go:37-76 | Uses the incident list-all test's three pages, here as vendor pages. The pages have limit 1 and say more, more, no more. They are requested at offsets 0, 1 and 2, and their items are gathered in server order. |
| Paging.ThreeStepWalk | pagerduty/pagerduty.go:391-406 | For any page step: three pages at offsets 0, 1 and 2 with limit 1, saying more, more, no more, make a walk over exactly those offsets that gathers their items in order. |
| Vendors.ThreePageList | pagerduty/incident_test.go:37-76 | Listing those three pages returns the three vendors in server order. |
| Vendors.LastPage | pagerduty/pagerduty.go:404-406 | A decoded page without `more` ends the walk with its vendors. |
| Vendors.MorePage | pagerduty/pagerduty.go:404-406 | A decoded page with `more` contributes its vendors and continues at its offset plus limit, wrapped as a Go `int`. |

## Behaviour of the code worth noting

- **Backoff.** `do` always sleeps a fixed 30 seconds between tries. It ignores rate-limit headers on a 429.
- **Not retried.** Besides a 4xx other than 429, the code also gives up at once on:
  - a transport error that is neither a connection reset, nor a broken pipe, nor temporary;
  - any 1xx or 3xx status that reaches `checkResponse`. `http.Client.Do` follows redirects itself, so a followed 3xx never gets there.
- **Exhaustion.** `do` also sleeps after the fifth failed try, before reporting exhaustion. Exhaustion therefore costs five sleeps.
- **Offset overflow.** `nextOffset = pageInfo.Offset + pageInfo.Limit` is Go `int` arithmetic, so it wraps around. The model takes 64-bit targets. A page claiming the largest offset with a positive limit sends the next request at a negative offset.

## Left out

- `time.Sleep` is modelled as a count of sleeps, each standing for a 30-second pause, not as elapsed time.
- The HTTP transport (`http.Client.Do`), `ioutil.ReadAll` and the file logger are not modelled. What a try observes is the `server` parameter; logging has no effect on results.
- Redirects are not modelled. In Go, a response's request, and so the method and URL of the generic API error, belong to the last request of the redirect chain. After a 303 that can be a GET instead of the caller's POST. In the model they are always those of the built request, and no `server` value expresses a redirect.
- The request clone per try is not modelled: every try carries the same request, body included. `Request.Clone` copies the body reader shallowly, so in Go a retried request with a body reuses a reader the first try already drained. The `server` parameter stands in for whatever such a retry observes.
- JSON encoding and decoding (`json.NewEncoder`, `json.Unmarshal`) and `query.Values` are abstract. The model takes their outcomes as parameters: `Payload.encoding`, `Query`, `Target.decodes`, `Response.errorDoc` and the vendor `decode` function.
- The `err.(net.Error)` type assertion in `handleErrorResponse` is not modelled. The `Failure` datatype only admits the error kinds `doRetry` produces, so the assertion's panic cannot arise.
- The `[FATAL] No error was thrown but no valid response received` branch of `doRetry` is not modelled: the response is never nil there, so the branch is dead.
- Header key canonicalisation by `http.Header.Add` and a failing `http.NewRequest` (a malformed URL) are not modelled. The model represents headers as an ordered list of name/value pairs.
- `NewClient` is not modelled: the default base URL and the HTTP client timeouts. `NewClient` also overwrites `config.UserAgent` unconditionally with a fixed value. `NewClient` parses the base URL once, and every request then uses that parsed URL's string form (pagerduty/pagerduty.go:156, 213). The token and user agent, by contrast, are read from `Client.Config` on every request (pagerduty/pagerduty.go:228, 231). The model's `Config.baseUrl` stands for that string form, and its `token` and `userAgent` for the values at the time of the request. An empty `userAgent` (no `User-Agent` header) arises only when a caller clears `Client.Config.UserAgent` after construction.
- Go's `int` is 64 bits wide on the targets the model assumes (`Paging.IntModulus`). On a 32-bit target the offset sum would wrap at 2^32 instead.
- The debug flag only adds logging and is not modelled.
- Paging.NewRequestPagedGetDo: requires that the walk ends within the supplied pages. The source loops forever against a server that always answers `more`.
- Paging.NewRequestPagedGetDo: the handler's side effect of appending to a slice is modelled as items the handler returns, which the walk concatenates.
- Vendors.List: the `ListVendorsOptions` argument is accepted and ignored, as in the source. The resulting list leaves limit, offset, total and `more` at their zero values, as in the source.
- The remaining services (per-resource CRUD wrappers), token-based pagination, custom-field value codecs, rate-limit headers, the persistent configuration package and the integration tests lie outside this core and are not modelled.
