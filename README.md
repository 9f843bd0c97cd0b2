# unsent-go client core, modelled in Dafny

This project models the core of the Go client for the Unsent e-mail API: the package
`pkg/unsent`. The client is configured by `NewClient` and its options. One generic
`request` function encodes a body, sets the default headers and the per-request
options, sends the request and sorts the response into a decoded value or an
`APIError`. Resource clients build the path each call goes to:

- emails, contacts and suppressions append `key=value&` fragments to a path that
  already ends in `?`;
- events, activity, stats, metrics and the analytics time series go through
  `buildQueryParams`, which walks a Go map.

The model also covers the two error types and their messages, and the raw JSON union
kept for the `to` field of a send request.

Each Go file is one module, and the model takes the source's form:

- `request`, `NewClient` and `buildQueryParams` change local state in loops. They are
  `method`s with loops, and each is proved equal to a specification function. The
  properties are then proved about those functions.
- The list builders of emails, contacts, suppressions and analytics reputation
  (`Emails.List`, `Emails.GetReport`, `Contacts.List`, `Suppressions.ListCall`,
  `Analytics.GetReputation`) have no loop. They are straight-line methods that make one
  `AdHoc.Append` call per `if`, as the source does, and each is proved equal to
  `AdHoc.WithParams`.
- The client and the JSON union change fields in place. They are classes: `Client.Client`
  and `Helpers.RawUnion`.
- Everything that only computes is a function with lemmas.

Things the model cannot see are passed in as parameters:

- JSON encoding and decoding, `http.NewRequest`, the HTTP transport and `io.ReadAll`
  are function-valued fields of `Client.Io`.
- The two environment variables are arguments of `Client.NewClient`.
- `%f` float formatting and the two time layouts are the opaque functions of
  `Fmt.Formatters`.
- The visiting order of a Go `map` is an explicit `order` argument.
  `Query.IsIterationOrder` says it lists every key once. Properties meant to hold
  for every run are proved for every such order.

Two places where the code itself decides how the model reads:

- `request` tests `RaiseOnError`, but both branches return the same error
  (pkg/unsent/client.go:182-185). The model follows the code, and
  `Client.InterpretOutcome` proves that the outcome does not depend on the flag.
- The comments above `SuppressionsClient.Delete` talk about sending the address in a
  body, but the code puts it in the path and sends no body. The model follows the code.

## Model

| member | source | states |
|---|---|---|
| Errors.APIErrorText | pkg/unsent/errors.go:11-16 | A nil error reads `nil APIError`. Otherwise the text starts with `API Error: `, ends with `)`, and its length is that of the prefix, message, ` (code: `, code and `)` together. |
| Errors.APIErrorTextParts | pkg/unsent/errors.go:15 | The message sits right after the prefix and the code right before the closing `)`. No error's text equals the nil text. |
| Errors.HTTPErrorStatus | pkg/unsent/errors.go:26-28 | The text starts with `verb path -> `. The status digits parse back to the status code. They are followed by a space, the error code and `: `, and the text ends with the message. |
| Fmt.NatToDecimal | pkg/unsent/utils.go:16-18 | `%d` of a natural number is a non-empty digit string, with a leading `0` only for zero. |
| Fmt.ParseIntToDecimal | pkg/unsent/utils.go:16-18 | Reading back what `%d` wrote gives the integer back, negative ones included. |
| Fmt.IntToDecimalChars | pkg/unsent/utils.go:16-18 | `%d` writes only digits and a minus sign, so never a `&`. |
| Strings.SplitJoin | pkg/unsent/utils.go:54 | Splitting the joined fragments on the separator gives them back, when no fragment holds it. |
| Strings.JoinEmpty | pkg/unsent/utils.go:51-54 | A join is empty exactly when there are no parts or one empty part. |
| Strings.TerminatedIsJoin | pkg/unsent/emails.go:42-54 | Parts each followed by `&` equal the join of the parts plus one empty part. |
| Query.FormatValue | pkg/unsent/utils.go:13-48 | A value is written exactly when it is a non-nil pointer of a handled type. Strings and enums are written verbatim, and an `*int` reads back as its integer. |
| Query.BuildQueryParams | pkg/unsent/utils.go:10-55 | Returns the `&`-join of one fragment per visited key with a usable value, in visiting order. Returns `""` exactly when no value is usable. |
| Query.FragmentsOfIncluded | pkg/unsent/utils.go:12-50 | The i-th fragment is the i-th included key, `=`, and that key's formatted value. |
| Query.IncludedMembers | pkg/unsent/utils.go:13-49 | A key is included iff it is visited and its value is usable. A key visited once is included at most once. |
| Query.OneFragmentPerKey | pkg/unsent/utils.go:12-50 | Over a full visiting order there is one fragment per usable key, and no key twice. |
| Query.QueryEmptyIff | pkg/unsent/utils.go:51-54 | Both the fragment list and the query are empty exactly when no value is usable. |
| Query.SplitQuery | pkg/unsent/utils.go:54 | Splitting a non-empty query on `&` gives the fragments back, none empty, when no key or value holds `&`. |
| Query.IgnoredKeyAddsNothing | pkg/unsent/utils.go:13-48 | A key whose value is nil, a nil pointer or of an unhandled type adds nothing. The fragments are those of the map without it. |
| Query.FragmentsPermute | pkg/unsent/utils.go:12 | Visiting orders that are permutations of each other give the same multiset of fragments. |
| Query.OrderIndependent | pkg/unsent/utils.go:12 | Any two iteration orders of the same map give the same multiset of fragments. |
| AdHoc.Append | pkg/unsent/contacts.go:13-24 | One `if x != nil { path += "x=v&" }` step adds `key=value&` when the value is set, and nothing otherwise. |
| AdHoc.WithParamsShape | pkg/unsent/suppressions.go:10-29 | The built path is the prefix followed by each set fragment, each with a trailing `&`. |
| AdHoc.SetFragmentsEmpty | pkg/unsent/suppressions.go:11-23 | No fragment is written exactly when no parameter is set. Every fragment holds `=`. |
| AdHoc.WithParamsBounds | pkg/unsent/emails.go:42-54 | The path starts with the prefix. It equals the prefix exactly when nothing is set, and ends in `&` once something is. |
| AdHoc.WithParamsSnoc | pkg/unsent/emails.go:43-54 | Each further `if` appends exactly its own step to the path built so far. |
| Client.ConfigureOutcome | pkg/unsent/client.go:45-68 | Fails, with the missing-key message, exactly when both the argument and `UNSENT_API_KEY` are empty. Otherwise the key is the first non-empty one. Without `WithBaseURL`, the URL is `UNSENT_BASE_URL` (or the default) plus `/v1`. |
| Client.LastBaseURLWins | pkg/unsent/client.go:66-68 | The last `WithBaseURL` decides the URL, and that URL is its argument plus `/v1`. The key is unchanged. |
| Client.NoBaseURLKeepsURL | pkg/unsent/client.go:58-68 | Options without `WithBaseURL` keep the URL. |
| Client.OptionsKeepKey | pkg/unsent/client.go:92-114 | No client option changes the key. |
| Client.RaiseOnErrorSetting | pkg/unsent/client.go:61 | The last `WithRaiseOnError` decides the flag. Without one, it stays `true`. |
| Client.Client.constructor | pkg/unsent/client.go:58-63 | The new client has the key and URL it was given, `RaiseOnError` set, and the default HTTP client. |
| Client.Client.Apply | pkg/unsent/client.go:96-114 | Running one option closure changes exactly the field that option names. |
| Client.NewClient | pkg/unsent/client.go:45-90 | Returns nil and the error exactly when configuration fails. Otherwise the fresh client's settings are the configured ones, after all options ran in order. |
| Client.HeaderUntouched | pkg/unsent/client.go:147-153 | A header no request option names keeps its default value, or stays absent. |
| Client.LastHeaderWins | pkg/unsent/client.go:120-124 | The last option naming a header sets its value. |
| Client.DefaultHeadersKept | pkg/unsent/client.go:147-148 | Unless an option overrides them, `Authorization` is `Bearer <key>` and `Content-Type` is `application/json`. |
| Client.NormalizeError | pkg/unsent/client.go:167-180 | The error of a non-2xx response always has a non-empty code. It is the flat error, the nested one, or `INTERNAL_SERVER_ERROR` with the status text. |
| Client.ErrorShapePrecedence | pkg/unsent/client.go:169-179 | A flat error with a code wins. Next comes a nested error with a code. Otherwise the fallback is used. |
| Client.InterpretOutcome | pkg/unsent/client.go:166-195 | Success iff the status is 2xx and the body is empty or decodes. An empty body gives the zero value, and an undecodable one gives `INTERNAL_ERROR`. Any other status gives the normalised error, whatever `RaiseOnError` says. |
| Client.EarlyFailures | pkg/unsent/client.go:134-164 | A failure to encode the body, to build the request, or to send it and read the response ends with `INTERNAL_ERROR` and that message. |
| Client.Request | pkg/unsent/client.go:132-196 | The imperative `request` returns exactly what the specification `Perform` describes, for every oracle. |
| Client.SegmentsOfJoin | pkg/unsent/contacts.go:34-51 | A path built from segments without `/` splits back into exactly those segments. |
| Client.FlatErrorReturnedUnchanged | pkg/unsent/client_test.go:79-95 | A 400 whose body decodes as `{BAD_REQUEST, fail}` yields exactly that error. |
| Helpers.RawUnion.Make | pkg/unsent/helpers.go:6-15 | A failed encoding leaves a nil union. Otherwise the union holds the encoded bytes in a fresh buffer. |
| Helpers.RawUnion.Marshal | pkg/unsent/helpers.go:18-23 | A nil union marshals to `null`, and any other to its stored bytes. |
| Helpers.RawUnion.Unmarshal | pkg/unsent/helpers.go:26-30 | Never fails. Stores a fresh copy of the input, so marshalling afterwards gives the input back. |
| Helpers.CopyIsIndependent | pkg/unsent/helpers.go:41-45 | Writing into the caller's buffer after unmarshalling does not change what the union marshals to. |
| Emails.Send | pkg/unsent/emails.go:11-13 | `Send` makes the very call `Create` makes. |
| Emails.SendingRoutes | pkg/unsent/emails.go:11-23 | `Create` and `Batch` POST the payload to `/emails` and `/emails/batch` and pass the request options through. |
| Emails.SingleEmailRoutes | pkg/unsent/emails.go:26-38 | `Get` and `Update` share `/emails/{id}` with GET and PATCH. `Cancel` POSTs `{}` to `/emails/{id}/cancel`. The id reads back from the path when it holds no `/`. |
| Emails.List | pkg/unsent/emails.go:41-56 | A GET of `/emails?` followed by the set parameters in order. The path is `/emails?` alone exactly when none is set, and ends in `&` otherwise. |
| Emails.ListNoneSet | pkg/unsent/emails.go:43-54 | No fragment is written exactly when page, limit and both dates are all nil. |
| Emails.ListPageAndLimit | pkg/unsent/emails_test.go:60-87 | Page `1` and limit `50` give `/emails?page=1&limit=50&`. |
| Emails.GetReport | pkg/unsent/emails.go:59-92 | Bounces, complaints and unsubscribes: a GET of the report's prefix, followed by `page` and `limit` when set. The path is the bare prefix exactly when neither is set. |
| Emails.GetEvents | pkg/unsent/emails.go:95-111 | `/emails/{id}/events`, with `?` and the query only when the query is non-empty. The path is bare exactly when no field is set. |
| Emails.EventsNoneContribute | pkg/unsent/emails.go:99-104 | The map yields no fragment exactly when all four fields are nil. |
| Emails.EventsFragmentOf | pkg/unsent/emails.go:99-104 | Each key yields its `key=value` fragment when its field is set: decimal for page and limit, verbatim for status, RFC 3339 for the date. |
| Emails.EventsInFieldOrder | pkg/unsent/emails.go:99-104 | Visited in field order, the map yields the expected fragments. |
| Emails.EventsQueryContent | pkg/unsent/emails.go:99-108 | In any iteration order, the query holds one fragment per set field and nothing else. |
| Contacts.List | pkg/unsent/contacts.go:11-26 | A GET of the book's `contacts?` path followed by emails, page, limit and ids when set. The path is bare exactly when none is set, and ends in `&` otherwise. |
| Contacts.ListNoneSet | pkg/unsent/contacts.go:13-24 | No fragment is written exactly when all four parameters are nil. |
| Contacts.ListQueryReadsBack | pkg/unsent/contacts.go:11-26 | Splitting what follows `?` on `&` gives the set fragments in order, then one empty piece, when no value holds `&`. |
| Contacts.BookSegments | pkg/unsent/contacts.go:29-31 | The book path reads back as `contactBooks`, the book, `contacts`. |
| Contacts.ContactSegments | pkg/unsent/contacts.go:34-51 | The contact path reads back as `contactBooks`, the book, `contacts`, the contact. |
| Contacts.SingleContactRoutes | pkg/unsent/contacts.go:29-51 | Get, Update, Upsert and Delete share one path, with GET, PATCH, PUT and DELETE. Payloads are carried, and Delete sends no body. Create POSTs to the book. |
| Suppressions.ListCall | pkg/unsent/suppressions.go:10-23 | A GET of `/suppressions?` followed by page, limit, search and reason when set. The path is bare exactly when none is set. |
| Suppressions.ListNoneSet | pkg/unsent/suppressions.go:11-22 | No fragment is written exactly when all four parameters are nil. |
| Suppressions.ListResult | pkg/unsent/suppressions.go:24-28 | An error passes through unchanged. A success gives the envelope's `data` list. |
| Suppressions.List | pkg/unsent/suppressions.go:10-29 | The result is the envelope-unwrapped outcome of the generic request for the list path. |
| Suppressions.ListSuccessIsData | pkg/unsent/suppressions.go:24-28 | On a 2xx, an empty body gives an empty list, a decoded envelope gives its `data`, and an undecodable body gives `INTERNAL_ERROR`. |
| Suppressions.Routes | pkg/unsent/suppressions.go:32-43 | `Add` POSTs the payload. `Delete` sends DELETE without body to a different path, from which the address reads back. |
| Suppressions.DeleteSegments | pkg/unsent/suppressions.go:41-43 | The delete path reads back as `suppressions`, `email`, the address. |
| Events.List | pkg/unsent/events.go:11-27 | `/events`, with `?` and the query only when non-empty. The path is bare exactly when no field is set. |
| Events.QueryMapNoneContribute | pkg/unsent/events.go:15-20 | The map yields no fragment exactly when all four fields are nil. |
| Events.FragmentOfEach | pkg/unsent/events.go:15-20 | Each key yields its fragment when its field is set: decimal, verbatim or RFC 3339. |
| Events.InFieldOrder | pkg/unsent/events.go:15-20 | Visited in field order, the map yields the expected fragments. |
| Events.QueryContent | pkg/unsent/events.go:15-24 | In any iteration order, the query holds one fragment per set field and nothing else. |
| Activity.Get | pkg/unsent/activity.go:11-25 | `/activity`, with `?` and the query only when non-empty. The path is bare exactly when page and limit are nil. |
| Activity.QueryMapNoneContribute | pkg/unsent/activity.go:15-18 | The map yields no fragment exactly when page and limit are nil. |
| Activity.InFieldOrder | pkg/unsent/activity.go:15-18 | Visited in field order, the map yields `page=` and `limit=` in decimal for the set fields. |
| Activity.QueryContent | pkg/unsent/activity.go:15-22 | In any iteration order, the query holds exactly those fragments. |
| Activity.QueryReadsBack | pkg/unsent/activity.go:15-22 | Once a field is set, splitting the query on `&` gives the fragments, one per set field. |
| Stats.Get | pkg/unsent/stats.go:11-25 | `/stats`, with `?` and the query only when non-empty. The path is bare exactly when both dates are nil. |
| Stats.QueryMapNoneContribute | pkg/unsent/stats.go:15-18 | The map yields no fragment exactly when both dates are nil. |
| Stats.InFieldOrder | pkg/unsent/stats.go:15-18 | Visited in field order, the map yields one RFC 3339 fragment per set date. |
| Stats.QueryContent | pkg/unsent/stats.go:15-22 | In any iteration order, the query holds exactly those fragments. |
| Metrics.Get | pkg/unsent/metrics.go:11-24 | `/metrics`, with `?` and the query only when non-empty. The path is bare exactly when the period is nil. |
| Metrics.PathOfPeriod | pkg/unsent/metrics.go:15-21 | The path is `/metrics` or `/metrics?period=<period>`, whatever the visiting order. |
| Analytics.Get | pkg/unsent/analytics.go:10-12 | A GET of `/analytics` without body or options. |
| Analytics.GetTimeSeries | pkg/unsent/analytics.go:15-29 | `/analytics/time-series`, with `?` and the query only when non-empty. The path is bare exactly when days and domain are nil. |
| Analytics.TimeSeriesNoneContribute | pkg/unsent/analytics.go:19-22 | The map yields no fragment exactly when days and domain are nil. |
| Analytics.TimeSeriesInFieldOrder | pkg/unsent/analytics.go:19-22 | Visited in field order, the map yields `days=` in decimal and `domain=` verbatim for the set fields. |
| Analytics.TimeSeriesQueryContent | pkg/unsent/analytics.go:19-26 | In any iteration order, the query holds exactly those fragments. |
| Analytics.TimeSeriesReadsBack | pkg/unsent/analytics.go:19-26 | Splitting the query on `&` recovers the fields when the domain holds no `&`. |
| Analytics.GetReputation | pkg/unsent/analytics.go:32-38 | `/analytics/reputation?`, followed by `domain=<domain>&` when a domain is set. |

## Left out

- HTTP header names: Go canonicalises them (`Content-type` and `Content-Type` are one header). The model compares names as written, so `Client.LastHeaderWins`, `Client.HeaderUntouched` and `Client.DefaultHeadersKept` hold for names spelled the same way. For example, an option that sets `authorization` replaces the bearer token in Go, but `Client.DefaultHeadersKept` treats it as a different header.
- JSON encoding and decoding, `http.NewRequest`, `HTTPClient.Do` and `io.ReadAll` are oracles of `Client.Io`, and a read error of the body is folded into the transport error. `resp.Body.Close` is not modelled.
- `%f` float formatting and the time layouts (`time.RFC3339`, `2006-01-02T15:04:05Z`) are opaque functions. Only their use is modelled, not the text they produce. `Fmt.Time` keeps the location a time is shown in, but no lemma depends on it. With the layout of pkg/unsent/emails.go:50, Go writes the local clock time followed by a literal `Z`, and the model does not state this.
- The resource clients that `NewClient` attaches to the client (pkg/unsent/client.go:71-87) only point back to it, so they are left out. Each operation builds the call the generic request receives, and `Suppressions.List` shows the call going through `Client.Request`.
- The package's other resource files (domains, templates, campaigns, webhooks, contact books, API keys, settings, teams, system) and the older root-level package are not part of this model.
- The declarations of the generated parameter structs are not modelled. Their field types follow how the code formats them. `%s` means a string, `%f` a float32, and a map entry a pointer type handled by `buildQueryParams`, as the tests use them.
- Go's `int` is 64 bits wide and the model's integers are unbounded. No operation here does arithmetic on them, so nothing depends on the width.
- Helpers.RawUnion.Marshal: Go returns the stored slice itself, and the model returns its contents. Aliasing between the caller and the union after `MarshalJSON` is not modelled.
- Ad-hoc query values are inserted without URL escaping. The read-back lemmas (`Contacts.ListQueryReadsBack`, `Analytics.TimeSeriesReadsBack`, `Query.SplitQuery`) therefore require values free of `&`, which is all the code supports.
