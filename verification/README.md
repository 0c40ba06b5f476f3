# EnSync CLI — verified model of the request/response rules

The EnSync CLI is a command-line client for the EnSync messaging platform's
management API (events, access keys and their permissions, service key pairs,
workspaces). Most of it is glue: Cobra commands, a Viper configuration loader
and an HTTP client whose retries and rate limiting come from libraries. This
project models, in Dafny, the small deterministic rules underneath that glue,
and proves what they promise:

- list parameters (`app/api/params.go`): the defaults, the range check, and
  the query they become, with filter entries laid over the four fixed keys;
- request construction (`app/api/request.go`): the URL, the nil-body case, and
  the headers every request carries (`X-ACCESS-KEY`, `Accept`, and
  `Content-Type` only with a body), including Go's canonical spelling of header
  names;
- response handling (`app/api/response.go`): the nil checks, the error-status
  rule (the 4xx and 5xx classes of sections 15.5–15.6 of RFC 9110) and the
  fallback error message, which is shown to keep both the status code and the
  body text recoverable;
- the permission check (`app/domain/access_key.go`), where `"*"` grants every
  channel, and the event emptiness test (`app/domain/event.go`);
- middleware chaining and the logging wrapper's pass-through and log level
  (`app/api/middleware.go`);
- configuration (`app/config/config.go`): environment overrides applied in
  place on a `Config` object, validation, the configuration directory, and
  the override-then-validate order of `Load`.

Modules: `Wrappers` (Option/Result/Outcome), `Text` (Go's `byte`, the `%d`
verb and its parser, `string([]byte)`), `UrlValues` (`url.Values` with `Set`
semantics), `HttpHeader` (`http.Header` with canonical keys), `JsonValues`
(opaque JSON values and timestamps), then one module per source file:
`Params`, `Requests`, `Responses`, `AccessKeys`, `Events`, `Middlewares`,
`AppConfig`.

Foreign code is passed in as parameters: `url.Values.Encode` (a function
argument of `BuildUrl`), `json.Marshal` (an argument of `MarshalBody`), the
failure of `http.NewRequestWithContext` (an argument of `BuildRequest`), what
the wrapped transport returned (arguments of `RoundTrip`), the environment
(an `Environment` value) and Viper's reading of the configuration file (a
`readConfig` function argument of `Load`).

Two behaviours worth knowing: `ListParams.Validate` accepts only `ASC`,
`DESC`, `asc` and `desc` as the sort order, so a mixed-case spelling such as
`Asc` is rejected (app/api/params.go:46); and a filter entry named like one
of the four fixed query parameters replaces that parameter's value
(app/api/params.go:32-34).

## Model

| member | source | states |
|---|---|---|
| `Params.DefaultListParams` | app/api/params.go:16-23 | page 0, limit 10, order DESC by createdAt, no filter, and these defaults pass `Validate` |
| `Params.Validate` | app/api/params.go:39-50 | passes iff pageIndex ≥ 0, 1 ≤ limit ≤ 100 and order ∈ {ASC, DESC, asc, desc}; a bad page index is reported before a bad limit, and a bad limit before a bad order, each with the offending value |
| `Params.ValidateIgnoresOrderByAndFilter` | app/api/params.go:8-14 | the sort field and the filter never affect the verdict: the `oneof=name createdAt` tag is not enforced |
| `Params.MixedCaseOrderRejected` | app/api/params.go:46-48 | "Asc" and "Desc" are rejected and reported verbatim |
| `Params.MessageCarriesValue` | app/api/params.go:40-45 | the page-index and limit messages end with the offending number in decimal, which reads back exactly |
| `Params.ToQuery` | app/api/params.go:25-37 | whatever order the filter map is ranged in, the result is the four fixed parameters with every filter entry laid over them |
| `Params.QueryKeys` | app/api/params.go:26-34 | the key set is exactly {pageIndex, limit, order, orderBy} ∪ filter keys, and every key holds exactly one value |
| `Params.FilterEntriesWin` | app/api/params.go:32-34 | every filter entry appears with its own value, also over a fixed key of the same name |
| `Params.FixedValuesUnlessOverridden` | app/api/params.go:27-30 | a fixed key the filter does not name holds the decimal page index / limit (reading back as the integers) or the order / sort field verbatim |
| `Text.Decimal` | app/api/params.go:27-28 | `%d`: non-empty, a leading '-' exactly for negative values, digits otherwise |
| `Text.DecimalRoundTrip` | app/api/params.go:27-28 | the `%d` rendering reads back as the same integer, so distinct values render differently |
| `Requests.BuildUrl` | app/api/request.go:13-19 | the result starts with base + path; with an empty query it is exactly base + path; otherwise `?` and the encoded query follow |
| `Requests.BuildUrlSplits` | app/api/request.go:13-19 | when base and path hold no `?`, splitting the URL at its first `?` gives back base + path and the encoded query, and an empty query leaves no `?` |
| `Requests.MarshalBody` | app/api/request.go:21-31 | a nil body gives no reader and no error; a reader is produced iff a body is given and marshals; a marshal failure is wrapped with context |
| `Requests.Request.constructor` | app/api/request.go:34 | a new request has the given method (GET when empty), URL and body and an empty header |
| `Requests.Request.SetHeader` | app/api/request.go:39-42 | `Header.Set` stores one value under the canonical key |
| `Requests.CanonicalNames` | app/api/constants.go:5-7 | the three header names are stored as X-Access-Key, Accept and Content-Type |
| `Requests.BuildRequest` | app/api/request.go:33-46 | a creation failure is wrapped with context; otherwise a fresh request with the given method (GET when empty), URL and body whose headers are exactly the access key, `Accept: application/json`, and `Content-Type: application/json` iff there is a body |
| `Requests.StandardHeadersRead` | app/api/request.go:39-43 | reading the headers back gives the configured key (under every spelling of its name that differs from X-ACCESS-KEY only in ASCII case, as the test's server reads it), JSON as the accepted type, and a content type iff there is a body |
| `HttpHeader.CanonicalKey` | app/api/request.go:39-42 | the canonical form has the key's length, leaves a non-token key unchanged, and upper-cases a token's first letter |
| `HttpHeader.Set` | app/api/request.go:39-42 | adds exactly the canonical key, under which `Get` then returns the value |
| `HttpHeader.Get` | app/api/request.go:39-42 | a name whose canonical form is absent reads as "" |
| `HttpHeader.CanonicalKeyIdempotent` | app/api/request.go:39-42 | canonicalising an already canonical name changes nothing, so `Set` under a canonical name stores it as given |
| `HttpHeader.CanonicalKeyIgnoresCase` | app/api/request.go:39-42 | header names that differ only in ASCII case reach the same entry |
| `HttpHeader.GetAfterSet` | app/api/request.go:39-42 | after `Set`, `Get` under any spelling with the same canonical form returns the value; other names are untouched |
| `Responses.ReadResponseBody` | app/api/response.go:10-20 | a nil response or nil body is an error with no bytes; a failed read is a wrapped error; a successful read returns exactly the body contents, and only then is the result a success |
| `Responses.IsErrorStatus` | app/api/response.go:33-35 | for codes 100–599, an error status is exactly one of the 4xx or 5xx class |
| `Responses.ErrorStatusMonotone` | app/api/response.go:33-35 | any code above an error status is an error status |
| `Responses.HandleErrorResponse` | app/api/response.go:22-24 | the message starts with "request failed with status " |
| `Responses.ErrorMessageRoundTrip` | app/api/response.go:22-24 | the status code and the raw body text both read back exactly from the message, even when the body holds a ':' |
| `AccessKeys.ContainsOrWildcard` | app/domain/access_key.go:65-72 | the scan returns true iff some entry is `"*"` or equals the channel |
| `AccessKeys.Permissions.HasSendPermission` | app/domain/access_key.go:57-59 | true iff the send list grants the channel; the receive list and resources play no part, and the permissions are not modified |
| `AccessKeys.Permissions.HasReceivePermission` | app/domain/access_key.go:61-63 | true iff the receive list grants the channel; the send list and resources play no part, and the receiver is not modified |
| `AccessKeys.WildcardGrantsAll` | app/domain/access_key.go:5-7 | a list holding `"*"` grants every channel |
| `AccessKeys.ExactMatchWithoutWildcard` | app/domain/access_key.go:66-70 | without `"*"`, a channel is granted iff some entry equals it exactly |
| `AccessKeys.CaseSensitive` | app/domain/access_key.go:67 | ["orders"] grants "orders" but not "Orders" |
| `AccessKeys.EmptyGrantsNothing` | app/domain/access_key.go:71 | an empty or nil list grants no channel |
| `AccessKeys.GrantsIgnoresOrder` | app/domain/access_key.go:66-70 | a permutation of the list grants the same channels |
| `AccessKeys.GrantsMonotone` | app/domain/access_key.go:66-70 | adding entries never revokes a permission |
| `Events.Event.IsZero` | app/domain/event.go:18-20 | zero iff the event equals the zero event apart from its payload and timestamps |
| `Events.NonZeroWhenIdentified` | app/domain/event.go:18-20 | an event with an ID or a name is not zero; the zero event is zero |
| `Events.IsZeroIgnoresPayloadAndTimes` | app/domain/event.go:18-20 | payload and timestamps do not affect `IsZero` |
| `Middlewares.ChainMiddleware` | app/api/middleware.go:58-63 | the downward loop yields m1(m2(…mn(t))) |
| `Middlewares.NestLayers` | app/api/middleware.go:58-63 | the chained transport has exactly one layer per middleware, first listed outermost, over the original transport, whose base is unchanged |
| `Middlewares.NestAppend` | app/api/middleware.go:58-63 | chaining a concatenated list is chaining the second list and then the first around it |
| `Middlewares.NestEmpty` | app/api/middleware.go:58-63 | with no middleware the transport is returned unchanged |
| `Middlewares.RoundTrip` | app/api/middleware.go:26-56 | an inner error is returned with no response and logged at Error; an inner response is returned unchanged with no error and logged at its status level; a nil response with no error is not logged |
| `Middlewares.StatusLevel` | app/api/middleware.go:46-52 | non-Debug exactly for error statuses, and Error exactly from 500 on |
| `Middlewares.StatusLevelClassifies` | app/api/middleware.go:46-52 | Warn exactly for the statuses 400–499 |
| `Middlewares.StatusLevelMonotone` | app/api/middleware.go:46-52 | a higher status never gets a lower log level |
| `AppConfig.Config.constructor` | app/config/config.go:23-26 | a config holds the given base URL and debug flag |
| `AppConfig.Config.Validate` | app/config/config.go:47-52 | fails iff the base URL is empty, with the "base_url is required" message |
| `AppConfig.Config.ApplyEnvironmentOverrides` | app/config/config.go:69-81 | the base URL is kept if set, else taken from ENSYNC_BASE_URL; debug is kept if on, else becomes true iff ENSYNC_DEBUG parses as true; no other state changes |
| `AppConfig.BaseUrlPrecedence` | app/config/config.go:70-72 | a set base URL is never replaced; an empty one becomes the environment value, possibly empty |
| `AppConfig.DebugPrecedence` | app/config/config.go:74-80 | debug on stays on; from off it takes the parsed value, and stays off for an empty or unparsable variable |
| `AppConfig.ParseBool` | app/config/config.go:76 | `strconv.ParseBool`: an accepted spelling has 1 to 5 characters and starts with one of 1tT0fF, and its first character decides the value |
| `AppConfig.ParseBoolFacts` | app/config/config.go:76 | `ParseBool` reads back `FormatBool`, rejects "" and spellings outside its list |
| `AppConfig.UserHomeDir` | app/config/config.go:88-91 | a home directory, when there is one, is non-empty |
| `AppConfig.JoinPathKeepsHome` | app/config/config.go:93 | the joined path starts with the home path up to its run of trailing separators (the whole home path when it has none), and what is cut is separators only |
| `AppConfig.JoinPath` | app/config/config.go:93 | the joined path ends with "/" and the name, and is home + "/" + name for a home without trailing separator |
| `AppConfig.ConfigDir` | app/config/config.go:83-94 | a non-empty ENSYNC_CONFIG_DIR wins; otherwise the home directory joined with ".ensync" (home + "/.ensync" for a home without trailing separator), or "." without a home directory; never empty |
| `AppConfig.Load` | app/config/config.go:28-45 | file errors are wrapped and returned; otherwise overrides are applied before validation, and the fresh config holds the overridden settings |
| `AppConfig.EnvironmentSuppliesMissingBaseUrl` | app/config/config.go:38-40 | a file without a base URL still loads when the environment supplies one |
| `AppConfig.LoadFailsOnlyWithoutBaseUrl` | app/config/config.go:38-44 | for a readable file, loading fails iff neither the file nor the environment gives a base URL |

## Left out

- `app/api/client.go`: an older revision of the client that does not match the rest of the package (other field and constant names, a `%d` applied to a string ID, a `?` appended for an empty non-nil query); `buildURL` in request.go is modelled instead. Its remaining logic is HTTP I/O and JSON decoding.
- Retries, backoff and rate limiting: they live in `go-retryablehttp` and `x/time/rate`, which are time- and concurrency-based and are not part of this model.
- `app/api/client_option.go`, `app/api/contract.go`: option setters and interface declarations without logic; the constants of `app/api/constants.go` appear as literals.
- JSON encoding and decoding (`json.Marshal` on a non-nil body, `unmarshalResponse`, structured API errors): foreign code, passed in as a function or left out.
- `url.Values.Encode` and `url.PathEscape`: not modelled; `BuildUrl` takes the encoder as a parameter.
- `cmd/*.go`: flag wiring, pre-run hooks, printing and logger replacement.
- `app/domain/workspace.go`: plain records with no behaviour. `time.Time` values are opaque instants; JSON payloads and resource maps are opaque values.
- Context cancellation and the request's context: no time or concurrency is modelled.
- `Requests.BuildRequest`: the URL is kept as the given string; the parsing inside `http.NewRequestWithContext` (a `*url.URL`, with an empty port removed from the host) and its validity checks on the method and URL are not modelled, only passed in as `createFailure`.
- Pointer receivers: `(*Permissions).HasSendPermission`/`HasReceivePermission`, `(*Event).IsZero` and `(*ListParams).ToQuery`/`Validate` take pointers in Go and are modelled on values; a nil receiver, which panics in Go (for instance an access key whose optional permissions are absent), is not modelled.
- `MarshalBody`: only an absent body counts as nil; Go's distinction between a nil interface and an interface holding a typed nil pointer is not modelled.
- `Middlewares.RoundTrip`: the method, URL, duration and error fields of the log record are not modelled, only its level, message and status.
- `Middlewares.ChainMiddleware`: a middleware is modelled as one named layer; middlewares that build arbitrary transports are not.
- `Text.BytesToString`: turns each byte into the character with the same code; the UTF-8 reading of a Go string is not modelled.
- `AppConfig.JoinPath`: removes only trailing separators of the home path; the rest of `filepath.Clean` ("." and ".." elements, repeated separators inside the path) is not modelled.
- `AppConfig.UserHomeDir`: models the Unix behaviour ($HOME, an error when empty) only.
- `AppConfig.Load`: Viper's search for `config.yaml` and its decoding are a parameter; a missing file yields the zero settings, as Viper's empty configuration does.
