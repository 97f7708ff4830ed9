# SoundCloud search proxy: a Dafny model of its decision core

The proxy answers `GET /api/soundcloud/search?q=…&limit=…&client_id=…`. It
checks the query and a client credential. It bounds the result limit, builds the
SoundCloud API URL and calls it. It then relays an upstream error, reports an
internal error, or returns the upstream tracks reshaped into a fixed record.
Its configuration is resolved once from the process environment.

This project models that core as pure functions over immutable values:

- `js_values.dfy` (module `JsValues`): the JavaScript semantics the code relies
  on. A property read is `Field<T>` (`Undefined`, `Null` or `Defined(v)`).
  Truthiness treats `undefined`, `null`, `""` and `0` as falsy. A `||` chain is
  `FirstTruthy`. A template literal renders a missing value as the text
  `undefined`. An integral Number prints as decimal text (`NumberToString`),
  with a reader that inverts it.
- `configuration.dfy` (module `Configuration`): `config.js` as a function from
  the environment map to a `Config` record, plus the start-up warning condition.
  `ResolveWith` takes the hard-coded client id as a parameter, because
  `config.js` presents that literal as the slot to edit. `Resolve` fills it with
  the literal the file ships.
- `tracks.dfy` (module `Tracks`): the per-track normaliser and the mapping over
  `collection`. `Date.now()`, the text of `Math.random()` and
  `new Date().toISOString()` form a `Moment`. The track at position `i`
  receives `clock(i)`.
- `search_handler.dfy` (module `SearchHandler`): the request handler.
  `Prepare` runs the two checks in order and builds the URL. `Respond` maps the
  upstream `Outcome` to a `Reply`: `BadRequest` (400), `UpstreamError` (the
  upstream's status), `InternalError` (500) or `Found` (200). `Handle` composes
  them, with the upstream call given as a function `fetch` from URL to outcome.
  `parseInt` and `encodeURIComponent` are opaque parameters (`Builtins`).
  `None` from `parseInt` stands for NaN.

Three behaviours of the code are modelled as written, although one might
expect otherwise: that a negative limit falls back to the default, that a
deployment without a client id variable gets the production warning, and that
the first defined port variable is used even when it is empty.

- A negative `limit` is not replaced by the default. `parseInt("-5")` is -5,
  which is truthy, so `Math.min` keeps it. Only the upper bound is enforced.
- The resolved client id is never empty, because the hard-coded literal is
  non-empty. The production warning therefore never fires.
- `PORT`/`PROXY_PORT`: the first *non-empty* variable wins, not the first
  defined one. An empty `PORT` falls through to `PROXY_PORT`.

The client id goes into the upstream URL without percent-encoding.
`UrlDeterminesParameters` therefore reads it back as everything after
`&client_id=`.

## Model

| member | source | states |
|---|---|---|
| JsValues.FirstTruthy | server.js:61-65 | a chain of JavaScript or-operators yields nothing exactly when every link is undefined, null or empty; otherwise it yields the first truthy link, which is non-empty |
| JsValues.NumberRoundTrip | server.js:36 | the decimal text of any integer (the limit, a clock reading, a numeric id) reads back as that integer |
| Configuration.ResolveWith | config.js:4-40 | port is PORT, else PROXY_PORT, else the number 8080. nodeEnv is NODE_ENV, else "production". clientId is SOUNDCLOUD_CLIENT_ID, else VITE_SOUNDCLOUD_CLIENT_ID, else the hard-coded literal. Each step takes a variable only when it is set and non-empty |
| Configuration.Resolve | config.js:16-25 | with the shipped literal the client id is never empty; host and API base URL are the fixed constants; defaultLimit 10 is at most maxLimit 50 |
| Configuration.WarningCondition | config.js:43-46 | the start-up warning fires iff both client-id variables are unset or empty, the literal is empty, and NODE_ENV is unset, empty or "production" |
| Configuration.NeverWarns | config.js:43-46 | with the shipped literal, no environment makes the warning fire |
| Configuration.FixedSettings | config.js:4-39 | only port, nodeEnv and clientId vary: host, API base URL, both limits, CORS enabled, server name "SoundCloud Proxy Server" and version "1.0.0" are the same for every environment and literal, and the literal affects only the client id |
| Tracks.Normalize | server.js:60-72 | every normalised track has a non-empty id, title, channel title and permalink URL, and source "soundcloud" |
| Tracks.NormalizedFields | server.js:61-71 | each output field's source and fallback order. A numeric id (even 0) wins, then a non-empty string id, then permalink_url, then the generated id. title defaults to "Untitled" and description to "". The thumbnail is artwork, then avatar, then "". channelTitle is username, then full_name, then "Unknown Artist". duration and viewCount are the upstream number or 0. publishedAt is created_at, else the current ISO time. streamUrl passes through. permalinkUrl is permalink_url, else the built URL |
| Tracks.GeneratedIdInjective | server.js:61 | two generated ids are equal only if clock reading and random text are equal |
| Tracks.GeneratedIdsDiffer | server.js:61 | two tracks with neither id nor permalink_url get different ids when their clock readings or random texts differ |
| Tracks.UndefinedPermalinkSegments | server.js:71 | with no permalink_url and both permalink segments undefined, permalinkUrl is `https://soundcloud.com/undefined/undefined` |
| Tracks.MomentOnlyFillsGaps | server.js:61-68 | a track that has its own id or permalink and a created_at normalises the same at every moment |
| Tracks.MapEntries | server.js:60 | mapping fails exactly when some element is null; otherwise the output has the same length and order, element i mapped with clock(i) |
| Tracks.NormalizeAll | server.js:60-72 | the normalised list has the collection's length and order, each element normalised, and fails exactly when an element is null |
| SearchHandler.EffectiveLimit | server.js:34 | the limit never exceeds maxLimit. NaN, 0 or an absent limit give min(default, max). A parsed non-zero value is kept exactly when it is at most maxLimit, negatives included, and a parsed value above maxLimit gives maxLimit |
| SearchHandler.Credential | server.js:25 | the query's client_id when non-empty, else the configured one; empty iff both are |
| SearchHandler.Prepare | server.js:18-36 | missing or empty q is rejected with 400 before the credential is looked at. Otherwise a missing credential is rejected with 400. Otherwise the URL is base + `/search/tracks?q=` + enc(q) + `&limit=` + limit + `&client_id=` + credential |
| SearchHandler.Respond | server.js:40-82 | a transport error gives 500 with its message. A non-ok status is relayed with the same status, the message "SoundCloud API error: " followed by that status, and the body text as details. A malformed body gives 500 with the parse error's message. A null document or a null element gives 500 with the message of the TypeError reading it. Otherwise the reply is 200 with one normalised track per element, in order, and an empty list for a missing collection |
| SearchHandler.Handle | server.js:16-83 | the reply is a validation rejection (400) exactly when q is missing or empty, or no credential is available. A missing q always gives the query message, whatever the other inputs. A request that passes validation gets the reply for what the upstream returns for the URL it built |
| SearchHandler.RejectionIgnoresUpstream | server.js:20-31 | a request rejected by validation gets the same reply whatever the upstream or the runtime would do |
| SearchHandler.UrlDeterminesParameters | server.js:35-36 | when the encoded query has no `&`, the URL determines the encoded query, the limit and the client id |
| SearchHandler.ForwardedParameters | server.js:34-36 | the parameters read back from a forwarded URL are enc(q), the effective limit and the non-empty credential |
| SearchHandler.ResolvedLimit | server.js:34 | with the resolved configuration the limit is at most 50. NaN or 0 give exactly 10. Parsed values up to 50 pass unchanged, negatives included. Parsed values above 50 give 50 |
| SearchHandler.NegativeLimitPassesThrough | server.js:34 | `limit=-5` yields effective limit -5, written `-5` in the URL |
| SearchHandler.RateLimitedRelayed | server.js:48-54 | a valid request whose upstream call answers 429 with body "rate limited" is relayed as status 429 with details "rate limited" |
| SearchHandler.SingleTrackExample | server.js:60-72 | a valid request whose upstream answers `collection: [{id: 1, title: "T"}]` gets one track with id "1", title "T", description "", source "soundcloud" and the current time as publishedAt |

## Left out

- Express and CORS wiring, `app.listen` and start-up logging (server.js:4-13, 90-101). These are framework and I/O code.
- The `/health` handler (server.js:86-88). It returns a constant.
- `console.log`, `console.error` and `console.warn` output. Only the warning's condition is modelled.
- The `fetch` call itself, with its `Accept` and `User-Agent` headers. The upstream is a function from URL to an abstract outcome. `response.text()` is assumed to succeed on a non-ok response.
- The internals of `parseInt` and `encodeURIComponent`. Both are opaque parameters. `UrlDeterminesParameters` and `ForwardedParameters` take "the encoded query holds no `&`" as a hypothesis; real percent-encoding guarantees it.
- Clocks and randomness. `Date.now()` is an integer. `Math.random()` is represented only by its text. ISO-8601 formatting is not modelled. Date.now() is read once per track position, whether or not that track needs it.
- NumberToString: covers only integers that JavaScript prints as plain digits. Exponent notation (magnitude 1e21 and above) and rounding above 2^53 are not modelled. This matters only for the text of a huge negative parsed limit or numeric id.
- JSON values of unexpected types are not modelled. Examples: a numeric title, a boolean or fractional id, a truthy non-array `collection`, or array-valued query parameters. A non-null primitive element of `collection` reads as a track with no properties. A falsy non-array `collection` reads as a missing one.
- Exceptions other than those modelled (transport failure, malformed JSON, a null document, a null element) are not modelled. Neither is an invalid status code rejected by the HTTP layer. Upstream statuses are relayed as given.
- How a reply is serialised is not modelled. For example, JSON drops an undefined `streamUrl`.
