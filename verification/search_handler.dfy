/**
 The `/api/soundcloud/search` handler (server.js, lines 16-83) as a pure
 function: validate the query and the credential, bound the limit, build the
 upstream URL, and map the upstream outcome to one of four replies. The
 upstream call is a parameter (`fetch`, from URL to outcome), and so are the
 built-ins whose internals are not modelled.
 */
module SearchHandler {
  import opened JsValues
  import opened Configuration
  import opened Tracks

  /** The request's query parameters. Express's query parser never yields
      null, only undefined or a string. */
  datatype Query = Query(q: Field<string>, limit: Field<string>, clientId: Field<string>)

  /** `parseInt` (None standing for NaN; -0 reads as 0) and
      `encodeURIComponent`. */
  datatype Builtins = Builtins(parseInt: string -> Option<int>, encodeUriComponent: string -> string)

  /** What `response.json()` gives: a parse failure with its message, the
      document `null`, or a document whose `collection` property was read. A
      falsy non-array `collection` behaves like a missing one. */
  datatype Body = Malformed(message: string) | NullDocument | Document(collection: Field<seq<Item>>)

  /** The upstream call: the request fails in transport with a message, or a
      response arrives with its status, its body as text, and its body as JSON. */
  datatype Outcome = TransportError(message: string) | Response(status: int, text: string, json: Body)

  /** The four kinds of reply the handler sends. */
  datatype Reply =
    | BadRequest(error: string)
    | UpstreamError(status: int, error: string, details: string)
    | InternalError(error: string, message: string)
    | Found(tracks: seq<Track>)

  /** The outcome of validation: a reply sent without calling upstream, or
      the URL to call. */
  datatype Step = Reject(reply: Reply) | Forward(url: string)

  const MissingQuery := "Query parameter \"q\" is required"
  const MissingClientId :=
    "Client ID is required. Set SOUNDCLOUD_CLIENT_ID environment variable or pass it as query parameter"
  const InternalErrorText := "Internal server error"

  /** The message of the TypeError thrown by reading `collection` of null. */
  const NullDocumentMessage := "Cannot read properties of null (reading 'collection')"

  /** The HTTP status the reply is sent with. */
  function StatusCode(r: Reply): int {
    match r
    case BadRequest(_) => 400
    case UpstreamError(status, _, _) => status
    case InternalError(_, _) => 500
    case Found(_) => 200
  }

  /** `response.ok`. */
  predicate IsOk(status: int) {
    200 <= status <= 299
  }

  /** `Math.min` on integers. */
  function Min(a: int, b: int): int {
    if a <= b then a else b
  }

  /** `parseInt(limit)`. When the parameter is absent the destructuring
      default, the number `defaultLimit`, is parsed, which gives that number
      back. */
  function ParsedLimit(limit: Field<string>, cfg: Config, parseInt: string -> Option<int>): Option<int> {
    match limit
    case Undefined => Some(cfg.defaultLimit)
    case Null => None
    case Defined(s) => parseInt(s)
  }

  /** `Math.min(parseInt(limit) || defaultLimit, maxLimit)`: only the upper
      bound is enforced, and NaN or 0 select the default. */
  function EffectiveLimit(limit: Field<string>, cfg: Config, parseInt: string -> Option<int>): (n: int)
    ensures n <= cfg.maxLimit
    ensures var p := ParsedLimit(limit, cfg, parseInt);
            p.Some? && p.value != 0 ==> (n == p.value <==> p.value <= cfg.maxLimit)
    ensures var p := ParsedLimit(limit, cfg, parseInt);
            !(p.Some? && p.value != 0) ==> n == Min(cfg.defaultLimit, cfg.maxLimit)
    ensures var p := ParsedLimit(limit, cfg, parseInt);
            n < cfg.maxLimit ==> n == cfg.defaultLimit || (p.Some? && n == p.value)
    ensures var p := ParsedLimit(limit, cfg, parseInt);
            p.Some? && p.value != 0 && p.value > cfg.maxLimit ==> n == cfg.maxLimit
  {
    var p := ParsedLimit(limit, cfg, parseInt);
    Min(if p.Some? && p.value != 0 then p.value else cfg.defaultLimit, cfg.maxLimit)
  }

  /** `client_id || config.soundcloud.clientId`. */
  function Credential(query: Query, cfg: Config): (id: string)
    ensures Truthy(query.clientId) ==> id == query.clientId.value
    ensures !Truthy(query.clientId) ==> id == cfg.clientId
    ensures id == "" <==> !Truthy(query.clientId) && cfg.clientId == ""
  {
    FirstTruthy([query.clientId]).GetOr(cfg.clientId)
  }

  /** The upstream search URL, from the already encoded query text. */
  function UpstreamUrl(base: string, encodedQuery: string, limit: int, clientId: string): string {
    base + ("/search/tracks?q=" + (encodedQuery + ("&limit=" + (NumberToString(limit) + ("&client_id=" + clientId)))))
  }

  /** The checks that precede the upstream call, in the handler's order, and
      the URL it calls when they pass. */
  function Prepare(query: Query, cfg: Config, builtins: Builtins): (s: Step)
    ensures !Truthy(query.q) ==> s == Reject(BadRequest(MissingQuery))
    ensures Truthy(query.q) && Credential(query, cfg) == "" ==> s == Reject(BadRequest(MissingClientId))
    ensures s.Forward? <==> Truthy(query.q) && Credential(query, cfg) != ""
    ensures s.Forward? ==>
              s.url == UpstreamUrl(cfg.apiBaseUrl, builtins.encodeUriComponent(query.q.value),
                                   EffectiveLimit(query.limit, cfg, builtins.parseInt), Credential(query, cfg))
  {
    if !Truthy(query.q) then Reject(BadRequest(MissingQuery))
    else
      var clientId := Credential(query, cfg);
      if clientId == "" then Reject(BadRequest(MissingClientId))
      else
        var limit := EffectiveLimit(query.limit, cfg, builtins.parseInt);
        Forward(UpstreamUrl(cfg.apiBaseUrl, builtins.encodeUriComponent(query.q.value), limit, clientId))
  }

  /** `data.collection || []`. */
  function CollectionItems(collection: Field<seq<Item>>): seq<Item> {
    if collection.Defined? then collection.value else []
  }

  /** The reply for an upstream outcome; the runtime's exceptions become
      internal errors carrying their message. */
  function Respond(outcome: Outcome, clock: nat -> Moment): (r: Reply)
    ensures !r.BadRequest?
    ensures outcome.TransportError? ==> r == InternalError(InternalErrorText, outcome.message)
    ensures outcome.Response? && !IsOk(outcome.status) ==>
              && r.UpstreamError?
              && StatusCode(r) == outcome.status
              && r.error == "SoundCloud API error: " + NumberToString(outcome.status)
              && r.details == outcome.text
    ensures r.UpstreamError? ==> outcome.Response? && !IsOk(outcome.status) && !IsOk(StatusCode(r))
    ensures r.Found? <==>
              && outcome.Response? && IsOk(outcome.status) && outcome.json.Document?
              && forall i :: 0 <= i < |CollectionItems(outcome.json.collection)| ==>
                   CollectionItems(outcome.json.collection)[i].Entry?
    ensures outcome.Response? && IsOk(outcome.status) && outcome.json.Document? && !outcome.json.collection.Defined? ==>
              r == Found([])
    ensures r.Found? ==>
              var items := CollectionItems(outcome.json.collection);
              && |r.tracks| == |items|
              && forall i :: 0 <= i < |items| ==> r.tracks[i] == Normalize(items[i].track, clock(i))
    ensures outcome.Response? && IsOk(outcome.status) && outcome.json.Malformed? ==>
              r == InternalError(InternalErrorText, outcome.json.message)
    ensures outcome.Response? && IsOk(outcome.status) && outcome.json.NullDocument? ==>
              r == InternalError(InternalErrorText, NullDocumentMessage)
    ensures outcome.Response? && IsOk(outcome.status) && outcome.json.Document? && !r.Found? ==>
              r == InternalError(InternalErrorText, NullTrackMessage)
    ensures r.InternalError? ==> StatusCode(r) == 500 && r.error == InternalErrorText
  {
    match outcome
    case TransportError(message) => InternalError(InternalErrorText, message)
    case Response(status, text, json) =>
      if !IsOk(status) then
        UpstreamError(status, "SoundCloud API error: " + NumberToString(status), text)
      else
        match json
        case Malformed(message) => InternalError(InternalErrorText, message)
        case NullDocument => InternalError(InternalErrorText, NullDocumentMessage)
        case Document(collection) =>
          var tracks := NormalizeAll(CollectionItems(collection), clock);
          if tracks.None? then InternalError(InternalErrorText, NullTrackMessage)
          else Found(tracks.value)
  }

  /** The whole handler: validation, then the upstream call on the URL it
      built, then the reply for what came back. */
  function Handle(query: Query, cfg: Config, builtins: Builtins, fetch: string -> Outcome, clock: nat -> Moment): (r: Reply)
    ensures !Truthy(query.q) ==> r == BadRequest(MissingQuery)
    ensures Truthy(query.q) && !Truthy(query.clientId) && cfg.clientId == "" ==> r == BadRequest(MissingClientId)
    ensures r.BadRequest? <==> !Truthy(query.q) || (!Truthy(query.clientId) && cfg.clientId == "")
    ensures r.BadRequest? ==> StatusCode(r) == 400
    ensures var step := Prepare(query, cfg, builtins);
            step.Forward? ==> r == Respond(fetch(step.url), clock)
  {
    match Prepare(query, cfg, builtins)
    case Reject(reply) => reply
    case Forward(url) => Respond(fetch(url), clock)
  }

  /** A request that fails validation gets the same reply whatever the
      upstream and the runtime would have done: no upstream call is made. */
  lemma RejectionIgnoresUpstream(query: Query, cfg: Config, builtins: Builtins,
                                 fetch1: string -> Outcome, clock1: nat -> Moment,
                                 fetch2: string -> Outcome, clock2: nat -> Moment)
    requires Prepare(query, cfg, builtins).Reject?
    ensures Handle(query, cfg, builtins, fetch1, clock1) == Handle(query, cfg, builtins, fetch2, clock2)
  {
  }

  /** The upstream URL determines its parameters, provided the encoded query
      holds no `&`: the encoded query, the limit and the client id can be
      read back from it. */
  lemma UrlDeterminesParameters(base: string, e1: string, n1: int, id1: string, e2: string, n2: int, id2: string)
    requires '&' !in e1 && '&' !in e2
    requires UpstreamUrl(base, e1, n1, id1) == UpstreamUrl(base, e2, n2, id2)
    ensures e1 == e2 && n1 == n2 && id1 == id2
  {
    var d1, d2 := NumberToString(n1), NumberToString(n2);
    var rest1, rest2 := d1 + ("&client_id=" + id1), d2 + ("&client_id=" + id2);
    CancelPrefix(base, "/search/tracks?q=" + (e1 + ("&limit=" + rest1)), "/search/tracks?q=" + (e2 + ("&limit=" + rest2)));
    CancelPrefix("/search/tracks?q=", e1 + ("&limit=" + rest1), e2 + ("&limit=" + rest2));
    SplitAtSeparator(e1, "&limit=" + rest1, e2, "&limit=" + rest2, '&');
    CancelPrefix("&limit=", rest1, rest2);
    assert '&' !in d1 && '&' !in d2;
    SplitAtSeparator(d1, "&client_id=" + id1, d2, "&client_id=" + id2, '&');
    CancelPrefix("&client_id=", id1, id2);
    NumberToStringInjective(n1, n2);
  }

  /** What the upstream reads back from a forwarded request's URL is the
      encoded query, the effective limit and the credential. */
  lemma ForwardedParameters(query: Query, cfg: Config, builtins: Builtins, e: string, n: int, id: string)
    requires Prepare(query, cfg, builtins) == Forward(UpstreamUrl(cfg.apiBaseUrl, e, n, id))
    requires '&' !in e
    requires Truthy(query.q) ==> '&' !in builtins.encodeUriComponent(query.q.value)
    ensures e == builtins.encodeUriComponent(query.q.value)
    ensures n == EffectiveLimit(query.limit, cfg, builtins.parseInt)
    ensures id == Credential(query, cfg) != ""
  {
    var e' := builtins.encodeUriComponent(query.q.value);
    UrlDeterminesParameters(cfg.apiBaseUrl, e, n, id,
                            e', EffectiveLimit(query.limit, cfg, builtins.parseInt), Credential(query, cfg));
  }

  /** With the configuration config.js resolves, the limit is 10 when parsing
      fails or gives 0, at most 50 otherwise, and a parsed value of at most 50
      (a negative one included) is used unchanged. */
  lemma ResolvedLimit(env: Environment, limit: Field<string>, parseInt: string -> Option<int>)
    ensures var n := EffectiveLimit(limit, Resolve(env), parseInt);
            var p := ParsedLimit(limit, Resolve(env), parseInt);
            && n <= 50
            && (!(p.Some? && p.value != 0) ==> n == 10)
            && (p.Some? && p.value != 0 && p.value <= 50 ==> n == p.value)
            && (p.Some? && p.value > 50 ==> n == 50)
  {
  }

  /** A `limit` of "-5" is not raised: the URL's limit parameter reads
      `-5`. */
  lemma NegativeLimitPassesThrough(env: Environment, parseInt: string -> Option<int>)
    requires parseInt("-5") == Some(-5)
    ensures EffectiveLimit(Defined("-5"), Resolve(env), parseInt) == -5
    ensures NumberToString(EffectiveLimit(Defined("-5"), Resolve(env), parseInt)) == "-5"
  {
    assert NumberToString(-5) == "-5" by {
      assert NaturalToString(5) == "5";
    }
  }

  /** A valid request whose upstream call answers 429 with body "rate
      limited" is relayed with the same status and the body as details. */
  lemma RateLimitedRelayed(query: Query, cfg: Config, builtins: Builtins, fetch: string -> Outcome,
                           clock: nat -> Moment, json: Body)
    requires Prepare(query, cfg, builtins).Forward?
    requires fetch(Prepare(query, cfg, builtins).url) == Response(429, "rate limited", json)
    ensures var r := Handle(query, cfg, builtins, fetch, clock);
            && StatusCode(r) == 429
            && r == UpstreamError(429, "SoundCloud API error: 429", "rate limited")
  {
    assert NumberToString(429) == "429" by {
      assert NaturalToString(4) == "4";
      assert NaturalToString(42) == "42";
      assert NaturalToString(429) == NaturalToString(42) + "9";
    }
  }

  /** A valid request whose upstream collection holds one track with only
      `id: 1` and `title: "T"` gets one normalised track with id "1", title
      "T", an empty description, the soundcloud source and the current time
      as its publication time. */
  lemma SingleTrackExample(query: Query, cfg: Config, builtins: Builtins, fetch: string -> Outcome,
                           clock: nat -> Moment, status: int, text: string)
    requires IsOk(status)
    requires Prepare(query, cfg, builtins).Forward?
    requires fetch(Prepare(query, cfg, builtins).url) ==
             Response(status, text, Document(Defined([Entry(UpstreamTrack(
               Defined(NumericId(1)), Defined("T"), Undefined, Undefined, Undefined,
               Undefined, Undefined, Undefined, Undefined, Undefined, Undefined))])))
    ensures var r := Handle(query, cfg, builtins, fetch, clock);
            && r.Found? && |r.tracks| == 1
            && r.tracks[0].id == "1"
            && r.tracks[0].title == "T"
            && r.tracks[0].description == ""
            && r.tracks[0].source == "soundcloud"
            && r.tracks[0].publishedAt == clock(0).isoNow
  {
    var t := UpstreamTrack(Defined(NumericId(1)), Defined("T"), Undefined, Undefined, Undefined,
                           Undefined, Undefined, Undefined, Undefined, Undefined, Undefined);
    NormalizedFields(t, clock(0), Normalize(t, clock(0)));
    assert NumberToString(1) == "1" by {
      assert NaturalToString(1) == "1";
    }
  }
}
