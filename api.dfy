/** Request construction around the two market-data providers: the query
    string helper, the FMP URL with its `apikey` parameter, the Polygon URL
    with its bearer header, and the status gate every response passes. The
    rate-limiting queue, the network call and JSON parsing are parameters or
    left out; an environment variable is an input. */
module Api {
  import opened Text

  const PolygonBaseUrl: string := "https://api.polygon.io/v3/"
  const FmpBaseUrl: string := "https://financialmodelingprep.com/"
  const FailurePrefix: string := "Failed to fetch data: "

  datatype Option<T> = None | Some(value: T)

  /** The outcome of a fetch: the parsed body, or the message of the thrown error. */
  datatype Result<T> = Success(value: T) | Failure(message: string)

  /** A `process.env` entry, which may be missing. */
  datatype EnvVar = Unset | Set(text: string)

  /** What a template literal makes of an environment entry: a missing one
      becomes the text "undefined". */
  function Interpolated(v: EnvVar): string
  {
    match v
    case Unset => "undefined"
    case Set(t) => t
  }

  // ---------------------------------------------------------------------
  // Query strings

  /** A `Record<string, string>` as its entries, in enumeration order. */
  type Params = seq<(string, string)>

  /** One `key=value` piece, both inserted verbatim. */
  function Entry(key: string, value: string): string
  {
    key + "=" + value
  }

  function Pieces(params: Params): (r: seq<string>)
    ensures |r| == |params|
  {
    seq(|params|, i requires 0 <= i < |params| => Entry(params[i].0, params[i].1))
  }

  /** The entries as `key=value` pieces joined by `&`, without encoding. */
  function ToQueryString(params: Params): string
  {
    Join(Pieces(params), "&")
  }

  /** Σ (|key| + |value| + 1) over the entries. */
  function EntriesLength(params: Params): nat
  {
    if |params| == 0 then 0
    else |params[0].0| + |params[0].1| + 1 + EntriesLength(params[1..])
  }

  /** Reading a query string back: split on `&`, then each piece at its
      first `=`. The empty string holds no entries. */
  function ParseQueryString(s: string): Params
  {
    if s == "" then []
    else
      var parts := Split(s, '&');
      seq(|parts|, i requires 0 <= i < |parts| => ParsePair(parts[i]))
  }

  function ParsePair(piece: string): (string, string)
  {
    var parts := Split(piece, '=');
    (parts[0], Join(parts[1..], "="))
  }

  /** No key or value holds a character that the format reserves. */
  predicate Unreserved(params: Params)
  {
    forall i :: 0 <= i < |params| ==>
      '&' !in params[i].0 && '=' !in params[i].0 &&
      '&' !in params[i].1 && '=' !in params[i].1
  }

  lemma QueryStringEmpty()
    ensures ToQueryString([]) == ""
  {
  }

  lemma QueryStringSingle(key: string, value: string)
    ensures ToQueryString([(key, value)]) == key + "=" + value
  {
  }

  /** The first entry's piece comes first, then `&` and the rest. */
  lemma QueryStringCons(params: Params)
    requires |params| > 1
    ensures ToQueryString(params)
         == Entry(params[0].0, params[0].1) + "&" + ToQueryString(params[1..])
  {
    assert Pieces(params)[1..] == Pieces(params[1..]);
  }

  /** Entry order is kept: the string of a concatenation is the two strings
      joined by one `&`. */
  lemma {:induction false} QueryStringAppend(p: Params, q: Params)
    requires |p| > 0 && |q| > 0
    ensures ToQueryString(p + q) == ToQueryString(p) + "&" + ToQueryString(q)
  {
    assert Pieces(p + q) == Pieces(p) + Pieces(q);
    JoinAppend(Pieces(p), Pieces(q), "&");
  }

  /** n entries give Σ (|key| + |value| + 1) characters plus n - 1 separators;
      in particular only the empty record gives the empty string. */
  lemma {:induction false} QueryStringLength(params: Params)
    ensures |params| > 0 ==> |ToQueryString(params)| == EntriesLength(params) + |params| - 1
    ensures ToQueryString(params) == "" <==> |params| == 0
  {
    if |params| > 1 {
      QueryStringCons(params);
      QueryStringLength(params[1..]);
    }
  }

  lemma EntryParses(key: string, value: string)
    requires '=' !in key && '=' !in value
    ensures ParsePair(Entry(key, value)) == (key, value)
  {
    assert Entry(key, value) == key + ['='] + value;
    SplitAtFirst(key, '=', value);
    SplitWithout(value, '=');
  }

  /** Keys and values go in verbatim: when none holds `&` or `=`, splitting
      the query string recovers the entries in order. */
  lemma QueryStringRoundTrip(params: Params)
    requires Unreserved(params)
    ensures ParseQueryString(ToQueryString(params)) == params
  {
    QueryStringLength(params);
    if |params| > 0 {
      var pieces := Pieces(params);
      forall i | 0 <= i < |pieces|
        ensures '&' !in pieces[i]
      {
      }
      SplitJoin(pieces, '&');
      var parsed := ParseQueryString(ToQueryString(params));
      assert |parsed| == |params|;
      forall i | 0 <= i < |params|
        ensures parsed[i] == params[i]
      {
        EntryParses(params[i].0, params[i].1);
      }
    }
  }

  // ---------------------------------------------------------------------
  // FMP: the API key travels as the last query parameter

  /** `&` when the path already carries a query, `?` otherwise. */
  function FmpSeparator(path: string): string
  {
    if '?' in path then "&" else "?"
  }

  function FmpUrl(path: string, apiKey: EnvVar): string
  {
    FmpBaseUrl + path + FmpSeparator(path) + "apikey=" + Interpolated(apiKey)
  }

  lemma FmpSeparatorChoice(path: string)
    ensures FmpSeparator(path) == "&" <==> '?' in path
    ensures FmpSeparator(path) == "?" <==> '?' !in path
  {
  }

  /** The URL is base and path unchanged, one separator character, and
      `apikey=` with the key text at the end. */
  lemma FmpUrlShape(path: string, apiKey: EnvVar)
    ensures var url := FmpUrl(path, apiKey);
      var n := |FmpBaseUrl| + |path|;
      && |url| == n + 1 + |"apikey="| + |Interpolated(apiKey)|
      && url[..n] == FmpBaseUrl + path
      && url[n] == (if '?' in path then '&' else '?')
      && url[n + 1..] == "apikey=" + Interpolated(apiKey)
  {
  }

  /** The `?` count of the URL is the path's and the key's, plus one exactly
      when the path had none. */
  lemma FmpUrlQuestionMarks(path: string, apiKey: EnvVar)
    ensures CountChar(FmpUrl(path, apiKey), '?')
         == CountChar(path, '?') + (if '?' in path then 0 else 1)
            + CountChar(Interpolated(apiKey), '?')
  {
    var key, sep := Interpolated(apiKey), FmpSeparator(path);
    NoQuestionMarkInBase();
    NoQuestionMarkInKeyName();
    CountOfFive(FmpBaseUrl, path, sep, "apikey=", key, '?');
    assert CountChar(sep, '?') == if '?' in path then 0 else 1;
  }

  /** A path and a key without `?` give a URL with exactly one `?`. */
  lemma FmpUrlSingleQuery(path: string, apiKey: EnvVar)
    requires '?' !in path && '?' !in Interpolated(apiKey)
    ensures CountChar(FmpUrl(path, apiKey), '?') == 1
  {
    FmpUrlQuestionMarks(path, apiKey);
    CountAbsent(path, '?');
    CountAbsent(Interpolated(apiKey), '?');
  }

  lemma CountOfFive(a: string, b: string, c: string, d: string, e: string, x: char)
    ensures CountChar(a + b + c + d + e, x)
         == CountChar(a, x) + CountChar(b, x) + CountChar(c, x) + CountChar(d, x) + CountChar(e, x)
  {
    CountAppend(a, b, x);
    CountAppend(a + b, c, x);
    CountAppend(a + b + c, d, x);
    CountAppend(a + b + c + d, e, x);
  }

  lemma NoQuestionMarkInBase()
    ensures CountChar(FmpBaseUrl, '?') == 0
  {
    assert '?' !in FmpBaseUrl;
    CountAbsent(FmpBaseUrl, '?');
  }

  lemma NoQuestionMarkInKeyName()
    ensures CountChar("apikey=", '?') == 0
  {
    assert '?' !in "apikey=";
    CountAbsent("apikey=", '?');
  }

  /** A path that ends in `?` plus a query string, as the screener call is
      built, gets the key appended with `&`. */
  lemma FmpUrlWithQuery(path: string, params: Params, apiKey: EnvVar)
    ensures FmpUrl(path + "?" + ToQueryString(params), apiKey)
         == FmpBaseUrl + path + "?" + ToQueryString(params) + "&apikey=" + Interpolated(apiKey)
  {
    var full := path + "?" + ToQueryString(params);
    assert full[|path|] == '?';
  }

  // ---------------------------------------------------------------------
  // Polygon: the API key travels as a bearer header

  /** The part of `RequestInit` the model keeps: its plain fields other than
      `headers`, and its headers when given as a plain record. */
  datatype RequestInit = RequestInit(fields: map<string, string>, headers: Option<map<string, string>>)

  /** `fields` stands for every field except `headers`, which has its own slot. */
  predicate WellFormed(init: RequestInit)
  {
    "headers" !in init.fields
  }

  function PolygonUrl(path: string): string
  {
    PolygonBaseUrl + path
  }

  /** The fields of the caller's options; spreading `undefined` gives none. */
  function CallerFields(options: Option<RequestInit>): map<string, string>
  {
    if options.Some? then options.value.fields else map[]
  }

  /** The caller's headers; a missing object or field spreads to none. */
  function CallerHeaders(options: Option<RequestInit>): map<string, string>
  {
    if options.Some? && options.value.headers.Some? then options.value.headers.value else map[]
  }

  /** The caller's options, with `headers` replaced by the caller's headers
      followed by `Authorization`, so that the later key wins. */
  function WithAuth(options: Option<RequestInit>, apiKey: EnvVar): RequestInit
  {
    RequestInit(CallerFields(options),
                Some(CallerHeaders(options)["Authorization" := "Bearer " + Interpolated(apiKey)]))
  }

  lemma PolygonUrlShape(path: string)
    ensures |PolygonUrl(path)| == |PolygonBaseUrl| + |path|
    ensures PolygonUrl(path)[..|PolygonBaseUrl|] == PolygonBaseUrl
    ensures PolygonUrl(path)[|PolygonBaseUrl|..] == path
  {
  }

  /** `Authorization` always carries the bearer key; every other caller header
      and every other option field is kept as it was, and nothing is added. */
  lemma WithAuthKeepsCallerValues(options: Option<RequestInit>, apiKey: EnvVar)
    ensures var r := WithAuth(options, apiKey);
      && r.headers.Some?
      && r.headers.value.Keys == CallerHeaders(options).Keys + {"Authorization"}
      && r.headers.value["Authorization"] == "Bearer " + Interpolated(apiKey)
      && (forall h :: h in CallerHeaders(options) && h != "Authorization" ==>
            r.headers.value[h] == CallerHeaders(options)[h])
      && r.fields == CallerFields(options)
      && ((options.None? || WellFormed(options.value)) ==> WellFormed(r))
  {
  }

  /** Whatever `Authorization` the caller passed has no effect. */
  lemma WithAuthOverridesCaller(fields: map<string, string>, headers: map<string, string>,
                                callerAuth: string, apiKey: EnvVar)
    ensures WithAuth(Some(RequestInit(fields, Some(headers["Authorization" := callerAuth]))), apiKey)
         == WithAuth(Some(RequestInit(fields, Some(headers))), apiKey)
  {
    var bearer := "Bearer " + Interpolated(apiKey);
    assert headers["Authorization" := callerAuth]["Authorization" := bearer]
        == headers["Authorization" := bearer];
  }

  /** Missing options, missing headers and empty headers all give the same
      request, whatever the other fields; its only header is the bearer one. */
  lemma WithAuthMissingOptions(fields: map<string, string>, apiKey: EnvVar)
    ensures WithAuth(None, apiKey) == WithAuth(Some(RequestInit(map[], None)), apiKey)
    ensures WithAuth(Some(RequestInit(fields, None)), apiKey)
         == WithAuth(Some(RequestInit(fields, Some(map[]))), apiKey)
    ensures WithAuth(Some(RequestInit(fields, None)), apiKey).fields == fields
    ensures WithAuth(Some(RequestInit(fields, None)), apiKey).headers
         == Some(map["Authorization" := "Bearer " + Interpolated(apiKey)])
    ensures WithAuth(None, apiKey).headers == Some(map["Authorization" := "Bearer " + Interpolated(apiKey)])
  {
  }

  /** Adding the header a second time changes nothing. */
  lemma WithAuthIdempotent(options: Option<RequestInit>, apiKey: EnvVar)
    ensures WithAuth(Some(WithAuth(options, apiKey)), apiKey) == WithAuth(options, apiKey)
  {
    var bearer := "Bearer " + Interpolated(apiKey);
    var once := CallerHeaders(options)["Authorization" := bearer];
    assert once["Authorization" := bearer] == once;
  }

  // ---------------------------------------------------------------------
  // The response gate and the two fetch functions

  /** The part of a fetch `Response` the model keeps; `body` is what
      `response.json()` yields. */
  datatype Response<T> = Response(ok: bool, statusText: string, body: T)

  /** What `fetch` is called with. */
  datatype Request = Request(url: string, options: Option<RequestInit>)

  /** A non-ok response throws with the status text; an ok one gives its body. */
  function FetchData<T>(response: Response<T>): Result<T>
  {
    if !response.ok then Failure(FailurePrefix + response.statusText)
    else Success(response.body)
  }

  /** Recovers the status text from a failure message. */
  function StatusTextOf(message: string): Option<string>
  {
    if |FailurePrefix| <= |message| && message[..|FailurePrefix|] == FailurePrefix
    then Some(message[|FailurePrefix|..])
    else None
  }

  /** The gate fails exactly on a non-ok response, with a message from which
      the status text can be read back; an ok response yields its body. */
  lemma FetchDataGate<T>(response: Response<T>)
    ensures FetchData(response).Failure? <==> !response.ok
    ensures response.ok ==> FetchData(response).value == response.body
    ensures !response.ok ==>
      && FetchData(response).message == "Failed to fetch data: " + response.statusText
      && StatusTextOf(FetchData(response).message) == Some(response.statusText)
  {
  }

  function PolygonRequest(path: string, options: Option<RequestInit>, apiKey: EnvVar): Request
  {
    Request(PolygonUrl(path), Some(WithAuth(options, apiKey)))
  }

  function FmpRequest(path: string, options: Option<RequestInit>, apiKey: EnvVar): Request
  {
    Request(FmpUrl(path, apiKey), options)
  }

  /** What `fetchData` makes of the outcome of `fetch`: a rejected fetch
      (a transport error) propagates unchanged; a response passes the gate. */
  function Gated<T>(outcome: Result<Response<T>>): Result<T>
  {
    match outcome
    case Failure(e) => Failure(e)
    case Success(response) => FetchData(response)
  }

  /** `polygonFetch` with the network as a parameter: one gated call on the
      prefixed URL with the bearer header. */
  function PolygonFetch<T>(path: string, options: Option<RequestInit>, apiKey: EnvVar,
                           network: Request -> Result<Response<T>>): Result<T>
  {
    Gated(network(PolygonRequest(path, options, apiKey)))
  }

  /** `fmpFetch` with the network as a parameter: one gated call on the URL
      with the key appended; the caller's options pass through unchanged. */
  function FmpFetch<T>(path: string, options: Option<RequestInit>, apiKey: EnvVar,
                       network: Request -> Result<Response<T>>): Result<T>
  {
    Gated(network(FmpRequest(path, options, apiKey)))
  }

  /** A rejected fetch fails with its own message; a response succeeds exactly
      when ok, with its body, and otherwise fails with the status-text message. */
  lemma GatedSpec<T>(outcome: Result<Response<T>>)
    ensures outcome.Failure? ==> Gated(outcome).Failure? && Gated(outcome).message == outcome.message
    ensures outcome.Success? ==>
      && (Gated(outcome).Success? <==> outcome.value.ok)
      && (outcome.value.ok ==> Gated(outcome).value == outcome.value.body)
      && (!outcome.value.ok ==>
            Gated(outcome).message == FailurePrefix + outcome.value.statusText)
  {
  }

  /** Polygon requests go to the base URL plus the path, carry the caller's
      fields and headers with the bearer header added, and end as the gate
      decides on the outcome of that one request. */
  lemma PolygonFetchSpec<T>(path: string, options: Option<RequestInit>, apiKey: EnvVar,
                            network: Request -> Result<Response<T>>)
    ensures var req := PolygonRequest(path, options, apiKey);
      var r := PolygonFetch(path, options, apiKey, network);
      && req.url == PolygonBaseUrl + path
      && req.options.Some?
      && req.options.value.fields == CallerFields(options)
      && req.options.value.headers.Some?
      && req.options.value.headers.value["Authorization"] == "Bearer " + Interpolated(apiKey)
      && (forall h :: h in CallerHeaders(options) && h != "Authorization" ==>
            h in req.options.value.headers.value &&
            req.options.value.headers.value[h] == CallerHeaders(options)[h])
      && (network(req).Failure? ==> r.Failure? && r.message == network(req).message)
      && (network(req).Success? ==>
            && (r.Success? <==> network(req).value.ok)
            && (network(req).value.ok ==> r.value == network(req).value.body)
            && (!network(req).value.ok ==>
                  r.message == FailurePrefix + network(req).value.statusText))
  {
    WithAuthKeepsCallerValues(options, apiKey);
    GatedSpec(network(PolygonRequest(path, options, apiKey)));
  }

  /** FMP requests carry the key in the URL only, keep the caller's options,
      and end as the gate decides on the outcome of that one request. */
  lemma FmpFetchSpec<T>(path: string, options: Option<RequestInit>, apiKey: EnvVar,
                        network: Request -> Result<Response<T>>)
    ensures var req := FmpRequest(path, options, apiKey);
      var r := FmpFetch(path, options, apiKey, network);
      var n := |FmpBaseUrl| + |path|;
      && req.options == options
      && req.url[..n] == FmpBaseUrl + path
      && req.url[n..] == FmpSeparator(path) + "apikey=" + Interpolated(apiKey)
      && (network(req).Failure? ==> r.Failure? && r.message == network(req).message)
      && (network(req).Success? ==>
            && (r.Success? <==> network(req).value.ok)
            && (network(req).value.ok ==> r.value == network(req).value.body)
            && (!network(req).value.ok ==>
                  r.message == FailurePrefix + network(req).value.statusText))
  {
    GatedSpec(network(FmpRequest(path, options, apiKey)));
  }
}
