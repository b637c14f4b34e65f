# stocky: request construction and screening rules

This project models the deterministic core of a small market-data client. The
client sends requests to two REST providers: Financial Modeling Prep (FMP) and
Polygon. It also holds a fundamental-analysis screening configuration. The
model is in Dafny and has four modules:

- `Text` (text.dfy): `Join` models `Array.prototype.join`, which the query
  string helper uses (src/api.ts:15). The other definitions are reference
  definitions that the proofs use; the client itself never splits, counts
  or compares strings.
  - `Split` (one-character `split`) reads a query string back.
  - `CountChar` counts the `?` in an FMP URL.
  - `LexLess` (code-unit order) orders the sector table.

  The lemmas about them show that splitting undoes joining, that counts add
  up over concatenation, and that the order is irreflexive and transitive.
- `Api` (api.dfy): the helpers in `src/api.ts`.
  - `ToQueryString` joins `key=value` pieces with `&`, in entry order and
    without encoding.
  - The FMP URL builder chooses `&` or `?` depending on whether the path
    already has a query, then appends `apikey=`.
  - The Polygon builder prefixes the base URL and merges the caller's options
    with a bearer `Authorization` header that always wins.
  - The response gate `FetchData` turns a non-ok response into the error
    `"Failed to fetch data: " + statusText` and returns the body of an ok
    one.
  - `PolygonFetch` and `FmpFetch` compose these pieces. The network is a
    function parameter from a request to either a response or a rejection
    (a transport error). A rejection propagates unchanged, without reaching
    the gate.
- `Config` (config.dfy): the eleven GICS sectors, the constants
  `MIN_VOLUME` to `MAX_PRICE_TO_EARNINGS`, and the four strict threshold
  predicates.
- `Index` (index.dfy): the inline copy in the entry script `src/index.ts`, with
  literal thresholds. It is proved to agree with `Config` for every input.

`process.env` entries are inputs of type `EnvVar`. A missing entry becomes
the text `undefined`, as it does in a template literal. A JavaScript
`Record<string, string>` is modelled as its list of entries in enumeration
order. `RequestInit` is modelled as a map of its plain fields other than
`headers` (the `WellFormed` predicate), plus an optional plain header map.

Rate limiting is delegated to the `p-queue` library (src/api.ts:6-10:
concurrency 1, at most 60 calls per 60 000 ms) and is not modelled.

## Model

| member | source | states |
|---|---|---|
| `Api.QueryStringEmpty` | src/api.ts:12-16 | an empty record gives the empty string |
| `Api.QueryStringSingle` | src/api.ts:14 | one entry (k, v) gives exactly `k=v` |
| `Api.QueryStringAppend` | src/api.ts:13-15 | entry order is kept: the string for `p + q` is the string for `p`, then `&`, then the string for `q` |
| `Api.QueryStringLength` | src/api.ts:13-15 | n > 0 entries give Σ(\|k\|+\|v\|+1) + (n−1) characters; the string is empty exactly when the record is |
| `Api.QueryStringRoundTrip` | src/api.ts:14 | keys and values are inserted verbatim: when none contains `&` or `=`, splitting on `&` and then at `=` recovers the entries in order |
| `Api.FmpSeparatorChoice` | src/api.ts:51 | the separator is `&` exactly when the path contains `?`, and `?` exactly when it does not |
| `Api.FmpUrlShape` | src/api.ts:51-53 | the URL is the FMP base plus the unchanged path, then the one separator character, then `apikey=` and the key text; its length is the sum of these parts |
| `Api.FmpUrlQuestionMarks` | src/api.ts:51-53 | the URL has as many `?` as the path and the key together, plus one exactly when the path had none |
| `Api.FmpUrlSingleQuery` | src/api.ts:51-53 | a path and a key without `?` give a URL with exactly one `?` |
| `Api.FmpUrlWithQuery` | src/api.ts:51-53 | a path built as `p + "?" + toQueryString(q)`, as the screener call does, gets `&apikey=` appended |
| `Api.PolygonUrlShape` | src/api.ts:42 | the Polygon URL is the base URL followed by the path, unchanged |
| `Api.WithAuthKeepsCallerValues` | src/api.ts:33-39 | the merged headers are the caller's keys plus `Authorization`, which is `Bearer ` + key; every other caller header and every option field is kept; well-formed options stay well-formed |
| `Api.WithAuthOverridesCaller` | src/api.ts:35-38 | any `Authorization` header the caller passes is overridden and has no effect on the result |
| `Api.WithAuthMissingOptions` | src/api.ts:33-38 | whatever the other fields, options without headers and options with empty headers give the same request; its fields are kept and its only header is the bearer one; no options at all behaves as empty options |
| `Api.WithAuthIdempotent` | src/api.ts:33-39 | merging a second time with the same key changes nothing |
| `Api.FetchDataGate` | src/api.ts:23-26 | the gate fails exactly when `ok` is false, with message `"Failed to fetch data: " + statusText` from which the status text can be read back; an ok response yields its body |
| `Api.GatedSpec` | src/api.ts:22-26 | a rejected `fetch` fails with its own message; a response succeeds exactly when ok, with its body, and otherwise fails with `"Failed to fetch data: " + statusText` |
| `Api.PolygonFetchSpec` | src/api.ts:29-44 | `polygonFetch` sends one request to base + path. The request carries the caller's fields and every other caller header, plus the bearer header. A rejected fetch fails with its own message. A response succeeds exactly when it is ok, returning its body; otherwise the call fails with the status-text message |
| `Api.FmpFetchSpec` | src/api.ts:46-57 | `fmpFetch` passes the caller's options through unchanged. It sends one request to base + path, followed by the separator, `apikey=` and the key. A rejected fetch fails with its own message. A response succeeds exactly when it is ok, returning its body; otherwise the call fails with the status-text message |
| `Config.SectorsSortedAndDistinct` | src/config.ts:1-13 | the sector list has 11 entries in strictly ascending order, so they are pairwise distinct |
| `Config.SectorPairOrdered` | src/config.ts:1-13 | each sector is below its successor |
| `Config.Thresholds` | src/config.ts:15-36 | Volume holds iff v > 250000, ReturnOnEquity iff v > 10, DebtToEquity iff v < 2, PriceToEarnings iff v < 20; each boundary value is rejected |
| `Config.VolumeUpwardClosed` | src/config.ts:24 | a volume at or above one that passes also passes |
| `Config.ReturnOnEquityUpwardClosed` | src/config.ts:28 | a return on equity at or above one that passes also passes |
| `Config.DebtToEquityDownwardClosed` | src/config.ts:32 | a debt-to-equity ratio at or below one that passes also passes |
| `Config.PriceToEarningsDownwardClosed` | src/config.ts:36 | a price-to-earnings ratio at or below one that passes also passes |
| `Index.SectorsMatchConfig` | src/index.ts:1-13 | the inline sector list equals the shared list element by element |
| `Index.SectorsSortedAndDistinct` | src/index.ts:1-13 | the inline list has 11 strictly ascending, pairwise distinct entries |
| `Index.PredicatesMatchConfig` | src/index.ts:16-32 | for every value, each inline predicate gives the same answer as its counterpart in src/config.ts |
| `Index.Thresholds` | src/index.ts:19-31 | the inline predicates use the literals 250000, 10, 2 and 20 with the same strictness; each boundary value is rejected |
| `Index.UpwardClosed` | src/index.ts:19-23 | the inline Volume and ReturnOnEquity are upward-closed |
| `Index.DownwardClosed` | src/index.ts:27-31 | the inline DebtToEquity and PriceToEarnings are downward-closed |

## Left out

- The `PQueue` rate limiter (src/api.ts:6-10, 41, 50): it is a library with no visible admission algorithm, and it only governs concurrency and wall-clock timing. `FmpFetch` models the work item the queue runs. `PolygonFetch` models that work item together with the header merge that `polygonFetch` does before queueing it (src/api.ts:33-39).
- When the key and options are read: `polygonFetch` reads `POLY_API_KEY` and builds its options snapshot when it is called (src/api.ts:33-39), before `queue.add`. `fmpFetch` reads `FMP_API_KEY` and uses the caller's options object only inside the work item, when the queue runs it (src/api.ts:50-55). The model takes one options value and one key per call, so it does not capture a change to either while the request is queued.
- The `fetch` call and `response.json()`: the network is a function parameter that yields a response or a rejection message, and the parsed body is a field of the response. A body that fails to parse as JSON is not modelled.
- `process.env` reads: the keys are `EnvVar` parameters.
- `Headers` objects and header arrays: spreading these does not copy their entries in JavaScript, so only plain header maps are modelled. Non-string `RequestInit` fields (a `body` Blob, a `signal`): `{...options}` copies them by reference, and `WithAuth` only passes fields through, so the model fixes the field value type to `string`. Header names are compared case-sensitively, as object keys are; a lower-case `authorization` from the caller is therefore kept beside `Authorization`, and how `fetch` later combines the two is not modelled.
- `Api.ToQueryString`: JavaScript enumerates integer-like keys (such as `"1"`) first, in ascending order. The model takes the entries in the order given and does not model that reordering.
- JavaScript string order on strings outside the Basic Multilingual Plane: `Text.LexLess` compares one `char` per position.
- The predicates in both modules are over `real`, so JavaScript's NaN (for which every comparison is false) and the infinities are not modelled.
- The `main` scripts and their console logging (src/api.ts:59-78, src/index.ts:34-39).
