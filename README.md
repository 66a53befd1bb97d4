# City geo-query service: operation registry and filters

A model, in Dafny, of the request handler in `index.js`. The handler serves
geospatial queries over a fixed dataset of cities:

- a tag/activity filter;
- a pairwise distance between two cities;
- an "all cities within radius R of city X" query. Its result is delivered
  later and retrieved by polling.

The model covers:

- the **area-operation registry** `operations`, a process-wide dictionary
  from operation id to record. The `/area` handler writes it, then
  `processAreaRequest`, then a `setTimeout` callback. The poll endpoint
  reads it. This is the class `Server.AreaService`, with the dictionary as a
  `map` field and the scheduled callbacks as a queue `timers`.
- the pure parts. These are the guid lookups (`Array.prototype.find`, first
  match), the tag filter and the area filter (`Array.prototype.filter`,
  order kept), the status switch of the poll endpoint, and the request
  dispatch: bearer-token check, exact routes, and the `/area-result` prefix
  with its regular expression.

The great-circle distance and `parseFloat` are parameters of the service,
`dist` and `parseFloat`, with no fixed definition. `NaN` is modelled as
`None`. So every filter property holds for any distance function.

Modules, leaves first: `Wrappers` (Option), `Arrays` (filter and find),
`Cities` (records and queries), `Routing` (dispatch), `Responses` (outcomes,
distance endpoint), `Operations` (registry records and poll), `Server` (the
stateful handler).

## Where the code departs from its own intent

The source states some intentions that its code does not keep. The model
follows the code, except in the poll endpoint (see "## Findings" and
"## Left out").

- The registry is commented as storing results "by a unique ID"
  (index.js:11), and a `randomUUID` call is left commented out (index.js:59).
  Operation ids are nevertheless not unique: every area request uses the
  constant id `2152f96f-50c7-4d76-9e18-f7033bd14428` (index.js:60).
- Transitions are not one-shot. `/area` overwrites any existing entry, and a
  scheduled completion overwrites whatever the entry holds when it fires.
  `Server.SharedIdOverwrite` shows the consequence: a later request with an
  unknown origin first reads as an error. After the earlier request's timer
  fires, it reads as that earlier request's result.
- `processAreaRequest` contains no `await`, so it runs to completion inside
  the `/area` handler. An unknown origin is therefore already `error` when the
  202 is sent, and a poll never sees it `pending`. The lookup and the filter
  also run then; only the `completed` write is deferred.
- A distance that does not parse is not reported as an error. `NaN` compares
  false with every distance, so the operation completes with an empty city list
  (`Cities.AreaUnparsedDistanceEmpty`).

## Model

| member | source | states |
|---|---|---|
| `Arrays.Filter` | index.js:33 | `filter` never returns more elements than it was given |
| `Arrays.Find` | index.js:39-40 | a value returned by `find` occurs in the array and satisfies the predicate |
| `Arrays.FilterMembership` | index.js:250-255 | an element is in a filter's result iff it occurs in the input and satisfies the predicate |
| `Arrays.FilterIsSubsequence` | index.js:250-255 | a filter's result is a subsequence of its input: the order is preserved |
| `Arrays.FilterCount` | index.js:33 | each value occurs in a filter's result exactly as often as in the input if it matches, and never otherwise |
| `Arrays.FilterNoMatch` | index.js:254 | when no element matches, a filter's result is empty |
| `Arrays.FindFirst` | index.js:242 | `find` yields nothing iff no element matches, and otherwise an element at an index before which none matches |
| `Cities.FindByGuidFirst` | index.js:39-40 | the guid lookup fails iff no city carries the requested guid (always for an absent parameter), and otherwise returns the first city that carries it |
| `Cities.TagMatchesExact` | index.js:30-33 | the tag query returns, in dataset order and with dataset multiplicity, exactly the cities whose tags contain the tag and whose `isActive` equals (parameter == "true") |
| `Cities.TagMatchesWithoutTag` | index.js:29-33 | without a `tag` parameter no city matches |
| `Cities.AreaMatchesExact` | index.js:250-255 | the area result is exactly the dataset subsequence, in order and with multiplicity, of cities whose guid differs from the origin's and whose distance from the origin is at most the parsed maximum |
| `Cities.AreaExcludesOrigin` | index.js:251-252 | no city in the area result has the origin's guid |
| `Cities.AreaUnparsedDistanceEmpty` | index.js:243-254 | a maximum distance that parses to `NaN` gives an empty area result |
| `Routing.MatchAreaResultExact` | index.js:73 | the poll regex matches with capture `id` iff the path is `/area-result/` + `id`, with `id` non-empty and made only of `[a-zA-Z0-9-]` |
| `Routing.Route` | index.js:21-115 | a request is refused with 401 iff its authorization is not exactly the bearer token, before any routing; an authorized GET reaches `/cities-by-tag`, `/distance`, `/area` or `/all-cities` iff its path is exactly that string; it reaches the poll endpoint iff the path starts with `/area-result`, and the regex capture is then passed on; every other authorized request is 404; a non-GET request never reaches an endpoint |
| `Routing.PollPathAccepted` | index.js:72-73 | an authorized GET reaches the poll endpoint with id `id` iff its path is `/area-result/` followed by a non-empty `[a-zA-Z0-9-]` run equal to `id` |
| `Responses.DistanceResponseResolves` | index.js:38-55 | the distance endpoint answers 200 iff both guids occur in the dataset; it then reports the first city carrying each guid and the distance between those two cities; otherwise it answers "Cities not found" (404) |
| `Operations.MalformedPollCrashesAsWritten` | index.js:73-79 | as written, the poll endpoint crashes iff the path fails the regex; `/area-result/` and `/area-result` are two such paths |
| `Operations.PrototypeIdPollAsWritten` | index.js:80-103 | as written, polling an id named after an inherited `Object.prototype` member that was never written answers "Unknown status" (404) instead of "Operation not found"; `/area-result/constructor` is such a path; for a stored entry, "Unknown status" comes iff its status is not pending, completed or error |
| `Operations.PollResponseNeverCrashes` | index.js:72-79 | the corrected poll never crashes, and answers "Not Found" iff the regex did not match |
| `Operations.PollResponseUnknownId` | index.js:80-85 | the corrected poll answers "Operation not found" iff the id has no entry in the registry |
| `Operations.PollWellFormed` | index.js:87-103 | on a registry holding only entries the server writes, a poll never reports "Unknown status": pending is 202, `City not found` is 500, completed is 200 with the stored cities |
| `Operations.ResultsPathRoundTrip` | index.js:60-61 | the poll path handed out by `/area` is accepted by the poll regex, and the regex gives back the same operation id |
| `Server.AreaService.constructor` | index.js:4-11 | the service starts with the given dataset and an empty registry with no scheduled completions |
| `Server.AreaService.ProcessAreaRequest` | index.js:241-261 | called, as at index.js:67, with the constant operation id; unknown origin: the entry becomes `{error, "City not found"}` and nothing is scheduled; known origin: the registry is unchanged, and one completion is queued carrying the area result for the first city with that guid; the registry invariant is kept, including that the constant id is the only key written or scheduled |
| `Server.AreaService.SubmitArea` | index.js:56-71 | answers 202 with the results URL; the constant id's entry becomes pending (or already `error` for an unknown origin), replacing any previous entry; every other id is unchanged; exactly one completion is queued iff the origin resolves |
| `Server.AreaService.CompleteNext` | index.js:258-260 | the oldest scheduled completion overwrites its id's entry with `completed` and its cities; other ids are unchanged; it leaves the queue |
| `Server.AreaService.Poll` | index.js:80-103 | the corrected poll (see "## Findings"): malformed path: 404 Not Found; unknown id, and in particular every id other than the constant one handed out by `/area`: Operation not found; pending: 202; completed: 200 with exactly the stored cities; error: 500; on a valid registry never "Unknown status" |
| `Server.AreaService.Handle` | index.js:20-115 | 401 for an unauthorized request; each route gets its endpoint's outcome, the poll route the corrected poll; only `/area` changes the registry and the queue |
| `Server.SubmitThenPoll` | index.js:56-67 | known origin: a poll right after submission reports pending, and after the timer the area result; unknown origin: error at once and afterwards |
| `Server.SharedIdOverwrite` | index.js:60-64 | with the shared id, a second request with an unknown origin reads as an error until the first request's timer overwrites it with the first request's result |

## Left out

- The HTTP server, URL and query parsing, `writeHead`/`end` and JSON
  serialisation (index.js:12-18, 36-37, 105-121). Responses are the abstract
  `Responses.Outcome`, with `Responses.StatusCode`. A query parameter is
  modelled as at most one string. A repeated parameter, which Node parses into
  an array, is not modelled.
- The self-test harness, the dataset download and the `fs-extra` file handling
  (index.js:124-238). They are network and file I/O that run against the
  concrete dataset.
- Loading `addresses.json` (index.js:4). The dataset is the immutable
  constructor argument `cities`. Only the fields the core reads are modelled.
- The haversine body of `calculateDistance` (index.js:264-278). It is
  floating-point trigonometry, so the distance is the parameter `dist`.
- `Responses.DistanceResponseResolves`: the reported distance is not rounded
  to two decimals (index.js:50), because that rounding is floating point.
- `parseFloat` string semantics (index.js:243). The parser is the parameter
  `parseFloat` and yields a real or `None` for `NaN`. A result of ±Infinity is
  not modelled.
- Timing and asynchrony of `setTimeout` (index.js:258-260). A scheduled write
  is an entry of `timers`, and the event loop running the oldest one is an
  explicit `CompleteNext` call. Interleavings are whatever sequence of calls a
  client makes.
- The `message` field of an error entry is stored but never reported. The
  poll endpoint does not read it either.
- `Server.AreaService.Poll`: gives the corrected poll `Operations.PollResponse`,
  not the code as written. A path that fails the regex answers `NotFound`
  where the source crashes (index.js:74-79). An id such as `constructor`
  answers `OperationNotFound` where the source answers "Unknown status"
  (index.js:80-81, 100-102). The code as written is
  `Operations.PollResponseAsWritten`, with `Operations.LookupAsWritten`.
- `Server.AreaService.Handle`: its poll branch calls the corrected `Poll`, so
  it never produces `Crashed` or "Unknown status" for the two inputs above.
  Only `Operations.PollResponseAsWritten` produces `Crashed`. That member does
  not capture that the real process then terminates and the registry is lost.

## Findings

| source | as written | input that shows it | evidently intended | confidence | as-written member | corrected member |
|---|---|---|---|---|---|---|
| index.js:73-79 | when the regex fails, the handler writes 404 but does not return; `match[1]` on `null` then throws a TypeError out of the request listener, and nothing catches it | an authorized `GET /area-result/` (or `/area-result`, `/area-result/a_b`) | answer 404 "Not Found" and return | not executed; high | `Operations.PollResponseAsWritten`, exhibited by `Operations.MalformedPollCrashesAsWritten` | `Operations.PollResponse`, proved by `Operations.PollResponseNeverCrashes` |
| index.js:11, 80-85 | `operations` is an object literal, so `operations[id]` also finds inherited `Object.prototype` members; such an id passes the `!operation` test and falls to the `default` branch | an authorized `GET /area-result/constructor` (or `toString`, `valueOf`) with no such operation | 404 "Operation not found" for every id never written | not executed; high | `Operations.LookupAsWritten`, exhibited by `Operations.PrototypeIdPollAsWritten` | `Operations.Lookup`, proved by `Operations.PollResponseUnknownId` |
