# Request shaping of the Elasticsearch mini client

This project models the `Elasticsearch` client class of `elastic_client.py`, a
small Python 2 client for a search engine's HTTP API. It covers everything the
client does *before* a request reaches the HTTP library:

- how each of the five operations (`index`, `search`, `bulk`, `count`, `delete`)
  picks its HTTP verb and path segments and rewrites its params, keyword
  arguments and body;
- how `_make_request` collects the truthy segments, how `_build_url` turns the
  configured host and those segments into a URL, and how the query string and
  the JSON body are added;
- how `_get_func` looks up the transport function, including its fallback to
  the string `'get'`;
- the status guard that decides whether a response is logged as a failure.

Layout, one module per concern:

| file | module | contents |
|---|---|---|
| `wrappers.dfy` | `Wrappers` | `Result` for the exceptions that escape the client |
| `text.dfy` | `Text` | `sep.join`, `s.split(sep)` and the substring test, with the split/join round trip |
| `values.dfy` | `PyValues` | Python values and truthiness, the escaping exceptions, the opaque library functions, and `Dict`, a dict object updated in place |
| `urls.dfy` | `Urls` | the host, the segment filter, `_build_url`, the query string |
| `requests.dfy` | `Requests` | `_get_func`, body encoding, `_make_request`, the status guard |
| `client.dfy` | `Client` | the five operations, each a method proved equal to a specification function, plus lemmas about those functions |
| `scenarios.dfy` | `Scenarios` | concrete requests for a client on `http://es:9200/` |

Python values are a `Value` datatype: `None`, bools, ints, strings, lists and
string-keyed dicts. Truthiness follows Python. `json.dumps`, `json.loads`,
`urllib.urlencode` and Python's `'%s'` formatting of a value that is not a
string are library code whose internals are not shown. They are the four fields of a `Library` value that
every operation takes as a parameter, so every property holds for any
behaviour of them. `'%s'` of a string is the string itself. `json.loads` yields
either the decoded value or nothing, for a text it rejects with `ValueError`.

An exception the modelled code raises is an `Err` result:
- `HostMissing`: host `None` (line 34).
- `HostNotMapping`: a string host without `://` (line 37).
- `JoinOfNonString`: a non-string segment or bulk line (lines 39 and 102).
- `BodyNotJson`: a non-empty string search body that `json.loads` rejects (line 92).
- `BodyNotMapping`: a search body that is not a dict (line 94).

The params dict of `search` and `bulk` is a `Dict` object. `search` always
rewrites the params, and `bulk` does so only when it gets a `refresh` keyword
argument; otherwise `bulk` passes the caller's dict on untouched. When the
params are rewritten, a caller's non-empty dict is rewritten in place, while a
`None` or empty one is replaced by a fresh dict and the caller's dict is left
as it was. The method contracts say all of this. `**kwargs` is a fresh dict in every Python call, so it is a local map value.

Three behaviours of the code are easy to misread, and the model follows the code:
- The failure guard `200 < status or status > 300` is not always true. It
  holds exactly when the status is above 200 (`Requests.LogsFailureAbove200`).
- `index` chooses PUT when the id is *truthy*. So an id of `0` or `''` gives POST.
- A body is JSON-encoded only when it is truthy and not a string. A falsy body
  (`None`, `{}`, `[]`, `0`) is handed to the transport as it is. The `{}` of a
  `search` with no body and no keyword arguments is one such case.

## Model

| member | source | states |
|---|---|---|
| `Text.ContainsAt` | elastic_client.py:34 | the substring test used for `'://' in host` holds wherever the needle occurs |
| `Text.ContainsOnly` | elastic_client.py:34 | conversely, when the substring test holds the needle occurs at the returned index, so a host failing the test holds no `://` |
| `Text.SplitJoin` | elastic_client.py:39 | splitting a `sep`-join on `sep` gives back exactly the parts when none of them holds `sep` (round trip) |
| `Text.JoinHasNoEmptyPiece` | elastic_client.py:39 | joining non-empty, separator-free parts never produces an empty piece |
| `PyValues.PyJoin` | elastic_client.py:39 | `sep.join` succeeds iff every item is a string, and then yields the join of those strings |
| `Urls.TruthiesExactly` | elastic_client.py:44-52 | the collected segments are exactly the truthy values among the inputs |
| `Urls.TruthiesAppend` | elastic_client.py:44-52 | filtering distributes over concatenation, so kept values stay in input order |
| `Urls.SegmentsNonEmpty` | elastic_client.py:44-52 | no collected string segment is empty: an absent or empty value adds no segment |
| `Urls.Base` | elastic_client.py:33-37 | a host string containing `://` is the base verbatim; a string without it fails on `.get`; `None` fails; a `{host, port}` mapping gives `http://{host}:{port}/`, each formatted by `'%s'` (a string as itself) |
| `Urls.BuildUrlNoArgs` | elastic_client.py:38-40 | with no segments the URL is just the base |
| `Urls.BuildUrlFails` | elastic_client.py:34-39 | `_build_url` fails exactly on a bad host or, when there are segments, a non-string segment |
| `Urls.BuildUrlRoundTrip` | elastic_client.py:38-39 | the URL is the base followed by a path that splits on `/` back into exactly the segments |
| `Urls.WithQuery` | elastic_client.py:55-56 | `?` plus the encoded params is appended iff params is non-empty; otherwise the URL is unchanged |
| `Requests.GetFunc` | elastic_client.py:20-27 | the four known verbs select their own transport function; any other name yields the uncallable string `'get'` |
| `Requests.GetFuncInverse` | elastic_client.py:20-27 | each transport function is selected by its own name |
| `Requests.EncodeBody` | elastic_client.py:57-59 | a string or falsy body is sent verbatim, any other body as its JSON encoding; what is sent is never a truthy non-string |
| `Requests.TruthiesOfFour` | elastic_client.py:44-52 | the segment filter over index, doctype, id and suffix is the four conditional appends in that order |
| `Requests.CollectSegments` | elastic_client.py:44-52 | the successive appends collect exactly the truthy values among index, doctype, id and suffix, in order |
| `Requests.MakeRequest` | elastic_client.py:42-59 | the request carries the given verb, its transport function, the built URL with query, the encoded body and the JSON content type |
| `Requests.RequestPath` | elastic_client.py:44-56 | the request URL is base, then a path splitting back into the truthy segments with no empty piece, then the query iff params is non-empty |
| `Requests.LogsFailureAbove200` | elastic_client.py:64 | the guard as written holds iff the status is above 200 |
| `Requests.LogsCreatedAsFailure` | elastic_client.py:64 | 201 and 300 are flagged; 200 and 100 are not |
| `Requests.FailureStatusCorrected` | elastic_client.py:64 | the corrected guard flags exactly the statuses outside 200..300, and differs from the written one below 200 and on 201..300 |
| `Client.Index` | elastic_client.py:72-74 | the request is the specified index request, sent through `put` when the id is truthy and `post` otherwise |
| `Client.IndexVerb` | elastic_client.py:73 | an index request is PUT iff the id is truthy and POST iff it is falsy, dispatched to the matching transport function |
| `Client.NormaliseSearchParams` | elastic_client.py:77-88 | the params become the normalised params and `size` leaves the kwargs; a non-empty caller dict is rewritten in place, otherwise a fresh dict is used |
| `Client.Search` | elastic_client.py:76-95 | the request is the specified search request; the caller's non-empty params dict ends up normalised and an empty one unchanged |
| `Client.SearchParamsNormalised` | elastic_client.py:77-88 | `from` is the popped `from_`, else the existing `from`, else 0, and `from_` is gone; `ignore_unavailable` is True only when absent; `size` is the `size` kwarg, else the existing one, else 20; no other key changes |
| `Client.SearchDefaults` | elastic_client.py:77-88 | no params and no kwargs give from=0, ignore_unavailable=True, size=20 |
| `Client.SearchParamsIdempotent` | elastic_client.py:77-88 | normalising already normalised params again changes nothing |
| `Client.SearchIndexAll` | elastic_client.py:89-90 | the index becomes `_all` when a doc type is given without an index, and is kept otherwise |
| `Client.SearchBodyMerge` | elastic_client.py:91-94 | a falsy body becomes the kwargs alone; a dict body is updated with the kwargs, theirs winning; any other non-string body fails; a non-empty string body fails when it is not JSON and is otherwise replaced by its decoding, which is then treated the same way; the `size` kwarg never reaches the body |
| `Client.SearchRejectsNonJson` | elastic_client.py:91-92 | a non-empty string body that `json.loads` rejects makes `search` fail before any request |
| `Client.SearchRequestShape` | elastic_client.py:95 | every search request is a GET through `get` and its URL always ends in `?` and the encoded normalised params |
| `Client.MoveRefresh` | elastic_client.py:98-100 | a `refresh` kwarg leaves the kwargs and lands in the params, written into a non-empty caller dict in place or into a fresh dict |
| `Client.Bulk` | elastic_client.py:97-103 | the request is the specified bulk request; a `refresh` kwarg is written into a non-empty caller dict, which is otherwise unchanged |
| `Client.BulkRefresh` | elastic_client.py:98-100 | `refresh` is set from the kwarg when given and no other param changes |
| `Client.BulkLinesRoundTrip` | elastic_client.py:101-102 | a list body is sent as its lines joined by newlines, which split back into exactly those lines |
| `Client.BulkRejectsNonStringLine` | elastic_client.py:101-102 | a list body holding a non-string fails in the join |
| `Client.Count` | elastic_client.py:105-106 | POST through `post` with suffix `_count` and the body encoded as by `_make_request` |
| `Client.Delete` | elastic_client.py:108-109 | DELETE through `delete` on index, doc type and id, with no body |
| `Scenarios.IndexWithoutIdPosts` | elastic_client.py:72-74 | the index request for `index('i', {'a': 1})` POSTs the JSON body to `http://es:9200/i` |
| `Scenarios.IndexWithIdPuts` | elastic_client.py:72-74 | with id `7` the index request PUTs to `http://es:9200/i/7` |
| `Scenarios.MappingHostBase` | elastic_client.py:37 | the host `{'host': 'es', 'port': 9200}` gives the base `http://es:{port}/`, the port formatted by `'%s'` |
| `Scenarios.DeleteSkipsMissingDocType` | elastic_client.py:108-109 | `delete('a', id='5')` DELETEs `http://es:9200/a/5`, not `a//5`, with no body |
| `Scenarios.SearchDocTypeOnly` | elastic_client.py:76-95 | `search(doc_type='t')` GETs `_all/t/_search` with the default params and body `{}` |
| `Scenarios.BulkJoinsLines` | elastic_client.py:97-103 | `bulk(['l1', 'l2'])` POSTs `l1\nl2` to `_bulk` |

## Left out

- The HTTP call through `requests.*` (line 62) is not modelled. A request ends as the chosen verb, transport function, URL, data and headers. The `TypeError` from calling the `'get'` string is therefore not modelled either; `Requests.GetFunc` records that string as `NotCallable("get")`.
- Timing with `time.time()`, the timeout exception path and its `print` (lines 60-70) are not modelled: they are wall-clock values and I/O.
- `log_request_fail` and the logger (lines 111-118) are logging side effects. Only the guard deciding whether a response would be logged is modelled.
- `res.json()` and the response are not modelled.
- `json.dumps`, `json.loads`, `urlencode` and `'%s'` formatting of a value that is not a string are opaque functions: their internals are library code. So the decimal text of an integer port is left to the library's formatting.
- The constructor fields `timeout`, `max_retries` and `retry_on_timeout` (lines 14-18) are not modelled: they are stored and never read.
- A host mapping that has a key `'://'` uses the mapping's `'%s'` formatting as its base. When there are no segments and no params, Python keeps the mapping object itself as the URL, and the model keeps its formatting instead.
- `Client.Search`: the caller's body dict is updated in place by `body.update(kwargs)` (line 94). The model returns the updated mapping as a new value and does not capture that aliasing.
- Python 2's `str`/`unicode` split is not modelled: there is one string kind. Floats, tuples and non-string dict keys are not modelled either.
- `index`, `count` and `delete` take params as a map, with `None` read as `{}`. Those operations only look at whether params is truthy, so the two behave alike.
- `PyValues.Dict.Pop` requires the key to be present. The client only pops keys it has just found, so the `KeyError` path is never reached.

## Findings

| source | as written | input that shows it | evidently intended | confidence | as-written member | corrected member |
|---|---|---|---|---|---|---|
| elastic_client.py:64 | `200 < status or status > 300` flags every status above 200 and none below | status 201 (Created, the normal answer to `index`) is logged as a failure; status 100 is not | flag the statuses outside 200..300, i.e. `status < 200 or status > 300` | medium; not executed | `Requests.LogsCreatedAsFailure` | `Requests.FailureStatusCorrected` |
