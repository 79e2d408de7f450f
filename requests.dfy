/**
 * `_get_func`, `_make_request` up to the moment the transport is called, and the
 * status guard that decides whether a response is logged as a failure.
 */
module Requests {
  import opened Wrappers
  import opened Text
  import opened PyValues
  import opened Urls

  /** `Elasticsearch.mimetype`, sent as the `content-type` header of every request. */
  const Mimetype: string := "application/json"

  /** The client object; `timeout`, `max_retries` and `retry_on_timeout` are stored but never read. */
  datatype Elasticsearch = Elasticsearch(host: Host)

  /** The four transport functions of the `calls` table. */
  datatype Verb = Post | Put | Delete | Get

  function VerbName(v: Verb): string
  {
    match v
    case Post => "post"
    case Put => "put"
    case Delete => "delete"
    case Get => "get"
  }

  /** What `_get_func` returns: a transport function, or the string fallback, which cannot be called. */
  datatype Dispatch = Call(verb: Verb) | NotCallable(name: string)

  /** `calls.get(call, 'get')`: a known verb selects its function, anything else the string `'get'`. */
  function GetFunc(call: string): (d: Dispatch)
    ensures d.Call? <==> call == "post" || call == "put" || call == "delete" || call == "get"
    ensures d.Call? ==> VerbName(d.verb) == call
    ensures d.NotCallable? ==> d.name == "get"
  {
    if call == "post" then Call(Post)
    else if call == "put" then Call(Put)
    else if call == "delete" then Call(Delete)
    else if call == "get" then Call(Get)
    else NotCallable("get")
  }

  /** The selection is injective on the known verbs: each function is reached by its own name only. */
  lemma GetFuncInverse(v: Verb)
    ensures GetFunc(VerbName(v)) == Call(v)
  {
  }

  /** What would be handed to the transport: verb, URL, `data` and headers. */
  datatype Request = Request(
    httpMethod: string,
    dispatch: Dispatch,
    url: string,
    data: Value,
    headers: map<string, string>)

  /**
   * The `data` sent for a body: a string or falsy body verbatim, any other body
   * JSON-encoded, so what is sent is never a truthy structured value.
   */
  function EncodeBody(lib: Library, body: Value): (data: Value)
    ensures body.VStr? || !Truthy(body) ==> data == body
    ensures Truthy(body) && !body.VStr? ==> data == VStr(lib.dumps(body))
    ensures Truthy(data) ==> data.VStr?
  {
    if Truthy(body) && !body.VStr? then VStr(lib.dumps(body)) else body
  }

  /** The request `_make_request` builds (the specification of the method below). */
  function RequestFor(es: Elasticsearch, lib: Library, httpMethod: string,
                      index: Value, doctype: Value, id: Value,
                      params: map<string, Value>, body: Value, extraOp: Value): Result<Request, Error>
  {
    var url :- BuildUrl(lib, es.host, Truthies([index, doctype, id, extraOp]));
    Ok(Request(httpMethod, GetFunc(httpMethod), WithQuery(lib, url, params), EncodeBody(lib, body),
               map["content-type" := Mimetype]))
  }

  /** One step of the filter: the head contributes `Keep(v)`. */
  lemma TruthiesCons(v: Value, xs: seq<Value>)
    ensures Truthies([v] + xs) == Keep(v) + Truthies(xs)
  {
    var ys := [v] + xs;
    assert ys[0] == v && ys[1..] == xs;
  }

  lemma TruthiesOfTwo(c: Value, d: Value)
    ensures Truthies([c, d]) == Keep(c) + Keep(d)
  {
    TruthiesCons(d, []);
    assert [d] + [] == [d];
    TruthiesCons(c, [d]);
    assert [c] + [d] == [c, d];
  }

  lemma TruthiesOfThree(b: Value, c: Value, d: Value)
    ensures Truthies([b, c, d]) == Keep(b) + (Keep(c) + Keep(d))
  {
    TruthiesOfTwo(c, d);
    TruthiesCons(b, [c, d]);
    assert [b] + [c, d] == [b, c, d];
  }

  /** The fixed four-value segment list unrolled, as the appends of `_make_request` build it. */
  lemma TruthiesOfFour(a: Value, b: Value, c: Value, d: Value)
    ensures Truthies([a, b, c, d]) == Keep(a) + (Keep(b) + (Keep(c) + Keep(d)))
  {
    TruthiesOfThree(b, c, d);
    TruthiesCons(a, [b, c, d]);
    assert [a] + [b, c, d] == [a, b, c, d];
  }

  /** The appends of elastic_client.py:44-52: each truthy value becomes a segment, in order. */
  method CollectSegments(index: Value, doctype: Value, id: Value, extraOp: Value)
    returns (args: seq<Value>)
    ensures args == Truthies([index, doctype, id, extraOp])
  {
    args := [];
    if Truthy(index) {
      args := args + [index];
    }
    if Truthy(doctype) {
      args := args + [doctype];
    }
    if Truthy(id) {
      args := args + [id];
    }
    if Truthy(extraOp) {
      args := args + [extraOp];
    }
    TruthiesOfFour(index, doctype, id, extraOp);
  }

  /**
   * `_make_request` up to the transport call: collect the truthy segments,
   * build the URL, add the query string, encode the body.
   */
  method MakeRequest(es: Elasticsearch, lib: Library, httpMethod: string,
                     index: Value, doctype: Value, id: Value,
                     params: map<string, Value>, body: Value, extraOp: Value)
    returns (r: Result<Request, Error>)
    ensures r == RequestFor(es, lib, httpMethod, index, doctype, id, params, body, extraOp)
    ensures r.Ok? ==> r.value.httpMethod == httpMethod && r.value.dispatch == GetFunc(httpMethod)
    ensures r.Ok? ==> r.value.headers == map["content-type" := Mimetype]
  {
    var args := CollectSegments(index, doctype, id, extraOp);
    var built := BuildUrl(lib, es.host, args);
    if built.Err? {
      return Err(built.error);
    }
    var url := built.value;
    if params != map[] {
      url := url + "?" + lib.urlencode(params);
    }
    var data := body;
    if Truthy(body) && !body.VStr? {
      data := VStr(lib.dumps(body));
    }
    r := Ok(Request(httpMethod, GetFunc(httpMethod), url, data, map["content-type" := Mimetype]));
  }

  /** Unfolds `RequestFor` once the URL built from the segments is known. */
  lemma RequestForUrl(es: Elasticsearch, lib: Library, httpMethod: string,
                      index: Value, doctype: Value, id: Value,
                      params: map<string, Value>, body: Value, extraOp: Value, url: string)
    requires BuildUrl(lib, es.host, Truthies([index, doctype, id, extraOp])) == Ok(url)
    ensures RequestFor(es, lib, httpMethod, index, doctype, id, params, body, extraOp)
         == Ok(Request(httpMethod, GetFunc(httpMethod), WithQuery(lib, url, params), EncodeBody(lib, body),
                       map["content-type" := Mimetype]))
  {
  }

  /**
   * The path of a built request: with a working host and segments that are
   * strings free of `/`, the URL is the base, then a path that splits back
   * into exactly the truthy values among index, doctype, id and operation, in
   * that order, with no empty piece; then the query string iff params is non-empty.
   */
  lemma RequestPath(es: Elasticsearch, lib: Library, httpMethod: string,
                    index: Value, doctype: Value, id: Value,
                    params: map<string, Value>, body: Value, extraOp: Value)
    requires Base(lib, es.host).Ok?
    requires var segs := Truthies([index, doctype, id, extraOp]);
      segs != [] && AllStrings(segs) && forall i :: 0 <= i < |segs| ==> '/' !in segs[i].s
    ensures RequestFor(es, lib, httpMethod, index, doctype, id, params, body, extraOp).Ok?
    ensures var segs := Truthies([index, doctype, id, extraOp]);
      var base := Base(lib, es.host).value;
      var u := BuildUrl(lib, es.host, segs).value;
      var req := RequestFor(es, lib, httpMethod, index, doctype, id, params, body, extraOp).value;
      && req.url == WithQuery(lib, u, params)
      && u[..|base|] == base
      && Split('/', u[|base|..]) == Strings(segs)
      && forall p :: p in Split('/', u[|base|..]) ==> p != ""
  {
    var segs := Truthies([index, doctype, id, extraOp]);
    BuildUrlRoundTrip(lib, es.host, segs);
    TruthiesExactly([index, doctype, id, extraOp]);
    forall p | p in Strings(segs) ensures p != "" {
      var i :| 0 <= i < |segs| && Strings(segs)[i] == p;
      assert segs[i] in segs;
    }
  }

  /** The guard of elastic_client.py:64 as written. */
  predicate LogsFailure(status: int)
  {
    200 < status || status > 300
  }

  /** As written the guard holds exactly above 200: 200 and below is never logged, 201 to 300 is. */
  lemma LogsFailureAbove200(status: int)
    ensures LogsFailure(status) <==> status > 200
  {
  }

  /** 201, the usual answer to an index call, is logged as a failure by the guard as written; 100 is not. */
  lemma LogsCreatedAsFailure()
    ensures LogsFailure(201) && LogsFailure(300) && !LogsFailure(200) && !LogsFailure(100)
  {
  }

  /** The guard with its first comparison turned round: a status outside 200..300. */
  predicate IsFailureStatus(status: int)
  {
    status < 200 || status > 300
  }

  /**
   * The corrected guard spares exactly 200..300; it differs from the written
   * one exactly below 200 and on 201..300.
   */
  lemma FailureStatusCorrected(status: int)
    ensures IsFailureStatus(status) <==> !(200 <= status <= 300)
    ensures IsFailureStatus(status) != LogsFailure(status) <==> status < 200 || 200 < status <= 300
  {
  }
}
