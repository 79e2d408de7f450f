/**
 * The five operations of the `Elasticsearch` client as request builders:
 * `index`, `search`, `bulk`, `count` and `delete`. Each is a method that
 * mirrors the source step by step and is proved equal to a specification
 * function; the lemmas state what the operations promise about those functions.
 */
module Client {
  import opened Wrappers
  import opened Text
  import opened PyValues
  import opened Urls
  import opened Requests

  // ---------------------------------------------------------------- index

  /** The request `index` builds: PUT when an id is given, POST otherwise; no operation suffix. */
  function IndexRequest(es: Elasticsearch, lib: Library, index: Value, body: Value,
                        docType: Value, id: Value, params: map<string, Value>): Result<Request, Error>
  {
    RequestFor(es, lib, if Truthy(id) then "put" else "post", index, docType, id, params, body, VNone)
  }

  /** `index` */
  method Index(es: Elasticsearch, lib: Library, index: Value, body: Value,
               docType: Value, id: Value, params: map<string, Value>)
    returns (r: Result<Request, Error>)
    ensures r == IndexRequest(es, lib, index, body, docType, id, params)
    ensures r.Ok? ==> r.value.dispatch == (if Truthy(id) then Call(Put) else Call(Post))
  {
    var httpMethod := if Truthy(id) then "put" else "post";
    r := MakeRequest(es, lib, httpMethod, index, docType, id, params, body, VNone);
  }

  /**
   * The verb of an index request is PUT exactly when the id is truthy, and the
   * id is then a path segment; a falsy id (`None`, `0`, `''`) gives POST.
   */
  lemma IndexVerb(es: Elasticsearch, lib: Library, index: Value, body: Value,
                  docType: Value, id: Value, params: map<string, Value>)
    ensures var r := IndexRequest(es, lib, index, body, docType, id, params);
      r.Ok? ==> && (r.value.httpMethod == "put" <==> Truthy(id))
                && (r.value.httpMethod == "post" <==> !Truthy(id))
                && r.value.dispatch == (if Truthy(id) then Call(Put) else Call(Post))
  {
  }

  // ---------------------------------------------------------------- search

  /** The params `search` sends, from the caller's params and keyword arguments. */
  function SearchParams(p: map<string, Value>, kwargs: map<string, Value>): map<string, Value>
  {
    var p1 := if "from_" in p then (p - {"from_"})["from" := p["from_"]]
              else p["from" := GetOr(p, "from", VInt(0))];
    var p2 := if "ignore_unavailable" in p1 then p1 else p1["ignore_unavailable" := VBool(true)];
    if "size" in kwargs then p2["size" := kwargs["size"]]
    else p2["size" := GetOr(p2, "size", VInt(20))]
  }

  /** The keyword arguments left after `search` has taken `size` out of them. */
  function SearchKwargs(kwargs: map<string, Value>): map<string, Value>
  {
    if "size" in kwargs then kwargs - {"size"} else kwargs
  }

  /** The index `search` targets: `_all` when only a doc type is given. */
  function SearchIndex(index: Value, docType: Value): Value
  {
    if Truthy(docType) && !Truthy(index) then VStr("_all") else index
  }

  /**
   * The body `search` sends: a non-empty string body decoded (failing when it is
   * not JSON), a falsy one `{}`, then updated with `kwargs`.
   */
  function SearchBody(lib: Library, body: Value, kwargs: map<string, Value>): Result<Value, Error>
  {
    if Truthy(body) && body.VStr? && lib.loads(body.s).None? then Err(BodyNotJson)
    else
      var decoded := if Truthy(body) && body.VStr? then lib.loads(body.s).value else body;
      var base := if Truthy(decoded) then decoded else VDict(map[]);
      if base.VDict? then Ok(VDict(base.entries + kwargs)) else Err(BodyNotMapping)
  }

  /** The request `search` builds from the caller's params (`None` read as `{}`). */
  function SearchRequest(es: Elasticsearch, lib: Library, index: Value, docType: Value, body: Value,
                         params: map<string, Value>, kwargs: map<string, Value>): Result<Request, Error>
  {
    var b :- SearchBody(lib, body, SearchKwargs(kwargs));
    RequestFor(es, lib, "get", SearchIndex(index, docType), docType, VNone,
               SearchParams(params, kwargs), b, VStr("_search"))
  }

  /**
   * elastic_client.py:77-88: `params = params or {}` then the `from`,
   * `ignore_unavailable` and `size` rewrites. A caller's non-empty params dict
   * is the one rewritten; a `None` or empty one is replaced by a fresh dict.
   */
  method NormaliseSearchParams(params: Dict?, kwargs: map<string, Value>)
    returns (p: Dict, kw: map<string, Value>)
    modifies params
    ensures p.items == SearchParams(old(ItemsOf(params)), kwargs)
    ensures kw == SearchKwargs(kwargs)
    ensures params != null && old(params.items) != map[] ==> p == params
    ensures params == null || old(params.items) == map[] ==> fresh(p)
    ensures params != null && old(params.items) == map[] ==> params.items == map[]
  {
    if params != null && params.items != map[] {
      p := params;
    } else {
      p := new Dict(map[]);
    }
    if "from_" in p.items {
      var from := p.Pop("from_");
      p.Set("from", from);
    } else {
      p.Set("from", GetOr(p.items, "from", VInt(0)));
    }
    if "ignore_unavailable" !in p.items {
      p.Set("ignore_unavailable", VBool(true));
    }
    kw := kwargs;
    if kw != map[] && "size" in kw {
      var size := kw["size"];
      kw := kw - {"size"};
      p.Set("size", size);
    } else {
      p.Set("size", GetOr(p.items, "size", VInt(20)));
    }
  }

  /**
   * `search`. A caller's non-empty params dict is rewritten in place; a `None`
   * or empty one is left as it was.
   */
  method Search(es: Elasticsearch, lib: Library, index: Value, docType: Value, body: Value,
                params: Dict?, kwargs: map<string, Value>)
    returns (r: Result<Request, Error>)
    modifies params
    ensures r == SearchRequest(es, lib, index, docType, body, old(ItemsOf(params)), kwargs)
    ensures params != null && old(params.items) != map[] ==>
      params.items == SearchParams(old(params.items), kwargs)
    ensures params != null && old(params.items) == map[] ==> params.items == map[]
  {
    ghost var given := ItemsOf(params);
    var p, kw := NormaliseSearchParams(params, kwargs);
    var target := index;
    if Truthy(docType) && !Truthy(index) {
      target := VStr("_all");
    }
    var b := body;
    if Truthy(b) && b.VStr? {
      var decoded := lib.loads(b.s);
      if decoded.None? {
        assert SearchBody(lib, body, kw).Err?;
        return Err(BodyNotJson);
      }
      b := decoded.value;
    }
    if !Truthy(b) {
      b := VDict(map[]);
    }
    if !b.VDict? {
      assert SearchBody(lib, body, kw).Err?;
      return Err(BodyNotMapping);
    }
    b := VDict(b.entries + kw);
    assert SearchBody(lib, body, kw) == Ok(b);
    r := MakeRequest(es, lib, "get", target, docType, VNone, p.items, b, VStr("_search"));
    SearchRequestOk(es, lib, index, docType, body, given, kwargs, b);
  }

  /** Unfolds `SearchRequest` once the body is known to be accepted. */
  lemma SearchRequestOk(es: Elasticsearch, lib: Library, index: Value, docType: Value, body: Value,
                        params: map<string, Value>, kwargs: map<string, Value>, b: Value)
    requires SearchBody(lib, body, SearchKwargs(kwargs)) == Ok(b)
    ensures SearchRequest(es, lib, index, docType, body, params, kwargs) ==
      RequestFor(es, lib, "get", SearchIndex(index, docType), docType, VNone,
                 SearchParams(params, kwargs), b, VStr("_search"))
  {
  }

  /**
   * What `search` does to the params: `from` is the popped `from_`, else the
   * existing `from`, else 0, and `from_` is gone; `ignore_unavailable` is
   * `True` only when absent; `size` is the `size` keyword argument, else the
   * existing `size`, else 20; every other key is untouched.
   */
  lemma SearchParamsNormalised(p: map<string, Value>, kwargs: map<string, Value>)
    ensures var q := SearchParams(p, kwargs);
      && "from_" !in q
      && "from" in q && q["from"] == (if "from_" in p then p["from_"] else GetOr(p, "from", VInt(0)))
      && "ignore_unavailable" in q
      && q["ignore_unavailable"] == GetOr(p, "ignore_unavailable", VBool(true))
      && "size" in q
      && q["size"] == (if "size" in kwargs then kwargs["size"] else GetOr(p, "size", VInt(20)))
      && q.Keys == p.Keys - {"from_"} + {"from", "ignore_unavailable", "size"}
      && forall k :: k in p && k != "from_" && k != "from" && k != "ignore_unavailable" && k != "size"
           ==> q[k] == p[k]
  {
  }

  /** With no params and no keyword arguments, `search` sends from=0, ignore_unavailable=True, size=20. */
  lemma SearchDefaults()
    ensures SearchParams(map[], map[]) ==
      map["from" := VInt(0), "ignore_unavailable" := VBool(true), "size" := VInt(20)]
  {
  }

  /** Normalising already normalised params again (without keyword arguments) changes nothing. */
  lemma SearchParamsIdempotent(p: map<string, Value>, kwargs: map<string, Value>)
    ensures SearchParams(SearchParams(p, kwargs), map[]) == SearchParams(p, kwargs)
  {
    SearchParamsNormalised(p, kwargs);
  }

  /** `_all` is targeted exactly when a doc type is given without an index; otherwise the index is kept. */
  lemma SearchIndexAll(index: Value, docType: Value)
    ensures Truthy(docType) && !Truthy(index) ==> SearchIndex(index, docType) == VStr("_all")
    ensures !(Truthy(docType) && !Truthy(index)) ==> SearchIndex(index, docType) == index
    ensures Truthy(docType) ==> Truthy(SearchIndex(index, docType))
  {
  }

  /**
   * The search body: a falsy body becomes the keyword arguments alone; a dict
   * body is updated with them, their values winning; any other non-string
   * truthy body fails in `update`. A non-empty string body is decoded first:
   * it fails when it is not JSON, and its decoding is then treated as the body
   * itself would be. A `size` keyword argument never reaches the body.
   */
  lemma SearchBodyMerge(lib: Library, body: Value, kwargs: map<string, Value>)
    ensures !Truthy(body) ==> SearchBody(lib, body, SearchKwargs(kwargs)) == Ok(VDict(SearchKwargs(kwargs)))
    ensures Truthy(body) && body.VStr? && lib.loads(body.s).None? ==>
      SearchBody(lib, body, kwargs) == Err(BodyNotJson)
    ensures Truthy(body) && body.VStr? && lib.loads(body.s).Some? ==>
      var d := lib.loads(body.s).value;
      SearchBody(lib, body, SearchKwargs(kwargs)) ==
        (if !Truthy(d) then Ok(VDict(SearchKwargs(kwargs)))
         else if d.VDict? then Ok(VDict(d.entries + SearchKwargs(kwargs)))
         else Err(BodyNotMapping))
    ensures body.VDict? ==> SearchBody(lib, body, SearchKwargs(kwargs)) == Ok(VDict(body.entries + SearchKwargs(kwargs)))
    ensures Truthy(body) && !body.VStr? && !body.VDict? ==> SearchBody(lib, body, kwargs) == Err(BodyNotMapping)
    ensures var r := SearchBody(lib, body, SearchKwargs(kwargs));
      r.Ok? ==> (r.value.VDict? &&
        forall k :: k in kwargs && k != "size" ==> k in r.value.entries && r.value.entries[k] == kwargs[k])
    ensures !Truthy(body) ==> "size" !in SearchBody(lib, body, SearchKwargs(kwargs)).value.entries
  {
    assert map[] + SearchKwargs(kwargs) == SearchKwargs(kwargs);
  }

  /** A non-empty string body that is not JSON stops `search` before any request is built. */
  lemma SearchRejectsNonJson(es: Elasticsearch, lib: Library, index: Value, docType: Value, text: string,
                             params: map<string, Value>, kwargs: map<string, Value>)
    requires text != "" && lib.loads(text).None?
    ensures SearchRequest(es, lib, index, docType, VStr(text), params, kwargs) == Err(BodyNotJson)
  {
    SearchBodyMerge(lib, VStr(text), SearchKwargs(kwargs));
  }

  /**
   * Every search request is a GET through the transport's `get`, and its URL
   * always carries a query string, since the normalised params are never empty.
   */
  lemma SearchRequestShape(es: Elasticsearch, lib: Library, index: Value, docType: Value, body: Value,
                           params: map<string, Value>, kwargs: map<string, Value>)
    ensures var r := SearchRequest(es, lib, index, docType, body, params, kwargs);
      r.Ok? ==> && r.value.httpMethod == "get" && r.value.dispatch == Call(Get)
                && (exists u :: r.value.url == u + "?" + lib.urlencode(SearchParams(params, kwargs)))
  {
    var r := SearchRequest(es, lib, index, docType, body, params, kwargs);
    SearchParamsNormalised(params, kwargs);
    if r.Ok? {
      var b := SearchBody(lib, body, SearchKwargs(kwargs)).value;
      var u := BuildUrl(lib, es.host, Truthies([SearchIndex(index, docType), docType, VNone, VStr("_search")])).value;
      assert r.value.url == u + "?" + lib.urlencode(SearchParams(params, kwargs));
    }
  }

  // ---------------------------------------------------------------- bulk

  /** The params `bulk` sends: a `refresh` keyword argument is moved into them. */
  function BulkParams(p: map<string, Value>, kwargs: map<string, Value>): map<string, Value>
  {
    if "refresh" in kwargs then p["refresh" := kwargs["refresh"]] else p
  }

  /** The body `bulk` sends: a list body joined with newlines, anything else as it is. */
  function BulkBody(body: Value): Result<Value, Error>
  {
    if body.VList? then
      var joined :- PyJoin('\n', body.items);
      Ok(VStr(joined))
    else Ok(body)
  }

  /** The request `bulk` builds from the caller's params (`None` read as `{}`). */
  function BulkRequest(es: Elasticsearch, lib: Library, body: Value, index: Value, docType: Value,
                       params: map<string, Value>, kwargs: map<string, Value>): Result<Request, Error>
  {
    var b :- BulkBody(body);
    RequestFor(es, lib, "post", index, docType, VNone, BulkParams(params, kwargs), b, VStr("_bulk"))
  }

  /**
   * elastic_client.py:98-100: a `refresh` keyword argument moves into the
   * params, which are created when `None` or empty; a caller's non-empty dict
   * gets the entry in place.
   */
  method MoveRefresh(params: Dict?, kwargs: map<string, Value>)
    returns (p: Dict?, kw: map<string, Value>)
    modifies params
    ensures ItemsOf(p) == BulkParams(old(ItemsOf(params)), kwargs)
    ensures kw == if "refresh" in kwargs then kwargs - {"refresh"} else kwargs
    ensures params != null ==>
      params.items == (if "refresh" in kwargs && old(params.items) != map[]
                       then old(params.items)["refresh" := kwargs["refresh"]] else old(params.items))
  {
    p := params;
    kw := kwargs;
    if kw != map[] && "refresh" in kw {
      if p == null || p.items == map[] {
        p := new Dict(map[]);
      }
      var refresh := kw["refresh"];
      kw := kw - {"refresh"};
      p.Set("refresh", refresh);
    }
  }

  /** Unfolds `BulkRequest` once the body is known to be accepted. */
  lemma BulkRequestOk(es: Elasticsearch, lib: Library, body: Value, index: Value, docType: Value,
                      params: map<string, Value>, kwargs: map<string, Value>, b: Value)
    requires BulkBody(body) == Ok(b)
    ensures BulkRequest(es, lib, body, index, docType, params, kwargs) ==
      RequestFor(es, lib, "post", index, docType, VNone, BulkParams(params, kwargs), b, VStr("_bulk"))
  {
  }

  /**
   * `bulk`. With a `refresh` keyword argument a caller's non-empty params dict
   * gets the `refresh` entry in place; otherwise the caller's dict is left as it was.
   */
  method Bulk(es: Elasticsearch, lib: Library, body: Value, index: Value, docType: Value,
              params: Dict?, kwargs: map<string, Value>)
    returns (r: Result<Request, Error>)
    modifies params
    ensures r == BulkRequest(es, lib, body, index, docType, old(ItemsOf(params)), kwargs)
    ensures params != null ==>
      params.items == (if "refresh" in kwargs && old(params.items) != map[]
                       then old(params.items)["refresh" := kwargs["refresh"]] else old(params.items))
  {
    ghost var given := ItemsOf(params);
    var p, kw := MoveRefresh(params, kwargs);
    var b := body;
    if b.VList? {
      var joined := PyJoin('\n', b.items);
      if joined.Err? {
        return Err(joined.error);
      }
      b := VStr(joined.value);
    }
    var sent := if p == null then map[] else p.items;
    r := MakeRequest(es, lib, "post", index, docType, VNone, sent, b, VStr("_bulk"));
    BulkRequestOk(es, lib, body, index, docType, given, kwargs, b);
  }

  /** `refresh` is set from the keyword argument and nothing else in the params changes. */
  lemma BulkRefresh(p: map<string, Value>, kwargs: map<string, Value>)
    ensures "refresh" in kwargs ==> "refresh" in BulkParams(p, kwargs) && BulkParams(p, kwargs)["refresh"] == kwargs["refresh"]
    ensures "refresh" !in kwargs ==> BulkParams(p, kwargs) == p
    ensures forall k :: k in p && k != "refresh" ==> k in BulkParams(p, kwargs) && BulkParams(p, kwargs)[k] == p[k]
    ensures BulkParams(p, kwargs).Keys == p.Keys + (if "refresh" in kwargs then {"refresh"} else {})
  {
  }

  /**
   * Partner of the newline join: the bulk body of a non-empty list of lines
   * without newlines splits back into exactly those lines.
   */
  lemma BulkLinesRoundTrip(lines: seq<string>)
    requires lines != []
    requires forall i :: 0 <= i < |lines| ==> '\n' !in lines[i]
    ensures var body := VList(seq(|lines|, i requires 0 <= i < |lines| => VStr(lines[i])));
      BulkBody(body).Ok? && BulkBody(body).value.VStr? && Split('\n', BulkBody(body).value.s) == lines
  {
    var items := seq(|lines|, i requires 0 <= i < |lines| => VStr(lines[i]));
    assert AllStrings(items);
    assert Strings(items) == lines;
    SplitJoin('\n', lines);
  }

  /** A list body holding a non-string fails in the join, before anything is sent. */
  lemma BulkRejectsNonStringLine(es: Elasticsearch, lib: Library, items: seq<Value>, index: Value,
                                 docType: Value, params: map<string, Value>, kwargs: map<string, Value>)
    requires !AllStrings(items)
    ensures BulkRequest(es, lib, VList(items), index, docType, params, kwargs) == Err(JoinOfNonString)
  {
  }

  // ---------------------------------------------------------------- count

  /** `count`: POST with the `_count` suffix, body passed through. */
  method Count(es: Elasticsearch, lib: Library, body: Value, index: Value, docType: Value,
               params: map<string, Value>)
    returns (r: Result<Request, Error>)
    ensures r == RequestFor(es, lib, "post", index, docType, VNone, params, body, VStr("_count"))
    ensures r.Ok? ==> r.value.dispatch == Call(Post) && r.value.data == EncodeBody(lib, body)
  {
    r := MakeRequest(es, lib, "post", index, docType, VNone, params, body, VStr("_count"));
  }

  // ---------------------------------------------------------------- delete

  /** `delete`: DELETE on index, doc type and id, with no body. */
  method Delete(es: Elasticsearch, lib: Library, index: Value, docType: Value, id: Value,
                params: map<string, Value>)
    returns (r: Result<Request, Error>)
    ensures r == RequestFor(es, lib, "delete", index, docType, id, params, VNone, VNone)
    ensures r.Ok? ==> r.value.dispatch == Call(Verb.Delete) && r.value.data == VNone
  {
    r := MakeRequest(es, lib, "delete", index, docType, id, params, VNone, VNone);
  }
}
