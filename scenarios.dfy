/**
 * Concrete requests for a client configured with the URL host
 * `http://es:9200/`: the path rules, the verb choice of `index`, the
 * defaults of `search`, the newline join of `bulk` and the body-less `delete`.
 */
module Scenarios {
  import opened Wrappers
  import opened Text
  import opened PyValues
  import opened Urls
  import opened Requests
  import opened Client

  const Es := Elasticsearch(HostUrl("http://es:9200/"))
  const Json := map["content-type" := Mimetype]

  lemma EsBase(lib: Library)
    ensures Base(lib, Es.host) == Ok("http://es:9200/")
  {
    ContainsAt("http://es:9200/", "://", 4);
  }

  /** The request for `http://es:9200/` once the segments are known to join into `path`. */
  lemma EsRequest(lib: Library, httpMethod: string, index: Value, doctype: Value, id: Value,
                  params: map<string, Value>, body: Value, extraOp: Value, path: string, url: string)
    requires Truthies([index, doctype, id, extraOp]) != []
    requires PyJoin('/', Truthies([index, doctype, id, extraOp])) == Ok(path)
    requires url == "http://es:9200/" + path
    ensures RequestFor(Es, lib, httpMethod, index, doctype, id, params, body, extraOp)
         == Ok(Request(httpMethod, GetFunc(httpMethod), WithQuery(lib, url, params), EncodeBody(lib, body), Json))
  {
    EsBase(lib);
    RequestForUrl(Es, lib, httpMethod, index, doctype, id, params, body, extraOp, url);
  }

  lemma PathI()
    ensures Truthies([VStr("i"), VNone, VNone, VNone]) == [VStr("i")]
    ensures PyJoin('/', [VStr("i")]) == Ok("i")
    ensures "http://es:9200/" + "i" == "http://es:9200/i"
  {
    TruthiesOfFour(VStr("i"), VNone, VNone, VNone);
    assert Strings([VStr("i")]) == ["i"];
  }

  /** Index and id without a doc type or suffix give the two-segment path `x/y`. */
  lemma PathTwo(x: string, y: string)
    requires x != "" && y != ""
    ensures Truthies([VStr(x), VNone, VStr(y), VNone]) == [VStr(x), VStr(y)]
    ensures PyJoin('/', [VStr(x), VStr(y)]) == Ok(x + "/" + y)
  {
    TruthiesOfFour(VStr(x), VNone, VStr(y), VNone);
    assert Strings([VStr(x), VStr(y)]) == [x, y];
    assert Join('/', [x, y]) == x + "/" + y;
  }

  /** Index, doc type and suffix without an id give the three-segment path `x/y/z`. */
  lemma PathThree(x: string, y: string, z: string)
    requires x != "" && y != "" && z != ""
    ensures Truthies([VStr(x), VStr(y), VNone, VStr(z)]) == [VStr(x), VStr(y), VStr(z)]
    ensures PyJoin('/', [VStr(x), VStr(y), VStr(z)]) == Ok(x + "/" + y + "/" + z)
  {
    TruthiesOfFour(VStr(x), VStr(y), VNone, VStr(z));
    assert Strings([VStr(x), VStr(y), VStr(z)]) == [x, y, z];
    assert Join('/', [y, z]) == y + "/" + z;
    assert Join('/', [x, y, z]) == x + "/" + y + "/" + z;
  }

  lemma PathBulk()
    ensures Truthies([VNone, VNone, VNone, VStr("_bulk")]) == [VStr("_bulk")]
    ensures PyJoin('/', [VStr("_bulk")]) == Ok("_bulk")
    ensures "http://es:9200/" + "_bulk" == "http://es:9200/_bulk"
  {
    TruthiesOfFour(VNone, VNone, VNone, VStr("_bulk"));
    assert Strings([VStr("_bulk")]) == ["_bulk"];
  }

  lemma EncodeA1(lib: Library)
    ensures EncodeBody(lib, VDict(map["a" := VInt(1)])) == VStr(lib.dumps(VDict(map["a" := VInt(1)])))
  {
    assert "a" in map["a" := VInt(1)];
  }

  /** `index(index='i', body={'a': 1})` without an id POSTs the encoded body to `i`. */
  lemma IndexWithoutIdPosts(lib: Library)
    ensures var body := VDict(map["a" := VInt(1)]);
      IndexRequest(Es, lib, VStr("i"), body, VNone, VNone, map[])
      == Ok(Request("post", Call(Post), "http://es:9200/i", VStr(lib.dumps(body)), Json))
  {
    var body := VDict(map["a" := VInt(1)]);
    PathI();
    EsRequest(lib, "post", VStr("i"), VNone, VNone, map[], body, VNone, "i", "http://es:9200/i");
    EncodeA1(lib);
  }

  /** With `id='7'` the same call PUTs to `i/7`. */
  lemma IndexWithIdPuts(lib: Library)
    ensures var body := VDict(map["a" := VInt(1)]);
      IndexRequest(Es, lib, VStr("i"), body, VNone, VStr("7"), map[])
      == Ok(Request("put", Call(Put), "http://es:9200/i/7", VStr(lib.dumps(body)), Json))
  {
    var body := VDict(map["a" := VInt(1)]);
    PathTwo("i", "7");
    assert "i" + "/" + "7" == "i/7";
    EsRequest(lib, "put", VStr("i"), VNone, VStr("7"), map[], body, VNone, "i/7", "http://es:9200/i/7");
    EncodeA1(lib);
  }

  /** `delete('a', id='5')` without a doc type DELETEs `a/5`, never `a//5`, with no body. */
  lemma DeleteSkipsMissingDocType(lib: Library)
    ensures RequestFor(Es, lib, "delete", VStr("a"), VNone, VStr("5"), map[], VNone, VNone)
         == Ok(Request("delete", Call(Verb.Delete), "http://es:9200/a/5", VNone, Json))
  {
    PathTwo("a", "5");
    assert "a" + "/" + "5" == "a/5";
    EsRequest(lib, "delete", VStr("a"), VNone, VStr("5"), map[], VNone, VNone, "a/5", "http://es:9200/a/5");
  }

  /** A `{'host': 'es', 'port': 9200}` host gives `http://es:{port}/`, the port formatted by `'%s'`. */
  lemma MappingHostBase(lib: Library)
    ensures Base(lib, HostMap(map["host" := VStr("es"), "port" := VInt(9200)]))
         == Ok("http://es:" + lib.format(VInt(9200)) + "/")
  {
    var m := map["host" := VStr("es"), "port" := VInt(9200)];
    assert "://" !in m;
    assert GetOr(m, "host", VNone) == VStr("es") && GetOr(m, "port", VNone) == VInt(9200);
    assert Format(lib, VStr("es")) == "es";
    assert Format(lib, VInt(9200)) == lib.format(VInt(9200));
    assert "http://" + "es" + ":" == "http://es:";
  }

  lemma SearchNoBody(lib: Library)
    ensures SearchBody(lib, VNone, SearchKwargs(map[])) == Ok(VDict(map[]))
  {
    assert SearchKwargs(map[]) == map[];
    assert map[] + SearchKwargs(map[]) == map[];
  }

  /** `search(doc_type='t')` GETs `_all/t/_search` with the default params; the body `{}` is sent as it is. */
  lemma SearchDocTypeOnly(lib: Library)
    ensures SearchRequest(Es, lib, VNone, VStr("t"), VNone, map[], map[])
         == Ok(Request("get", Call(Get),
                       "http://es:9200/_all/t/_search?" +
                       lib.urlencode(map["from" := VInt(0), "ignore_unavailable" := VBool(true), "size" := VInt(20)]),
                       VDict(map[]), Json))
  {
    var url := "http://es:9200/_all/t/_search";
    SearchUnfold(lib);
    SearchAllPath(lib, SearchParams(map[], map[]));
    SearchDefaultQuery(lib, url);
    assert url + "?" == "http://es:9200/_all/t/_search?";
  }

  lemma SearchUnfold(lib: Library)
    ensures SearchRequest(Es, lib, VNone, VStr("t"), VNone, map[], map[])
         == RequestFor(Es, lib, "get", VStr("_all"), VStr("t"), VNone, SearchParams(map[], map[]),
                       VDict(map[]), VStr("_search"))
  {
    SearchNoBody(lib);
    SearchDocTypeUnfold(lib, VStr("t"), map[], map[], VDict(map[]));
  }

  lemma SearchDocTypeUnfold(lib: Library, docType: Value, params: map<string, Value>,
                            kwargs: map<string, Value>, b: Value)
    requires Truthy(docType)
    requires SearchBody(lib, VNone, SearchKwargs(kwargs)) == Ok(b)
    ensures SearchRequest(Es, lib, VNone, docType, VNone, params, kwargs)
         == RequestFor(Es, lib, "get", VStr("_all"), docType, VNone, SearchParams(params, kwargs), b, VStr("_search"))
  {
    SearchRequestOk(Es, lib, VNone, docType, VNone, params, kwargs, b);
  }

  lemma SearchAllPath(lib: Library, q: map<string, Value>)
    ensures RequestFor(Es, lib, "get", VStr("_all"), VStr("t"), VNone, q, VDict(map[]), VStr("_search"))
         == Ok(Request("get", Call(Get), WithQuery(lib, "http://es:9200/_all/t/_search", q), VDict(map[]), Json))
  {
    PathSearchAll();
    EsRequest(lib, "get", VStr("_all"), VStr("t"), VNone, q, VDict(map[]), VStr("_search"),
              "_all/t/_search", "http://es:9200/_all/t/_search");
  }

  lemma PathSearchAll()
    ensures Truthies([VStr("_all"), VStr("t"), VNone, VStr("_search")]) != []
    ensures PyJoin('/', Truthies([VStr("_all"), VStr("t"), VNone, VStr("_search")])) == Ok("_all/t/_search")
  {
    PathThree("_all", "t", "_search");
    assert "_all" + "/" + "t" + "/" + "_search" == "_all/t/_search";
  }

  lemma SearchDefaultQuery(lib: Library, url: string)
    ensures WithQuery(lib, url, SearchParams(map[], map[])) ==
      url + "?" + lib.urlencode(map["from" := VInt(0), "ignore_unavailable" := VBool(true), "size" := VInt(20)])
  {
    SearchDefaults();
    assert "from" in SearchParams(map[], map[]);
  }

  /** `bulk(body=['l1', 'l2'])` POSTs `l1\nl2` to `_bulk`. */
  lemma BulkJoinsLines(lib: Library)
    ensures BulkRequest(Es, lib, VList([VStr("l1"), VStr("l2")]), VNone, VNone, map[], map[])
         == Ok(Request("post", Call(Post), "http://es:9200/_bulk", VStr("l1\nl2"), Json))
  {
    assert BulkBody(VList([VStr("l1"), VStr("l2")])) == Ok(VStr("l1\nl2")) by {
      assert Strings([VStr("l1"), VStr("l2")]) == ["l1", "l2"];
      assert Join('\n', ["l1", "l2"]) == "l1\nl2";
    }
    PathBulk();
    EsRequest(lib, "post", VNone, VNone, VNone, map[], VStr("l1\nl2"), VStr("_bulk"), "_bulk", "http://es:9200/_bulk");
  }
}
