/**
 * URL construction of the client: the path segments `_make_request` collects,
 * the base URL and join of `_build_url`, and the query string.
 */
module Urls {
  import opened Wrappers
  import opened Text
  import opened PyValues

  /** The configured host: a full URL string, a `{host, port}` mapping, or `None`. */
  datatype Host =
    | HostNone
    | HostUrl(url: string)
    | HostMap(entries: map<string, Value>)

  /** What one `if v: args.append(v)` adds. */
  function Keep(v: Value): seq<Value>
  {
    if Truthy(v) then [v] else []
  }

  /** The truthy values of `xs`, in order (what a run of `if v: args.append(v)` collects). */
  function Truthies(xs: seq<Value>): seq<Value>
  {
    if xs == [] then [] else Keep(xs[0]) + Truthies(xs[1..])
  }

  /** A value kept by `Truthies` is truthy and comes from the input; every truthy input is kept. */
  lemma {:induction false} TruthiesExactly(xs: seq<Value>)
    ensures forall v :: v in Truthies(xs) <==> v in xs && Truthy(v)
  {
    if xs != [] {
      TruthiesExactly(xs[1..]);
      assert xs == [xs[0]] + xs[1..];
    }
  }

  /** Filtering distributes over concatenation, so the relative order of the kept values is that of the input. */
  lemma {:induction false} TruthiesAppend(xs: seq<Value>, ys: seq<Value>)
    ensures Truthies(xs + ys) == Truthies(xs) + Truthies(ys)
  {
    if xs == [] {
      assert xs + ys == ys;
    } else {
      var zs := xs + ys;
      assert zs[0] == xs[0] && zs[1..] == xs[1..] + ys;
      assert Truthies(zs) == Keep(xs[0]) + Truthies(xs[1..] + ys);
      TruthiesAppend(xs[1..], ys);
      assert Truthies(xs) == Keep(xs[0]) + Truthies(xs[1..]);
    }
  }

  /** A kept string segment is never empty: an absent or empty value adds no segment. */
  lemma SegmentsNonEmpty(xs: seq<Value>)
    ensures forall v :: v in Truthies(xs) && v.VStr? ==> v.s != ""
  {
    TruthiesExactly(xs);
  }

  /** Python's `'%s' % v`: a string is itself; any other value goes through the library's formatting. */
  function Format(lib: Library, v: Value): string
  {
    if v.VStr? then v.s else lib.format(v)
  }

  /** The base URL: the host verbatim when it contains `://`, else `http://{host}:{port}/`. */
  function Base(lib: Library, host: Host): (r: Result<string, Error>)
    ensures host.HostUrl? && Contains(host.url, "://") ==> r == Ok(host.url)
    ensures host.HostUrl? && !Contains(host.url, "://") ==> r == Err(HostNotMapping)
    ensures host.HostNone? ==> r == Err(HostMissing)
    ensures host.HostMap? && "://" !in host.entries ==>
      r.Ok? && |r.value| >= 8 && r.value[..7] == "http://" && r.value[|r.value| - 1] == '/'
    ensures host.HostMap? && "://" !in host.entries ==>
      r == Ok("http://" + Format(lib, GetOr(host.entries, "host", VNone)) + ":" +
              Format(lib, GetOr(host.entries, "port", VNone)) + "/")
  {
    match host
    case HostNone => Err(HostMissing)
    case HostUrl(s) => if Contains(s, "://") then Ok(s) else Err(HostNotMapping)
    case HostMap(m) =>
      if "://" in m then Ok(Format(lib, VDict(m)))
      else Ok("http://" + Format(lib, GetOr(m, "host", VNone)) + ":" + Format(lib, GetOr(m, "port", VNone)) + "/")
  }

  /** `_build_url(args)`: the base followed by the `/`-joined segments. */
  function BuildUrl(lib: Library, host: Host, args: seq<Value>): Result<string, Error>
  {
    var base :- Base(lib, host);
    if args == [] then Ok(base)
    else
      var path :- PyJoin('/', args);
      Ok(base + path)
  }

  /** With no segments the URL is just the base, and it fails exactly when the base does. */
  lemma BuildUrlNoArgs(lib: Library, host: Host)
    ensures BuildUrl(lib, host, []) == Base(lib, host)
  {
  }

  /** `_build_url` fails exactly on a bad host or on a non-string segment. */
  lemma BuildUrlFails(lib: Library, host: Host, args: seq<Value>)
    ensures BuildUrl(lib, host, args).Err? <==> Base(lib, host).Err? || (args != [] && !AllStrings(args))
  {
  }

  /**
   * Partner of `_build_url`: the URL is the base followed by a path that splits on
   * `/` back into exactly the segments, when no segment holds a `/`.
   */
  lemma BuildUrlRoundTrip(lib: Library, host: Host, args: seq<Value>)
    requires Base(lib, host).Ok?
    requires args != [] && AllStrings(args)
    requires forall i :: 0 <= i < |args| ==> '/' !in args[i].s
    ensures BuildUrl(lib, host, args).Ok?
    ensures var base, u := Base(lib, host).value, BuildUrl(lib, host, args).value;
      |base| <= |u| && u[..|base|] == base && Split('/', u[|base|..]) == Strings(args)
  {
    var base := Base(lib, host).value;
    var path := Join('/', Strings(args));
    assert BuildUrl(lib, host, args) == Ok(base + path);
    assert (base + path)[|base|..] == path;
    SplitJoin('/', Strings(args));
  }

  /** `url?{urlencode(params)}` when params is non-empty, else the URL unchanged. */
  function WithQuery(lib: Library, url: string, params: map<string, Value>): (r: string)
    ensures params == map[] ==> r == url
    ensures params != map[] ==>
      |r| > |url| && r[..|url|] == url && r[|url|] == '?' && r[|url| + 1..] == lib.urlencode(params)
  {
    if params != map[] then url + "?" + lib.urlencode(params) else url
  }
}
