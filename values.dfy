/**
 * The Python values the client passes around (index names, ids, params,
 * bodies), Python's truthiness, the exceptions that escape the client, the
 * library functions whose internals are not part of this model, and a
 * mutable dictionary for the params dicts the client updates in place.
 */
module PyValues {
  import opened Wrappers
  import opened Text

  /** A JSON-like Python value. */
  datatype Value =
    | VNone
    | VBool(b: bool)
    | VInt(i: int)
    | VStr(s: string)
    | VList(items: seq<Value>)
    | VDict(entries: map<string, Value>)

  /** Python truthiness: `None`, `False`, `0`, `''`, `[]` and `{}` are falsy. */
  predicate Truthy(v: Value)
  {
    match v
    case VNone => false
    case VBool(b) => b
    case VInt(i) => i != 0
    case VStr(s) => s != ""
    case VList(xs) => xs != []
    case VDict(m) => m != map[]
  }

  /** The exceptions the modelled code lets escape, by the line that raises them. */
  datatype Error =
    | HostMissing          // `'://' in None`: TypeError (elastic_client.py:34)
    | HostNotMapping       // a string host without `://` has no `.get`: AttributeError (elastic_client.py:37)
    | JoinOfNonString      // `sep.join` over a non-string item: TypeError (elastic_client.py:39, 102)
    | BodyNotJson          // `json.loads` of a string body that is not JSON: ValueError (elastic_client.py:92)
    | BodyNotMapping       // `body.update` on a value that is not a dict: AttributeError (elastic_client.py:94)

  /**
   * Library code whose internals are not modelled: `json.dumps`, `json.loads`,
   * `urllib.urlencode` and Python's `'%s'` formatting of a value that is not a
   * string. `loads` yields `None` for a text `json.loads` rejects with ValueError.
   */
  datatype Library = Library(
    dumps: Value -> string,
    loads: string -> Option<Value>,
    urlencode: map<string, Value> -> string,
    format: Value -> string)

  /** `dict.get(k, d)` */
  function GetOr(m: map<string, Value>, k: string, d: Value): Value
  {
    if k in m then m[k] else d
  }

  predicate AllStrings(vs: seq<Value>)
  {
    forall i :: 0 <= i < |vs| ==> vs[i].VStr?
  }

  function Strings(vs: seq<Value>): (r: seq<string>)
    requires AllStrings(vs)
    ensures |r| == |vs| && forall i :: 0 <= i < |vs| ==> r[i] == vs[i].s
  {
    if vs == [] then [] else [vs[0].s] + Strings(vs[1..])
  }

  /** `sep.join(vs)`: raises TypeError unless every item is a string. */
  function PyJoin(sep: char, vs: seq<Value>): (r: Result<string, Error>)
    ensures r.Ok? <==> AllStrings(vs)
    ensures r.Ok? ==> r.value == Join(sep, Strings(vs))
  {
    if AllStrings(vs) then Ok(Join(sep, Strings(vs))) else Err(JoinOfNonString)
  }

  /** A Python dict object, shared by reference and updated in place. */
  class Dict {
    var items: map<string, Value>

    constructor (m: map<string, Value>)
      ensures items == m
    {
      items := m;
    }

    /** `d.pop(k)`; the client only pops keys it has just found present. */
    method Pop(k: string) returns (v: Value)
      requires k in items
      modifies this
      ensures v == old(items)[k]
      ensures items == old(items) - {k}
    {
      v := items[k];
      items := items - {k};
    }

    /** `d[k] = v` */
    method Set(k: string, v: Value)
      modifies this
      ensures items == old(items)[k := v]
    {
      items := items[k := v];
    }
  }

  /** The entries of a params argument: `None` reads as no entries. */
  ghost function ItemsOf(d: Dict?): map<string, Value>
    reads d
  {
    if d == null then map[] else d.items
  }
}
