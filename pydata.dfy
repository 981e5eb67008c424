/**
  Python dictionaries as the bot stores and exchanges them (the JSON-like values that
  `serialize`/`from_dict` produce and consume), with the field readers that the
  `from_dict` constructors use: `d[key]` (raises on a missing key) and `d.get(key, default)`.
*/
module PyData {
  import opened Wrappers

  datatype PyValue =
    | PyNone
    | PyBool(b: bool)
    | PyInt(i: int)
    | PyStr(s: string)
    | PyList(items: seq<PyValue>)
    | PyDict(entries: map<string, PyValue>)

  type Dict = map<string, PyValue>

  /** Why a `from_dict` raised: `d[key]` on a missing key, or a value of the wrong kind. */
  datatype DecodeError = MissingKey(key: string) | InvalidValue(key: string)

  /** Python truthiness: `None`, `False`, `0`, and empty strings, lists and dictionaries are
      falsy; every other value is truthy. */
  predicate Truthy(v: PyValue) {
    match v
    case PyNone => false
    case PyBool(b) => b
    case PyInt(i) => i != 0
    case PyStr(s) => s != ""
    case PyList(items) => items != []
    case PyDict(entries) => entries != map[]
  }

  /** `d.get(key, default)`. */
  function Get(d: Dict, key: string, default: PyValue): PyValue {
    if key in d then d[key] else default
  }

  /** A list of strings as stored in a dictionary. */
  function StrList(xs: seq<string>): (vs: seq<PyValue>)
    ensures |vs| == |xs|
  {
    if xs == [] then [] else [PyStr(xs[0])] + StrList(xs[1..])
  }

  /** Reads a stored list back as strings; fails when an element is not a string. */
  function AsStrList(vs: seq<PyValue>): Option<seq<string>> {
    if vs == [] then Some([])
    else if !vs[0].PyStr? then None
    else match AsStrList(vs[1..])
      case None => None
      case Some(rest) => Some([vs[0].s] + rest)
  }

  /** Reading a stored list of strings gives back exactly the strings that were stored,
      and a list reads as strings only if it is the stored form of those strings. */
  lemma {:induction false} AsStrListInverse(vs: seq<PyValue>, xs: seq<string>)
    ensures AsStrList(vs) == Some(xs) <==> vs == StrList(xs)
  {
    if vs == [] {
      if xs != [] { assert |StrList(xs)| == |xs|; }
    } else if xs == [] {
    } else {
      AsStrListInverse(vs[1..], xs[1..]);
      if vs == StrList(xs) {
        assert vs[0] == PyStr(xs[0]) && vs[1..] == StrList(xs[1..]);
        assert AsStrList(vs) == Some([xs[0]] + xs[1..]);
        assert [xs[0]] + xs[1..] == xs;
      }
      if AsStrList(vs) == Some(xs) {
        assert vs[0] == PyStr(xs[0]) && AsStrList(vs[1..]) == Some(xs[1..]);
        assert vs == [vs[0]] + vs[1..];
      }
    }
  }

  /** An optional string as stored: `None` becomes Python's `None`. */
  function OptStr(o: Option<string>): PyValue {
    match o
    case None => PyNone
    case Some(s) => PyStr(s)
  }

  /** Reads an optional string back; fails on a value that is neither `None` nor a string. */
  function AsOptStr(v: PyValue): (r: Option<Option<string>>)
    ensures r.Some? <==> (v.PyNone? || v.PyStr?)
    ensures forall o :: r == Some(o) <==> v == OptStr(o)
  {
    match v
    case PyNone => Some(None)
    case PyStr(s) => Some(Some(s))
    case _ => None
  }

  /** `d[key]` where the value must be a string. */
  function RequiredStr(d: Dict, key: string): Result<string, DecodeError> {
    if key !in d then Err(MissingKey(key))
    else if !d[key].PyStr? then Err(InvalidValue(key))
    else Ok(d[key].s)
  }

  /** `d[key]` where the value must be an opaque timestamp. */
  function RequiredInt(d: Dict, key: string): Result<int, DecodeError> {
    if key !in d then Err(MissingKey(key))
    else if !d[key].PyInt? then Err(InvalidValue(key))
    else Ok(d[key].i)
  }

  /** `d.get(key)` where the value must be a string or `None`. */
  function OptionalStr(d: Dict, key: string): Result<Option<string>, DecodeError> {
    match AsOptStr(Get(d, key, PyNone))
    case None => Err(InvalidValue(key))
    case Some(o) => Ok(o)
  }

  /** `d.get(key, [])` where the value must be a list of strings. */
  function StrListOr(d: Dict, key: string): Result<seq<string>, DecodeError> {
    var v := Get(d, key, PyList([]));
    if !v.PyList? then Err(InvalidValue(key))
    else match AsStrList(v.items)
      case None => Err(InvalidValue(key))
      case Some(xs) => Ok(xs)
  }

  /** `d.get(key, {})` where the value must be a dictionary. */
  function DictOr(d: Dict, key: string): Result<Dict, DecodeError> {
    var v := Get(d, key, PyDict(map[]));
    if v.PyDict? then Ok(v.entries) else Err(InvalidValue(key))
  }
}
