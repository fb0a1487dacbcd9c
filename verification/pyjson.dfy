/** JSON documents as Python holds them after `json.load`, together with the
    parts of Python's semantics the scripts rely on: truthiness, `dict.get`,
    subscription with a string key, and the exceptions these raise. */
module PyJson {
  import opened Results

  /** A decoded JSON value. Numbers keep Python's int/float distinction; a float
      is `mantissa * 10^exponent` as written in the document. Objects are dicts:
      a key occurs at most once (the decoder keeps the last duplicate). */
  datatype Json =
    | JNull
    | JBool(b: bool)
    | JInt(i: int)
    | JFloat(mantissa: int, exponent: int)
    | JStr(s: string)
    | JArr(items: seq<Json>)
    | JObj(fields: map<string, Json>)

  const EmptyObject: Json := JObj(map[])

  /** Python truthiness, as `if not x` and `x or y` test it. */
  predicate Truthy(j: Json): (r: bool)
    ensures !r <==> || j == JNull || j == JBool(false) || j == JInt(0) || (j.JFloat? && j.mantissa == 0)
                    || j == JStr("") || j == JArr([]) || j == JObj(map[])
  {
    match j
    case JNull => false
    case JBool(b) => b
    case JInt(i) => i != 0
    case JFloat(m, _) => m != 0
    case JStr(s) => |s| > 0
    case JArr(a) => |a| > 0
    case JObj(m) => |m| > 0
  }

  /** `type(j).__name__` */
  function TypeName(j: Json): string {
    match j
    case JNull => "NoneType"
    case JBool(_) => "bool"
    case JInt(_) => "int"
    case JFloat(_, _) => "float"
    case JStr(_) => "str"
    case JArr(_) => "list"
    case JObj(_) => "dict"
  }

  /** The exceptions the modelled code can raise, by kind. */
  datatype Fault =
    | Raised(message: string)          // raised by the decoder, the OS or the subprocess module; `str(e)` is `message`
    | NoAttributeGet(typeName: string) // AttributeError: `.get` on a value that is not a dict
    | KeyMissing(key: string)          // KeyError: `d[key]` on a dict without `key`
    | NotIndexable(typeName: string)   // TypeError: `x[key]` with a string key on a value that is not a dict
    | NotPathLike(typeName: string)    // TypeError: a command-line argument that is not a string

  /** `str(e)` for each kind of exception, in the wording of CPython 3.11 and later. */
  function Message(f: Fault): (r: string)
    ensures f.Raised? ==> r == f.message
    ensures !f.Raised? ==> |r| > 0
    ensures f.KeyMissing? ==> r == "'" + f.key + "'"
    ensures f.NotPathLike? ==> |f.typeName| <= |r| && r[|r| - |f.typeName|..] == f.typeName
  {
    match f
    case Raised(m) => m
    case NoAttributeGet(t) => "'" + t + "' object has no attribute 'get'"
    case KeyMissing(k) => "'" + k + "'"
    case NotIndexable(t) =>
      if t == "list" then "list indices must be integers or slices, not str"
      else if t == "str" then "string indices must be integers, not 'str'"
      else "'" + t + "' object is not subscriptable"
    case NotPathLike(t) => "expected str, bytes or os.PathLike object, not " + t
  }

  /** `o.get(key, default)` on a dict `o`: the value stored under `key`, or `default`. */
  function Lookup(o: Json, key: string, default: Json): (r: Json)
    ensures o.JObj? && key in o.fields ==> r == o.fields[key]
    ensures !o.JObj? || key !in o.fields ==> r == default
  {
    if o.JObj? && key in o.fields then o.fields[key] else default
  }

  /** `get` after storing a key yields the stored value; after removing it, the default. */
  lemma LookupOfUpdate(m: map<string, Json>, key: string, v: Json, default: Json)
    ensures Lookup(JObj(m[key := v]), key, default) == v
    ensures Lookup(JObj(m - {key}), key, default) == default
  {
  }

  /** `o.get(key, {})` on a dict `o`: a section of the document, or an empty dict. */
  function Section(o: Json, key: string): (r: Json)
    ensures o.JObj? && key in o.fields ==> r == o.fields[key]
    ensures !o.JObj? || key !in o.fields ==> r == EmptyObject
  {
    Lookup(o, key, EmptyObject)
  }

  /** `o[key]` */
  function Index(o: Json, key: string): (r: Result<Json, Fault>)
    ensures r.Success? <==> o.JObj? && key in o.fields
    ensures r.Success? ==> r.value == o.fields[key]
    ensures r.Failure? ==> r.error == (if o.JObj? then KeyMissing(key) else NotIndexable(TypeName(o)))
  {
    if !o.JObj? then Failure(NotIndexable(TypeName(o)))
    else if key in o.fields then Success(o.fields[key])
    else Failure(KeyMissing(key))
  }

  /** Python's `a or b`: the first operand when it is truthy, else the second. */
  function Or(a: Json, b: Json): Json {
    if Truthy(a) then a else b
  }
}
