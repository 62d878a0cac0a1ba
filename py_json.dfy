/**
 * Decoded JSON values as the client sees them after `response.json()`, and
 * the few Python operations the client applies to them: `v.get(key, default)`,
 * `v[key]`, `v[0]`, iteration, and hashing. Each operation returns the Python
 * exception it would raise as a `Failure`.
 */
module PyJson {
  import opened Wrappers

  /** A JSON document as Python's json module decodes it (objects are dicts,
      arrays are lists, `null` is None). Numbers are modelled as integers. */
  datatype Json =
    | JNull
    | JBool(b: bool)
    | JNum(n: int)
    | JStr(s: string)
    | JArr(elems: seq<Json>)
    | JObj(fields: map<string, Json>)

  /** The exceptions the client lets escape. */
  datatype PyError = AttributeError | KeyError | TypeError | IndexError

  /** What `request` hands back: a decoded body, or nothing. Python's None and
      a decoded JSON `null` are the same value, so both become `JNull`. */
  function AsPython(response: Option<Json>): (v: Json)
    ensures response.None? ==> v == JNull
    ensures response.Some? ==> v == response.value
  {
    match response
    case None => JNull
    case Some(j) => j
  }

  /** The reshaping code cannot tell a failed request from a body that is
      the JSON literal `null`; every other body reaches it unchanged. */
  lemma NoResponseIsNull(response: Option<Json>)
    ensures AsPython(None) == AsPython(Some(JNull))
    ensures AsPython(response) == JNull <==> response == None || response == Some(JNull)
    ensures AsPython(response) != JNull ==> response == Some(AsPython(response))
  {
  }

  /** Lists and dicts are unhashable; every other decoded value is hashable. */
  predicate Hashable(v: Json) {
    !v.JArr? && !v.JObj?
  }

  /** `v.get(key, default)`: only a dict has a `get` method. */
  function Get(v: Json, key: string, default: Json): (r: Result<Json, PyError>)
    ensures r.Failure? <==> !v.JObj?
    ensures r.Failure? ==> r.error == AttributeError
    ensures r.Success? && key in v.fields ==> r.value == v.fields[key]
    ensures r.Success? && key !in v.fields ==> r.value == default
  {
    match v
    case JObj(m) => Success(if key in m then m[key] else default)
    case _ => Failure(AttributeError)
  }

  /** `v[key]` with a string key: a dict without that key raises KeyError,
      every other value raises TypeError (lists and strings want integer
      indices, the rest are not subscriptable). */
  function Field(v: Json, key: string): (r: Result<Json, PyError>)
    ensures r.Success? <==> v.JObj? && key in v.fields
    ensures r.Success? ==> r.value == v.fields[key]
    ensures r.Failure? ==> r.error == (if v.JObj? then KeyError else TypeError)
  {
    match v
    case JObj(m) => if key in m then Success(m[key]) else Failure(KeyError)
    case _ => Failure(TypeError)
  }

  /** Where `v[key]` succeeds, `v.get(key, default)` gives the same value;
      on a dict without the key `get` falls back to the default where the
      subscript raises KeyError; on anything but a dict both fail. */
  lemma FieldAgreesWithGet(v: Json, key: string, default: Json)
    ensures Field(v, key).Success? ==> Get(v, key, default) == Field(v, key)
    ensures Field(v, key) == Failure(KeyError) ==> Get(v, key, default) == Success(default)
    ensures Get(v, key, default).Failure? <==> Field(v, key) == Failure(TypeError)
  {
  }

  /** `v[0]`: the first element of a list or the first character of a string;
      a dict decoded from JSON has only string keys, so `0` is never one. */
  function First(v: Json): (r: Result<Json, PyError>)
    ensures v.JArr? ==> (r.Success? <==> |v.elems| > 0)
    ensures v.JArr? && r.Success? ==> r.value == v.elems[0]
    ensures v.JArr? && r.Failure? ==> r.error == IndexError
    ensures v.JStr? ==> (r.Success? <==> |v.s| > 0)
    ensures v.JStr? && r.Success? ==> r.value == JStr(v.s[..1])
    ensures v.JStr? && r.Failure? ==> r.error == IndexError
    ensures v.JObj? ==> r == Failure(KeyError)
    ensures (v.JNull? || v.JBool? || v.JNum?) ==> r == Failure(TypeError)
  {
    match v
    case JArr(es) => if |es| > 0 then Success(es[0]) else Failure(IndexError)
    case JStr(s) => if |s| > 0 then Success(JStr(s[..1])) else Failure(IndexError)
    case JObj(_) => Failure(KeyError)
    case _ => Failure(TypeError)
  }

  /**
   * The elements a loop `for x in v: ... x[key] ...` gets to subscript with a
   * string key. A list yields its elements. A string or a dict yields strings
   * (characters, keys), and the first of them raises TypeError as soon as it
   * is subscripted with a string, so a non-empty one fails here with that
   * error; an empty one yields nothing. Other values are not iterable.
   */
  function IterateRecords(v: Json): (r: Result<seq<Json>, PyError>)
    ensures v.JArr? ==> r == Success(v.elems)
    ensures r.Failure? ==> r.error == TypeError
    ensures r.Success? && !v.JArr? ==> r.value == []
    ensures v.JStr? ==> (r.Success? <==> |v.s| == 0)
    ensures v.JObj? ==> (r.Success? <==> |v.fields| == 0)
    ensures (v.JNull? || v.JBool? || v.JNum?) ==> r == Failure(TypeError)
  {
    match v
    case JArr(es) => Success(es)
    case JStr(s) => if |s| == 0 then Success([]) else Failure(TypeError)
    case JObj(m) => if |m| == 0 then Success([]) else Failure(TypeError)
    case _ => Failure(TypeError)
  }

  /** On a list, `v[0]` is the first element the loop over `v` sees, and
      fails exactly when that loop would see nothing. */
  lemma FirstIsFirstIterated(v: Json)
    requires v.JArr?
    ensures IterateRecords(v).Success?
    ensures First(v).Success? <==> IterateRecords(v).value != []
    ensures First(v).Success? ==> First(v).value == IterateRecords(v).value[0]
  {
  }
}
