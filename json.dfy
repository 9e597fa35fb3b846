/**
 * JSON documents as Python's json module loads them, and the few Python
 * operations the scripts apply to them: `key in value`, `value[key]`,
 * `value.get(key, default)` and `len(value)`, each with the exception it
 * raises on a value of the wrong kind.
 */
module Json {
  import opened Wrappers

  datatype Json =
    | JNull
    | JBool(b: bool)
    | JInt(i: int)
    | JReal(r: real)
    | JStr(s: string)
    | JArr(items: seq<Json>)
    | JObj(fields: map<string, Json>)

  /** The exceptions the modelled scripts raise (all are caught by `except Exception`). */
  datatype PyError =
    | TypeError
    | KeyError
    | ValueError
    | AttributeError
    | AssertionError
    | RuntimeError
    | LoadError   // the file could not be opened or did not parse
    | FileNotFoundError   // os.makedirs('') on a bare output file name

  /** Python's substring test `needle in hay`. */
  predicate Occurs(needle: string, hay: string)
    decreases |hay|
  {
    needle <= hay || (|hay| > 0 && Occurs(needle, hay[1..]))
  }

  lemma {:induction false} OccursAt(needle: string, hay: string, i: nat)
    requires i + |needle| <= |hay| && hay[i..i + |needle|] == needle
    ensures Occurs(needle, hay)
    decreases i
  {
    if i > 0 {
      assert hay[1..][i - 1..i - 1 + |needle|] == needle;
      OccursAt(needle, hay[1..], i - 1);
    } else {
      assert needle <= hay;
    }
  }

  /** `key in container` for a string key: a dict key, a list element or a substring. */
  function Contains(container: Json, key: string): (r: Result<bool, PyError>)
    ensures container.JObj? ==> r == Ok(key in container.fields)
    ensures container.JArr? ==> r == Ok(JStr(key) in container.items)
    ensures container.JStr? ==> r == Ok(Occurs(key, container.s))
    ensures r.Err? <==> !(container.JObj? || container.JArr? || container.JStr?)
    ensures r.Err? ==> r.error == TypeError
  {
    match container
    case JObj(m) => Ok(key in m)
    case JArr(s) => Ok(JStr(key) in s)
    case JStr(s) => Ok(Occurs(key, s))
    case _ => Err(TypeError)
  }

  /** `container[key]` for a string key: only a dict holding the key yields a value. */
  function Subscript(container: Json, key: string): (r: Result<Json, PyError>)
    ensures r.Ok? <==> container.JObj? && key in container.fields
    ensures r.Ok? ==> r.value == container.fields[key]
    ensures r == Err(KeyError) <==> container.JObj? && key !in container.fields
    ensures !container.JObj? ==> r == Err(TypeError)
  {
    match container
    case JObj(m) => if key in m then Ok(m[key]) else Err(KeyError)
    case _ => Err(TypeError)
  }

  /** `container.get(key, default)`: only a dict has `get`. */
  function Get(container: Json, key: string, default: Json): (r: Result<Json, PyError>)
    ensures r.Ok? <==> container.JObj?
    ensures r.Ok? && key in container.fields ==> r.value == container.fields[key]
    ensures r.Ok? && key !in container.fields ==> r.value == default
    ensures r.Err? ==> r.error == AttributeError
  {
    match container
    case JObj(m) => Ok(if key in m then m[key] else default)
    case _ => Err(AttributeError)
  }

  /** `len(value)`: defined on lists, strings and dicts. */
  function Len(j: Json): (r: Result<nat, PyError>)
    ensures r.Ok? <==> (j.JArr? || j.JStr? || j.JObj?)
    ensures j.JArr? ==> r == Ok(|j.items|)
    ensures j.JStr? ==> r == Ok(|j.s|)
    ensures j.JObj? ==> r == Ok(|j.fields|)
    ensures r.Err? ==> r.error == TypeError
  {
    match j
    case JArr(s) => Ok(|s|)
    case JStr(s) => Ok(|s|)
    case JObj(m) => Ok(|m|)
    case _ => Err(TypeError)
  }
}
