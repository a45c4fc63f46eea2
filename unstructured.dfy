/** Untyped Kubernetes objects (`map[string]interface{}`) and the nested-field
    accessors of apimachinery's `unstructured` package, with the error and
    not-found outcomes the code under model relies on. Every accessor the
    code uses walks exactly two fields (`spec`/`status`/`metadata`, then a
    key), so the walk is written out for two fields. */
module Unstructured {
  import opened Wrappers

  /** A decoded JSON value; `Null` is Go's nil interface. */
  datatype Value =
    | Null
    | Bool(b: bool)
    | Int(i: int)
    | Str(s: string)
    | List(items: seq<Value>)
    | Obj(fields: map<string, Value>)

  type Object = map<string, Value>

  /** The accessor errors, each carrying the JSON path it complains about. */
  datatype AccessError =
    | NotAMap(path: seq<string>)
    | NotAString(path: seq<string>)
    | NotASlice(path: seq<string>)
    | NonStringInMap(path: seq<string>)
    | CannotSet(path: seq<string>)

  /** `NestedFieldNoCopy(obj, first, second)`: `Ok(None)` is "not found"
      (a missing key, or a nil in the middle of the path). */
  function NestedField(obj: Object, first: string, second: string): (r: Result<Option<Value>, AccessError>)
    ensures r.Ok? && r.value.Some? ==> first in obj && obj[first].Obj? && second in obj[first].fields
                                       && r.value.value == obj[first].fields[second]
  {
    if first !in obj || obj[first].Null? then Ok(None)
    else if !obj[first].Obj? then Err(NotAMap([first, second]))
    else if second !in obj[first].fields then Ok(None)
    else Ok(Some(obj[first].fields[second]))
  }

  /** `NestedString`: a found value that is not a string is an error. */
  function NestedString(obj: Object, first: string, second: string): Result<Option<string>, AccessError> {
    match NestedField(obj, first, second)
    case Err(e) => Err(e)
    case Ok(None) => Ok(None)
    case Ok(Some(v)) => if v.Str? then Ok(Some(v.s)) else Err(NotAString([first, second]))
  }

  /** The string map of an object whose fields are all strings. */
  function StringFields(fields: map<string, Value>): Option<map<string, string>> {
    if forall k | k in fields :: fields[k].Str? then Some(map k | k in fields :: fields[k].s) else None
  }

  /** `NestedStringMap`: the found value must be an object of strings. */
  function NestedStringMap(obj: Object, first: string, second: string): Result<Option<map<string, string>>, AccessError> {
    match NestedField(obj, first, second)
    case Err(e) => Err(e)
    case Ok(None) => Ok(None)
    case Ok(Some(v)) =>
      if !v.Obj? then Err(NotAMap([first, second]))
      else match StringFields(v.fields)
        case None => Err(NonStringInMap([first, second]))
        case Some(m) => Ok(Some(m))
  }

  /** `NestedSlice`: the found value must be a list. */
  function NestedSlice(obj: Object, first: string, second: string): Result<Option<seq<Value>>, AccessError> {
    match NestedField(obj, first, second)
    case Err(e) => Err(e)
    case Ok(None) => Ok(None)
    case Ok(Some(v)) => if v.List? then Ok(Some(v.items)) else Err(NotASlice([first, second]))
  }

  /** `SetNestedField(obj, value, first, second)`: creates `first` when it
      is missing or nil, refuses when it holds something other than an
      object. */
  function SetNestedField(obj: Object, value: Value, first: string, second: string): (r: Result<Object, AccessError>)
    ensures r.Err? <==> first in obj && !obj[first].Null? && !obj[first].Obj?
    ensures r.Err? ==> r.error == CannotSet([first])
    ensures r.Ok? ==> NestedField(r.value, first, second) == Ok(Some(value))
    ensures r.Ok? ==> r.value.Keys == obj.Keys + {first}
                      && forall k | k in obj && k != first :: r.value[k] == obj[k]
    ensures r.Ok? && first in obj && obj[first].Obj? ==>
              forall k | k in obj[first].fields && k != second :: k in r.value[first].fields
                                                               && r.value[first].fields[k] == obj[first].fields[k]
  {
    if first !in obj || obj[first].Null? then Ok(obj[first := Obj(map[second := value])])
    else if obj[first].Obj? then Ok(obj[first := Obj(obj[first].fields[second := value])])
    else Err(CannotSet([first]))
  }

  /** `GetName` / `GetNamespace`: the metadata string, or "" on any failure. */
  function GetName(obj: Object): string {
    match NestedString(obj, "metadata", "name")
    case Ok(Some(s)) => s
    case _ => ""
  }

  function GetNamespace(obj: Object): string {
    match NestedString(obj, "metadata", "namespace")
    case Ok(Some(s)) => s
    case _ => ""
  }
}
