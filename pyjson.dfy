/** Parsed JSON values as the script sees them after `json.load`, and the few
    pieces of Python semantics on them that the script relies on: equality
    (`==` / `!=`), truthiness (`if not data`), membership (`key in data`),
    subscription (`data[key]`), item assignment (`data[key] = v`) and the
    exceptions these raise. */
module PyJson {
  import opened Wrappers

  /** A JSON value. JSON integers load as Python `int`, other numbers as
      `float` (modelled by its exact real value). */
  datatype Json =
    | JNull
    | JBool(b: bool)
    | JInt(i: int)
    | JFloat(r: real)
    | JString(str: string)
    | JArray(items: seq<Json>)
    | JObject(fields: map<string, Json>)

  /** The Python exceptions the modelled code can raise, by kind and the
      data their message is built from; `Str` is `str(e)`. */
  datatype PyError =
    | NotFound(useCase: string)                    // ValueError raised by `process`
    | NoAttribute(typeName: string, attr: string)  // AttributeError
    | NotIterable(typeName: string)                // TypeError from `in`
    | StrIndex                                     // TypeError from `s[key]` on a str
    | ListIndex                                    // TypeError from `xs[key]` on a list
    | NotSubscriptable(typeName: string)           // TypeError from `v[key]`
    | NoItemAssignment(typeName: string)           // TypeError from `v[key] = ...`
    | KeyError(key: string)

  function Str(e: PyError): string {
    match e
    case NotFound(uc) => uc + " non trouvé"
    case NoAttribute(t, a) => "'" + t + "' object has no attribute '" + a + "'"
    case NotIterable(t) => "argument of type '" + t + "' is not iterable"
    case StrIndex => "string indices must be integers, not 'str'"
    case ListIndex => "list indices must be integers or slices, not str"
    case NotSubscriptable(t) => "'" + t + "' object is not subscriptable"
    case NoItemAssignment(t) => "'" + t + "' object does not support item assignment"
    case KeyError(k) => "'" + k + "'"
  }

  /** `type(j).__name__` */
  function TypeName(j: Json): string {
    match j
    case JNull => "NoneType"
    case JBool(_) => "bool"
    case JInt(_) => "int"
    case JFloat(_) => "float"
    case JString(_) => "str"
    case JArray(_) => "list"
    case JObject(_) => "dict"
  }

  /** `bool(j)`: None, False, zero, and empty strings, lists and dicts are falsy. */
  predicate Truthy(j: Json)
    ensures Truthy(j) <==> !(|| j.JNull?
                             || (IsNumber(j) && NumberValue(j) == 0.0)
                             || j == JString("") || j == JArray([]) || j == JObject(map[]))
  {
    match j
    case JNull => false
    case JBool(b) => b
    case JInt(i) => i != 0
    case JFloat(r) => r != 0.0
    case JString(s) => |s| > 0
    case JArray(xs) => |xs| > 0
    case JObject(m) => |m| > 0
  }

  /** `bool` is a subclass of `int` in Python, and `int` and `float` compare
      by value, so these three kinds are mutually comparable. */
  predicate IsNumber(j: Json) {
    j.JBool? || j.JInt? || j.JFloat?
  }

  function NumberValue(j: Json): real
    requires IsNumber(j)
  {
    match j
    case JBool(b) => if b then 1.0 else 0.0
    case JInt(i) => i as real
    case JFloat(r) => r
  }

  /** Python's `a == b` on loaded JSON values: numbers by value across
      bool/int/float, lists element-wise, dicts by key set and values. */
  predicate Equal(a: Json, b: Json)
    ensures Equal(a, b) ==> TypeName(a) == TypeName(b) || (IsNumber(a) && IsNumber(b))
    decreases a
  {
    match a
    case JNull => b.JNull?
    case JBool(_) => IsNumber(b) && NumberValue(a) == NumberValue(b)
    case JInt(_) => IsNumber(b) && NumberValue(a) == NumberValue(b)
    case JFloat(_) => IsNumber(b) && NumberValue(a) == NumberValue(b)
    case JString(s) => b.JString? && b.str == s
    case JArray(xs) =>
      && b.JArray?
      && |xs| == |b.items|
      && forall n :: 0 <= n < |xs| ==> Equal(xs[n], b.items[n])
    case JObject(m) =>
      && b.JObject?
      && m.Keys == b.fields.Keys
      && forall k :: k in m ==> Equal(m[k], b.fields[k])
  }

  lemma {:induction false} EqualReflexive(a: Json)
    ensures Equal(a, a)
    decreases a
  {
    match a
    case JArray(xs) =>
      forall n | 0 <= n < |xs| ensures Equal(xs[n], xs[n]) {
        EqualReflexive(xs[n]);
      }
    case JObject(m) =>
      forall k | k in m ensures Equal(m[k], m[k]) {
        EqualReflexive(m[k]);
      }
    case _ =>
  }

  lemma {:induction false} EqualSymmetric(a: Json, b: Json)
    requires Equal(a, b)
    ensures Equal(b, a)
    decreases a
  {
    match a
    case JArray(xs) =>
      forall n | 0 <= n < |xs| ensures Equal(b.items[n], xs[n]) {
        EqualSymmetric(xs[n], b.items[n]);
      }
    case JObject(m) =>
      forall k | k in b.fields ensures Equal(b.fields[k], m[k]) {
        EqualSymmetric(m[k], b.fields[k]);
      }
    case _ =>
  }

  lemma {:induction false} EqualTransitive(a: Json, b: Json, c: Json)
    requires Equal(a, b) && Equal(b, c)
    ensures Equal(a, c)
    decreases a
  {
    match a
    case JArray(xs) =>
      forall n | 0 <= n < |xs| ensures Equal(xs[n], c.items[n]) {
        EqualTransitive(xs[n], b.items[n], c.items[n]);
      }
    case JObject(m) =>
      forall k | k in m ensures Equal(m[k], c.fields[k]) {
        EqualTransitive(m[k], b.fields[k], c.fields[k]);
      }
    case _ =>
  }

  /** `d.get(k)` on a dict: a missing key reads as None. */
  function Get(m: map<string, Json>, k: string): Json {
    if k in m then m[k] else JNull
  }

  /** `part in s` for two strs. */
  predicate IsSubstring(part: string, s: string) {
    part <= s || (|s| > 0 && IsSubstring(part, s[1..]))
  }

  /** `key in data`: dict key lookup, substring test on a str, element test
      on a list; any other kind of value is not iterable. */
  function Contains(data: Json, key: string): (r: Result<bool, PyError>)
    ensures r.Failure? <==> !(data.JObject? || data.JString? || data.JArray?)
    ensures data.JObject? ==> r == Success(key in data.fields)
  {
    match data
    case JObject(m) => Success(key in m)
    case JString(s) => Success(IsSubstring(key, s))
    case JArray(xs) => Success(exists n | 0 <= n < |xs| :: Equal(xs[n], JString(key)))
    case _ => Failure(NotIterable(TypeName(data)))
  }

  /** `data[key]` with a str key. */
  function GetItem(data: Json, key: string): (r: Result<Json, PyError>)
    ensures r.Success? <==> data.JObject? && key in data.fields
    ensures r.Success? ==> r.value == data.fields[key]
  {
    match data
    case JObject(m) => if key in m then Success(m[key]) else Failure(KeyError(key))
    case JString(_) => Failure(StrIndex)
    case JArray(_) => Failure(ListIndex)
    case _ => Failure(NotSubscriptable(TypeName(data)))
  }

  /** `data[key] = value`: the updated value, or the TypeError a non-dict raises. */
  function SetItem(data: Json, key: string, value: Json): (r: Result<Json, PyError>)
    ensures r.Success? <==> data.JObject?
    ensures r.Success? ==> r.value == JObject(data.fields[key := value])
  {
    match data
    case JObject(m) => Success(JObject(m[key := value]))
    case JArray(_) => Failure(ListIndex)
    case _ => Failure(NoItemAssignment(TypeName(data)))
  }
}
