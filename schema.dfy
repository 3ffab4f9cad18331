/** The object-schema checks the route handlers use on request bodies:
    required and optional strings with length bounds, optional integers in
    a range, enumerations with or without a default, optional booleans and
    string arrays. Keys the schema does not name are ignored (stripped), a
    body that is not an object fails as a whole, and every failing key is
    reported, in schema order. */
module Schema {
  import opened Wrappers
  import opened JsValues

  /** A length range: at least `min` characters, at most `max` when given. */
  datatype Bounds = Bounds(min: nat, max: Option<nat>)

  predicate InBounds(s: string, b: Bounds) {
    b.min <= |s| && (b.max.None? || |s| <= b.max.value)
  }

  /** The outcome of checking one key: its value, or the key as the issue path. */
  type Check<T> = Result<T, string>

  /** The path of a body that is not an object at all. */
  const RootPath := ""

  function RequiredString(fields: map<string, Json>, key: string, b: Bounds): (r: Check<string>)
    ensures r.Ok? <==> key in fields && fields[key].JStr? && InBounds(fields[key].s, b)
    ensures r.Ok? ==> r.value == fields[key].s
    ensures r.Err? ==> r.error == key
  {
    if key in fields && fields[key].JStr? && InBounds(fields[key].s, b) then Ok(fields[key].s) else Err(key)
  }

  /** An optional key accepts absence, but not `null`. */
  function OptionalString(fields: map<string, Json>, key: string, b: Bounds): (r: Check<Option<string>>)
    ensures r.Ok? <==> key !in fields || (fields[key].JStr? && InBounds(fields[key].s, b))
    ensures r.Ok? ==> (r.value.None? <==> key !in fields)
    ensures r.Ok? && r.value.Some? ==> r.value.value == fields[key].s
    ensures r.Err? ==> r.error == key
  {
    if key !in fields then Ok(None)
    else if fields[key].JStr? && InBounds(fields[key].s, b) then Ok(Some(fields[key].s))
    else Err(key)
  }

  function OptionalIntIn(fields: map<string, Json>, key: string, lo: int, hi: int): (r: Check<Option<int>>)
    ensures r.Ok? <==> key !in fields || (fields[key].JNum? && lo <= fields[key].n <= hi)
    ensures r.Ok? ==> (r.value.None? <==> key !in fields)
    ensures r.Ok? && r.value.Some? ==> r.value.value == fields[key].n && lo <= r.value.value <= hi
    ensures r.Err? ==> r.error == key
  {
    if key !in fields then Ok(None)
    else if fields[key].JNum? && lo <= fields[key].n <= hi then Ok(Some(fields[key].n))
    else Err(key)
  }

  /** An optional enumeration: a string that `parse` accepts, or absence. */
  function OptionalEnum<T>(fields: map<string, Json>, key: string, parse: string -> Option<T>): (r: Check<Option<T>>)
    ensures r.Ok? <==> key !in fields || (fields[key].JStr? && parse(fields[key].s).Some?)
    ensures r.Ok? ==> (r.value.None? <==> key !in fields)
    ensures r.Ok? && r.value.Some? ==> r.value == parse(fields[key].s)
    ensures r.Err? ==> r.error == key
  {
    if key !in fields then Ok(None)
    else if fields[key].JStr? && parse(fields[key].s).Some? then Ok(parse(fields[key].s))
    else Err(key)
  }

  /** An enumeration with a default: absence gives the default. */
  function EnumWithDefault<T>(fields: map<string, Json>, key: string, parse: string -> Option<T>, default: T): (r: Check<T>)
    ensures r.Ok? <==> key !in fields || (fields[key].JStr? && parse(fields[key].s).Some?)
    ensures r.Ok? && key !in fields ==> r.value == default
    ensures r.Ok? && key in fields ==> Some(r.value) == parse(fields[key].s)
    ensures r.Err? ==> r.error == key
  {
    match OptionalEnum(fields, key, parse)
    case Ok(v) => Ok(v.GetOr(default))
    case Err(e) => Err(e)
  }

  function OptionalBool(fields: map<string, Json>, key: string): (r: Check<Option<bool>>)
    ensures r.Ok? <==> key !in fields || fields[key].JBool?
    ensures r.Ok? ==> (r.value.None? <==> key !in fields)
    ensures r.Ok? && r.value.Some? ==> r.value.value == fields[key].b
    ensures r.Err? ==> r.error == key
  {
    if key !in fields then Ok(None)
    else if fields[key].JBool? then Ok(Some(fields[key].b))
    else Err(key)
  }

  predicate AllStrings(items: seq<Json>) {
    forall i :: 0 <= i < |items| ==> items[i].JStr?
  }

  function Strings(items: seq<Json>): (r: seq<string>)
    requires AllStrings(items)
    ensures |r| == |items| && forall i :: 0 <= i < |items| ==> r[i] == items[i].s
  {
    if items == [] then [] else [items[0].s] + Strings(items[1..])
  }

  function OptionalStringArray(fields: map<string, Json>, key: string): (r: Check<Option<seq<string>>>)
    ensures r.Ok? <==> key !in fields || (fields[key].JArr? && AllStrings(fields[key].items))
    ensures r.Ok? ==> (r.value.None? <==> key !in fields)
    ensures r.Ok? && r.value.Some? ==>
      |r.value.value| == |fields[key].items|
      && forall i :: 0 <= i < |r.value.value| ==> fields[key].items[i] == JStr(r.value.value[i])
    ensures r.Err? ==> r.error == key
  {
    if key !in fields then Ok(None)
    else if fields[key].JArr? && AllStrings(fields[key].items) then Ok(Some(Strings(fields[key].items)))
    else Err(key)
  }

  /** The issue a check contributes: none, or its key. */
  function IssueOf<T>(c: Check<T>): (r: seq<string>)
    ensures r == [] <==> c.Ok?
  {
    if c.Ok? then [] else [c.error]
  }

  /** The fields of a body the schema may read: all of them for an object,
      none otherwise. */
  function FieldsOf(body: Json): map<string, Json> {
    if body.JObj? then body.fields else map[]
  }

  /** Two bodies that agree on the schema's keys look the same to every
      check above. */
  predicate AgreeOn(a: Json, b: Json, keys: set<string>) {
    && a.JObj? == b.JObj?
    && (forall k :: k in keys ==> (k in FieldsOf(a) <==> k in FieldsOf(b)))
    && (forall k :: k in keys && k in FieldsOf(a) ==> FieldsOf(a)[k] == FieldsOf(b)[k])
  }
}
