/** The JavaScript values the route handlers receive and test: parsed JSON
    request bodies, truthiness of optional strings, and property lookup on an
    object literal, which also finds the members every object inherits from
    `Object.prototype`. */
module JsValues {
  import opened Wrappers
  import Text

  /** A value produced by `request.json()`. Numbers are integers here. */
  datatype Json =
    | JNull
    | JBool(b: bool)
    | JNum(n: int)
    | JStr(s: string)
    | JArr(items: seq<Json>)
    | JObj(fields: map<string, Json>)

  /** Truthiness of a string that may be `undefined` or `null`: the empty
      string is falsy too. */
  predicate Truthy(s: Option<string>) {
    s.Some? && s.value != ""
  }

  /** Truthiness of a JSON value. */
  predicate JsonTruthy(j: Json) {
    match j
    case JNull => false
    case JBool(b) => b
    case JNum(n) => n != 0
    case JStr(s) => s != ""
    case JArr(_) => true
    case JObj(_) => true
  }

  /** `body.key`: a missing key, or a body that is not an object, reads as
      `undefined`. */
  function Member(body: Json, key: string): (r: Option<Json>)
    ensures r.Some? <==> body.JObj? && key in body.fields
  {
    if body.JObj? && key in body.fields then Some(body.fields[key]) else None
  }

  /** The names a plain object literal inherits from `Object.prototype`; each
      of them holds a function or an object, so each is truthy. */
  const ObjectPrototypeNames: set<string> := {
    "constructor", "hasOwnProperty", "isPrototypeOf", "propertyIsEnumerable",
    "toLocaleString", "toString", "valueOf", "__proto__",
    "__defineGetter__", "__defineSetter__", "__lookupGetter__", "__lookupSetter__"
  }

  /** What `obj[key]` finds on an object literal. */
  datatype Property<V> = Own(value: V) | Inherited(name: string) | Missing {
    /** Inherited members are functions or objects, hence truthy. */
    predicate Found() { !Missing? }
  }

  /** `obj[key]` where `own` holds the literal's own properties. */
  function Lookup<V>(own: map<string, V>, key: string): (r: Property<V>)
    ensures r.Own? <==> key in own
    ensures r.Own? ==> r.value == own[key]
    ensures r.Inherited? <==> key !in own && key in ObjectPrototypeNames
  {
    if key in own then Own(own[key])
    else if key in ObjectPrototypeNames then Inherited(key)
    else Missing
  }

  /** The property key JavaScript makes of a JSON value used as `obj[v]`:
      its string conversion. An array converts through `join(",")`, in
      which a `null` element becomes the empty string. */
  function PropertyKey(j: Json): string
    decreases j, 1
  {
    match j
    case JStr(s) => s
    case JNum(n) => Text.IntToDecimal(n)
    case JBool(b) => if b then "true" else "false"
    case JNull => "null"
    case JObj(_) => "[object Object]"
    case JArr(items) => JoinKeys(items)
  }

  /** An array of one element converts to that element's key, except that
      `[null]` converts to the empty string; so `obj[[k]]` reads `obj[k]`. */
  lemma SingletonArrayKey(j: Json)
    ensures PropertyKey(JArr([j])) == if j.JNull? then "" else PropertyKey(j)
    ensures PropertyKey(JArr([])) == ""
  {
    assert JArr([j]).items == [j];
  }

  /** Truthiness of an optional string is the truthiness JSON gives a
      string: present and not empty. */
  lemma TruthyIsJsonTruthy(s: Option<string>)
    ensures Truthy(s) <==> s.Some? && JsonTruthy(JStr(s.value))
    ensures Truthy(s) <==> s != None && s != Some("")
  {
  }

  /** `items.join(",")`. */
  function JoinKeys(items: seq<Json>): (r: string)
    ensures items == [] ==> r == ""
    ensures |items| == 1 && items[0].JStr? ==> r == items[0].s
    decreases items, 0
  {
    if items == [] then ""
    else
      var first := if items[0].JNull? then "" else PropertyKey(items[0]);
      if |items| == 1 then first else first + "," + JoinKeys(items[1..])
  }
}
