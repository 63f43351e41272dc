/**
 * The Python values `json.loads` produces, and the handful of Python operations
 * the plan executor applies to them: `d[k]`, `d.get(k, default)`, iteration
 * with `for`, and rendering with `str()` inside an f-string. The JSON grammar
 * itself is not modelled: decoding is an abstract `Decoder`.
 */
module JsonValue {
  import opened Wrappers
  import opened Text

  /** A decoded JSON value. A number keeps the text Python's `str()` gives it. */
  datatype Json =
    | JNull
    | JBool(b: bool)
    | JNumber(text: string)
    | JString(s: string)
    | JArray(items: seq<Json>)
    | JObject(dict: Object)

  /** A decoded JSON object, i.e. a Python dict: the value bound to each key,
      and the keys in insertion order (each key of `members` once). */
  datatype Object = Object(members: map<string, Json>, order: seq<string>)

  /** A dict as Python keeps one: `order` lists exactly the keys of `members`,
      each once. */
  predicate WellFormed(o: Object) {
    && (forall key :: key in o.members ==> key in o.order)
    && (forall i :: 0 <= i < |o.order| ==> o.order[i] in o.members)
    && (forall i, j :: 0 <= i < j < |o.order| ==> o.order[i] != o.order[j])
  }

  /** Every dict inside `v`, at any depth, is well formed. */
  ghost predicate WellFormedValue(v: Json)
    decreases v
  {
    match v
    case JArray(items) => forall i :: 0 <= i < |items| ==> WellFormedValue(items[i])
    case JObject(d) => WellFormed(d) && forall key :: key in d.members ==> WellFormedValue(d.members[key])
    case _ => true
  }

  /** `json.loads` restricted to texts that decode to a dict: `None` when the
      text does not decode, or decodes to something other than a dict. The
      decoders `json.loads` stands for build well-formed dicts only
      (`DecodesWellFormed`); the model states this where it relies on it. */
  type Decoder = string -> Option<Object>

  /** Every dict a decoder builds, and every dict inside it, is well formed. */
  ghost predicate DecodesWellFormed(decode: Decoder) {
    forall s :: decode(s).Some? ==> WellFormedValue(JObject(decode(s).value))
  }

  /** A property every JSON object text has: it contains an opening brace. */
  ghost predicate BraceBound(decode: Decoder) {
    forall s :: decode(s).Some? ==> '{' in s
  }

  /** `d[key]` on a dict: the value bound to `key`, `None` for a KeyError. */
  function Lookup(d: Object, key: string): (r: Option<Json>)
    ensures r.Some? <==> key in d.members
    ensures r.Some? ==> r.value == d.members[key]
  {
    if key in d.members then Some(d.members[key]) else None
  }

  /** `d.get(key, default)`. */
  function Get(obj: Object, key: string, default: Json): (r: Json)
    ensures key in obj.members ==> r == obj.members[key]
    ensures key !in obj.members ==> r == default
  {
    Lookup(obj, key).GetOr(default)
  }

  /** `v[key]` with a string key: `None` when Python raises (a KeyError on a dict
      without `key`, a TypeError on a list, a string, a number, a bool or None). */
  function Subscript(v: Json, key: string): (r: Option<Json>)
    ensures r.Some? <==> v.JObject? && key in v.dict.members
    ensures r.Some? ==> r.value == v.dict.members[key]
  {
    match v
    case JObject(d) => Lookup(d, key)
    case _ => None
  }

  /** The elements `for x in v` visits: a list's items, a string's characters as
      one-character strings, a dict's keys; `None` when `v` is not iterable
      (a number, a bool or None raise TypeError). */
  function Iterate(v: Json): (r: Option<seq<Json>>)
    ensures v.JArray? ==> r == Some(v.items)
    ensures r.None? <==> v.JNull? || v.JBool? || v.JNumber?
  {
    match v
    case JArray(items) => Some(items)
    case JString(s) => Some(seq(|s|, i requires 0 <= i < |s| => JString([s[i]])))
    case JObject(d) => Some(seq(|d.order|, i requires 0 <= i < |d.order| => JString(d.order[i])))
    case _ => None
  }

  /** Iterating a well-formed dict visits each of its keys once, as strings,
      and nothing else. */
  lemma IterateDictKeys(d: Object)
    requires WellFormed(d)
    ensures Iterate(JObject(d)).Some?
    ensures var xs := Iterate(JObject(d)).value;
      && (forall key :: key in d.members <==> JString(key) in xs)
      && (forall i, j :: 0 <= i < j < |xs| ==> xs[i] != xs[j])
      && (forall i :: 0 <= i < |xs| ==> xs[i].JString?)
  {
    var xs := Iterate(JObject(d)).value;
    assert |xs| == |d.order|;
    forall key ensures key in d.members <==> JString(key) in xs {
      if key in d.members {
        var i :| 0 <= i < |d.order| && d.order[i] == key;
        assert xs[i] == JString(key);
      }
      if JString(key) in xs {
        var i :| 0 <= i < |xs| && xs[i] == JString(key);
        assert d.order[i] == key;
      }
    }
  }

  /** `str(v)`: what an f-string interpolates. A string is itself; every other
      value is rendered as by `repr`. */
  function Str(v: Json): (r: string)
    ensures v.JString? ==> r == v.s
  {
    if v.JString? then v.s else Repr(v)
  }

  /** `repr` of the value bound to `key` in `d`. */
  function ReprMember(d: Object, key: string): string
    decreases d, 0
  {
    if key in d.members then Repr(d.members[key]) else ""
  }

  /** `repr(v)`, with strings always quoted by single quotes and no escaping. */
  function Repr(v: Json): string
    decreases v, 1
  {
    match v
    case JNull => "None"
    case JBool(b) => if b then "True" else "False"
    case JNumber(text) => text
    case JString(s) => "'" + s + "'"
    case JArray(items) =>
      "[" + Join(", ", seq(|items|, i requires 0 <= i < |items| => Repr(items[i]))) + "]"
    case JObject(d) =>
      "{" + Join(", ", seq(|d.order|, i requires 0 <= i < |d.order| =>
                             "'" + d.order[i] + "': " + ReprMember(d, d.order[i]))) + "}"
  }
}
