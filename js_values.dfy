/**
 * JavaScript values as the storage wrappers and the API hooks see them,
 * and `JSON.stringify`/`JSON.parse` as a codec the model does not
 * implement but whose round-trip it takes as a precondition.
 */
module JsValues {
  import opened Wrappers
  import opened Strings

  /** A value: numbers are whole, objects keep their keys in order. */
  datatype Value =
    | Undefined
    | Null
    | Bool(b: bool)
    | Num(n: int)
    | Str(s: string)
    | Arr(items: seq<Value>)
    | Obj(fields: seq<(string, Value)>)

  /** `typeof value === 'object'`: null, arrays and objects. */
  predicate IsObject(v: Value)
  {
    v.Null? || v.Arr? || v.Obj?
  }

  /** A value JSON can carry unchanged: no `undefined` anywhere in it. */
  predicate IsJson(v: Value)
  {
    match v
    case Undefined => false
    case Arr(items) => forall i :: 0 <= i < |items| ==> IsJson(items[i])
    case Obj(fields) => forall i :: 0 <= i < |fields| ==> IsJson(fields[i].1)
    case _ => true
  }

  /**
   * `JSON.stringify` (None when it returns `undefined`) and `JSON.parse`
   * (None when it throws).
   */
  datatype Codec = Codec(stringify: Value -> Option<string>, parse: string -> Option<Value>)

  /**
   * What the model relies on from JSON: every value but `undefined` has a
   * non-empty text, a JSON value reads back from its text, the primitives have their
   * usual texts, and neither the empty text nor `undefined` parses.
   */
  ghost predicate Faithful(c: Codec)
  {
    && (forall v :: v != Undefined ==> c.stringify(v).Some? && c.stringify(v).value != "")
    && (forall v :: IsJson(v) ==> c.parse(c.stringify(v).value) == Some(v))
    && c.stringify(Undefined) == None
    && c.stringify(Null) == Some("null")
    && c.stringify(Bool(true)) == Some("true")
    && c.stringify(Bool(false)) == Some("false")
    && (forall n :: c.stringify(Num(n)) == Some(IntToString(n)))
    && c.parse("") == None
    && c.parse("undefined") == None
  }

  /** `localStorage.setItem(key, JSON.stringify(v))`: `undefined` is stored as its name. */
  function StoredText(c: Codec, v: Value): (r: string)
    requires Faithful(c)
    ensures IsJson(v) ==> c.parse(r) == Some(v)
    ensures v == Undefined ==> c.parse(r) == None
    ensures r != ""
  {
    match c.stringify(v)
    case Some(t) => t
    case None =>
      assert v == Undefined;
      "undefined"
  }

  /** `String(v)` for the values `localStorage.setItem` turns into text themselves. */
  function ToText(v: Value): (r: string)
    requires !IsObject(v)
  {
    match v
    case Undefined => "undefined"
    case Bool(b) => if b then "true" else "false"
    case Num(n) => IntToString(n)
    case Str(s) => s
  }

  /** A primitive other than a string reads back from `String(v)` as itself. */
  lemma ToTextParses(c: Codec, v: Value)
    requires Faithful(c) && !IsObject(v) && !v.Str? && v != Undefined
    ensures c.parse(ToText(v)) == Some(v)
  {
    assert IsJson(v);
    if v.Bool? {
      assert v == Bool(true) || v == Bool(false);
    }
  }

  /** The position of a field, or -1. */
  function FieldIndex(fields: seq<(string, Value)>, key: string): (r: int)
    ensures -1 <= r < |fields|
    ensures r == -1 <==> forall i :: 0 <= i < |fields| ==> fields[i].0 != key
    ensures r >= 0 ==> fields[r].0 == key && forall i :: 0 <= i < r ==> fields[i].0 != key
  {
    if fields == [] then -1
    else if fields[0].0 == key then 0
    else
      var r := FieldIndex(fields[1..], key);
      if r < 0 then -1 else r + 1
  }

  /** `o[key] = value`: in place when the key is there, at the end otherwise. */
  function SetField(fields: seq<(string, Value)>, key: string, value: Value): (r: seq<(string, Value)>)
    ensures FieldIndex(fields, key) >= 0 ==> r == fields[FieldIndex(fields, key) := (key, value)]
    ensures FieldIndex(fields, key) < 0 ==> r == fields + [(key, value)]
  {
    var i := FieldIndex(fields, key);
    if i >= 0 then fields[i := (key, value)] else fields + [(key, value)]
  }

  /** `{ ...target, ...source }` for two objects: the source's fields assigned in order. */
  function Spread(target: seq<(string, Value)>, source: seq<(string, Value)>): seq<(string, Value)>
    decreases |source|
  {
    if source == [] then target
    else Spread(SetField(target, source[0].0, source[0].1), source[1..])
  }
}
