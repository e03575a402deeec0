/**
 * The slice of JavaScript value semantics the storefront client relies on:
 * optional values, JSON-shaped response bodies, truthiness, optional-chaining
 * property reads and `Object.entries`.
 */
module JsValues {

  /** A value that may be missing (`null` or `undefined` in the client). */
  datatype Option<+T> = None | Some(value: T) {

    /** The value, or `default` when missing: the `??` operator. */
    function GetOr(default: T): T {
      match this
      case Some(v) => v
      case None => default
    }
  }

  /**
   * A JavaScript value as the client reads it out of a decoded JSON response.
   * Numbers are integers in this model.
   */
  datatype JsValue =
    | Undefined
    | Null
    | Bool(b: bool)
    | Num(n: int)
    | Str(s: string)
    | Arr(items: seq<JsValue>)
    | Obj(fields: map<string, JsValue>)

  /** A character outside the Basic Multilingual Plane, stored as a surrogate pair in UTF-16. */
  predicate Astral(c: char) {
    c as int > 0xFFFF
  }

  /**
   * A string's `length` in JavaScript: the number of UTF-16 code units, so
   * a character outside the Basic Multilingual Plane counts twice.
   */
  function JsLength(s: string): (n: nat)
    ensures |s| <= n <= 2 * |s|
    ensures (forall i :: 0 <= i < |s| ==> !Astral(s[i])) ==> n == |s|
    ensures (exists i :: 0 <= i < |s| && Astral(s[i])) ==> n > |s|
    ensures |s| == 1 ==> n == (if Astral(s[0]) then 2 else 1)
    decreases |s|
  {
    if s == [] then 0
    else
      var prefix := s[..|s| - 1];
      assert forall i :: 0 <= i < |prefix| ==> prefix[i] == s[i];
      JsLength(prefix) + (if Astral(s[|s| - 1]) then 2 else 1)
  }

  /**
   * Lengths add up over concatenation; with the one-character case this
   * fixes `JsLength` on every string.
   */
  lemma {:induction false} JsLengthAppend(a: string, b: string)
    ensures JsLength(a + b) == JsLength(a) + JsLength(b)
    decreases |b|
  {
    if b == [] {
      assert a + b == a;
    } else {
      var ab := a + b;
      assert ab[..|ab| - 1] == a + b[..|b| - 1];
      assert ab[|ab| - 1] == b[|b| - 1];
      JsLengthAppend(a, b[..|b| - 1]);
    }
  }

  /** The worked example: two emoji and a letter have JavaScript length 5. */
  lemma JsLengthExample()
    ensures JsLength("\U{1F600}\U{1F600}a") == 5
  {
    JsLengthAppend("\U{1F600}", "\U{1F600}a");
    JsLengthAppend("\U{1F600}", "a");
  }

  predicate Nullish(v: JsValue) {
    v.Undefined? || v.Null?
  }

  /** JavaScript truthiness: `false`, `0`, `""`, `null` and `undefined` are falsy. */
  predicate Truthy(v: JsValue) {
    match v
    case Undefined => false
    case Null => false
    case Bool(b) => b
    case Num(n) => n != 0
    case Str(s) => s != ""
    case Arr(_) => true
    case Obj(_) => true
  }

  /**
   * The optional-chaining read `v?.key` for the keys the client uses
   * (`data`, `status`, `error`): an own field of an object, otherwise
   * `undefined`.  No such key names a property of a primitive or an array.
   */
  function Get(v: JsValue, key: string): (r: JsValue)
    ensures !v.Obj? ==> r == Undefined
    ensures v.Obj? && key in v.fields ==> r == v.fields[key]
    ensures v.Obj? && key !in v.fields ==> r.Undefined?
  {
    if v.Obj? && key in v.fields then v.fields[key] else Undefined
  }

  /**
   * `Object.entries(v)` seen as a map from key to value, or `None` when the
   * call throws a TypeError (`v` is `null` or `undefined`).  The entries of
   * an array are keyed by indices and those of a string are one-character
   * strings; neither can reach a form field (see OrderForm), so they are
   * represented by the empty map, as are numbers and booleans, which have no
   * own entries.
   */
  function EntriesOf(v: JsValue): (r: Option<map<string, JsValue>>)
    ensures r.None? <==> Nullish(v)
    ensures v.Obj? ==> r == Some(v.fields)
  {
    match v
    case Undefined => None
    case Null => None
    case Obj(fields) => Some(fields)
    case _ => Some(map[])
  }
}
