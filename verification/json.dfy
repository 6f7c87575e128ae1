/**
 * The JSON value model the shader-description codec reads and writes:
 * objects are maps from keys to values, arrays are sequences, and every
 * number the codec writes is an integer.
 *
 * The conversions follow QJsonValue's lenient accessors: a value of the
 * wrong kind converts to the accessor's default ("" for strings, 0 for
 * integers, false for booleans, an empty array or object), and a key that
 * an object lacks reads as Null.
 */
module Json {

  datatype Value =
    | Null
    | Bool(b: bool)
    | Number(n: int)
    | String(s: string)
    | Array(items: seq<Value>)
    | Object(fields: map<string, Value>)

  type Object = map<string, Value>

  /** A parsed document: null (the parse failed), or rooted at an object or an array. */
  datatype Document = NullDocument | ObjectDocument(root: Object) | ArrayDocument(elements: seq<Value>)

  /** obj[key] on a const object: a missing key reads as Null. */
  function Get(obj: Object, key: string): Value
  {
    if key in obj then obj[key] else Null
  }

  /** QJsonValue::toString() */
  function ToStr(v: Value): string
  {
    if v.String? then v.s else ""
  }

  /** QJsonValue::toInt() on the integer numbers the codec writes. */
  function ToInt(v: Value): int
  {
    if v.Number? then v.n else 0
  }

  /** QJsonValue::toBool() */
  function ToBool(v: Value): bool
  {
    if v.Bool? then v.b else false
  }

  /** QJsonValue::toArray() */
  function ToArray(v: Value): seq<Value>
  {
    if v.Array? then v.items else []
  }

  /** QJsonValue::toObject() */
  function ToObject(v: Value): Object
  {
    if v.Object? then v.fields else map[]
  }

  /** QJsonDocument::object(): the root object, or an empty object when the root is not one. */
  function DocObject(doc: Document): Object
  {
    if doc.ObjectDocument? then doc.root else map[]
  }
}
