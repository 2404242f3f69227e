/**
 * The single storage slot the settings live in, the JavaScript values a
 * parsed record can hold, and `getSittings`, which reads one field of it
 * (src/App.jsx:16-23).
 */
module Storage {
  import opened Wrappers

  /** The fixed key the whole settings record is stored under. */
  const StorageKey: string := "__STORAGE_KEY"

  /**
   * A JavaScript value as found in a parsed record; `Undefined` is what a
   * missing property reads as. Numbers are integral here, and arrays and
   * objects are one opaque `Compound` case.
   */
  datatype Value =
    | Undefined
    | Null
    | Bool(b: bool)
    | Num(n: int)
    | Str(s: string)
    | Compound

  /** JavaScript truthiness: what `||` and `!` test. */
  predicate Truthy(v: Value) {
    match v
    case Undefined => false
    case Null => false
    case Bool(b) => b
    case Num(n) => n != 0
    case Str(s) => s != ""
    case Compound => true
  }

  /** What `??` tests: only `null` and `undefined`. */
  predicate Nullish(v: Value) {
    v == Undefined || v == Null
  }

  /** `a || b`: the left operand when it is truthy, the right one otherwise. */
  function Or(a: Value, b: Value): (r: Value)
    ensures Truthy(r) <==> Truthy(a) || Truthy(b)
    ensures Truthy(a) ==> r == a
    ensures !Truthy(a) ==> r == b
  {
    if Truthy(a) then a else b
  }

  /** `a ?? b`: the left operand unless it is `null` or `undefined`. */
  function Coalesce(a: Value, b: Value): (r: Value)
    ensures Nullish(r) <==> Nullish(a) && Nullish(b)
    ensures !Nullish(a) ==> r == a
    ensures Nullish(a) ==> r == b
  {
    if Nullish(a) then b else a
  }

  /**
   * The content of the slot, as `JSON.parse` sees it: the empty string
   * (falsy, so never parsed), text that is not JSON, the JSON `null`, an
   * object with its own properties, or any other JSON value (number,
   * string, boolean, array), none of which has the field names as
   * properties.
   */
  datatype Blob =
    | EmptyText
    | Malformed
    | JsonNull
    | JsonObject(fields: map<string, Value>)
    | JsonOther

  /** The exceptions reading the slot can throw. */
  datatype Error =
    | SyntaxError  // JSON.parse on text that is not JSON
    | TypeError    // reading a property of the parsed `null`

  /** Reading a field of this slot throws. */
  predicate Throws(stored: Option<Blob>) {
    stored == Some(Malformed) || stored == Some(JsonNull)
  }

  /**
   * `getSittings(key)`: `null` when the slot is empty or holds the empty
   * string, the named property of the parsed record otherwise; `JSON.parse`
   * and the property read may throw.
   */
  function GetSetting(stored: Option<Blob>, key: string): (r: Result<Value, Error>)
    ensures r.Err? <==> Throws(stored)
    ensures stored == Some(Malformed) ==> r == Err(SyntaxError)
    ensures stored == Some(JsonNull) ==> r == Err(TypeError)
    ensures stored == None || stored == Some(EmptyText) ==> r == Ok(Null)
    ensures stored.Some? && stored.value.JsonObject? && key in stored.value.fields ==>
              r == Ok(stored.value.fields[key])
    ensures stored.Some? && stored.value.JsonObject? && key !in stored.value.fields ==> r == Ok(Undefined)
    ensures stored == Some(JsonOther) ==> r == Ok(Undefined)
  {
    match stored
    case None => Ok(Null)
    case Some(EmptyText) => Ok(Null)
    case Some(Malformed) => Err(SyntaxError)
    case Some(JsonNull) => Err(TypeError)
    case Some(JsonObject(fields)) => Ok(if key in fields then fields[key] else Undefined)
    case Some(JsonOther) => Ok(Undefined)
  }

  /** Whether and how reading throws depends on the slot only, never on the key. */
  lemma FailureIndependentOfKey(stored: Option<Blob>, k1: string, k2: string)
    ensures GetSetting(stored, k1).Err? <==> GetSetting(stored, k2).Err?
    ensures GetSetting(stored, k1).Err? ==> GetSetting(stored, k1) == GetSetting(stored, k2)
  {
  }
}
