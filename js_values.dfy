/**
  The JavaScript values the proxy handles: JSON data, thrown `Error`s, property reads
  on possibly-missing values, and truthiness of query-string parameters.
 */
module JsValues {
  import opened Wrappers

  /** A JSON value. Numbers are integers: every number this model builds or reads is one. */
  datatype Json =
    | JNull
    | JBool(b: bool)
    | JNum(n: int)
    | JStr(s: string)
    | JArr(items: seq<Json>)
    | JObj(fields: map<string, Json>)

  /** A thrown JavaScript `Error`; only its `message` ever reaches a client. */
  datatype Error = Error(message: string)

  /** The `TypeError` a property read on `undefined` or `null` throws. */
  function ReadError(base: string, key: string): Error
  {
    Error("Cannot read properties of " + base + " (reading '" + key + "')")
  }

  /**
    The JavaScript expression `v.key`, where `None` is `undefined`. Reading a property of
    `undefined` or `null` throws; reading a missing property gives `undefined`. Arrays and
    primitives have none of the property names this model reads (`data`, `listCustomer`,
    `listOrder`, `listCustomerAttribute`), so reading one of those from them gives `undefined`.
   */
  function Member(v: Option<Json>, key: string): (r: Result<Option<Json>, Error>)
    ensures r.Err? <==> v == None || v == Some(JNull)
    ensures v.Some? && v.value.JObj? ==> r == Ok(if key in v.value.fields then Some(v.value.fields[key]) else None)
    ensures v.Some? && v.value != JNull && !v.value.JObj? ==> r == Ok(None)
  {
    match v
    case None => Err(ReadError("undefined", key))
    case Some(JNull) => Err(ReadError("null", key))
    case Some(JObj(fields)) => Ok(if key in fields then Some(fields[key]) else None)
    case Some(_) => Ok(None)
  }

  /** Truthiness of a query-string parameter: `undefined` and the empty string are falsy. */
  predicate Truthy(v: Option<string>)
  {
    v.Some? && v.value != ""
  }
}
