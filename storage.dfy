/** The JSON read path of the browser storage service. */
module Storage {
  import opened JsValues

  /**
   * What `localStorage.getItem(key)` holds: nothing (or an empty string, or no
   * storage at all), a string `JSON.parse` rejects, or a parsable JSON document.
   */
  datatype Stored = Missing | Malformed | Parsed(value: Json)

  /** `getJson(key, fallback)`: absent or unparsable content yields the fallback. */
  function GetJson(stored: Stored, fallback: Json): (r: Json)
    ensures stored == Missing || stored == Malformed ==> r == fallback
    ensures stored.Parsed? ==> r == stored.value
  {
    match stored
    case Parsed(v) => v
    case _ => fallback
  }
}
