/** The persisted blocked-delivery document, shared by the admin dashboard and the
    checkout extension. Both sides read the same shop metafield
    (namespace "custom", key "locked_delivery_data") and both treat an absent list
    as the empty list. */
module BlockedData {

  datatype Option<+T> = None | Some(value: T)

  datatype Result<+T> = Ok(value: T) | Err(error: LoadError)

  /** `JSON.parse` is not caught by either reader: a value that does not parse
      makes the reader throw. */
  datatype LoadError = ParseError

  /** A blocked range as stored: two `YYYY-MM-DD` strings, in no checked order. */
  datatype Range = Range(start: string, end: string)

  /** The parsed JSON document. `None` stands for a field that is absent (or null). */
  datatype Doc = Doc(
    blockedWeekdays: Option<seq<int>>,
    blockedDates: Option<seq<string>>,
    blockedRanges: Option<seq<Range>>)

  /** What a reader gets from the metafield: no value (no metafield, or an empty
      string), a string that is not JSON, or a parsed document. */
  datatype MetafieldValue = NoValue | Malformed | Parsed(doc: Doc)

  /** The document the admin loader returns when nothing is stored. */
  const EmptyDoc := Doc(Some([]), Some([]), Some([]))

  /** The `field || []` idiom: an absent field reads as the empty list, a present
      list is used unchanged (an empty array is truthy in JavaScript). */
  function OrEmpty<T>(field: Option<seq<T>>): (r: seq<T>)
    ensures field.None? ==> r == []
    ensures field.Some? ==> r == field.value
    ensures |r| == 0 <==> field.None? || field.value == []
  {
    match field
    case None => []
    case Some(s) => s
  }
}
