/** The conversions from feed-item strings to nullable SQL columns. */
module SqlNull {
  import opened Wrappers

  /** An instant; the store's timestamps and the parsed publication dates. */
  type Time = int

  /** Stands for Go's zero `time.Time`, the `Time` of an unset `sql.NullTime`. */
  const ZeroTime: Time := 0

  /** `sql.NullString`: `str` is what a reader of the `String` field sees. */
  datatype NullString = NullString(str: string, valid: bool)

  /** `sql.NullTime`. */
  datatype NullTime = NullTime(time: Time, valid: bool)

  /** `time.Parse(time.RFC3339, s)` (section 5.6 of RFC 3339), taken as given. */
  type TimeParser = string -> Option<Time>

  /** The empty string becomes an unset column; any other string is stored as is. */
  function StringToSqlNullString(s: string): (r: NullString)
    ensures r.valid <==> s != ""
    ensures r.str == s
  {
    if s == "" then NullString("", false) else NullString(s, true)
  }

  /** A publication date is set only when it is non-empty and parses. */
  function StringToSqlNullTime(s: string, parse: TimeParser): (r: NullTime)
    ensures r.valid <==> s != "" && parse(s).Some?
    ensures r.valid ==> r.time == parse(s).value
    ensures !r.valid ==> r == NullTime(ZeroTime, false)
  {
    if s == "" then NullTime(ZeroTime, false)
    else match parse(s)
      case None => NullTime(ZeroTime, false)
      case Some(t) => NullTime(t, true)
  }
}
