/**
 * The dynamically typed values the core converts plugin data into: SQLite
 * values as bound by rusqlite, and JSON values as produced by serde_json.
 * Text whose exact characters come from the `time` crate's ISO 8601 formatter
 * or from serde_json's writer is kept symbolic: it is identified by what was
 * formatted, not spelled out.
 */
module SqlJson {
  import opened StdInt
  import opened TimeTypes

  /** A 64-bit float, kept as its bit pattern: no arithmetic is done on it. */
  datatype F64 = F64(bits: bv64)

  /** A JSON value. */
  datatype Json =
    | JNull
    | JBool(b: bool)
    | JInt(i: int)
    | JReal(f: F64)
    | JString(s: string)
    | JArray(items: seq<Json>)
      /** The ISO 8601 string of a date. */
    | JIsoDate(date: Date)
      /** The ISO 8601 string of a time. */
    | JIsoTime(time: ValidTime)
      /** A date as the `time` crate's `Serialize` writes it. */
    | JSerDate(sdate: Date)
      /** A time as the `time` crate's `Serialize` writes it. */
    | JSerTime(stime: ValidTime)

  /** A SQLite value (rusqlite's `Value`). */
  datatype SqlValue =
    | Null
    | Integer(i: int)
    | Real(f: F64)
    | Text(s: string)
    | Blob(bytes: seq<u8>)
      /** TEXT holding the ISO 8601 form of a date. */
    | IsoDateText(date: Date)
      /** TEXT holding the ISO 8601 form of a time. */
    | IsoTimeText(time: ValidTime)
      /** TEXT holding the serialisation of a JSON value. */
    | JsonText(json: Json)

  /** SQLite's storage class of a value, spelled as a column type names it. */
  function StorageClass(v: SqlValue): string {
    match v
    case Null => "NULL"
    case Integer(_) => "INTEGER"
    case Real(_) => "REAL"
    case Blob(_) => "BLOB"
    case Text(_) | IsoDateText(_) | IsoTimeText(_) | JsonText(_) => "TEXT"
  }
}
