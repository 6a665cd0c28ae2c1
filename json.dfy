/** The part of System.Text.Json's JsonElement that the service uses: a parsed
    document tree and the accessors that read it, with the exceptions each one
    raises when the value has the wrong kind. */
module JsonValues {
  import opened Wrappers

  const Int32Min: int := -0x8000_0000
  const Int32Max: int := 0x7FFF_FFFF

  /** A 32-bit signed integer, the C# `int`. */
  newtype int32 = x: int | Int32Min <= x <= Int32Max

  /** A parsed JSON value. Numbers are integers of any size; an object is a map
      from property names to values, so nothing depends on the order of its
      properties or on which of two duplicate names is looked up. */
  datatype Json =
    | JNull
    | JBool(b: bool)
    | JInt(n: int)
    | JStr(s: string)
    | JArr(elems: seq<Json>)
    | JObj(fields: map<string, Json>)

  /** A .NET string reference: `null` or a string. */
  datatype NullableString = Null | Str(s: string)

  /** The exceptions the accessors (and the parser) can raise. */
  datatype Exception =
    | InvalidOperationException  // an accessor applied to a value of the wrong kind
    | FormatException            // a number that does not fit in an Int32
    | KeyNotFoundException       // GetProperty of a property the object lacks
    | JsonException              // body text that is not a JSON document

  /** TryGetProperty: true and the value when the object has the property,
      false when it does not; throws on a value that is not an object. */
  function TryGetProperty(e: Json, key: string): Result<Option<Json>, Exception> {
    match e
    case JObj(fields) => Ok(if key in fields then Some(fields[key]) else None)
    case _ => Err(InvalidOperationException)
  }

  /** GetProperty: the value of the property; throws when it is missing or the
      value is not an object. */
  function GetProperty(e: Json, key: string): Result<Json, Exception> {
    match e
    case JObj(fields) => if key in fields then Ok(fields[key]) else Err(KeyNotFoundException)
    case _ => Err(InvalidOperationException)
  }

  /** GetString: the string, or null for a JSON null; throws on any other kind. */
  function GetString(e: Json): Result<NullableString, Exception> {
    match e
    case JStr(s) => Ok(Str(s))
    case JNull => Ok(Null)
    case _ => Err(InvalidOperationException)
  }

  /** GetInt32: the number when it fits in an Int32; throws FormatException when
      it does not and InvalidOperationException on a value that is not a number. */
  function GetInt32(e: Json): Result<int32, Exception> {
    match e
    case JInt(n) => if Int32Min <= n <= Int32Max then Ok(n as int32) else Err(FormatException)
    case _ => Err(InvalidOperationException)
  }

  /** EnumerateArray: the elements of an array; throws on any other kind. */
  function EnumerateArray(e: Json): Result<seq<Json>, Exception> {
    match e
    case JArr(elems) => Ok(elems)
    case _ => Err(InvalidOperationException)
  }
}
