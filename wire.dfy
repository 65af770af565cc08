/** Values that cross the XML-RPC boundary of the TextAmerica client: the
    positional parameters a call sends, the untyped values the transport
    hands back, and the ways a call can fail. */
module Wire {

  /** Java's `int` / `java.lang.Integer` payload. */
  newtype Int32 = x: int | -0x8000_0000 <= x < 0x8000_0000

  /** Java's signed `byte`. */
  newtype Byte = x: int | -0x80 <= x < 0x80

  datatype Option<+T> = None | Some(value: T)

  /** A reference-typed Java argument that the caller may pass as `null`. */
  type NullableInt = Option<Int32>
  type NullableString = Option<string>

  /** One element of the `java.util.Vector` handed to `execute`. */
  datatype Param = PInt(n: Int32) | PStr(s: string) | PNull

  /** `Vector.add(Integer)`: a null reference is stored as null. */
  function IntParam(x: NullableInt): Param
  {
    match x
    case None => PNull
    case Some(n) => PInt(n)
  }

  /** `Vector.add(String)`: a null reference is stored as null. */
  function StrParam(x: NullableString): Param
  {
    match x
    case None => PNull
    case Some(s) => PStr(s)
  }

  /** The pair given to the transport: procedure name and parameter vector. */
  datatype Call = Call(methodName: string, params: seq<Param>)

  /** What the XML-RPC layer can return: the XML-RPC scalar types, arrays
      (`Vector`) and structs (`Hashtable`). XML-RPC has no null value. */
  datatype Value =
    | Int(i: Int32)
    | Bool(b: bool)
    | Text(s: string)
    | Double(d: real)
    | DateTime(iso8601: string)
    | Base64(bytes: seq<Byte>)
    | Struct(fields: map<string, Value>)
    | Array(items: seq<Value>)

  /** The outcome of one remote invocation. */
  datatype Reply = Returned(value: Value) | Fault(code: Int32, message: string)

  datatype Error =
    | IOError                                  // the image file could not be opened or read
    | TransportError(code: Int32, message: string) // the remote call failed
    | CoercionError                            // the reply is not of the declared result type

  datatype Result<+T> = Success(value: T) | Failure(error: Error)
}
