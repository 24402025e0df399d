/** The JSON-RPC `ErrorCode`: an integer code, with the seven codes that
    section 5.1 of the JSON-RPC 2.0 specification reserves. */
module ErrorCodes {

  import opened Wrappers
  import opened JsonValues
  import opened Errors
  import opened NumberText
  import JsonIntOrNull

  /** The code is a Kotlin `Int`. */
  datatype ErrorCode = ErrorCode(code: JsonIntOrNull.Int)

  const ParseError: ErrorCode := ErrorCode(-32700)
  const InvalidRequest: ErrorCode := ErrorCode(-32600)
  const MethodNotFound: ErrorCode := ErrorCode(-32601)
  const InvalidParams: ErrorCode := ErrorCode(-32602)
  const InternalError: ErrorCode := ErrorCode(-32603)
  const ServerErrorRangeStart: ErrorCode := ErrorCode(-32099)
  const ServerErrorRangeEnd: ErrorCode := ErrorCode(-32000)

  /** `serializeToJson`: the code as an integer primitive. */
  function SerializeToJson(c: ErrorCode): (j: Json)
    ensures KindOf(j) == Integer && j.value == c.code
  {
    JInteger(c.code, IntText(c.code))
  }

  /** `deserialize`: an integer whose text `toIntOrNull` accepts gives that
      code, any other integer raises "out of range", and every other kind
      raises "Unsupported kind type" naming it. */
  function Deserialize(json: Json): (r: Result<ErrorCode, Failure>)
    ensures r.Ok? <==> json.JInteger? && ToIntOrNull(json.content).Some?
    ensures r.Ok? ==> Some(r.value.code as int) == ToIntOrNull(json.content)
    ensures r.Err? && json.JInteger? ==> r.error == ValueOutOfRange(json)
    ensures r.Err? && !json.JInteger? ==> r.error == UnsupportedKindType(KindOf(json))
  {
    if !json.JInteger? then Err(UnsupportedKindTypeOf(json))
    else if ToIntOrNull(json.content).Some? then Ok(ErrorCode(ToIntOrNull(json.content).value))
    else Err(ValueOutOfRange(json))
  }

  /** Every code survives a round trip. */
  lemma RoundTrip(c: ErrorCode)
    ensures Deserialize(SerializeToJson(c)) == Ok(c)
  {
    ToIntOrNullOfText(c.code);
  }

  /** The code for a message that cannot be parsed, as the JSON-RPC 2.0
      specification writes it. */
  lemma ParseErrorText()
    ensures SerializeToJson(ParseError).content == "-32700"
  {
    assert DigitChar(0) == '0' && DigitChar(2) == '2' && DigitChar(3) == '3' && DigitChar(7) == '7';
    assert NatText(32700) == "32700";
  }

  /** The codes for a message that is not a request or names no method. */
  lemma RequestCodesText()
    ensures SerializeToJson(InvalidRequest).content == "-32600"
    ensures SerializeToJson(MethodNotFound).content == "-32601"
  {
    assert DigitChar(0) == '0' && DigitChar(1) == '1' && DigitChar(2) == '2';
    assert DigitChar(3) == '3' && DigitChar(6) == '6';
    assert NatText(32600) == "32600";
    assert NatText(32601) == "32601";
  }

  /** The codes for bad parameters and internal errors, as texts. */
  lemma CallCodesText()
    ensures SerializeToJson(InvalidParams).content == "-32602"
    ensures SerializeToJson(InternalError).content == "-32603"
  {
    assert DigitChar(0) == '0' && DigitChar(2) == '2' && DigitChar(3) == '3' && DigitChar(6) == '6';
    assert NatText(32602) == "32602";
    assert NatText(32603) == "32603";
  }

  /** The bounds of the range reserved for server errors, as texts. */
  lemma ServerErrorRangeText()
    ensures SerializeToJson(ServerErrorRangeStart).content == "-32099"
    ensures SerializeToJson(ServerErrorRangeEnd).content == "-32000"
  {
    assert DigitChar(0) == '0' && DigitChar(2) == '2' && DigitChar(3) == '3' && DigitChar(9) == '9';
    assert NatText(32099) == "32099";
    assert NatText(32000) == "32000";
  }

  /** Every kind but integer is refused with its name in the message. */
  lemma RejectsOtherKinds(json: Json)
    requires !json.JInteger?
    ensures Deserialize(json).Err?
    ensures Deserialize(json).error.exception == IllegalArgumentException
    ensures Deserialize(json).error.message == "Unsupported kind type '" + KindName(KindOf(json)) + "'"
  {
  }

  /** An object is refused by name. */
  lemma ObjectKindMessage()
    ensures Deserialize(JObject([])).error.message == "Unsupported kind type 'object'"
  {
    RejectsOtherKinds(JObject([]));
    assert KindName(KindOf(JObject([]))) == "object";
  }

  /** An array is refused by name. */
  lemma ArrayKindMessage()
    ensures Deserialize(JArray([])).error.message == "Unsupported kind type 'array'"
  {
    RejectsOtherKinds(JArray([]));
    assert KindName(KindOf(JArray([]))) == "array";
  }

  /** Null is refused by name. */
  lemma NullKindMessage()
    ensures Deserialize(JNull).error.message == "Unsupported kind type 'null'"
  {
    RejectsOtherKinds(JNull);
    assert KindName(KindOf(JNull)) == "null";
  }

  /** A string is refused by name. */
  lemma StringKindMessage()
    ensures Deserialize(JString("test")).error.message == "Unsupported kind type 'string'"
  {
    RejectsOtherKinds(JString("test"));
    assert KindName(KindOf(JString("test"))) == "string";
  }

  /** A boolean is refused by name. */
  lemma BooleanKindMessage()
    ensures Deserialize(JBool(true)).error.message == "Unsupported kind type 'boolean'"
  {
    RejectsOtherKinds(JBool(true));
    assert KindName(KindOf(JBool(true))) == "boolean";
  }

  /** A decimal is refused by name. */
  lemma DecimalKindMessage()
    ensures Deserialize(JDecimal("1.2")).error.message == "Unsupported kind type 'decimal'"
  {
    RejectsOtherKinds(JDecimal("1.2"));
    assert KindName(KindOf(JDecimal("1.2"))) == "decimal";
  }

  /** The containers and null, as the codec is tested against them, with
      their exact messages. */
  lemma ContainerKindMessages()
    ensures Deserialize(JObject([])).error.message == "Unsupported kind type 'object'"
    ensures Deserialize(JArray([])).error.message == "Unsupported kind type 'array'"
    ensures Deserialize(JNull).error.message == "Unsupported kind type 'null'"
  {
    ObjectKindMessage();
    ArrayKindMessage();
    NullKindMessage();
  }

  /** The other primitives the codec is tested against, with their exact
      messages. */
  lemma PrimitiveKindMessages()
    ensures Deserialize(JString("test")).error.message == "Unsupported kind type 'string'"
    ensures Deserialize(JBool(true)).error.message == "Unsupported kind type 'boolean'"
    ensures Deserialize(JDecimal("1.2")).error.message == "Unsupported kind type 'decimal'"
  {
    StringKindMessage();
    BooleanKindMessage();
    DecimalKindMessage();
  }
}
