/** `JsonIntOrNull`: the codec for nullable signed 32-bit integers
    (-2^31 to 2^31-1, or null). */
module JsonIntOrNull {

  import opened Wrappers
  import opened JsonValues
  import opened Errors
  import opened NumberText

  /** Kotlin's `Int`; `Int?` is `Option<Int>`. */
  type Int = n: int | IntMin <= n <= IntMax

  /** `serializeToJson`: null becomes JSON null, a number an integer primitive. */
  function SerializeToJson(v: Option<Int>): (j: Json)
    ensures v.None? <==> j == JNull
    ensures v.Some? ==> KindOf(j) == Integer && j.value == v.value
    ensures v.Some? ==> ToIntOrNull(j.content) == Some(v.value as int)
  {
    match v
    case None => JNull
    case Some(n) => ToIntOrNullOfText(n); JInteger(n, IntText(n))
  }

  /** `deserialize`: JSON null is null; an integer is read with
      `toIntOrNull`, raising the range error when that refuses the text;
      everything else raises the kind error. */
  function Deserialize(json: Json): (r: Result<Option<Int>, Failure>)
    ensures r == Ok(None) <==> json == JNull
    ensures r.Ok? && r.value.Some? ==> json.JInteger?
    ensures r.Err? && !json.JInteger? ==> r.error == UnsupportedKindTypeOf(json)
    ensures r.Err? && json.JInteger? ==> r.error == ValueOutOfRange(json)
  {
    if !json.IsPrimitive() then Err(UnsupportedKindTypeOf(json))
    else
      match json
      case JNull => Ok(None)
      case JInteger(_, content) =>
        (match ToIntOrNull(content)
         case Some(n) => Ok(Some(n))
         case None => Err(ValueOutOfRange(json)))
      case _ => Err(UnsupportedKindTypeOf(json))
  }

  /** Every `Int?` value survives a round trip. */
  lemma RoundTrip(v: Option<Int>)
    ensures Deserialize(SerializeToJson(v)) == Ok(v)
  {
    if v.Some? {
      ToIntOrNullOfText(v.value);
    }
  }

  /** An integer literal written the usual way decodes to its value when
      -2^31 <= n <= 2^31-1, and otherwise raises the range error whose
      message carries the literal text. */
  lemma DecodeLiteral(n: int)
    ensures IntMin <= n <= IntMax ==> Deserialize(JInteger(n, IntText(n))) == Ok(Some(n))
    ensures !(IntMin <= n <= IntMax) ==>
      Deserialize(JInteger(n, IntText(n))) == Err(ValueOutOfRangeText(IntText(n)))
    ensures !(IntMin <= n <= IntMax) ==>
      Deserialize(JInteger(n, IntText(n))).error.message
        == "The value '" + IntText(n) + "' is out of range"
  {
    ToIntOrNullOfText(n);
  }

  /** Arrays, objects, strings, booleans and decimals raise "Unsupported
      kind type" naming their kind, as an `IllegalArgumentException`. */
  lemma RejectsOtherKinds(json: Json)
    requires !json.JInteger? && !json.JNull?
    ensures Deserialize(json) == Err(UnsupportedKindType(KindOf(json)))
    ensures Deserialize(json).error.exception == IllegalArgumentException
    ensures Deserialize(json).error.message == "Unsupported kind type '" + KindName(KindOf(json)) + "'"
  {
  }

  /** Decoding has exactly one outcome: null, a value in range, the kind
      error, or the range error. */
  lemma Outcomes(json: Json)
    ensures Deserialize(json).Ok? <==> json.JNull? || (json.JInteger? && ToIntOrNull(json.content).Some?)
    ensures json.JInteger? && Deserialize(json).Ok? ==>
      Deserialize(json).value == Some(ToIntOrNull(json.content).value)
    ensures Deserialize(json) == Err(UnsupportedKindTypeOf(json)) <==> !json.JInteger? && !json.JNull?
    ensures json.IsPrimitive() ==>
      (Deserialize(json) == Err(ValueOutOfRange(json)) <==>
        json.JInteger? && ToIntOrNull(json.content).None?)
  {
    if json.JInteger? {
      RecognizeRaise(KindTypeForm(Integer));
      RecognizeRaise(OutOfRangeForm(json.content));
      assert UnsupportedKindTypeOf(json) == Raise(KindTypeForm(Integer));
      assert ValueOutOfRange(json) == Raise(OutOfRangeForm(json.content));
    } else if json.IsPrimitive() && !json.JNull? {
      RecognizeRaise(KindTypeForm(KindOf(json)));
      RecognizeRaise(OutOfRangeForm(Content(json)));
      assert UnsupportedKindTypeOf(json) == Raise(KindTypeForm(KindOf(json)));
      assert ValueOutOfRange(json) == Raise(OutOfRangeForm(Content(json)));
    }
  }
}
