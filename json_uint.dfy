/** `JsonUInt`: the codec for unsigned 32-bit integers (0 to 2^32-1). */
module JsonUInt {

  import opened Wrappers
  import opened JsonValues
  import opened Errors
  import opened NumberText

  /** Kotlin's `UInt`. */
  type UInt = n: int | 0 <= n <= UIntMax

  /** `serialize`: an integer primitive holding the number and its text,
      which `toUIntOrNull` reads back as the number. */
  function Serialize(v: UInt): (j: Json)
    ensures KindOf(j) == Integer && j.value == v
    ensures ToUIntOrNull(j.content) == Some(v as int)
  {
    ToUIntOrNullOfText(v);
    JInteger(v, IntText(v))
  }

  /** `deserialize`: an array or object, and every primitive that is not an
      integer, raise the kind error; an integer whose text `toUIntOrNull`
      refuses raises the range error quoting the text. */
  function Deserialize(json: Json): (r: Result<UInt, Failure>)
    ensures r.Ok? ==> json.JInteger?
    ensures r.Err? && !json.JInteger? ==> r.error == UnsupportedKindTypeOf(json)
    ensures r.Err? && json.JInteger? ==> r.error == ValueOutOfRange(json)
  {
    if !json.IsPrimitive() then Err(UnsupportedKindTypeOf(json))
    else
      match json
      case JInteger(_, content) =>
        (match ToUIntOrNull(content)
         case Some(n) => Ok(n)
         case None => Err(ValueOutOfRange(json)))
      case _ => Err(UnsupportedKindTypeOf(json))
  }

  /** Every unsigned 32-bit value survives a round trip. */
  lemma RoundTrip(v: UInt)
    ensures Deserialize(Serialize(v)) == Ok(v)
  {
    ToUIntOrNullOfText(v);
  }

  /** An integer literal written the usual way decodes to exactly its value
      when 0 <= n <= 2^32-1, and otherwise raises the range error whose
      message carries the literal text. */
  lemma DecodeLiteral(n: int)
    ensures 0 <= n <= UIntMax ==> Deserialize(JInteger(n, IntText(n))) == Ok(n)
    ensures !(0 <= n <= UIntMax) ==>
      Deserialize(JInteger(n, IntText(n))) == Err(ValueOutOfRangeText(IntText(n)))
    ensures !(0 <= n <= UIntMax) ==>
      Deserialize(JInteger(n, IntText(n))).error.message
        == "The value '" + IntText(n) + "' is out of range"
  {
    ToUIntOrNullOfText(n);
  }

  /** Every node that is not an integer raises "Unsupported kind type"
      naming its kind, as an `IllegalArgumentException`. */
  lemma RejectsOtherKinds(json: Json)
    requires !json.JInteger?
    ensures Deserialize(json) == Err(UnsupportedKindType(KindOf(json)))
    ensures Deserialize(json).error.exception == IllegalArgumentException
    ensures Deserialize(json).error.message == "Unsupported kind type '" + KindName(KindOf(json)) + "'"
  {
  }

  /** Decoding has exactly one outcome: the value in range, the kind error,
      or the range error; which one depends only on the kind and the text. */
  lemma Outcomes(json: Json)
    ensures Deserialize(json).Ok? <==> json.JInteger? && ToUIntOrNull(json.content).Some?
    ensures Deserialize(json).Ok? ==> Deserialize(json).value == ToUIntOrNull(json.content).value
    ensures Deserialize(json) == Err(UnsupportedKindTypeOf(json)) <==> !json.JInteger?
    ensures json.IsPrimitive() ==>
      (Deserialize(json) == Err(ValueOutOfRange(json)) <==>
        json.JInteger? && ToUIntOrNull(json.content).None?)
  {
    if json.JInteger? {
      RecognizeRaise(KindTypeForm(Integer));
      RecognizeRaise(OutOfRangeForm(json.content));
      assert UnsupportedKindTypeOf(json) == Raise(KindTypeForm(Integer));
      assert ValueOutOfRange(json) == Raise(OutOfRangeForm(json.content));
    } else if json.IsPrimitive() {
      RecognizeRaise(KindTypeForm(KindOf(json)));
      RecognizeRaise(OutOfRangeForm(Content(json)));
      assert UnsupportedKindTypeOf(json) == Raise(KindTypeForm(KindOf(json)));
      assert ValueOutOfRange(json) == Raise(OutOfRangeForm(Content(json)));
    }
  }

  /** A negative zero literal has the value 0 but `toUIntOrNull` refuses its
      text, so it raises the range error. */
  lemma NegativeZeroIsOutOfRange()
    ensures Deserialize(JInteger(0, "-0")) == Err(ValueOutOfRangeText("-0"))
  {
    NegativeZero();
  }
}
