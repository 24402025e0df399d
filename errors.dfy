/** The deserialization error vocabulary: the exceptions the decoders raise
    and the exact message texts that reach the wire. A raised exception is a
    `Failure` value: the exception class and its message. */
module Errors {

  import opened Wrappers
  import opened JsonValues

  /** The exact runtime classes of the exceptions the vocabulary raises:
      Kotlin's `IllegalArgumentException`, and the three subclasses of
      `JsonDeserializationException`. */
  datatype ExceptionClass =
    | IllegalArgumentException
    | EmptyArrayException
    | MissingKeyException
    | UnsupportedKindValueException

  /** The class is a `JsonDeserializationException` (by subclassing). */
  predicate IsDeserializationException(c: ExceptionClass)
  {
    c != IllegalArgumentException
  }

  /** A raised exception. */
  datatype Failure = Failure(exception: ExceptionClass, message: string)

  const EmptyArrayText: string := "The array is empty"
  const MissingPrefix: string := "Missing "
  const MissingSuffix: string := " key"
  const KindTypePrefix: string := "Unsupported kind type '"
  const KindValuePrefix: string := "Unsupported kind property value '"
  const Quote: string := "'"
  const OutOfRangePrefix: string := "The value '"
  const OutOfRangeSuffix: string := "' is out of range"

  /** `EmptyArrayException`, raised by `emptyArray()`. */
  function EmptyArray(): (e: Failure)
    ensures e.exception == EmptyArrayException && IsDeserializationException(e.exception)
    ensures e.message == "The array is empty"
  {
    Failure(EmptyArrayException, EmptyArrayText)
  }

  /** `MissingKeyException(key)`: the key text is inserted verbatim. */
  function MissingKeyException(key: string): (e: Failure)
    ensures e.exception == ExceptionClass.MissingKeyException && IsDeserializationException(e.exception)
    ensures |e.message| == |key| + 12
    ensures e.message[..8] == "Missing " && e.message[|e.message| - 4..] == " key"
    ensures e.message[8..|e.message| - 4] == key
  {
    Failure(ExceptionClass.MissingKeyException, MissingPrefix + key + MissingSuffix)
  }

  /** `missingKey(key)`: the single key goes in unquoted. */
  function MissingKey(key: string): (e: Failure)
    ensures e.exception == ExceptionClass.MissingKeyException && IsDeserializationException(e.exception)
    ensures e.message == "Missing " + key + " key"
  {
    MissingKeyException(key)
  }

  /** Kotlin's `joinToString(sep)` over already transformed parts. */
  function JoinToString(parts: seq<string>, sep: string): string
  {
    if parts == [] then ""
    else if |parts| == 1 then parts[0]
    else parts[0] + sep + JoinToString(parts[1..], sep)
  }

  /** The transform `missingKey(vararg)` applies to the name at `index`:
      the last one is prefixed with "or ", every one is single-quoted. */
  function KeyLabel(index: nat, name: string, size: nat): string
  {
    if index == size - 1 then "or " + Quoted(name) else Quoted(name)
  }

  /** `key.withIndex().joinToString(", ") { ... }`. */
  function KeyNames(keys: seq<string>): string
  {
    JoinToString(seq(|keys|, i requires 0 <= i < |keys| => KeyLabel(i, keys[i], |keys|)), ", ")
  }

  /** `missingKey(vararg key)`. */
  function MissingKeys(keys: seq<string>): (e: Failure)
    ensures e.exception == ExceptionClass.MissingKeyException && IsDeserializationException(e.exception)
    ensures e.message == "Missing " + KeyNames(keys) + " key"
  {
    MissingKeyException(KeyNames(keys))
  }

  /** A name in single quotes. */
  function Quoted(name: string): string
  {
    Quote + name + Quote
  }

  /** The names, each quoted, separated by ", " (the reference reading of
      the alternatives list, without the "or"). */
  function QuotedList(names: seq<string>): string
  {
    if names == [] then ""
    else if |names| == 1 then Quoted(names[0])
    else Quoted(names[0]) + ", " + QuotedList(names[1..])
  }

  /** `unsupportedKindType(kindType)`. */
  function UnsupportedKindType(kind: Kind): (e: Failure)
    ensures e.exception == IllegalArgumentException
    ensures e.message == "Unsupported kind type '" + KindName(kind) + "'"
  {
    Failure(IllegalArgumentException, KindTypePrefix + KindName(kind) + Quote)
  }

  /** `unsupportedKindType(json)`: names the kind of the offending node. */
  function UnsupportedKindTypeOf(json: Json): (e: Failure)
    ensures e.exception == IllegalArgumentException
    ensures e.message == "Unsupported kind type '" + KindName(KindOf(json)) + "'"
    ensures Recognize(e) == Some(KindTypeForm(KindOf(json)))
  {
    RecognizeKindType(KindOf(json));
    UnsupportedKindType(KindOf(json))
  }

  /** `UnsupportedKindValueException(kind)` / `unsupportedKindValue(kind)`. */
  function UnsupportedKindValue(kind: string): (e: Failure)
    ensures e.exception == UnsupportedKindValueException && IsDeserializationException(e.exception)
    ensures e.message == "Unsupported kind property value '" + kind + "'"
  {
    Failure(UnsupportedKindValueException, KindValuePrefix + kind + Quote)
  }

  /** `valueOutOfRange(value)`: `text` is the value's string form. */
  function ValueOutOfRangeText(text: string): (e: Failure)
    ensures e.exception == IllegalArgumentException
    ensures e.message == "The value '" + text + "' is out of range"
  {
    Failure(IllegalArgumentException, OutOfRangePrefix + text + OutOfRangeSuffix)
  }

  /** `valueOutOfRange(json)`: quotes the primitive's literal text unchanged. */
  function ValueOutOfRange(json: Json): (e: Failure)
    requires json.IsPrimitive()
    ensures e.exception == IllegalArgumentException
    ensures |e.message| == |Content(json)| + 28
    ensures e.message[..11] == "The value '"
    ensures e.message[11..|e.message| - 17] == Content(json)
    ensures e.message[|e.message| - 17..] == "' is out of range"
  {
    ValueOutOfRangeText(Content(json))
  }

  /** The five forms of deserialization error, by what they carry. */
  datatype ErrorForm =
    | EmptyArrayForm
    | MissingKeyForm(keyText: string)
    | KindTypeForm(kind: Kind)
    | KindValueForm(kindValue: string)
    | OutOfRangeForm(literal: string)

  /** The exception each form is raised as. */
  function Raise(f: ErrorForm): Failure
  {
    match f
    case EmptyArrayForm => EmptyArray()
    case MissingKeyForm(k) => MissingKeyException(k)
    case KindTypeForm(kind) => UnsupportedKindType(kind)
    case KindValueForm(v) => UnsupportedKindValue(v)
    case OutOfRangeForm(l) => ValueOutOfRangeText(l)
  }

  /** Reads an exception back into the form that produced it: the reference
      reading of the vocabulary, from its class and text alone. */
  function Recognize(e: Failure): Option<ErrorForm>
  {
    var m := e.message;
    match e.exception
    case EmptyArrayException =>
      if m == EmptyArrayText then Some(EmptyArrayForm) else None
    case MissingKeyException =>
      if Wraps(m, MissingPrefix, MissingSuffix) then
        Some(MissingKeyForm(Inner(m, MissingPrefix, MissingSuffix)))
      else None
    case UnsupportedKindValueException =>
      if Wraps(m, KindValuePrefix, Quote) then
        Some(KindValueForm(Inner(m, KindValuePrefix, Quote)))
      else None
    case IllegalArgumentException =>
      if Wraps(m, KindTypePrefix, Quote) then
        match KindNamed(Inner(m, KindTypePrefix, Quote))
        case Some(k) => Some(KindTypeForm(k))
        case None => None
      else if Wraps(m, OutOfRangePrefix, OutOfRangeSuffix) then
        Some(OutOfRangeForm(Inner(m, OutOfRangePrefix, OutOfRangeSuffix)))
      else None
  }

  /** `m` starts with `prefix` and ends with `suffix`, without overlap. */
  predicate Wraps(m: string, prefix: string, suffix: string)
  {
    |prefix| + |suffix| <= |m| && m[..|prefix|] == prefix && m[|m| - |suffix|..] == suffix
  }

  /** What `m` holds between `prefix` and `suffix`. */
  function Inner(m: string, prefix: string, suffix: string): string
    requires Wraps(m, prefix, suffix)
  {
    m[|prefix|..|m| - |suffix|]
  }

  /** The kind whose name is `name`, if any. */
  function KindNamed(name: string): (r: Option<Kind>)
    ensures r.Some? ==> KindName(r.value) == name
  {
    if name == "null" then Some(Null)
    else if name == "boolean" then Some(Boolean)
    else if name == "integer" then Some(Integer)
    else if name == "decimal" then Some(Decimal)
    else if name == "string" then Some(String)
    else if name == "array" then Some(Array)
    else if name == "object" then Some(Object)
    else None
  }

  /** A message built as prefix + x + suffix wraps x, and starts with the
      prefix's first character. */
  lemma WrapsBuilt(prefix: string, x: string, suffix: string)
    requires prefix != []
    ensures Wraps(prefix + x + suffix, prefix, suffix)
    ensures Inner(prefix + x + suffix, prefix, suffix) == x
    ensures (prefix + x + suffix)[0] == prefix[0]
  {
    var m := prefix + x + suffix;
    assert m[..|prefix|] == prefix;
    assert m[|m| - |suffix|..] == suffix;
    assert m[|prefix|..|m| - |suffix|] == x;
  }

  lemma RecognizeMissingKey(k: string)
    ensures Recognize(Raise(MissingKeyForm(k))) == Some(MissingKeyForm(k))
  {
    WrapsBuilt(MissingPrefix, k, MissingSuffix);
  }

  lemma RecognizeKindType(kind: Kind)
    ensures Recognize(Raise(KindTypeForm(kind))) == Some(KindTypeForm(kind))
  {
    WrapsBuilt(KindTypePrefix, KindName(kind), Quote);
  }

  lemma RecognizeKindValue(v: string)
    ensures Recognize(Raise(KindValueForm(v))) == Some(KindValueForm(v))
  {
    WrapsBuilt(KindValuePrefix, v, Quote);
  }

  lemma RecognizeOutOfRange(l: string)
    ensures Recognize(Raise(OutOfRangeForm(l))) == Some(OutOfRangeForm(l))
  {
    var m := Raise(OutOfRangeForm(l)).message;
    WrapsBuilt(OutOfRangePrefix, l, OutOfRangeSuffix);
    assert !Wraps(m, KindTypePrefix, Quote) by {
      assert m[0] != KindTypePrefix[0];
    }
  }

  /** Every raised error is read back as the form that raised it: the five
      message families never overlap and each carries its text recoverably. */
  lemma RecognizeRaise(f: ErrorForm)
    ensures Recognize(Raise(f)) == Some(f)
  {
    match f
    case EmptyArrayForm =>
    case MissingKeyForm(k) => RecognizeMissingKey(k);
    case KindTypeForm(kind) => RecognizeKindType(kind);
    case KindValueForm(v) => RecognizeKindValue(v);
    case OutOfRangeForm(l) => RecognizeOutOfRange(l);
  }

  /** Two errors with the same exception and message came from the same form. */
  lemma RaiseInjective(f1: ErrorForm, f2: ErrorForm)
    requires Raise(f1) == Raise(f2)
    ensures f1 == f2
  {
    RecognizeRaise(f1);
    RecognizeRaise(f2);
  }

  /** Joining one more part appends the separator and the part. */
  lemma {:induction false} JoinSnoc(parts: seq<string>, x: string, sep: string)
    requires parts != []
    ensures JoinToString(parts + [x], sep) == JoinToString(parts, sep) + sep + x
  {
    if |parts| == 1 {
      assert parts + [x] == [parts[0], x];
      assert ([parts[0], x])[1..] == [x];
    } else {
      assert (parts + [x])[1..] == parts[1..] + [x];
      JoinSnoc(parts[1..], x, sep);
    }
  }

  /** Joining the quoted names with ", " is the quoted list. */
  lemma {:induction false} JoinQuoted(names: seq<string>)
    ensures JoinToString(seq(|names|, i requires 0 <= i < |names| => Quoted(names[i])), ", ")
         == QuotedList(names)
  {
    var parts := seq(|names|, i requires 0 <= i < |names| => Quoted(names[i]));
    if |names| > 1 {
      var rest := seq(|names| - 1, i requires 0 <= i < |names| - 1 => Quoted(names[1..][i]));
      assert parts[1..] == rest;
      JoinQuoted(names[1..]);
    }
  }

  /** The alternatives list of `missingKey(vararg)`: the names quoted and
      separated by ", ", the last one prefixed with "or ". */
  lemma KeyNamesShape(keys: seq<string>)
    ensures |keys| == 0 ==> KeyNames(keys) == ""
    ensures |keys| == 1 ==> KeyNames(keys) == "or '" + keys[0] + "'"
    ensures |keys| >= 2 ==>
      KeyNames(keys) == QuotedList(keys[..|keys| - 1]) + ", or " + Quoted(keys[|keys| - 1])
  {
    var n := |keys|;
    var parts := seq(n, i requires 0 <= i < n => KeyLabel(i, keys[i], n));
    if n >= 2 {
      var init := keys[..n - 1];
      var quoted := seq(n - 1, i requires 0 <= i < n - 1 => Quoted(init[i]));
      forall i | 0 <= i < n
        ensures parts[i] == (quoted + ["or " + Quoted(keys[n - 1])])[i]
      {
        if i < n - 1 {
          assert parts[i] == Quoted(keys[i]);
        }
      }
      assert parts == quoted + ["or " + Quoted(keys[n - 1])];
      JoinSnoc(quoted, "or " + Quoted(keys[n - 1]), ", ");
      JoinQuoted(init);
    }
  }

  /** The message the source's own example gives for three alternatives. */
  lemma MissingThreeKeys()
    ensures MissingKeys(["a", "b", "c"]).message == "Missing " + "'a', 'b', or 'c'" + " key"
  {
    var keys := ["a", "b", "c"];
    var parts := seq(|keys|, i requires 0 <= i < |keys| => KeyLabel(i, keys[i], |keys|));
    assert parts[0] == "'a'" && parts[1] == "'b'" && parts[2] == "or 'c'";
    assert parts[1..][1..] == ["or 'c'"];
    assert JoinToString(parts[1..], ", ") == "'b'" + ", " + "or 'c'";
    assert KeyNames(keys) == "'a'" + ", " + ("'b'" + ", " + "or 'c'");
    assert KeyNames(keys) == "'a', 'b', or 'c'";
  }

  /** With a single alternative the name still carries the "or ". */
  lemma MissingOneOfKeys(k: string)
    ensures MissingKeys([k]).message == "Missing or '" + k + "' key"
  {
    KeyNamesShape([k]);
  }

  /** With no alternatives the list is empty, leaving two spaces. */
  lemma MissingNoKeys()
    ensures MissingKeys([]).message == "Missing  key"
  {
    KeyNamesShape([]);
  }
}
