# JSON-RPC 2.0 core of xqt-kotlinx-json-rpc, in Dafny

This project models three connected pieces of the Kotlin JSON-RPC 2.0 library
xqt-kotlinx-json-rpc and proves what they promise.

- **The deserialization error vocabulary** (`Errors.kt`). These builders raise
  exceptions with the exact message texts that reach the wire: `emptyArray`,
  both `missingKey` overloads, `unsupportedKindType`, `unsupportedKindValue`
  and `valueOutOfRange`. The exceptions are `IllegalArgumentException` or one of
  the three `JsonDeserializationException` subclasses. A raised exception is
  a `Failure` value holding its exact runtime class and its message
  (`errors.dfy`).
- **The bounded numeric codecs** `JsonUInt` (0 to 2^32-1) and `JsonIntOrNull`
  (-2^31 to 2^31-1, or null).
  - They decode from the literal text of an integer primitive, through models of
    Kotlin's `String.toUIntOrNull` and `String.toIntOrNull` (`numbers.dfy`,
    `json_uint.dfy`, `nullable.dfy`).
  - The JSON tree keeps, for every integer, both its value and its literal
    text (`json.dfy`).
  - The `ErrorCode` wrapper and its seven reserved codes, from section 5.1 of
    the JSON-RPC 2.0 specification, are modelled beside them
    (`error_code.dfy`).
- **The dispatch loop** `jsonRpc(handler)` over the in-memory
  `TestJsonRpcChannel`.
  - The channel is a class with `input` and `output` sequences
    (`channel.dfy`).
  - The loop is a method with a `while` loop that receives bodies until
    `receive()` returns null. It delivers a top-level object as one message
    and a top-level array as a batch (section 6 of the JSON-RPC 2.0
    specification). It skips every other value. It sets each message's
    channel and runs the handler on it (`dispatch.dfy`).
  - The loop method is proved against `Dispatch.RunLoop`, a function of the
    input it starts with.
  - The loop's properties are lemmas about `RunLoop` (`loop_properties.dfy`):
    - order and channel binding;
    - exact invocation counts;
    - drain;
    - where a decode exception stops the loop;
    - what reaches `output`.
  - `Message.deserialize` and the handler are parameters of the loop:
    - the decoder is a partial function into a small `Message` datatype (`protocol.dfy`);
    - the handler is a function from a message to the JSON values it sends.

Source paths below are relative to the repository root. All of them are
under `src/xqt-kotlinx-json-rpc/`. Most are in `commonMain/xqt/kotlinx/rpc/json/`;
the tests are in `commonTest/xqt/kotlinx/rpc/json/test/protocol/`.

## Model

| member | source | states |
|---|---|---|
| Errors.EmptyArray | src/xqt-kotlinx-json-rpc/commonMain/xqt/kotlinx/rpc/json/serialization/Errors.kt:34 | `emptyArray()` raises an `EmptyArrayException`, a `JsonDeserializationException`, whose message is exactly "The array is empty" (the `EmptyArrayException` text of lines 16-17). |
| Errors.MissingKeyException | src/xqt-kotlinx-json-rpc/commonMain/xqt/kotlinx/rpc/json/serialization/Errors.kt:22-23 | An exception of class `MissingKeyException`, a `JsonDeserializationException`. The message is "Missing " then the key text verbatim then " key": its length is the key's plus 12, and the slice between prefix and suffix is the key. |
| Errors.MissingKey | src/xqt-kotlinx-json-rpc/commonMain/xqt/kotlinx/rpc/json/serialization/Errors.kt:49 | Single-key `missingKey(k)` raises a `MissingKeyException` (a `JsonDeserializationException`) "Missing " + k + " key", with k unquoted. |
| Errors.MissingKeys | src/xqt-kotlinx-json-rpc/commonMain/xqt/kotlinx/rpc/json/serialization/Errors.kt:39-44 | Vararg `missingKey` raises a `MissingKeyException` (a `JsonDeserializationException`) "Missing " + the joined alternatives + " key". |
| Errors.KeyNamesShape | src/xqt-kotlinx-json-rpc/commonMain/xqt/kotlinx/rpc/json/serialization/Errors.kt:39-44 | The joined alternatives: none give "", one gives "or 'k'", and two or more give the earlier names quoted and separated by ", " followed by ", or 'last'". |
| Errors.JoinSnoc | src/xqt-kotlinx-json-rpc/commonMain/xqt/kotlinx/rpc/json/serialization/Errors.kt:40 | `joinToString(sep)` of a non-empty list with one more part is the old join, the separator and that part. |
| Errors.JoinQuoted | src/xqt-kotlinx-json-rpc/commonMain/xqt/kotlinx/rpc/json/serialization/Errors.kt:40-42 | Joining the quoted names with ", " equals the reference definition `QuotedList`. |
| Errors.MissingThreeKeys | src/xqt-kotlinx-json-rpc/commonMain/xqt/kotlinx/rpc/json/serialization/Errors.kt:39-44 | `missingKey("a", "b", "c")` says exactly "Missing 'a', 'b', or 'c' key". |
| Errors.MissingOneOfKeys | src/xqt-kotlinx-json-rpc/commonMain/xqt/kotlinx/rpc/json/serialization/Errors.kt:39-44 | With one name the vararg form still prefixes it with "or ": "Missing or 'k' key". |
| Errors.MissingNoKeys | src/xqt-kotlinx-json-rpc/commonMain/xqt/kotlinx/rpc/json/serialization/Errors.kt:39-44 | With no names the vararg form leaves two spaces: "Missing  key". |
| Errors.UnsupportedKindType | src/xqt-kotlinx-json-rpc/commonMain/xqt/kotlinx/rpc/json/serialization/Errors.kt:59-61 | Raises an `IllegalArgumentException` "Unsupported kind type '" + kind name + "'". |
| Errors.UnsupportedKindTypeOf | src/xqt-kotlinx-json-rpc/commonMain/xqt/kotlinx/rpc/json/serialization/Errors.kt:54 | The node overload raises an `IllegalArgumentException` "Unsupported kind type '" + the node's kind name + "'", and that message reads back as the kind error for the node's own kind. |
| Errors.UnsupportedKindValue | src/xqt-kotlinx-json-rpc/commonMain/xqt/kotlinx/rpc/json/serialization/Errors.kt:66 | Raises an `UnsupportedKindValueException` (a `JsonDeserializationException`) "Unsupported kind property value '" + kind + "'" (the text of lines 28-29). |
| Errors.ValueOutOfRangeText | src/xqt-kotlinx-json-rpc/commonMain/xqt/kotlinx/rpc/json/serialization/Errors.kt:78-80 | Raises an `IllegalArgumentException` "The value '" + value text + "' is out of range". |
| Errors.ValueOutOfRange | src/xqt-kotlinx-json-rpc/commonMain/xqt/kotlinx/rpc/json/serialization/Errors.kt:85-87 | Raises an `IllegalArgumentException`. The primitive's `content` sits unchanged between "The value '" and "' is out of range", and the message is 28 characters longer than it. |
| Errors.RecognizeRaise | src/xqt-kotlinx-json-rpc/commonMain/xqt/kotlinx/rpc/json/serialization/Errors.kt:10-87 | Every error of the five families reads back, from exception class and text alone, as the family and the text that raised it. So the families never overlap. |
| Errors.RaiseInjective | src/xqt-kotlinx-json-rpc/commonMain/xqt/kotlinx/rpc/json/serialization/Errors.kt:10-87 | Two raised errors with the same class and message came from the same family with the same text. |
| JsonValues.KindNameInjective | src/xqt-kotlinx-json-rpc/commonTest/xqt/kotlinx/rpc/json/test/protocol/ErrorCode.kt:47-69 | The seven kind names are pairwise distinct, so a kind error names its kind. |
| NumberText.ToUIntOrNull | src/xqt-kotlinx-json-rpc/commonMain/xqt/kotlinx/rpc/json/serialization/types/JsonUInt.kt:20 | `toUIntOrNull` never yields a value above 2^32-1. |
| NumberText.ToIntOrNull | src/xqt-kotlinx-json-rpc/commonMain/xqt/kotlinx/rpc/json/serialization/types/Nullable.kt:22 | `toIntOrNull` never yields a value outside -2^31..2^31-1. |
| NumberText.NatTextParses | src/xqt-kotlinx-json-rpc/commonMain/xqt/kotlinx/rpc/json/serialization/types/JsonUInt.kt:15 | The decimal text of a natural number is a non-empty digit string, has no leading zero, and parses back to the number. |
| NumberText.ToUIntOrNullOfText | src/xqt-kotlinx-json-rpc/commonMain/xqt/kotlinx/rpc/json/serialization/types/JsonUInt.kt:15-20 | `toUIntOrNull` reads an integer's text back exactly when 0 <= n <= 2^32-1, and refuses every other integer. |
| NumberText.ToIntOrNullOfText | src/xqt-kotlinx-json-rpc/commonMain/xqt/kotlinx/rpc/json/serialization/types/Nullable.kt:15-22 | `toIntOrNull` reads an integer's text back exactly when -2^31 <= n <= 2^31-1, and refuses every other integer. |
| NumberText.NegativeZero | src/xqt-kotlinx-json-rpc/commonMain/xqt/kotlinx/rpc/json/serialization/types/JsonUInt.kt:20 | The text "-0" is refused by `toUIntOrNull` and read as 0 by `toIntOrNull`. |
| JsonUInt.Serialize | src/xqt-kotlinx-json-rpc/commonMain/xqt/kotlinx/rpc/json/serialization/types/JsonUInt.kt:15 | `serialize(v)` is an integer-kind primitive whose value is v, and `toUIntOrNull` reads its literal text back as v. |
| JsonUInt.Deserialize | src/xqt-kotlinx-json-rpc/commonMain/xqt/kotlinx/rpc/json/serialization/types/JsonUInt.kt:17-23 | Only an integer decodes. Any other node raises the kind error for itself, and a refused integer raises the range error for itself. |
| JsonUInt.RoundTrip | src/xqt-kotlinx-json-rpc/commonMain/xqt/kotlinx/rpc/json/serialization/types/JsonUInt.kt:15-20 | For every v in 0..2^32-1, `deserialize(serialize(v)) == v`. |
| JsonUInt.DecodeLiteral | src/xqt-kotlinx-json-rpc/commonMain/xqt/kotlinx/rpc/json/serialization/types/JsonUInt.kt:20 | An integer literal n decodes to exactly n when 0 <= n <= 2^32-1. Otherwise it raises "The value '<literal>' is out of range". |
| JsonUInt.RejectsOtherKinds | src/xqt-kotlinx-json-rpc/commonMain/xqt/kotlinx/rpc/json/serialization/types/JsonUInt.kt:17-21 | Arrays, objects, null, strings, booleans and decimals raise the `IllegalArgumentException` "Unsupported kind type '<kind>'". |
| JsonUInt.Outcomes | src/xqt-kotlinx-json-rpc/commonMain/xqt/kotlinx/rpc/json/serialization/types/JsonUInt.kt:17-23 | Each input has exactly one outcome: a value (iff an integer whose text `toUIntOrNull` accepts), the kind error (iff not an integer), or the range error (iff an integer whose text is refused). |
| JsonUInt.NegativeZeroIsOutOfRange | src/xqt-kotlinx-json-rpc/commonMain/xqt/kotlinx/rpc/json/serialization/types/JsonUInt.kt:20 | The literal "-0" raises "The value '-0' is out of range". |
| JsonIntOrNull.SerializeToJson | src/xqt-kotlinx-json-rpc/commonMain/xqt/kotlinx/rpc/json/serialization/types/Nullable.kt:13-16 | null becomes JSON null (and only null does); a number n becomes the integer primitive n, whose literal text `toIntOrNull` reads back as n. |
| JsonIntOrNull.Deserialize | src/xqt-kotlinx-json-rpc/commonMain/xqt/kotlinx/rpc/json/serialization/types/Nullable.kt:18-25 | Yields null iff the node is JSON null. A number comes only from an integer. Otherwise it raises the kind error or the range error for the node. |
| JsonIntOrNull.RoundTrip | src/xqt-kotlinx-json-rpc/commonMain/xqt/kotlinx/rpc/json/serialization/types/Nullable.kt:13-25 | For every `Int?` value x, `deserialize(serializeToJson(x)) == x`. |
| JsonIntOrNull.DecodeLiteral | src/xqt-kotlinx-json-rpc/commonMain/xqt/kotlinx/rpc/json/serialization/types/Nullable.kt:22 | An integer literal n decodes to n when -2^31 <= n <= 2^31-1. Otherwise it raises "The value '<literal>' is out of range". |
| JsonIntOrNull.RejectsOtherKinds | src/xqt-kotlinx-json-rpc/commonMain/xqt/kotlinx/rpc/json/serialization/types/Nullable.kt:18-23 | Arrays, objects, strings, booleans and decimals raise the `IllegalArgumentException` "Unsupported kind type '<kind>'". |
| JsonIntOrNull.Outcomes | src/xqt-kotlinx-json-rpc/commonMain/xqt/kotlinx/rpc/json/serialization/types/Nullable.kt:18-25 | Each input has exactly one outcome: a value (iff null, or an integer whose text `toIntOrNull` accepts), the kind error (iff neither null nor an integer), or the range error. |
| ErrorCodes.SerializeToJson | src/xqt-kotlinx-json-rpc/commonTest/xqt/kotlinx/rpc/json/test/protocol/ErrorCode.kt:18-28 | A code serializes to an integer primitive holding the code. |
| ErrorCodes.Deserialize | src/xqt-kotlinx-json-rpc/commonTest/xqt/kotlinx/rpc/json/test/protocol/ErrorCode.kt:32-69 | Decodes iff the node is an integer whose text `toIntOrNull` accepts, to that code. An integer it refuses raises the range error quoting the literal. Any other node raises the kind error naming its kind. |
| ErrorCodes.RoundTrip | src/xqt-kotlinx-json-rpc/commonTest/xqt/kotlinx/rpc/json/test/protocol/ErrorCode.kt:32-41 | Every code (a Kotlin `Int`) survives serialize-then-deserialize: its decimal text is read back by `toIntOrNull`. |
| ErrorCodes.ParseErrorText | src/xqt-kotlinx-json-rpc/commonTest/xqt/kotlinx/rpc/json/test/protocol/ErrorCode.kt:19 | ParseError is written "-32700". |
| ErrorCodes.RequestCodesText | src/xqt-kotlinx-json-rpc/commonTest/xqt/kotlinx/rpc/json/test/protocol/ErrorCode.kt:23-24 | MethodNotFound is written "-32601" and InvalidRequest "-32600". |
| ErrorCodes.CallCodesText | src/xqt-kotlinx-json-rpc/commonTest/xqt/kotlinx/rpc/json/test/protocol/ErrorCode.kt:21-22 | InternalError is written "-32603" and InvalidParams "-32602". |
| ErrorCodes.ServerErrorRangeText | src/xqt-kotlinx-json-rpc/commonTest/xqt/kotlinx/rpc/json/test/protocol/ErrorCode.kt:26-27 | The server-error range runs from "-32099" to "-32000". |
| ErrorCodes.RejectsOtherKinds | src/xqt-kotlinx-json-rpc/commonTest/xqt/kotlinx/rpc/json/test/protocol/ErrorCode.kt:46-69 | Every non-integer raises the `IllegalArgumentException` "Unsupported kind type '<kind>'". |
| ErrorCodes.ContainerKindMessages | src/xqt-kotlinx-json-rpc/commonTest/xqt/kotlinx/rpc/json/test/protocol/ErrorCode.kt:47-57 | The tested messages for an object, an array and null, verbatim. |
| ErrorCodes.PrimitiveKindMessages | src/xqt-kotlinx-json-rpc/commonTest/xqt/kotlinx/rpc/json/test/protocol/ErrorCode.kt:59-69 | The tested messages for a string, a boolean and a decimal, verbatim. |
| Channels.TestJsonRpcChannel.constructor | src/xqt-kotlinx-json-rpc/commonTest/xqt/kotlinx/rpc/json/test/protocol/TestJsonRpcChannel.kt:8-9 | A new channel has empty `input` and `output`. |
| Channels.TestJsonRpcChannel.Send | src/xqt-kotlinx-json-rpc/commonTest/xqt/kotlinx/rpc/json/test/protocol/TestJsonRpcChannel.kt:11-13 | `send(m)` appends m at the end of `output` and leaves `input` unchanged. |
| Channels.TestJsonRpcChannel.Receive | src/xqt-kotlinx-json-rpc/commonTest/xqt/kotlinx/rpc/json/test/protocol/TestJsonRpcChannel.kt:15 | On non-empty input it returns `input[0]` and leaves `input[1..]`. On empty input it returns null and changes nothing. `output` is untouched either way. |
| Channels.TestJsonRpcChannel.Close | src/xqt-kotlinx-json-rpc/commonTest/xqt/kotlinx/rpc/json/test/protocol/TestJsonRpcChannel.kt:17-18 | `close()` changes neither list. |
| Channels.FifoOrder | src/xqt-kotlinx-json-rpc/commonTest/xqt/kotlinx/rpc/json/test/protocol/TestJsonRpcChannel.kt:11-15 | Any values added to `input` come out of `receive` after what was already pending, in the order added, then null. Sending each one back leaves `output` with exactly those values in `send` order. |
| Protocol.RequestKeys | src/xqt-kotlinx-json-rpc/commonTest/xqt/kotlinx/rpc/json/test/protocol/RequestDsl.kt:389-435 | A sent request has exactly the keys jsonrpc, id and method, plus params only when there are parameters. |
| Protocol.RequestShape | src/xqt-kotlinx-json-rpc/commonTest/xqt/kotlinx/rpc/json/test/protocol/RequestDsl.kt:276-292 | A sent request's jsonrpc is "2.0", and its id and method read back as sent. |
| Protocol.RequestParams | src/xqt-kotlinx-json-rpc/commonTest/xqt/kotlinx/rpc/json/test/protocol/RequestDsl.kt:416-435 | A sent request's params read back as sent, and are absent when there are none. |
| Protocol.NotificationKeys | src/xqt-kotlinx-json-rpc/commonTest/xqt/kotlinx/rpc/json/test/protocol/RequestDsl.kt:213-246 | A sent notification has exactly the keys jsonrpc and method, plus params only when there are parameters. |
| Protocol.NotificationShape | src/xqt-kotlinx-json-rpc/commonTest/xqt/kotlinx/rpc/json/test/protocol/RequestDsl.kt:194-208 | A sent notification's jsonrpc is "2.0", its method reads back as sent, and it has no id. |
| Protocol.NotificationParams | src/xqt-kotlinx-json-rpc/commonTest/xqt/kotlinx/rpc/json/test/protocol/RequestDsl.kt:230-246 | A sent notification's params read back as sent, and are absent when there are none. |
| Dispatch.Units | src/xqt-kotlinx-json-rpc/commonMain/xqt/kotlinx/rpc/json/protocol/JsonRpcChannel.kt:34-47 | An object body is one message; an array body is its elements in order; any other body gives none. |
| Dispatch.Deliver | src/xqt-kotlinx-json-rpc/commonMain/xqt/kotlinx/rpc/json/protocol/JsonRpcChannel.kt:36-38 | A decode failure is returned with nothing sent. Otherwise the message, with its channel set to this channel, is handed to the handler, and `output` grows by exactly what the handler sends. |
| Dispatch.DeliverBatch | src/xqt-kotlinx-json-rpc/commonMain/xqt/kotlinx/rpc/json/protocol/JsonRpcChannel.kt:41-45 | The `forEach` over a batch does exactly what `HandleUnits` specifies for the elements: the messages delivered, the values sent, and the exception that stops the batch. `input` is untouched. |
| Dispatch.DeliverBody | src/xqt-kotlinx-json-rpc/commonMain/xqt/kotlinx/rpc/json/protocol/JsonRpcChannel.kt:34-48 | One received body does exactly what `HandleUnits` specifies for its messages. |
| Dispatch.Serve | src/xqt-kotlinx-json-rpc/commonMain/xqt/kotlinx/rpc/json/protocol/JsonRpcChannel.kt:33-49 | One turn of the loop. After a raise, the whole loop's result is complete. Otherwise what remains of the loop is `RunLoop` of the input still unread. |
| Dispatch.JsonRpc | src/xqt-kotlinx-json-rpc/commonMain/xqt/kotlinx/rpc/json/protocol/JsonRpcChannel.kt:31-51 | The loop terminates. The messages it hands to the handler, what it appends to `output`, what it leaves in `input` and how it ends are exactly `RunLoop` of the starting input. |
| Dispatch.RunLoopFirst | src/xqt-kotlinx-json-rpc/commonMain/xqt/kotlinx/rpc/json/protocol/JsonRpcChannel.kt:32-50 | The loop over a first body and the rest: the first body's messages and sends, then, unless it raised, the loop over the rest. |
| LoopProperties.HandleUnitsOrder | src/xqt-kotlinx-json-rpc/commonMain/xqt/kotlinx/rpc/json/protocol/JsonRpcChannel.kt:41-45 | Within a batch, the handler gets a prefix of the elements, decoded, in order and bound to the channel. The batch stops iff an element does not decode, at the first such element, with its exception. What is sent is what the handler sent, in call order. |
| LoopProperties.RunLoopOrder | src/xqt-kotlinx-json-rpc/commonMain/xqt/kotlinx/rpc/json/protocol/JsonRpcChannel.kt:32-50 | Across bodies, the handler gets a prefix of all messages, in receive order, decoded and bound to the channel. It gets all of them iff the loop drains. Otherwise the loop stops at the first message that does not decode, with that message's exception. |
| LoopProperties.RunLoopRest | src/xqt-kotlinx-json-rpc/commonMain/xqt/kotlinx/rpc/json/protocol/JsonRpcChannel.kt:32-50 | What the loop leaves in `input` is a suffix of the starting input. A drained loop leaves `input` empty. |
| LoopProperties.RunLoopSent | src/xqt-kotlinx-json-rpc/commonMain/xqt/kotlinx/rpc/json/protocol/JsonRpcChannel.kt:31-51 | The loop sends nothing of its own: `output` gains exactly the handler's sends, in call order. |
| LoopProperties.HandledOnChannel | src/xqt-kotlinx-json-rpc/commonMain/xqt/kotlinx/rpc/json/protocol/JsonRpcChannel.kt:37-43 | Every message handed to the handler has its channel set to the channel being read. |
| LoopProperties.CountUnitsIsLength | src/xqt-kotlinx-json-rpc/commonMain/xqt/kotlinx/rpc/json/protocol/JsonRpcChannel.kt:34-47 | The number of messages in the bodies is the number of objects plus the sum of the array lengths. |
| LoopProperties.AllDecodeDrains | src/xqt-kotlinx-json-rpc/commonMain/xqt/kotlinx/rpc/json/protocol/JsonRpcChannel.kt:32-50 | When every message decodes, the loop drains `input`. The handler then runs once per object plus once per array element, on exactly the decoded messages in receive order. |
| LoopProperties.SkipsOtherValues | src/xqt-kotlinx-json-rpc/commonMain/xqt/kotlinx/rpc/json/protocol/JsonRpcChannel.kt:47 | A body that is neither an object nor an array is skipped: no handler call, nothing sent, and the loop goes on. |
| LoopProperties.ObjectHandledOnce | src/xqt-kotlinx-json-rpc/commonMain/xqt/kotlinx/rpc/json/protocol/JsonRpcChannel.kt:35-39 | An object that decodes is handled exactly once, before the later bodies. |
| LoopProperties.HandleAllDecoded | src/xqt-kotlinx-json-rpc/commonMain/xqt/kotlinx/rpc/json/protocol/JsonRpcChannel.kt:41-45 | A batch whose elements all decode delivers every element, in order, and does not raise. |
| LoopProperties.ArrayHandledInOrder | src/xqt-kotlinx-json-rpc/commonMain/xqt/kotlinx/rpc/json/protocol/JsonRpcChannel.kt:41-45 | An array whose elements all decode runs the handler once per element, in array order, before the later bodies. |
| LoopProperties.SilentHandlerSendsNothing | src/xqt-kotlinx-json-rpc/commonTest/xqt/kotlinx/rpc/json/test/protocol/RequestDsl.kt:121-122 | With a handler that sends nothing, nothing is sent. |
| LoopProperties.CountCalls | src/xqt-kotlinx-json-rpc/commonTest/xqt/kotlinx/rpc/json/test/protocol/RequestDsl.kt:77-172 | The tests' counting handler on a fresh channel: it is called once per object plus once per array element, `input` is drained and `output` stays empty. |
| LoopProperties.SendsInCallOrder | src/xqt-kotlinx-json-rpc/commonTest/xqt/kotlinx/rpc/json/test/protocol/RequestDsl.kt:187-208 | One request whose handler sends two values: the handler runs once and `output` is exactly those two values, in send order. |

## Left out

- JSON text parsing and the parser's messages come from kotlinx.serialization.
  The model starts from a parsed JSON tree.
- The library's own `kindType` extension, whose source is not available, is
  not part of this model. A node's kind
  is its constructor: integer and decimal are separate constructors, and
  `content` is the literal text. Every integer literal, whatever its size, is
  taken to be of integer kind. The classifier calls a literal an integer only
  within the platform's integer range, and a decimal otherwise. So a literal
  outside that range raises the range error in the model
  (`JsonUInt.DecodeLiteral`, `JsonIntOrNull.DecodeLiteral`,
  `ErrorCodes.Deserialize`), where the program raises the 'decimal' kind
  error. `JsonUInt.RoundTrip` likewise assumes that range reaches 2^32-1.
- Decimal numbers are modelled by their kind and text only. There is no
  floating point.
- `JsonUInt.kt:20` matches `kindType` against the string "integer", while
  `Nullable.kt:22` matches `KindType.Integer`. Both are read as the integer
  kind.
- `NumberText.ToUIntOrNull`, `NumberText.ToIntOrNull`: only ASCII digits and
  an optional leading '+' (or '-' for `toIntOrNull`) are modelled. Kotlin's
  parsing also accepts other Unicode decimal digits.
- The "-0" literal: if the classifier passes it as an integer, `JsonUInt`
  raises the range error for it, because `toUIntOrNull` refuses a '-' sign.
  `NegativeZeroIsOutOfRange` states this. Whether the parser ever produces
  "-0" as an integer is outside this model.
- `unsupportedKindValue(json: JsonObject)` (`Errors.kt:71-73`) reads the
  "kind" member through `json.get(key, JsonString)`. That accessor is not part
  of this model, so only the string overload is modelled. The object overload
  raises the same family of error, with the member's string, when the object
  has a string "kind" member. Otherwise the outcome is whatever `get` raises,
  which is not modelled.
- `Message.deserialize` and the `RequestObject`, `ResponseObject`,
  `Notification` and `ErrorCode` implementations are not part of this model.
  The decoder is a parameter of the loop, and no field-validation order is
  modelled. `ErrorCodes.Deserialize` reads an integer the way `JsonIntOrNull`
  does, through `toIntOrNull`, and does not restrict the code to the
  reserved values.
- The handler is a pure function from a message to the values it sends.
  Other side effects, and exceptions the handler raises, are not modelled.
  Only decode exceptions stop the loop.
- `message.channel = this` sets a mutable field. In the model, `Message` is
  a value and the loop hands the handler a copy with its channel set
  (`Dispatch.Attach`), so aliasing of messages is not captured.
- `sendRequest` and `sendNotification` are modelled by the JSON objects they
  put on the channel (`Protocol.RequestJson`, `Protocol.NotificationJson`).
  Their key order is the tests' literal order, while the tests compare
  objects as maps.
- The ParseError, InvalidRequest and InternalError replies asserted in
  `ResponseDsl.kt` go through a client/server test harness that is not part
  of this model. The shown loop has no try/catch, so the model does not
  attribute error replies to it.
- `JsonRpcChannel` is an `expect` interface. Only the in-memory test channel
  is modelled. The platform channels and `io/BinaryOutputChannel.kt` are I/O.
- The build files (`build.gradle.kts`, `buildSrc`) have no behaviour.
