# XML property-list codec: writer, reader and serialization bridge

This project models three cooperating parts of a codec for Apple's XML
property-list format, and proves properties of the model in Dafny.

- **The event writer** (`XmlWriter.EventWriter`, `writer.dfy`). It keeps a
  stack of frames (`Root`, `Array`, `Dictionary(ExpectKey | ExpectValue)`)
  and turns each plist event into calls of an XML emitter.
  - The emitter is an append-only log of `StartElement`, `EndElement` and
    `Characters` tokens.
  - The first value opens `<plist version="1.0">`. Inside a dictionary,
    keys and values alternate. `EndArray` must pop an array frame.
  - Once the single top-level value is complete, `</plist>` is emitted and
    the root is popped.
  - Each method of the class is proved to equal a pure step function
    (`Step`, `KeyStep`, `Dispatch`, `EndPlistStep`). The lemmas about
    those functions state what the writer promises.
- **The streaming reader** (`XmlReader.StreamingParser`, `reader.dfy`). It
  pulls tokens from a tokenizer, modelled as a token sequence with a
  cursor, and keeps a stack of open element names.
  - Each tag name maps to one event. Leaf elements read exactly one text
    token. End tags must match. The end of input with open elements is
    `UnexpectedEof`.
  - `Next` is the source's loop, proved equal to the pure `PullEvent`.
    `Drain` collects the events of a whole document.
- **The serialization bridge** (`Ser.Serializer`, `ser.dfy`). It turns a
  structured value (the `Value` datatype, one constructor per
  `serialize_*` entry point) into writer events.
  - Primitives are one event each. Sequences and maps keep their order
    and pass on their length hint.
  - `None`, `Some`, unit variants and newtype variants become
    single-key dictionaries.
  - Every `serialize_*` method is proved to equal running the writer on
    the pure `Encoding(v)`, stopping at the first error, whether that
    error comes from the writer or from the value itself.
- **Shared pieces.** `plist.dfy` holds the event model and error kinds.
  `decimal.dfy` holds the decimal text of 64-bit integers: Rust's
  `to_string` and `i64::from_str`.
- **The round trip** (`roundtrip.dfy`). Well-formed event streams are
  the flattenings of a `Tree`.
  - The writer accepts the events of every tree from an empty stack and
    emits a complete document.
  - That document, fed token for token to the reader, reads back as the
    same events, wrapped in `StartPlist`/`EndPlist` and with length hints
    gone. This holds whenever every text in it is non-empty and the text
    decoders undo the encoders.
  - Serialized values with string map keys are such trees.
  - The six-key test document of the writer and of the reader is worked
    through in full.

The base64, RFC 3339 and float text conversions are parameters: the
`Renderers` for writing and the `Parsers` for reading. The round-trip
lemmas require only what they need of them: each decoder undoes its
encoder on the values that occur, and the text is never empty.

The writer's `EndArray` arm (`src/xml/writer.rs:143-148`) calls
`end_element("array")` before it checks the popped frame. So an `EndArray`
under the root, or under a dictionary waiting for a value, emits a stray
`</array>` and only then reports `InvalidData`.
`XmlWriter.EndArrayMisplacedEmitsCloseTag` proves this: the output is then
no longer well nested.

## Model

| member | source | states |
|---|---|---|
| `XmlWriter.EventWriter.constructor` | src/xml/writer.rs:40-58 | a new writer has no frames and has emitted nothing, so it starts `Valid` |
| `XmlWriter.EventWriter.WriteStart` | src/xml/writer.rs:67-74 | `start_element` appends one start tag with no attributes and leaves the stack alone |
| `XmlWriter.EventWriter.WriteEnd` | src/xml/writer.rs:76-79 | `end_element` appends one end tag and leaves the stack alone |
| `XmlWriter.EventWriter.WriteValue` | src/xml/writer.rs:81-84 | `write_value` appends one character-data token |
| `XmlWriter.EventWriter.WriteElementAndValue` | src/xml/writer.rs:60-65 | appends start tag, text and end tag, in that order |
| `XmlWriter.EventWriter.Pop` | src/xml/writer.rs:104 | pops the top frame, or reports none on an empty stack, and emits nothing |
| `XmlWriter.EventWriter.MaybeEndPlist` | src/xml/writer.rs:86-95 | with one frame left, emits `</plist>` and pops it: `Ok` if it was the root, `InvalidData` otherwise; with any other number of frames, does nothing |
| `XmlWriter.EventWriter.DispatchEvent` | src/xml/writer.rs:138-181 | the new stack, log and result are those of `Dispatch`: containers open with a frame, `EndArray` emits `</array>` then needs an array frame, `EndDictionary` is `InvalidData`, a scalar emits its element |
| `XmlWriter.EventWriter.WriteAtKey` | src/xml/writer.rs:105-119 | under a dictionary waiting for a key: a string is a key and the frame waits for a value, `EndDictionary` closes the dictionary and checks for the root, anything else is `InvalidData` |
| `XmlWriter.EventWriter.Write` | src/xml/writer.rs:103-186 | one `write` takes the writer from its old state to exactly the outcome of `Step`; from a `Valid` writer the root stays at the bottom only, and a successful write keeps the frames equal to the elements the log leaves open |
| `XmlWriter.StepAtKey` | src/xml/writer.rs:105-119 | under a dictionary waiting for a key, a write is the key branch applied to the popped stack |
| `XmlWriter.StepReopens` | src/xml/writer.rs:120-135 | under any other frame, a write puts the frame back (a value-waiting dictionary flipped to wait for a key), dispatches, and then checks for the root unless dispatch failed |
| `XmlWriter.StepAppends` | src/xml/writer.rs:103-186 | a write only ever appends to the emitter's log |
| `XmlWriter.FirstWriteOpensDocument` | src/xml/writer.rs:124-135 | the first write emits `<plist version="1.0">` and then behaves exactly as a write with the root frame already pushed |
| `XmlWriter.SingleScalarDocument` | src/xml/writer.rs:156-183 | one scalar on a fresh writer succeeds, emits `<plist>`, the scalar's element and `</plist>`, and leaves no frame |
| `XmlWriter.ExpectKeyStep` | src/xml/writer.rs:105-119 | waiting for a key: a string emits a `key` element and the frame waits for a value; `EndDictionary` emits `</dict>` (and `</plist>` when only the root is left); anything else is `InvalidData` with nothing emitted |
| `XmlWriter.ExpectValueStep` | src/xml/writer.rs:120-154 | waiting for a value: the frame is flipped to wait for a key before dispatch, so a nested container is pushed above it and a scalar leaves it waiting for the next key; the end events are `InvalidData` |
| `XmlWriter.EndArrayNeedsArray` | src/xml/writer.rs:143-148 | `EndArray` succeeds if and only if the frame on top is an array; otherwise the error is `InvalidData` |
| `XmlWriter.EndDictionaryNeedsKeyPosition` | src/xml/writer.rs:111-116 | `EndDictionary` succeeds if and only if the frame on top is a dictionary waiting for a key; otherwise `InvalidData` |
| `XmlWriter.StepKeepsValid` | src/xml/writer.rs:86-135 | every write keeps the root at the bottom and nowhere else; after a successful write the stack is empty or the root under at least one container frame |
| `XmlWriter.RunKeepsValid` | src/xml/writer.rs:103-186 | the same holds after any stream of writes |
| `XmlWriter.RunAppend` | src/xml/writer.rs:103-186 | writing a concatenation is writing the first part, then, only if it succeeded, the second |
| `XmlWriter.StepMirrors` | src/xml/writer.rs:103-186 | after a successful write the frames are exactly the elements the log leaves open: root to `plist`, array to `array`, dictionary to `dict` |
| `XmlWriter.KeyStepMirrors` | src/xml/writer.rs:105-119 | the key branch pushes and pops frames together with their tags |
| `XmlWriter.ValueStepMirrors` | src/xml/writer.rs:120-154 | reopening and dispatch push and pop frames together with their tags |
| `XmlWriter.DispatchMirrors` | src/xml/writer.rs:138-181 | each dispatch arm keeps frames and open tags in step |
| `XmlWriter.EndPlistMirrors` | src/xml/writer.rs:86-95 | closing the root pops the `plist` frame with its end tag |
| `XmlWriter.RunMirrors` | src/xml/writer.rs:103-186 | frames and log stay in step over any stream of successful writes |
| `XmlWriter.ScalarIsClosed` | src/xml/writer.rs:156-180 | a scalar's element opens and closes itself, leaving the open elements as they were |
| `XmlWriter.LeafIsClosed` | src/xml/writer.rs:60-65 | an element written with its text leaves the open elements as they were |
| `XmlWriter.EndArrayMisplacedEmitsCloseTag` | src/xml/writer.rs:143-148 | `EndArray` under neither an array nor a key-waiting dictionary is `InvalidData`, but `</array>` has been emitted first and the log is no longer well nested |
| `XmlWriter.EndArrayMisplacedInside` | src/xml/writer.rs:143-148 | the same inside an open document: exactly one stray `</array>` is appended |
| `Decimal.IntToStringRoundTrip` | src/xml/reader.rs:66-71 | parsing the decimal text the writer emits for any `i64` gives that integer back |
| `Decimal.IntToStringOutOfRange` | src/xml/reader.rs:66-71 | the decimal text of an integer outside the `i64` range fails to parse |
| `Decimal.IntToStringNonEmpty` | src/xml/writer.rs:172-174 | the writer's integer text is never empty |
| `Decimal.NatToStringDigits` | src/xml/writer.rs:172-174 | the digits of a natural number are non-empty decimal digits denoting that number |
| `Decimal.ParseI64Examples` | src/xml/reader.rs:66-71 | empty text, a bare sign and a stray character are refused; a `+` sign and leading zeros are accepted |
| `Plist.WithoutHint` | src/xml/reader.rs:51-52 | dropping a length hint keeps the kind of the event, makes container hints `None` and changes nothing else |
| `Plist.WithoutHints` | src/xml/reader.rs:51-52 | the same for every event of a stream, position by position |
| `XmlReader.PullEvent` | src/xml/reader.rs:42-106 | one `next` never consumes more than the input; it consumes at least one token when it yields an event |
| `XmlReader.StreamingParser.constructor` | src/xml/reader.rs:16-29 | a new reader has the whole input ahead of it and no open element |
| `XmlReader.StreamingParser.NextToken` | src/xml/reader.rs:44 | the tokenizer delivers its next token, or the end of the document when exhausted |
| `XmlReader.StreamingParser.ReadContent` | src/xml/reader.rs:31-36 | the next token must be character data, which the decoder turns into the result; anything else is `InvalidData` |
| `XmlReader.StreamingParser.PopName` | src/xml/reader.rs:84 | pops the innermost open name, or reports none on an empty stack |
| `XmlReader.StreamingParser.StartTag` | src/xml/reader.rs:49-80 | the start-tag arm yields the event, error and remaining input of `PullEvent`, with the name pushed |
| `XmlReader.StreamingParser.Next` | src/xml/reader.rs:42-106 | the loop yields exactly the item, remaining input and element stack of `PullEvent` |
| `XmlReader.StartTagIsPushed` | src/xml/reader.rs:45-47 | every start tag, known or not, pushes its name; an unknown name is `InvalidData` |
| `XmlReader.ContainerStartTags` | src/xml/reader.rs:50-52 | `plist`, `array` and `dict` yield `StartPlist`, `StartArray(None)` and `StartDictionary(None)` and read nothing more |
| `XmlReader.BooleanTags` | src/xml/reader.rs:54-55 | `true` and `false` yield booleans without reading content |
| `XmlReader.TextTags` | src/xml/reader.rs:53 | `key` and `string` consume exactly one more token: character data yields that string, anything else (or the end of input) is `InvalidData` |
| `XmlReader.DecodedContent` | src/xml/reader.rs:56-77 | `integer`, `data` and `real` content that does not decode is `InvalidData`; a `date` reports its parser's own error |
| `XmlReader.EndTagMismatch` | src/xml/reader.rs:84-88 | an end tag with nothing open, or not closing the innermost element, is `InvalidData` |
| `XmlReader.MatchingEndTag` | src/xml/reader.rs:90-95 | a matching end tag pops its name; `array`, `dict` and `plist` yield their end events, other names are passed over |
| `XmlReader.EndOfDocument` | src/xml/reader.rs:97-103 | the end of input ends the stream if and only if nothing is open, and is `UnexpectedEof` otherwise; other tokens and stray text are skipped |
| `Ser.FromSerde` | src/ser.rs:8-16 | `custom` becomes a `Serde` error with the same message; `invalid_value`, and only it, becomes `InvalidData` |
| `Ser.AsI64` | src/ser.rs:62-64 | the cast keeps the value modulo 2^64 and is non-negative if and only if the value is below 2^63 |
| `Ser.AsI64Recovers` | src/ser.rs:62-64 | the original `u64` is the residue of the result modulo 2^64 |
| `Ser.AsI64Onto` | src/ser.rs:62-64 | every `i64` is the cast of some `u64` |
| `Ser.Then` | src/ser.rs:43-46 | joining two serialization steps keeps every event a value event |
| `Ser.Encoding` | src/ser.rs:51-161 | what a value emits consists of value events only, so the writer can be given it |
| `Ser.Serializer.constructor` | src/ser.rs:23-25 | the serializer owns the given writer |
| `Ser.Serializer.IntoInner` | src/ser.rs:32-34 | gives back the writer it owns |
| `Ser.Serializer.Emit` | src/ser.rs:28-30 | one event is one writer step |
| `Ser.Serializer.SingleKeyDict` | src/ser.rs:36-48 | emits `StartDictionary(Some(1))`, the key, the payload and `EndDictionary`, stopping at the first error |
| `Ser.Serializer.SerializeBool` | src/ser.rs:54-56 | the writer's outcome on `BooleanValue(v)` |
| `Ser.Serializer.SerializeI64` | src/ser.rs:58-60 | the writer's outcome on `IntegerValue(v)` |
| `Ser.Serializer.SerializeU64` | src/ser.rs:62-64 | the writer's outcome on `IntegerValue(v as i64)` |
| `Ser.Serializer.SerializeF64` | src/ser.rs:66-68 | the writer's outcome on `RealValue(v)` |
| `Ser.Serializer.SerializeStr` | src/ser.rs:70-72 | the writer's outcome on `StringValue(value)` |
| `Ser.Serializer.SerializeBytes` | src/ser.rs:74-76 | the writer's outcome on `DataValue(value)` |
| `Ser.Serializer.SerializeUnit` | src/ser.rs:78-81 | the writer's outcome on the empty string |
| `Ser.Serializer.SerializeNone` | src/ser.rs:83-85 | the writer's outcome on `{"None": ""}` |
| `Ser.Serializer.SerializeSome` | src/ser.rs:87-91 | the writer's outcome on `{"Some": v}` |
| `Ser.Serializer.SerializeSeq` | src/ser.rs:93-106 | the loop hands the writer `StartArray(hint)`, each element in visit order and `EndArray`, stopping at the first error |
| `Ser.Serializer.SerializeSeqElt` | src/ser.rs:108-112 | an element is serialized in place |
| `Ser.Serializer.SerializeMap` | src/ser.rs:114-127 | the loop hands the writer `StartDictionary(hint)`, each entry in visit order and `EndDictionary`, stopping at the first error |
| `Ser.Serializer.SerializeMapElt` | src/ser.rs:129-136 | the key, then, only if that succeeded, the value |
| `Ser.Serializer.SerializeUnitVariant` | src/ser.rs:138-144 | the writer's outcome on `{variant: ""}` |
| `Ser.Serializer.SerializeNewtypeStruct` | src/ser.rs:146-150 | the writer's outcome on the wrapped value alone |
| `Ser.Serializer.SerializeNewtypeVariant` | src/ser.rs:152-161 | the writer's outcome on `{variant: payload}` |
| `Ser.Serializer.Serialize` | src/ser.rs:51-161 | any value: the writer's outcome on its encoding, with an error the value raises itself reported after the events before it |
| `Ser.ExecThen` | src/ser.rs:43-46 | the first error, from the writer or raised, aborts every later step |
| `Ser.ExecSucceeds` | src/ser.rs:43-46 | a successful serialization raised nothing and wrote every event of its encoding |
| `Ser.FailingRaises` | src/ser.rs:8-16 | a value raising its own error leaves the writer untouched and reports `Serde(msg)` or `InvalidData` |
| `Ser.SingleKeyShape` | src/ser.rs:36-48 | the single-key dictionary's events: hint one, the key, the payload, the end (cut short after a raised error) |
| `Ser.NoneEncoding` | src/ser.rs:83-85 | `None` emits exactly `StartDictionary(Some(1))`, `"None"`, `""`, `EndDictionary` |
| `Ser.SomeEncoding` | src/ser.rs:87-91 | `Some(v)` emits `StartDictionary(Some(1))`, `"Some"`, the events of `v`, `EndDictionary` |
| `Ser.VariantEncodings` | src/ser.rs:138-161 | a unit variant is `{variant: ""}`, a newtype variant `{variant: payload}`, a newtype struct just its payload |
| `Ser.ContainerEncodings` | src/ser.rs:93-127 | a sequence or map emits its start event with the visitor's hint, its contents and its end event |
| `Ser.SeqEncodingAppend` | src/ser.rs:98-103 | elements contribute their events in visit order |
| `Ser.EntriesEncodingAppend` | src/ser.rs:119-124 | entries contribute their events in visit order |
| `Ser.EntriesEncodingSingleton` | src/ser.rs:129-136 | one entry contributes the key's events followed by the value's |
| `Ser.FaultFreeNoRaise` | src/ser.rs:8-16 | a value raises nothing if and only if no part of it fails |
| `Ser.FirstEventOpens` | src/ser.rs:51-161 | the first event a value emits opens a container or is a scalar |
| `Ser.NonStringKeyRejected` | src/ser.rs:129-136 | a map key whose first event is not a string is refused by the writer with `InvalidData` |
| `RoundTrip.EventsAreValueEvents` | src/xml/writer.rs:138-181 | a tree's events never include the document wrapper events |
| `RoundTrip.HintFreeEvents` | src/xml/reader.rs:51-52 | dropping hints changes nothing in the events of a tree without hints |
| `RoundTrip.WriteTree` | src/xml/writer.rs:103-186 | at any value position a tree's events are accepted, its tokens emitted, the frames restored (parent waiting for its next key) and the document closed at the root |
| `RoundTrip.WriteArray` | src/xml/writer.rs:139-148 | the same for an array: `<array>`, its items, `</array>` |
| `RoundTrip.WriteDict` | src/xml/writer.rs:105-152 | the same for a dictionary: `<dict>`, keys and values alternating, `</dict>` |
| `RoundTrip.WriteItems` | src/xml/writer.rs:123 | the items of an array are written one after another under the array frame |
| `RoundTrip.WritePairs` | src/xml/writer.rs:105-122 | the entries of a dictionary are written one after another, each leaving it waiting for a key |
| `RoundTrip.WritePair` | src/xml/writer.rs:105-122 | a key then its value, with the frame waiting for a value in between |
| `RoundTrip.WriteDocument` | src/xml/writer.rs:124-135 | from no open document, a tree's events are accepted and emitted as one complete `plist` document, leaving no frame |
| `RoundTrip.ReadTree` | src/xml/reader.rs:42-106 | the tokens of a readable tree read as its events without hints, with the open names unchanged |
| `RoundTrip.ReadArray` | src/xml/reader.rs:51-91 | an array's tokens read as `StartArray(None)`, its items' events, `EndArray` |
| `RoundTrip.ReadDict` | src/xml/reader.rs:52-92 | a dictionary's tokens read as `StartDictionary(None)`, its entries' events, `EndDictionary` |
| `RoundTrip.ReadScalar` | src/xml/reader.rs:53-78 | a scalar's element reads back as that scalar when its text decodes to it |
| `RoundTrip.ReadPair` | src/xml/reader.rs:53 | a `key` element reads as its string, then the value follows |
| `RoundTrip.ReadDocument` | src/xml/reader.rs:50-93 | a document around a readable tree reads as `StartPlist`, the tree's events without hints, `EndPlist`, and then ends |
| `RoundTrip.WriteThenRead` | src/xml/writer.rs:103-186 | what a fresh writer emits for a readable tree is accepted and reads back as the same events, hints dropped, between `StartPlist` and `EndPlist` |
| `RoundTrip.EmptyStringWritten` | src/xml/writer.rs:178-180 | an empty string is written without complaint, as a `string` element with empty text |
| `RoundTrip.EmptyStringRejected` | src/xml/reader.rs:31-36 | reading that document back fails with `InvalidData`, because no text token follows `<string>` |
| `RoundTrip.EncodingIsTree` | src/ser.rs:51-161 | a value with string keys that raises nothing emits exactly the events of a well-formed tree |
| `RoundTrip.SerializedDocument` | src/ser.rs:51-161 | such a value is accepted by a writer with no open document and emitted as one complete document |
| `RoundTrip.SerializedRoundTrip` | src/ser.rs:51-161 | such a value, when readable, reads back as its events without hints between `StartPlist` and `EndPlist` |
| `RoundTrip.NoneDoesNotReadBack` | src/ser.rs:78-85 | `None` is written as `{"None": ""}`, whose empty string cannot be read back |
| `RoundTrip.TestTreeEvents` | src/xml/writer.rs:200-216 | the test's event list is the flattening of the six-key test tree |
| `RoundTrip.TestPairsXml` | src/xml/writer.rs:228-247 | each entry of the test document is written as the expected markup |
| `RoundTrip.WriterTestDocument` | src/xml/writer.rs:196-252 | writing the test's events to a fresh writer succeeds and emits the expected markup, given the test's renderings of the real, data and date |
| `RoundTrip.TestTreeReadable` | src/xml/reader.rs:118-149 | every key and value of the test document reads back under matching parsers |
| `RoundTrip.TestEventsUnhinted` | src/xml/reader.rs:126-146 | the test events carry no hints, so the reader recovers them exactly |
| `RoundTrip.ReaderTestDocument` | src/xml/reader.rs:118-149 | the test markup reads as exactly the reader test's events: `StartPlist`, the six entries, `EndPlist` |

## Left out

- The XML emitter and tokenizer themselves are not modelled. That covers indentation, escaping, the XML declaration, self-closing empty elements, whitespace handling and the `EmitterConfig`/`ParserConfig` values (src/xml/writer.rs:41-51, src/xml/reader.rs:17-23). Both are token streams here.
- The transport between them is not modelled either. `Transport` assumes the tokenizer reports each start tag, end tag and non-empty text, and reports no zero-length text.
- The whitespace between elements of a real file is not modelled. It would reach the reader as text tokens, which it skips (`XmlReader.EndOfDocument` states the skip).
- `tests/data/xml.plist` is not part of this model. `RoundTrip.ReaderTestDocument` reads the writer test's markup in its place, which has the same elements.
- Base64 (MIME line wrapping), RFC 3339 formatting and parsing with the UTC conversion, and float text in both directions are parameters (`Renderers`, `Parsers`), not definitions. They are third-party code.
- A float is an uninterpreted bit pattern and a date an uninterpreted second count.
- The conversion of a date parse error into the codec's error type lives outside these files; the date parser parameter returns the final error itself.
- I/O errors are not modelled: `From<XmlWriterError>` (src/xml/writer.rs:12-19) and the emitter's write failures. The emitter here never fails, so every `try!` around an emitter call succeeds.
- `StartPlist` and `EndPlist` are never given to the writer: `IsValueEvent` is a precondition. The source has no arm for them.
- The serde trait machinery is replaced by the `Value` datatype. That covers `Serialize` impls and the `SeqVisitor`/`MapVisitor` traits. A visitor's reported length is the hint stored in the value.
- Tuple and struct variants (src/ser.rs:163-185) are left out. They call trait default methods whose bodies are not part of this model.
- The tokenizer's own errors (malformed XML) are not modelled. Every token it does not report as a tag, text or the end of the document is `Other`, which the reader skips. The reader's loop ends on malformed input only because the token sequence is finite and such an error is one `Other` token; a tokenizer that kept repeating its final error would make the source's `next` loop forever, and the model does not capture that.
