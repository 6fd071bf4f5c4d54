/**
 * The event model shared by the XML property-list reader, the XML
 * property-list writer and the serialization bridge: one `Event` per
 * plist primitive or container boundary, and the error kinds the codec
 * reports.
 */
module Plist {

  /** An unsigned octet of a data buffer. */
  newtype byte = x: int | 0 <= x < 0x100

  /** Rust's `i64`. */
  newtype i64 = x: int | -0x8000_0000_0000_0000 <= x < 0x8000_0000_0000_0000

  /** Rust's `u64`; also the width of the length hints. */
  newtype u64 = x: int | 0 <= x < 0x1_0000_0000_0000_0000

  datatype Option<T> = None | Some(value: T)

  /** A 64-bit float, carried as its IEEE-754 bit pattern; the model never interprets it. */
  datatype F64 = F64(bits: u64)

  /** A UTC instant, as whole seconds since the Unix epoch; the model never interprets it. */
  datatype Date = Date(seconds: int)

  /**
   * One token of the event stream. `StartPlist`/`EndPlist` wrap a whole
   * document; container starts carry an advisory length hint.
   */
  datatype Event =
    | StartPlist
    | EndPlist
    | StartArray(arrayLen: Option<u64>)
    | EndArray
    | StartDictionary(dictLen: Option<u64>)
    | EndDictionary
    | BooleanValue(boolean: bool)
    | DataValue(data: seq<byte>)
    | DateValue(date: Date)
    | IntegerValue(integer: i64)
    | RealValue(float: F64)
    | StringValue(text: string)

  /**
   * The error kinds of the codec: structural or content errors
   * (`InvalidData`), input that ends inside an open element
   * (`UnexpectedEof`) and a message raised through the generic
   * serialization protocol (`Serde`).
   */
  datatype Error = InvalidData | UnexpectedEof | Serde(message: string)

  datatype Result<T> = Ok(value: T) | Err(error: Error)

  /** True for the events a value consists of (everything but the document wrapper). */
  predicate IsValueEvent(e: Event)
  {
    !e.StartPlist? && !e.EndPlist?
  }

  /** The event with its length hint, if any, dropped: what a reader of the markup can recover. */
  function WithoutHint(e: Event): (r: Event)
    ensures r.StartArray? <==> e.StartArray?
    ensures r.StartDictionary? <==> e.StartDictionary?
    ensures r.StartArray? ==> r.arrayLen == None
    ensures r.StartDictionary? ==> r.dictLen == None
    ensures !e.StartArray? && !e.StartDictionary? ==> r == e
  {
    match e
    case StartArray(_) => StartArray(None)
    case StartDictionary(_) => StartDictionary(None)
    case _ => e
  }

  /** `WithoutHint` applied to every event of a stream, in order. */
  function WithoutHints(es: seq<Event>): (r: seq<Event>)
    ensures |r| == |es|
    ensures forall i :: 0 <= i < |es| ==> r[i] == WithoutHint(es[i])
  {
    if es == [] then [] else [WithoutHint(es[0])] + WithoutHints(es[1..])
  }

  lemma WithoutHintsAppend(a: seq<Event>, b: seq<Event>)
    ensures WithoutHints(a + b) == WithoutHints(a) + WithoutHints(b)
  {
  }
}
