/**
 * The bridge from the generic serialization protocol to the event
 * writer. A structured value is turned into writer events: primitives
 * one event each, sequences and maps between their start and end events
 * in visit order, and `None`, `Some`, unit variants and newtype variants
 * as dictionaries with a single key naming them.
 *
 * The protocol's `Serialize` implementations are modelled by the
 * `Value` datatype: a value says which `serialize_*` method its
 * implementation calls, and `Failing` is an implementation that raises
 * an error of its own instead of emitting anything.
 */
module Ser {
  import opened Plist
  import XmlWriter

  /** The two ways a `Serialize` implementation can raise an error itself. */
  datatype SerdeFailure = Custom(message: string) | InvalidValue(description: string)

  /** The serializer's error constructors: `custom` keeps its message, `invalid_value` is a data error. */
  function FromSerde(f: SerdeFailure): (e: Error)
    ensures e.Serde? <==> f.Custom?
    ensures f.Custom? ==> e.message == f.message
    ensures e == InvalidData <==> f.InvalidValue?
  {
    match f
    case Custom(message) => Serde(message)
    case InvalidValue(_) => InvalidData
  }

  const TwoTo63: int := 0x8000_0000_0000_0000
  const TwoTo64: int := 0x1_0000_0000_0000_0000

  /** Rust's `v as i64` on a `u64`: the same 64 bits read in two's complement. */
  function AsI64(u: u64): (r: i64)
    ensures (r as int - u as int) % TwoTo64 == 0
    ensures r >= 0 <==> (u as int) < TwoTo63
  {
    if (u as int) < TwoTo63 then u as int as i64 else (u as int - TwoTo64) as i64
  }

  /** The cast loses nothing: the original is the residue of the result modulo 2^64. */
  lemma AsI64Recovers(u: u64)
    ensures (AsI64(u) as int) % TwoTo64 == u as int
  {
  }

  /** Every `i64` is the cast of exactly one `u64`. */
  lemma AsI64Onto(i: i64)
    ensures AsI64(((i as int) % TwoTo64) as u64) == i
  {
  }

  /**
   * A value as its `Serialize` implementation presents it. Length
   * hints are whatever the value's visitor reports, and need not match
   * the number of elements.
   */
  datatype Value =
    | Bool(b: bool)
    | I64(i: i64)
    | U64(u: u64)
    | Float(x: F64)
    | Str(s: string)
    | Bytes(bytes: seq<byte>)
    | Unit
    | Absent
    | Present(some: Value)
    | Seq(seqLen: Option<u64>, elems: seq<Value>)
    | Map(mapLen: Option<u64>, entries: seq<Entry>)
    | UnitVariant(variant: string)
    | NewtypeStruct(wrapped: Value)
    | NewtypeVariant(variant: string, payload: Value)
    | Failing(failure: SerdeFailure)

  /** One key-value pair a map visitor hands over. */
  datatype Entry = Entry(key: Value, value: Value)

  /** A measure that shrinks from a value to every value it serializes through. */
  function Size(v: Value): (n: nat)
    ensures n >= 1
  {
    match v
    case Absent => 2
    case UnitVariant(_) => 2
    case Present(x) => Size(x) + 1
    case Seq(_, xs) => 1 + SizeSeq(xs)
    case Map(_, es) => 1 + SizeEntries(es)
    case NewtypeStruct(x) => Size(x) + 1
    case NewtypeVariant(_, x) => Size(x) + 1
    case _ => 1
  }

  function SizeSeq(xs: seq<Value>): nat
  {
    if xs == [] then 0 else Size(xs[0]) + SizeSeq(xs[1..])
  }

  function SizeEntry(e: Entry): nat
  {
    Size(e.key) + Size(e.value)
  }

  function SizeEntries(es: seq<Entry>): nat
  {
    if es == [] then 0 else SizeEntry(es[0]) + SizeEntries(es[1..])
  }

  lemma {:induction false} SizeSeqElement(xs: seq<Value>, i: nat)
    requires i < |xs|
    ensures Size(xs[i]) <= SizeSeq(xs)
    decreases i
  {
    if i > 0 {
      SizeSeqElement(xs[1..], i - 1);
    }
  }

  lemma {:induction false} SizeEntriesElement(es: seq<Entry>, i: nat)
    requires i < |es|
    ensures SizeEntry(es[i]) <= SizeEntries(es)
    decreases i
  {
    if i > 0 {
      SizeEntriesElement(es[1..], i - 1);
    }
  }

  // ---------------------------------------------------------------------
  // What serializing a value asks of the writer
  // ---------------------------------------------------------------------

  /**
   * The events a serialization hands to the writer, in order, and the
   * error a `Serialize` implementation raised after them, if any.
   */
  datatype Emitted = Emitted(events: seq<Event>, raised: Option<Error>)

  function Single(e: Event): Emitted
  {
    Emitted([e], None)
  }

  /** One serialization step after another: nothing runs after a raised error. */
  function Then(a: Emitted, b: Emitted): (r: Emitted)
    ensures XmlWriter.AllValueEvents(a.events) && XmlWriter.AllValueEvents(b.events) ==> XmlWriter.AllValueEvents(r.events)
  {
    if a.raised.Some? then a
    else
      var events := a.events + b.events;
      assert forall i :: 0 <= i < |events| ==> events[i] == if i < |a.events| then a.events[i] else b.events[i - |a.events|];
      Emitted(events, b.raised)
  }

  /** `serialize_unit`: the empty string. */
  function UnitEncoding(): Emitted
  {
    Single(StringValue(""))
  }

  /** `single_key_dict`: a dictionary announced with one entry, the key, the payload, the end. */
  function SingleKeyEncoding(key: string, payload: Emitted): Emitted
  {
    Then(Single(StartDictionary(Some(1))), Then(Single(StringValue(key)), Then(payload, Single(EndDictionary))))
  }

  /** What serializing `v` emits and raises. */
  function Encoding(v: Value): (r: Emitted)
    ensures XmlWriter.AllValueEvents(r.events)
  {
    match v
    case Bool(b) => Single(BooleanValue(b))
    case I64(i) => Single(IntegerValue(i))
    case U64(u) => Single(IntegerValue(AsI64(u)))
    case Float(x) => Single(RealValue(x))
    case Str(s) => Single(StringValue(s))
    case Bytes(b) => Single(DataValue(b))
    case Unit => UnitEncoding()
    case Absent => SingleKeyEncoding("None", UnitEncoding())
    case Present(x) => SingleKeyEncoding("Some", Encoding(x))
    case Seq(len, xs) => Then(Single(StartArray(len)), Then(SeqEncoding(xs), Single(EndArray)))
    case Map(len, es) => Then(Single(StartDictionary(len)), Then(EntriesEncoding(es), Single(EndDictionary)))
    case UnitVariant(variant) => SingleKeyEncoding(variant, UnitEncoding())
    case NewtypeStruct(x) => Encoding(x)
    case NewtypeVariant(variant, x) => SingleKeyEncoding(variant, Encoding(x))
    case Failing(f) => Emitted([], Some(FromSerde(f)))
  }

  /** The elements of a sequence, one after the other in visit order. */
  function SeqEncoding(xs: seq<Value>): (r: Emitted)
    ensures XmlWriter.AllValueEvents(r.events)
  {
    if xs == [] then Emitted([], None) else Then(Encoding(xs[0]), SeqEncoding(xs[1..]))
  }

  /** `serialize_map_elt`: the key, then the value. */
  function EntryEncoding(e: Entry): (r: Emitted)
    ensures XmlWriter.AllValueEvents(r.events)
  {
    Then(Encoding(e.key), Encoding(e.value))
  }

  /** The entries of a map, one after the other in visit order. */
  function EntriesEncoding(es: seq<Entry>): (r: Emitted)
    ensures XmlWriter.AllValueEvents(r.events)
  {
    if es == [] then Emitted([], None) else Then(EntryEncoding(es[0]), EntriesEncoding(es[1..]))
  }

  /**
   * Handing the events to the writer one by one, stopping at the first
   * error the writer reports; a raised error is reported once the events
   * before it have been written.
   */
  function Exec(c: XmlWriter.Renderers, s: XmlWriter.WriterState, em: Emitted): XmlWriter.Outcome
    requires XmlWriter.AllValueEvents(em.events)
  {
    var o := XmlWriter.Run(c, s, em.events);
    if o.result.Err? || em.raised.None? then o else XmlWriter.Outcome(Err(em.raised.value), o.state)
  }

  /** A value that raises no error of its own anywhere inside it. */
  predicate FaultFree(v: Value)
  {
    match v
    case Failing(_) => false
    case Present(x) => FaultFree(x)
    case Seq(_, xs) => forall i :: 0 <= i < |xs| ==> FaultFree(xs[i])
    case Map(_, es) => forall i :: 0 <= i < |es| ==> FaultFree(es[i].key) && FaultFree(es[i].value)
    case NewtypeStruct(x) => FaultFree(x)
    case NewtypeVariant(_, x) => FaultFree(x)
    case _ => true
  }

  // ---------------------------------------------------------------------
  // The serializer
  // ---------------------------------------------------------------------

  /** The serializer, owning the event writer it emits to. */
  class Serializer {
    const writer: XmlWriter.EventWriter

    /** `Serializer::new`. */
    constructor (writer: XmlWriter.EventWriter)
      ensures this.writer == writer
    {
      this.writer := writer;
    }

    /** `into_inner`: the writer back, in whatever state serialization left it. */
    method IntoInner() returns (w: XmlWriter.EventWriter)
      ensures w == writer
    {
      w := writer;
    }

    /** `emit`: one event to the writer. */
    method Emit(e: Event) returns (r: Result<()>)
      requires IsValueEvent(e)
      modifies writer
      ensures XmlWriter.Outcome(r, writer.State()) == Exec(writer.renderers, old(writer.State()), Single(e))
    {
      ghost var s0 := writer.State();
      r := writer.Write(e);
      ExecSingle(writer.renderers, s0, e);
    }

    /** `single_key_dict`, with the payload serialized by `value_fn`. */
    method SingleKeyDict(key: string, payload: Value) returns (r: Result<()>)
      modifies writer
      ensures XmlWriter.Outcome(r, writer.State()) == Exec(writer.renderers, old(writer.State()), SingleKeyEncoding(key, Encoding(payload)))
      decreases Size(payload) + 1, 0
    {
      ghost var c := writer.renderers;
      ghost var afterKey := Then(Encoding(payload), Single(EndDictionary));
      ghost var afterStart := Then(Single(StringValue(key)), afterKey);
      ExecThen(c, writer.State(), Single(StartDictionary(Some(1))), afterStart);
      r := Emit(StartDictionary(Some(1)));
      if r.Err? {
        return;
      }
      ExecThen(c, writer.State(), Single(StringValue(key)), afterKey);
      r := Emit(StringValue(key));
      if r.Err? {
        return;
      }
      ExecThen(c, writer.State(), Encoding(payload), Single(EndDictionary));
      r := Serialize(payload);
      if r.Err? {
        return;
      }
      r := Emit(EndDictionary);
    }

    method SerializeBool(v: bool) returns (r: Result<()>)
      modifies writer
      ensures XmlWriter.Outcome(r, writer.State()) == Exec(writer.renderers, old(writer.State()), Encoding(Bool(v)))
    {
      r := Emit(BooleanValue(v));
    }

    method SerializeI64(v: i64) returns (r: Result<()>)
      modifies writer
      ensures XmlWriter.Outcome(r, writer.State()) == Exec(writer.renderers, old(writer.State()), Encoding(I64(v)))
    {
      r := Emit(IntegerValue(v));
    }

    method SerializeU64(v: u64) returns (r: Result<()>)
      modifies writer
      ensures XmlWriter.Outcome(r, writer.State()) == Exec(writer.renderers, old(writer.State()), Encoding(U64(v)))
    {
      r := Emit(IntegerValue(AsI64(v)));
    }

    method SerializeF64(v: F64) returns (r: Result<()>)
      modifies writer
      ensures XmlWriter.Outcome(r, writer.State()) == Exec(writer.renderers, old(writer.State()), Encoding(Float(v)))
    {
      r := Emit(RealValue(v));
    }

    method SerializeStr(value: string) returns (r: Result<()>)
      modifies writer
      ensures XmlWriter.Outcome(r, writer.State()) == Exec(writer.renderers, old(writer.State()), Encoding(Str(value)))
    {
      r := Emit(StringValue(value));
    }

    method SerializeBytes(value: seq<byte>) returns (r: Result<()>)
      modifies writer
      ensures XmlWriter.Outcome(r, writer.State()) == Exec(writer.renderers, old(writer.State()), Encoding(Bytes(value)))
    {
      r := Emit(DataValue(value));
    }

    method SerializeUnit() returns (r: Result<()>)
      modifies writer
      ensures XmlWriter.Outcome(r, writer.State()) == Exec(writer.renderers, old(writer.State()), Encoding(Unit))
    {
      r := Emit(StringValue(""));
    }

    method SerializeNone() returns (r: Result<()>)
      modifies writer
      ensures XmlWriter.Outcome(r, writer.State()) == Exec(writer.renderers, old(writer.State()), Encoding(Absent))
      decreases 2, 1
    {
      r := SingleKeyDict("None", Unit);
    }

    method SerializeSome(value: Value) returns (r: Result<()>)
      modifies writer
      ensures XmlWriter.Outcome(r, writer.State()) == Exec(writer.renderers, old(writer.State()), Encoding(Present(value)))
      decreases Size(value) + 1, 1
    {
      r := SingleKeyDict("Some", value);
    }

    /** `serialize_seq`: the visitor's elements between `StartArray` and `EndArray`. */
    method SerializeSeq(len: Option<u64>, elems: seq<Value>) returns (r: Result<()>)
      modifies writer
      ensures XmlWriter.Outcome(r, writer.State()) == Exec(writer.renderers, old(writer.State()), Encoding(Seq(len, elems)))
      decreases 1 + SizeSeq(elems), 1
    {
      ghost var c := writer.renderers;
      ghost var whole := Encoding(Seq(len, elems));
      ghost var s0 := writer.State();
      ExecThen(c, s0, Single(StartArray(len)), Then(SeqEncoding(elems), Single(EndArray)));
      r := Emit(StartArray(len));
      if r.Err? {
        return;
      }
      assert elems[0..] == elems;
      var i := 0;
      while i < |elems|
        invariant 0 <= i <= |elems|
        invariant Exec(c, s0, whole) == Exec(c, writer.State(), Then(SeqEncoding(elems[i..]), Single(EndArray)))
      {
        SizeSeqElement(elems, i);
        assert elems[i..][1..] == elems[i + 1..];
        ThenAssoc(Encoding(elems[i]), SeqEncoding(elems[i + 1..]), Single(EndArray));
        ExecThen(c, writer.State(), Encoding(elems[i]), Then(SeqEncoding(elems[i + 1..]), Single(EndArray)));
        r := SerializeSeqElt(elems[i]);
        if r.Err? {
          return;
        }
        i := i + 1;
      }
      assert elems[i..] == [];
      assert Then(SeqEncoding([]), Single(EndArray)) == Single(EndArray);
      r := Emit(EndArray);
    }

    /** `serialize_seq_elt`: one element, serialized in place. */
    method SerializeSeqElt(value: Value) returns (r: Result<()>)
      modifies writer
      ensures XmlWriter.Outcome(r, writer.State()) == Exec(writer.renderers, old(writer.State()), Encoding(value))
      decreases Size(value), 3
    {
      r := Serialize(value);
    }

    /** `serialize_map`: the visitor's entries between `StartDictionary` and `EndDictionary`. */
    method SerializeMap(len: Option<u64>, entries: seq<Entry>) returns (r: Result<()>)
      modifies writer
      ensures XmlWriter.Outcome(r, writer.State()) == Exec(writer.renderers, old(writer.State()), Encoding(Map(len, entries)))
      decreases 1 + SizeEntries(entries), 1
    {
      ghost var c := writer.renderers;
      ghost var whole := Encoding(Map(len, entries));
      ghost var s0 := writer.State();
      ExecThen(c, s0, Single(StartDictionary(len)), Then(EntriesEncoding(entries), Single(EndDictionary)));
      r := Emit(StartDictionary(len));
      if r.Err? {
        return;
      }
      assert entries[0..] == entries;
      var i := 0;
      while i < |entries|
        invariant 0 <= i <= |entries|
        invariant Exec(c, s0, whole) == Exec(c, writer.State(), Then(EntriesEncoding(entries[i..]), Single(EndDictionary)))
      {
        SizeEntriesElement(entries, i);
        assert entries[i..][1..] == entries[i + 1..];
        ThenAssoc(EntryEncoding(entries[i]), EntriesEncoding(entries[i + 1..]), Single(EndDictionary));
        ExecThen(c, writer.State(), EntryEncoding(entries[i]), Then(EntriesEncoding(entries[i + 1..]), Single(EndDictionary)));
        r := SerializeMapElt(entries[i].key, entries[i].value);
        if r.Err? {
          return;
        }
        i := i + 1;
      }
      assert entries[i..] == [];
      assert Then(EntriesEncoding([]), Single(EndDictionary)) == Single(EndDictionary);
      r := Emit(EndDictionary);
    }

    /** `serialize_map_elt`: the key, then (if that succeeded) the value. */
    method SerializeMapElt(key: Value, value: Value) returns (r: Result<()>)
      modifies writer
      ensures XmlWriter.Outcome(r, writer.State()) == Exec(writer.renderers, old(writer.State()), EntryEncoding(Entry(key, value)))
      decreases Size(key) + Size(value), 3
    {
      ExecThen(writer.renderers, writer.State(), Encoding(key), Encoding(value));
      r := Serialize(key);
      if r.Err? {
        return;
      }
      r := Serialize(value);
    }

    method SerializeUnitVariant(variant: string) returns (r: Result<()>)
      modifies writer
      ensures XmlWriter.Outcome(r, writer.State()) == Exec(writer.renderers, old(writer.State()), Encoding(UnitVariant(variant)))
      decreases 2, 1
    {
      r := SingleKeyDict(variant, Unit);
    }

    /** `serialize_newtype_struct`: transparent, the wrapped value alone. */
    method SerializeNewtypeStruct(value: Value) returns (r: Result<()>)
      modifies writer
      ensures XmlWriter.Outcome(r, writer.State()) == Exec(writer.renderers, old(writer.State()), Encoding(NewtypeStruct(value)))
      decreases Size(value) + 1, 1
    {
      r := Serialize(value);
    }

    method SerializeNewtypeVariant(variant: string, value: Value) returns (r: Result<()>)
      modifies writer
      ensures XmlWriter.Outcome(r, writer.State()) == Exec(writer.renderers, old(writer.State()), Encoding(NewtypeVariant(variant, value)))
      decreases Size(value) + 1, 1
    {
      r := SingleKeyDict(variant, value);
    }

    /**
     * A value's own `Serialize` implementation: it calls the matching
     * `serialize_*` method, or raises its error through `custom` or
     * `invalid_value` without emitting anything.
     */
    method Serialize(v: Value) returns (r: Result<()>)
      modifies writer
      ensures XmlWriter.Outcome(r, writer.State()) == Exec(writer.renderers, old(writer.State()), Encoding(v))
      decreases Size(v), 2
    {
      match v {
        case Bool(b) => r := SerializeBool(b);
        case I64(i) => r := SerializeI64(i);
        case U64(u) => r := SerializeU64(u);
        case Float(x) => r := SerializeF64(x);
        case Str(s) => r := SerializeStr(s);
        case Bytes(b) => r := SerializeBytes(b);
        case Unit => r := SerializeUnit();
        case Absent => r := SerializeNone();
        case Present(x) => r := SerializeSome(x);
        case Seq(len, xs) => r := SerializeSeq(len, xs);
        case Map(len, es) => r := SerializeMap(len, es);
        case UnitVariant(variant) => r := SerializeUnitVariant(variant);
        case NewtypeStruct(x) => r := SerializeNewtypeStruct(x);
        case NewtypeVariant(variant, x) => r := SerializeNewtypeVariant(variant, x);
        case Failing(f) => r := Err(FromSerde(f));
      }
    }
  }

  // ---------------------------------------------------------------------
  // Properties of the encoding
  // ---------------------------------------------------------------------

  lemma ExecSingle(c: XmlWriter.Renderers, s: XmlWriter.WriterState, e: Event)
    requires IsValueEvent(e)
    ensures Exec(c, s, Single(e)) == XmlWriter.Step(c, s, e)
  {
    assert [e][1..] == [];
    var o := XmlWriter.Step(c, s, e);
    assert XmlWriter.Run(c, o.state, []) == XmlWriter.Outcome(Ok(()), o.state);
  }

  lemma ThenAssoc(a: Emitted, b: Emitted, c: Emitted)
    ensures Then(Then(a, b), c) == Then(a, Then(b, c))
  {
    if a.raised.None? && b.raised.None? {
      assert (a.events + b.events) + c.events == a.events + (b.events + c.events);
    }
  }

  /**
   * Running two serialization steps is running the first and, only if
   * it succeeded, the second from where it left the writer: the first
   * error, from the writer or raised, aborts everything after it.
   */
  lemma ExecThen(c: XmlWriter.Renderers, s: XmlWriter.WriterState, a: Emitted, b: Emitted)
    requires XmlWriter.AllValueEvents(a.events) && XmlWriter.AllValueEvents(b.events)
    ensures Exec(c, s, Then(a, b)) == (var o := Exec(c, s, a); if o.result.Err? then o else Exec(c, o.state, b))
  {
    if a.raised.None? {
      XmlWriter.RunAppend(c, s, a.events, b.events);
    }
  }

  /** A successful serialization wrote every event of the encoding and raised nothing. */
  lemma ExecSucceeds(c: XmlWriter.Renderers, s: XmlWriter.WriterState, em: Emitted)
    requires XmlWriter.AllValueEvents(em.events)
    requires Exec(c, s, em).result.Ok?
    ensures em.raised == None
    ensures Exec(c, s, em) == XmlWriter.Run(c, s, em.events)
  {
  }

  /** A value that raises an error of its own leaves the writer untouched and reports that error, converted. */
  lemma FailingRaises(c: XmlWriter.Renderers, s: XmlWriter.WriterState, f: SerdeFailure)
    ensures Exec(c, s, Encoding(Failing(f))) == XmlWriter.Outcome(Err(FromSerde(f)), s)
    ensures f.Custom? ==> Exec(c, s, Encoding(Failing(f))).result == Err(Serde(f.message))
    ensures f.InvalidValue? ==> Exec(c, s, Encoding(Failing(f))).result == Err(InvalidData)
  {
  }

  /** The single-key dictionary: start with a hint of one, the key, the payload's events, the end. */
  lemma SingleKeyShape(key: string, payload: Emitted)
    ensures payload.raised.None? ==>
      SingleKeyEncoding(key, payload) == Emitted([StartDictionary(Some(1)), StringValue(key)] + payload.events + [EndDictionary], None)
    ensures payload.raised.Some? ==>
      SingleKeyEncoding(key, payload) == Emitted([StartDictionary(Some(1)), StringValue(key)] + payload.events, payload.raised)
  {
    assert [StartDictionary(Some(1))] + ([StringValue(key)] + (payload.events + [EndDictionary]))
        == [StartDictionary(Some(1)), StringValue(key)] + payload.events + [EndDictionary];
    assert [StartDictionary(Some(1))] + ([StringValue(key)] + payload.events)
        == [StartDictionary(Some(1)), StringValue(key)] + payload.events;
  }

  /** `None` is the dictionary `{"None": ""}`. */
  lemma NoneEncoding()
    ensures Encoding(Absent) == Emitted([StartDictionary(Some(1)), StringValue("None"), StringValue(""), EndDictionary], None)
  {
    SingleKeyShape("None", UnitEncoding());
  }

  /** `Some(v)` is the dictionary `{"Some": v}`; an error raised inside `v` ends the events there. */
  lemma SomeEncoding(v: Value)
    ensures Encoding(v).raised.None? ==>
      Encoding(Present(v)) == Emitted([StartDictionary(Some(1)), StringValue("Some")] + Encoding(v).events + [EndDictionary], None)
    ensures Encoding(v).raised.Some? ==>
      Encoding(Present(v)) == Emitted([StartDictionary(Some(1)), StringValue("Some")] + Encoding(v).events, Encoding(v).raised)
  {
    SingleKeyShape("Some", Encoding(v));
  }

  /**
   * A unit variant is `{variant: ""}`, a newtype variant is
   * `{variant: payload}` and a newtype struct is its payload alone.
   */
  lemma VariantEncodings(variant: string, v: Value)
    ensures Encoding(UnitVariant(variant))
         == Emitted([StartDictionary(Some(1)), StringValue(variant), StringValue(""), EndDictionary], None)
    ensures Encoding(v).raised.None? ==>
      Encoding(NewtypeVariant(variant, v))
        == Emitted([StartDictionary(Some(1)), StringValue(variant)] + Encoding(v).events + [EndDictionary], None)
    ensures Encoding(NewtypeStruct(v)) == Encoding(v)
  {
    SingleKeyShape(variant, UnitEncoding());
    SingleKeyShape(variant, Encoding(v));
  }

  /** A container's events are its start event, carrying the visitor's hint, its contents, and its end event. */
  lemma ContainerEncodings(len: Option<u64>, xs: seq<Value>, es: seq<Entry>)
    ensures SeqEncoding(xs).raised.None? ==>
      Encoding(Seq(len, xs)) == Emitted([StartArray(len)] + SeqEncoding(xs).events + [EndArray], None)
    ensures EntriesEncoding(es).raised.None? ==>
      Encoding(Map(len, es)) == Emitted([StartDictionary(len)] + EntriesEncoding(es).events + [EndDictionary], None)
  {
    assert [StartArray(len)] + (SeqEncoding(xs).events + [EndArray]) == [StartArray(len)] + SeqEncoding(xs).events + [EndArray];
    assert [StartDictionary(len)] + (EntriesEncoding(es).events + [EndDictionary])
        == [StartDictionary(len)] + EntriesEncoding(es).events + [EndDictionary];
  }

  /** Elements contribute their events in visit order: the encoding of a concatenation is the two encodings in turn. */
  lemma {:induction false} SeqEncodingAppend(xs: seq<Value>, ys: seq<Value>)
    ensures SeqEncoding(xs + ys) == Then(SeqEncoding(xs), SeqEncoding(ys))
    decreases |xs|
  {
    if xs == [] {
      assert xs + ys == ys;
    } else {
      assert (xs + ys)[0] == xs[0];
      assert (xs + ys)[1..] == xs[1..] + ys;
      SeqEncodingAppend(xs[1..], ys);
      ThenAssoc(Encoding(xs[0]), SeqEncoding(xs[1..]), SeqEncoding(ys));
    }
  }

  /** A sequence of one element contributes exactly that element's encoding. */
  lemma SeqEncodingSingleton(x: Value)
    ensures SeqEncoding([x]) == Encoding(x)
  {
    assert [x][1..] == [];
  }

  /** Entries contribute their events in visit order, each key before its value. */
  lemma {:induction false} EntriesEncodingAppend(es: seq<Entry>, fs: seq<Entry>)
    ensures EntriesEncoding(es + fs) == Then(EntriesEncoding(es), EntriesEncoding(fs))
    decreases |es|
  {
    if es == [] {
      assert es + fs == fs;
    } else {
      assert (es + fs)[0] == es[0];
      assert (es + fs)[1..] == es[1..] + fs;
      EntriesEncodingAppend(es[1..], fs);
      ThenAssoc(EntryEncoding(es[0]), EntriesEncoding(es[1..]), EntriesEncoding(fs));
    }
  }

  /** A map of one entry contributes the key's events followed by the value's. */
  lemma EntriesEncodingSingleton(k: Value, v: Value)
    ensures Encoding(k).raised.None? && Encoding(v).raised.None? ==>
      EntriesEncoding([Entry(k, v)]) == Emitted(Encoding(k).events + Encoding(v).events, None)
  {
    assert [Entry(k, v)][1..] == [];
  }

  /** A value raises nothing exactly when no part of it fails. */
  lemma {:induction false} FaultFreeNoRaise(v: Value)
    ensures FaultFree(v) <==> Encoding(v).raised.None?
    decreases v, 1
  {
    match v
    case Present(x) => FaultFreeNoRaise(x);
    case NewtypeStruct(x) => FaultFreeNoRaise(x);
    case NewtypeVariant(_, x) => FaultFreeNoRaise(x);
    case Seq(_, xs) => SeqFaultFreeNoRaise(xs);
    case Map(_, es) => EntriesFaultFreeNoRaise(es);
    case _ =>
  }

  lemma {:induction false} SeqFaultFreeNoRaise(xs: seq<Value>)
    ensures (forall i :: 0 <= i < |xs| ==> FaultFree(xs[i])) <==> SeqEncoding(xs).raised.None?
    decreases xs, 0
  {
    if xs != [] {
      FaultFreeNoRaise(xs[0]);
      SeqFaultFreeNoRaise(xs[1..]);
      assert forall i :: 1 <= i < |xs| ==> xs[i] == xs[1..][i - 1];
    }
  }

  lemma {:induction false} EntryFaultFreeNoRaise(e: Entry)
    ensures FaultFree(e.key) && FaultFree(e.value) <==> EntryEncoding(e).raised.None?
    decreases e, 0
  {
    FaultFreeNoRaise(e.key);
    FaultFreeNoRaise(e.value);
  }

  lemma {:induction false} EntriesFaultFreeNoRaise(es: seq<Entry>)
    ensures (forall i :: 0 <= i < |es| ==> FaultFree(es[i].key) && FaultFree(es[i].value)) <==> EntriesEncoding(es).raised.None?
    decreases es, 0
  {
    if es != [] {
      EntryFaultFreeNoRaise(es[0]);
      EntriesFaultFreeNoRaise(es[1..]);
      assert forall i :: 1 <= i < |es| ==> es[i] == es[1..][i - 1];
    }
  }

  /** An event that opens something: a container start or a scalar, never an end event. */
  predicate IsOpening(e: Event)
  {
    e.StartArray? || e.StartDictionary? || XmlWriter.IsScalar(e)
  }

  /** The first event a value emits, if it emits any, opens that value. */
  lemma {:induction false} FirstEventOpens(v: Value)
    ensures Encoding(v).events != [] ==> IsOpening(Encoding(v).events[0])
    decreases v
  {
    match v
    case NewtypeStruct(x) => FirstEventOpens(x);
    case _ =>
  }

  /**
   * A map key whose first event is not a string is refused by the
   * writer: in key position only a string or the end of the dictionary
   * is accepted.
   */
  lemma NonStringKeyRejected(c: XmlWriter.Renderers, s: XmlWriter.WriterState, k: Value)
    requires XmlWriter.ValidStack(s.stack)
    requires XmlWriter.Top(s.stack) == Some(XmlWriter.Dictionary(XmlWriter.ExpectKey))
    requires Encoding(k).events != [] && !Encoding(k).events[0].StringValue?
    ensures Exec(c, s, Encoding(k)).result == Err(InvalidData)
  {
    var es := Encoding(k).events;
    FirstEventOpens(k);
    XmlWriter.ExpectKeyStep(c, XmlWriter.Below(s.stack), s.output, es[0]);
    assert XmlWriter.Below(s.stack) + [XmlWriter.Dictionary(XmlWriter.ExpectKey)] == s.stack;
  }
}
