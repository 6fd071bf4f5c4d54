/**
 * The XML property-list event writer. It checks the order of the events
 * it is given against a stack of frames and turns each event into calls
 * of an XML emitter, opening the `plist` root element before the first
 * value and closing it once that value is complete.
 *
 * The emitter is modelled as an append-only log of the tokens it is
 * given (`XmlToken`); rendering them as text (indentation, escaping,
 * the XML declaration, self-closing empty elements) is not modelled.
 */
module XmlWriter {
  import opened Plist
  import Decimal

  datatype DictionaryState = ExpectKey | ExpectValue

  /** One frame of the writer's stack. */
  datatype Element = Dictionary(state: DictionaryState) | Array | Root

  datatype Attribute = Attribute(name: string, value: string)

  /** What the writer hands to the XML emitter, one token per emitter call. */
  datatype XmlToken =
    | StartElement(name: string, attributes: seq<Attribute>)
    | EndElement(name: string)
    | Characters(text: string)

  /**
   * The text renderings the writer relies on but does not define:
   * MIME base64 for data, RFC 3339 for dates and Rust's `to_string`
   * for 64-bit floats.
   */
  datatype Renderers = Renderers(data: seq<byte> -> string, date: Date -> string, float: F64 -> string)

  /** The writer's frame stack (last element on top) and everything emitted so far. */
  datatype WriterState = WriterState(stack: seq<Element>, output: seq<XmlToken>)

  /** The result of a writer operation together with the state it leaves behind. */
  datatype Outcome = Outcome(result: Result<()>, state: WriterState)

  /** The root start tag `<plist version="1.0">`. */
  const PlistStart: XmlToken := StartElement("plist", [Attribute("version", "1.0")])

  /** An element that holds one piece of text, as `write_element_and_value` emits it. */
  function Leaf(name: string, text: string): seq<XmlToken>
  {
    [StartElement(name, []), Characters(text), EndElement(name)]
  }

  predicate IsScalar(e: Event)
  {
    e.BooleanValue? || e.DataValue? || e.DateValue? || e.IntegerValue? || e.RealValue? || e.StringValue?
  }

  /** The element the writer emits for a scalar event in value position. */
  function ScalarTokens(c: Renderers, e: Event): seq<XmlToken>
    requires IsScalar(e)
  {
    match e
    case BooleanValue(b) =>
      var name := if b then "true" else "false";
      [StartElement(name, []), EndElement(name)]
    case DataValue(d) => Leaf("data", c.data(d))
    case DateValue(t) => Leaf("date", c.date(t))
    case IntegerValue(i) => Leaf("integer", Decimal.IntToString(i as int))
    case RealValue(r) => Leaf("real", c.float(r))
    case StringValue(v) => Leaf("string", v)
  }

  /**
   * `maybe_end_plist`: when exactly one frame is left, the single
   * top-level value is complete, so `</plist>` is emitted and the frame
   * popped; that frame must be the root.
   */
  function EndPlistStep(s: WriterState): Outcome
  {
    if |s.stack| == 1 then
      var out := s.output + [EndElement("plist")];
      Outcome(if s.stack[0] == Root then Ok(()) else Err(InvalidData), WriterState([], out))
    else
      Outcome(Ok(()), s)
  }

  /** The dispatch by event kind, once the top frame has been dealt with (before the root check). */
  function Dispatch(c: Renderers, s: WriterState, e: Event): Outcome
    requires IsValueEvent(e)
  {
    match e
    case StartArray(_) =>
      Outcome(Ok(()), WriterState(s.stack + [Array], s.output + [StartElement("array", [])]))
    case EndArray =>
      var out := s.output + [EndElement("array")];
      if s.stack == [] then Outcome(Err(InvalidData), WriterState([], out))
      else
        var popped := s.stack[..|s.stack| - 1];
        Outcome(if s.stack[|s.stack| - 1] == Array then Ok(()) else Err(InvalidData), WriterState(popped, out))
    case StartDictionary(_) =>
      Outcome(Ok(()), WriterState(s.stack + [Dictionary(ExpectKey)], s.output + [StartElement("dict", [])]))
    case EndDictionary =>
      Outcome(Err(InvalidData), s)
    case BooleanValue(_) | DataValue(_) | DateValue(_) | IntegerValue(_) | RealValue(_) | StringValue(_) =>
      Outcome(Ok(()), WriterState(s.stack, s.output + ScalarTokens(c, e)))
  }

  /** The top frame of a stack, if any. */
  function Top(st: seq<Element>): Option<Element>
  {
    if st == [] then None else Some(st[|st| - 1])
  }

  /** The stack with its top frame popped (an empty stack stays empty). */
  function Below(st: seq<Element>): seq<Element>
  {
    if st == [] then [] else st[..|st| - 1]
  }

  /**
   * The branch of `write` taken when the popped frame was a dictionary
   * waiting for a key (`s` is the state after the pop): only a key or
   * the end of the dictionary is accepted.
   */
  function KeyStep(s: WriterState, e: Event): Outcome
  {
    match e
    case StringValue(v) =>
      Outcome(Ok(()), WriterState(s.stack + [Dictionary(ExpectValue)], s.output + Leaf("key", v)))
    case EndDictionary =>
      EndPlistStep(WriterState(s.stack, s.output + [EndElement("dict")]))
    case _ =>
      Outcome(Err(InvalidData), s)
  }

  /**
   * What `write` puts back after popping any other frame `top` (`s` is
   * the state after the pop): a dictionary waiting for a value is pushed
   * back waiting for a key, an array or the root is pushed back as it
   * was, and an empty stack opens the document and pushes the root.
   */
  function Reopen(s: WriterState, top: Option<Element>): WriterState
  {
    match top
    case None => WriterState(s.stack + [Root], s.output + [PlistStart])
    case Some(Dictionary(ExpectValue)) => WriterState(s.stack + [Dictionary(ExpectKey)], s.output)
    case Some(other) => WriterState(s.stack + [other], s.output)
  }

  /** One call of `write`: pop the top frame, then take the key branch or reopen, dispatch and check for the root. */
  function Step(c: Renderers, s: WriterState, e: Event): Outcome
    requires IsValueEvent(e)
  {
    var top := Top(s.stack);
    var popped := WriterState(Below(s.stack), s.output);
    if top == Some(Dictionary(ExpectKey)) then KeyStep(popped, e)
    else
      var d := Dispatch(c, Reopen(popped, top), e);
      if d.result.Err? then d else EndPlistStep(d.state)
  }

  predicate AllValueEvents(es: seq<Event>)
  {
    forall i :: 0 <= i < |es| ==> IsValueEvent(es[i])
  }

  /** Writing a stream of events one after the other, stopping at the first error. */
  function Run(c: Renderers, s: WriterState, es: seq<Event>): Outcome
    requires AllValueEvents(es)
    decreases |es|
  {
    if es == [] then Outcome(Ok(()), s)
    else
      var o := Step(c, s, es[0]);
      if o.result.Err? then o else Run(c, o.state, es[1..])
  }

  /** `Step` when the frame on top is a dictionary waiting for a key. */
  lemma StepAtKey(c: Renderers, s: WriterState, e: Event)
    requires IsValueEvent(e) && Top(s.stack) == Some(Dictionary(ExpectKey))
    ensures Step(c, s, e) == KeyStep(WriterState(Below(s.stack), s.output), e)
  {
  }

  /** `Step` under any other frame: reopen it, dispatch, then close the root if it is all that is left. */
  lemma StepReopens(c: Renderers, s: WriterState, e: Event, d: Outcome)
    requires IsValueEvent(e) && Top(s.stack) != Some(Dictionary(ExpectKey))
    requires d == Dispatch(c, Reopen(WriterState(Below(s.stack), s.output), Top(s.stack)), e)
    ensures Step(c, s, e) == if d.result.Err? then d else EndPlistStep(d.state)
  {
  }

  /** The writer, owning its emitter (the output log) and its frame stack. */
  class EventWriter {
    var stack: seq<Element>
    var output: seq<XmlToken>
    const renderers: Renderers

    function State(): WriterState
      reads this
    {
      WriterState(stack, output)
    }

    /**
     * The frames keep the root at the bottom only, and they are exactly
     * the elements the log leaves open.
     */
    ghost predicate Valid()
      reads this
    {
      ValidStack(stack) && Mirrors(State())
    }

    /** `EventWriter::new`: no document started, nothing emitted. */
    constructor (renderers: Renderers)
      ensures State() == WriterState([], [])
      ensures Valid()
      ensures this.renderers == renderers
    {
      this.renderers := renderers;
      stack := [];
      output := [];
    }

    /** `start_element`: an element without attributes. */
    method WriteStart(name: string)
      modifies this
      ensures stack == old(stack)
      ensures output == old(output) + [StartElement(name, [])]
    {
      output := output + [StartElement(name, [])];
    }

    /** `end_element`. */
    method WriteEnd(name: string)
      modifies this
      ensures stack == old(stack)
      ensures output == old(output) + [EndElement(name)]
    {
      output := output + [EndElement(name)];
    }

    /** `write_value`: character data. */
    method WriteValue(value: string)
      modifies this
      ensures stack == old(stack)
      ensures output == old(output) + [Characters(value)]
    {
      output := output + [Characters(value)];
    }

    /** `write_element_and_value`. */
    method WriteElementAndValue(name: string, value: string)
      modifies this
      ensures stack == old(stack)
      ensures output == old(output) + Leaf(name, value)
    {
      WriteStart(name);
      WriteValue(value);
      WriteEnd(name);
    }

    /** `Vec::pop` on the frame stack. */
    method Pop() returns (top: Option<Element>)
      modifies this
      ensures output == old(output)
      ensures top == Top(old(stack)) && stack == Below(old(stack))
    {
      if stack == [] {
        top := None;
      } else {
        top := Some(stack[|stack| - 1]);
        stack := stack[..|stack| - 1];
      }
    }

    method MaybeEndPlist() returns (r: Result<()>)
      modifies this
      ensures Outcome(r, State()) == EndPlistStep(old(State()))
    {
      if |stack| == 1 {
        WriteEnd("plist");
        var top := Pop();
        if top != Some(Root) {
          return Err(InvalidData);
        }
      }
      r := Ok(());
    }

    /** The dispatch by event kind of `write`, after the top frame has been dealt with. */
    method DispatchEvent(e: Event) returns (r: Result<()>)
      requires IsValueEvent(e)
      modifies this
      ensures Outcome(r, State()) == Dispatch(renderers, old(State()), e)
    {
      match e {
        case StartArray(_) =>
          WriteStart("array");
          stack := stack + [Array];
        case EndArray =>
          WriteEnd("array");
          var popped := Pop();
          if popped != Some(Array) {
            return Err(InvalidData);
          }
        case StartDictionary(_) =>
          WriteStart("dict");
          stack := stack + [Dictionary(ExpectKey)];
        case EndDictionary =>
          return Err(InvalidData);
        case BooleanValue(b) =>
          if b {
            WriteStart("true");
            WriteEnd("true");
          } else {
            WriteStart("false");
            WriteEnd("false");
          }
        case DataValue(d) =>
          WriteElementAndValue("data", renderers.data(d));
        case DateValue(t) =>
          WriteElementAndValue("date", renderers.date(t));
        case IntegerValue(i) =>
          WriteElementAndValue("integer", Decimal.IntToString(i as int));
        case RealValue(x) =>
          WriteElementAndValue("real", renderers.float(x));
        case StringValue(v) =>
          WriteElementAndValue("string", v);
      }

      r := Ok(());
    }

    /** The branch of `write` for a popped dictionary frame that was waiting for a key. */
    method WriteAtKey(e: Event) returns (r: Result<()>)
      modifies this
      ensures Outcome(r, State()) == KeyStep(old(State()), e)
    {
      match e {
        case StringValue(v) =>
          WriteElementAndValue("key", v);
          stack := stack + [Dictionary(ExpectValue)];
        case EndDictionary =>
          WriteEnd("dict");
          // this may close the last open element as well
          r := MaybeEndPlist();
          if r.Err? {
            return;
          }
        case _ =>
          return Err(InvalidData);
      }
      r := Ok(());
    }

    /** `write`: one event, as `Step` describes it. */
    method Write(e: Event) returns (r: Result<()>)
      requires IsValueEvent(e)
      modifies this
      ensures Outcome(r, State()) == Step(renderers, old(State()), e)
      ensures old(Valid()) ==> ValidStack(stack)
      ensures old(Valid()) && r.Ok? ==> Valid() && DocumentShape(stack)
    {
      if Valid() {
        StepKeepsValid(renderers, State(), e);
        StepMirrors(renderers, State(), e);
      }
      var top := Pop();
      ghost var popped := State();
      match top {
        case Some(Dictionary(ExpectKey)) =>
          r := WriteAtKey(e);
          StepAtKey(renderers, old(State()), e);
          return;
        case Some(Dictionary(ExpectValue)) =>
          stack := stack + [Dictionary(ExpectKey)];
        case Some(other) =>
          stack := stack + [other];
        case None =>
          output := output + [PlistStart];
          stack := stack + [Root];
      }
      ghost var ready := State();
      assert ready == Reopen(popped, top);
      r := DispatchEvent(e);
      ghost var d := Dispatch(renderers, ready, e);
      StepReopens(renderers, old(State()), e, d);
      if r.Err? {
        return;
      }
      r := MaybeEndPlist();
    }
  }

  // ---------------------------------------------------------------------
  // Properties of the writer's steps
  // ---------------------------------------------------------------------

  /** The root frame sits at the bottom of a non-empty stack and nowhere else. */
  predicate ValidStack(st: seq<Element>)
  {
    st == [] || (st[0] == Root && forall i :: 1 <= i < |st| ==> st[i] != Root)
  }

  /**
   * The two shapes a stack has after a successful `write`: no document
   * open, or the root below at least one open array or dictionary.
   */
  predicate DocumentShape(st: seq<Element>)
  {
    st == [] || (|st| >= 2 && st[0] == Root && forall i :: 1 <= i < |st| ==> st[i] != Root)
  }

  /** Every write only appends to the emitter's log. */
  lemma StepAppends(c: Renderers, s: WriterState, e: Event)
    requires IsValueEvent(e)
    ensures |Step(c, s, e).state.output| >= |s.output|
    ensures Step(c, s, e).state.output[..|s.output|] == s.output
  {
    var popped := WriterState(Below(s.stack), s.output);
    if Top(s.stack) == Some(Dictionary(ExpectKey)) {
      StepAtKey(c, s, e);
      KeyStepAppends(popped, e);
    } else {
      var ready := Reopen(popped, Top(s.stack));
      var d := Dispatch(c, ready, e);
      StepReopens(c, s, e, d);
      assert Extends(s.output, ready.output);
      DispatchAppends(c, ready, e);
      ExtendsTrans(s.output, ready.output, d.state.output);
      if d.result.Ok? {
        ExtendsTrans(s.output, d.state.output, EndPlistStep(d.state).state.output);
      }
    }
  }

  /** `b` begins with `a`. */
  predicate Extends(a: seq<XmlToken>, b: seq<XmlToken>)
  {
    |b| >= |a| && b[..|a|] == a
  }

  lemma ExtendsTrans(a: seq<XmlToken>, b: seq<XmlToken>, d: seq<XmlToken>)
    requires Extends(a, b) && Extends(b, d)
    ensures Extends(a, d)
  {
    assert d[..|a|] == d[..|b|][..|a|];
  }

  lemma KeyStepAppends(s: WriterState, e: Event)
    ensures Extends(s.output, KeyStep(s, e).state.output)
  {
  }

  lemma DispatchAppends(c: Renderers, s: WriterState, e: Event)
    requires IsValueEvent(e)
    ensures Extends(s.output, Dispatch(c, s, e).state.output)
  {
  }

  /**
   * The first write on a fresh writer emits `<plist version="1.0">` and
   * then behaves exactly as if that root frame had already been pushed.
   */
  lemma FirstWriteOpensDocument(c: Renderers, out: seq<XmlToken>, e: Event)
    requires IsValueEvent(e)
    ensures Step(c, WriterState([], out), e) == Step(c, WriterState([Root], out + [PlistStart]), e)
    ensures |Step(c, WriterState([], out), e).state.output| > |out|
    ensures Step(c, WriterState([], out), e).state.output[..|out| + 1] == out + [PlistStart]
  {
    StepAppends(c, WriterState([Root], out + [PlistStart]), e);
    assert (out + [PlistStart])[..|out| + 1] == out + [PlistStart];
  }

  /** A single scalar written to a fresh writer is a complete document: root, element, end of root. */
  lemma SingleScalarDocument(c: Renderers, out: seq<XmlToken>, e: Event)
    requires IsScalar(e)
    ensures Step(c, WriterState([], out), e)
         == Outcome(Ok(()), WriterState([], out + [PlistStart] + ScalarTokens(c, e) + [EndElement("plist")]))
  {
  }

  /** A dictionary waiting for a key accepts a key or its end, and nothing else. */
  lemma ExpectKeyStep(c: Renderers, st: seq<Element>, out: seq<XmlToken>, e: Event)
    requires IsValueEvent(e)
    requires ValidStack(st + [Dictionary(ExpectKey)])
    ensures e.StringValue? ==>
      Step(c, WriterState(st + [Dictionary(ExpectKey)], out), e)
        == Outcome(Ok(()), WriterState(st + [Dictionary(ExpectValue)], out + Leaf("key", e.text)))
    ensures e.EndDictionary? ==>
      Step(c, WriterState(st + [Dictionary(ExpectKey)], out), e)
        == Outcome(Ok(()), if st == [Root] then WriterState([], out + [EndElement("dict"), EndElement("plist")])
                           else WriterState(st, out + [EndElement("dict")]))
    ensures !e.StringValue? && !e.EndDictionary? ==>
      Step(c, WriterState(st + [Dictionary(ExpectKey)], out), e) == Outcome(Err(InvalidData), WriterState(st, out))
  {
    var full := st + [Dictionary(ExpectKey)];
    assert full[0] == st[0];
    assert Top(full) == Some(Dictionary(ExpectKey)) && Below(full) == st;
    if e.EndDictionary? && |st| == 1 {
      assert st == [Root];
    }
  }

  /**
   * A dictionary waiting for a value is flipped back to waiting for a key
   * before the value is dispatched, so a nested container is pushed above
   * a parent that already waits for its next key.
   */
  lemma ExpectValueStep(c: Renderers, st: seq<Element>, out: seq<XmlToken>, e: Event)
    requires IsValueEvent(e)
    requires ValidStack(st + [Dictionary(ExpectValue)])
    ensures e.StartArray? ==>
      Step(c, WriterState(st + [Dictionary(ExpectValue)], out), e)
        == Outcome(Ok(()), WriterState(st + [Dictionary(ExpectKey), Array], out + [StartElement("array", [])]))
    ensures e.StartDictionary? ==>
      Step(c, WriterState(st + [Dictionary(ExpectValue)], out), e)
        == Outcome(Ok(()), WriterState(st + [Dictionary(ExpectKey), Dictionary(ExpectKey)], out + [StartElement("dict", [])]))
    ensures IsScalar(e) ==>
      Step(c, WriterState(st + [Dictionary(ExpectValue)], out), e)
        == Outcome(Ok(()), WriterState(st + [Dictionary(ExpectKey)], out + ScalarTokens(c, e)))
    ensures e.EndArray? ==>
      Step(c, WriterState(st + [Dictionary(ExpectValue)], out), e)
        == Outcome(Err(InvalidData), WriterState(st, out + [EndElement("array")]))
    ensures e.EndDictionary? ==>
      Step(c, WriterState(st + [Dictionary(ExpectValue)], out), e)
        == Outcome(Err(InvalidData), WriterState(st + [Dictionary(ExpectKey)], out))
  {
    var full := st + [Dictionary(ExpectValue)];
    assert full[0] == st[0];
    assert Top(full) == Some(Dictionary(ExpectValue)) && Below(full) == st;
    assert (st + [Dictionary(ExpectKey)])[..|st|] == st;
    assert st + [Dictionary(ExpectKey)] + [Array] == st + [Dictionary(ExpectKey), Array];
    assert st + [Dictionary(ExpectKey)] + [Dictionary(ExpectKey)] == st + [Dictionary(ExpectKey), Dictionary(ExpectKey)];
  }

  /** `EndArray` succeeds exactly when the frame it finds on top is an array. */
  lemma EndArrayNeedsArray(c: Renderers, s: WriterState)
    requires ValidStack(s.stack)
    ensures Step(c, s, EndArray).result.Ok? <==> Top(s.stack) == Some(Array)
    ensures Step(c, s, EndArray).result.Err? ==> Step(c, s, EndArray).result.error == InvalidData
  {
    var st := s.stack;
    if Top(st) == Some(Array) {
      assert st[0] == Root;
      var below := Below(st);
      assert |below| == 1 ==> below[0] == Root;
    }
  }

  /** `EndDictionary` succeeds exactly when the frame on top is a dictionary waiting for a key. */
  lemma EndDictionaryNeedsKeyPosition(c: Renderers, s: WriterState)
    requires ValidStack(s.stack)
    ensures Step(c, s, EndDictionary).result.Ok? <==> Top(s.stack) == Some(Dictionary(ExpectKey))
    ensures Step(c, s, EndDictionary).result.Err? ==> Step(c, s, EndDictionary).result.error == InvalidData
  {
    var st := s.stack;
    if Top(st) == Some(Dictionary(ExpectKey)) {
      assert st[0] == Root;
      var below := Below(st);
      assert |below| == 1 ==> below[0] == Root;
    }
  }

  lemma ValidBelow(st: seq<Element>)
    requires ValidStack(st)
    ensures ValidStack(Below(st))
  {
    var below := Below(st);
    if below != [] {
      assert below[0] == st[0];
      forall i | 1 <= i < |below| ensures below[i] != Root {
        assert below[i] == st[i];
      }
    }
  }

  lemma ValidPush(st: seq<Element>, x: Element)
    requires ValidStack(st) && st != [] && x != Root
    ensures ValidStack(st + [x])
  {
    var pushed := st + [x];
    assert pushed[0] == st[0];
    forall i | 1 <= i < |pushed| ensures pushed[i] != Root {
      if i < |st| { assert pushed[i] == st[i]; }
    }
  }

  lemma EndPlistKeepsValid(s: WriterState)
    requires ValidStack(s.stack)
    ensures ValidStack(EndPlistStep(s).state.stack)
    ensures EndPlistStep(s).result.Ok? ==> DocumentShape(EndPlistStep(s).state.stack)
  {
  }

  lemma DispatchKeepsValid(c: Renderers, s: WriterState, e: Event)
    requires IsValueEvent(e)
    requires ValidStack(s.stack) && s.stack != []
    ensures ValidStack(Dispatch(c, s, e).state.stack)
  {
    match e
    case StartArray(_) => ValidPush(s.stack, Array);
    case StartDictionary(_) => ValidPush(s.stack, Dictionary(ExpectKey));
    case EndArray =>
      ValidBelow(s.stack);
      assert Dispatch(c, s, e).state.stack == Below(s.stack);
    case _ =>
  }

  lemma KeyStepKeepsValid(s: WriterState, e: Event)
    requires ValidStack(s.stack) && s.stack != []
    ensures ValidStack(KeyStep(s, e).state.stack)
    ensures KeyStep(s, e).result.Ok? ==> DocumentShape(KeyStep(s, e).state.stack)
  {
    match e
    case StringValue(_) => ValidPush(s.stack, Dictionary(ExpectValue));
    case EndDictionary => EndPlistKeepsValid(WriterState(s.stack, s.output + [EndElement("dict")]));
    case _ =>
  }

  lemma ReopenKeepsValid(st: seq<Element>, out: seq<XmlToken>)
    requires ValidStack(st) && Top(st) != Some(Dictionary(ExpectKey))
    ensures ValidStack(Reopen(WriterState(Below(st), out), Top(st)).stack)
    ensures Reopen(WriterState(Below(st), out), Top(st)).stack != []
  {
    ValidBelow(st);
    var below := Below(st);
    if st != [] {
      var top := st[|st| - 1];
      if top == Root {
        assert |st| == 1;
        assert below == [];
      } else {
        assert below != [];
        ValidPush(below, if top == Dictionary(ExpectValue) then Dictionary(ExpectKey) else top);
      }
    }
  }

  /**
   * Every write keeps the root at the bottom and only there, and after a
   * successful write the stack has one of the two document shapes.
   */
  lemma StepKeepsValid(c: Renderers, s: WriterState, e: Event)
    requires IsValueEvent(e)
    requires ValidStack(s.stack)
    ensures ValidStack(Step(c, s, e).state.stack)
    ensures Step(c, s, e).result.Ok? ==> DocumentShape(Step(c, s, e).state.stack)
  {
    var st := s.stack;
    var popped := WriterState(Below(st), s.output);
    ValidBelow(st);
    if Top(st) == Some(Dictionary(ExpectKey)) {
      assert |st| >= 2;
      KeyStepKeepsValid(popped, e);
    } else {
      ReopenKeepsValid(st, s.output);
      var ready := Reopen(popped, Top(st));
      DispatchKeepsValid(c, ready, e);
      EndPlistKeepsValid(Dispatch(c, ready, e).state);
    }
  }

  /** Writing a stream is writing its first part, then (if that succeeded) the rest. */
  lemma {:induction false} RunAppend(c: Renderers, s: WriterState, a: seq<Event>, b: seq<Event>)
    requires AllValueEvents(a) && AllValueEvents(b)
    ensures AllValueEvents(a + b)
    ensures Run(c, s, a + b) == (var o := Run(c, s, a); if o.result.Err? then o else Run(c, o.state, b))
    decreases |a|
  {
    assert AllValueEvents(a + b) by {
      forall i | 0 <= i < |a + b| ensures IsValueEvent((a + b)[i]) {
        if i < |a| { assert (a + b)[i] == a[i]; } else { assert (a + b)[i] == b[i - |a|]; }
      }
    }
    if a != [] {
      assert (a + b)[0] == a[0];
      assert (a + b)[1..] == a[1..] + b;
      var o := Step(c, s, a[0]);
      if o.result.Ok? {
        RunAppend(c, o.state, a[1..], b);
      }
    } else {
      assert a + b == b;
    }
  }

  /** A stream of writes from a valid stack keeps it valid, and leaves a document shape when it succeeds. */
  lemma {:induction false} RunKeepsValid(c: Renderers, s: WriterState, es: seq<Event>)
    requires AllValueEvents(es)
    requires ValidStack(s.stack)
    ensures ValidStack(Run(c, s, es).state.stack)
    ensures Run(c, s, es).result.Ok? && es != [] ==> DocumentShape(Run(c, s, es).state.stack)
    decreases |es|
  {
    if es != [] {
      StepKeepsValid(c, s, es[0]);
      var o := Step(c, s, es[0]);
      if o.result.Ok? {
        RunKeepsValid(c, o.state, es[1..]);
      }
    }
  }

  // ---------------------------------------------------------------------
  // The frame stack mirrors the elements open in the emitter's log
  // ---------------------------------------------------------------------

  /** The element each kind of frame stands for. */
  function FrameName(f: Element): string
  {
    match f
    case Root => "plist"
    case Array => "array"
    case Dictionary(_) => "dict"
  }

  function Names(st: seq<Element>): (r: seq<string>)
    ensures |r| == |st|
    ensures forall i :: 0 <= i < |st| ==> r[i] == FrameName(st[i])
  {
    seq(|st|, i requires 0 <= i < |st| => FrameName(st[i]))
  }

  /**
   * The effect of one emitter token on the names of the open elements:
   * a start tag opens one, an end tag must close the innermost one
   * (`None` records markup that is not well nested).
   */
  function Apply(open: Option<seq<string>>, t: XmlToken): Option<seq<string>>
  {
    match open
    case None => None
    case Some(names) =>
      match t
      case StartElement(n, _) => Some(names + [n])
      case EndElement(n) =>
        if names != [] && names[|names| - 1] == n then Some(names[..|names| - 1]) else None
      case Characters(_) => open
  }

  function Replay(open: Option<seq<string>>, toks: seq<XmlToken>): Option<seq<string>>
    decreases |toks|
  {
    if toks == [] then open else Replay(Apply(open, toks[0]), toks[1..])
  }

  /** The elements a log leaves open, innermost last, or `None` if it is not well nested. */
  function OpenElements(out: seq<XmlToken>): Option<seq<string>>
  {
    Replay(Some([]), out)
  }

  lemma {:induction false} ReplayAppend(o: Option<seq<string>>, a: seq<XmlToken>, b: seq<XmlToken>)
    ensures Replay(o, a + b) == Replay(Replay(o, a), b)
    decreases |a|
  {
    if a == [] {
      assert a + b == b;
    } else {
      assert (a + b)[0] == a[0];
      assert (a + b)[1..] == a[1..] + b;
      ReplayAppend(Apply(o, a[0]), a[1..], b);
    }
  }

  /** The frames on the stack are exactly the elements the log leaves open, bottom to top. */
  predicate Mirrors(s: WriterState)
  {
    OpenElements(s.output) == Some(Names(s.stack))
  }

  lemma MirrorsAfter(s: WriterState, t: seq<XmlToken>, st: seq<Element>)
    requires Mirrors(s)
    requires Replay(Some(Names(s.stack)), t) == Some(Names(st))
    ensures Mirrors(WriterState(st, s.output + t))
  {
    ReplayAppend(Some([]), s.output, t);
  }

  lemma NamesPush(st: seq<Element>, x: Element)
    ensures Names(st + [x]) == Names(st) + [FrameName(x)]
  {
  }

  lemma NamesBelow(st: seq<Element>)
    requires st != []
    ensures Names(Below(st)) == Names(st)[..|st| - 1]
  {
  }

  lemma ReplayOne(o: Option<seq<string>>, a: XmlToken)
    ensures Replay(o, [a]) == Apply(o, a)
  {
    assert [a][1..] == [];
  }

  lemma ReplayTwo(o: Option<seq<string>>, a: XmlToken, b: XmlToken)
    ensures Replay(o, [a, b]) == Apply(Apply(o, a), b)
  {
    assert [a, b][1..] == [b];
    ReplayOne(Apply(o, a), b);
  }

  lemma ReplayThree(o: Option<seq<string>>, a: XmlToken, b: XmlToken, c: XmlToken)
    ensures Replay(o, [a, b, c]) == Apply(Apply(Apply(o, a), b), c)
  {
    assert [a, b, c][1..] == [b, c];
    ReplayTwo(Apply(o, a), b, c);
  }

  /** A text element leaves the open elements as they were. */
  lemma LeafIsClosed(names: seq<string>, name: string, text: string)
    ensures Replay(Some(names), Leaf(name, text)) == Some(names)
  {
    ReplayThree(Some(names), StartElement(name, []), Characters(text), EndElement(name));
    assert (names + [name])[..|names|] == names;
  }

  lemma ScalarIsClosed(c: Renderers, names: seq<string>, e: Event)
    requires IsScalar(e)
    ensures Replay(Some(names), ScalarTokens(c, e)) == Some(names)
  {
    match e
    case BooleanValue(b) =>
      var name := if b then "true" else "false";
      ReplayTwo(Some(names), StartElement(name, []), EndElement(name));
      assert (names + [name])[..|names|] == names;
    case DataValue(d) => LeafIsClosed(names, "data", c.data(d));
    case DateValue(t) => LeafIsClosed(names, "date", c.date(t));
    case IntegerValue(i) => LeafIsClosed(names, "integer", Decimal.IntToString(i as int));
    case RealValue(x) => LeafIsClosed(names, "real", c.float(x));
    case StringValue(v) => LeafIsClosed(names, "string", v);
  }

  lemma EndPlistMirrors(s: WriterState)
    requires Mirrors(s)
    ensures EndPlistStep(s).result.Ok? ==> Mirrors(EndPlistStep(s).state)
  {
    if |s.stack| == 1 && s.stack[0] == Root {
      MirrorsAfter(s, [EndElement("plist")], []);
    }
  }

  lemma DispatchMirrors(c: Renderers, s: WriterState, e: Event)
    requires IsValueEvent(e)
    requires Mirrors(s)
    ensures Dispatch(c, s, e).result.Ok? ==> Mirrors(Dispatch(c, s, e).state)
  {
    var names := Names(s.stack);
    match e
    case StartArray(_) =>
      NamesPush(s.stack, Array);
      MirrorsAfter(s, [StartElement("array", [])], s.stack + [Array]);
    case StartDictionary(_) =>
      NamesPush(s.stack, Dictionary(ExpectKey));
      MirrorsAfter(s, [StartElement("dict", [])], s.stack + [Dictionary(ExpectKey)]);
    case EndArray =>
      if s.stack != [] && s.stack[|s.stack| - 1] == Array {
        NamesBelow(s.stack);
        MirrorsAfter(s, [EndElement("array")], Below(s.stack));
      }
    case EndDictionary =>
    case BooleanValue(_) | DataValue(_) | DateValue(_) | IntegerValue(_) | RealValue(_) | StringValue(_) =>
      ScalarIsClosed(c, names, e);
      MirrorsAfter(s, ScalarTokens(c, e), s.stack);
  }

  /**
   * Every successful write keeps the frames in step with the log: a
   * frame is pushed with its start tag and popped with its end tag.
   */
  lemma StepMirrors(c: Renderers, s: WriterState, e: Event)
    requires IsValueEvent(e)
    requires Mirrors(s)
    ensures Step(c, s, e).result.Ok? ==> Mirrors(Step(c, s, e).state)
  {
    if Top(s.stack) == Some(Dictionary(ExpectKey)) {
      KeyStepMirrors(c, s, e);
    } else {
      ValueStepMirrors(c, s, e);
    }
  }

  /** The case of a dictionary waiting for a key. */
  lemma KeyStepMirrors(c: Renderers, s: WriterState, e: Event)
    requires IsValueEvent(e)
    requires Mirrors(s) && Top(s.stack) == Some(Dictionary(ExpectKey))
    ensures Step(c, s, e).result.Ok? ==> Mirrors(Step(c, s, e).state)
  {
    var st := s.stack;
    NamesBelow(st);
    match e
    case StringValue(v) =>
      NamesPush(Below(st), Dictionary(ExpectValue));
      assert Names(Below(st) + [Dictionary(ExpectValue)]) == Names(st);
      LeafIsClosed(Names(st), "key", v);
      MirrorsAfter(s, Leaf("key", v), Below(st) + [Dictionary(ExpectValue)]);
    case EndDictionary =>
      MirrorsAfter(s, [EndElement("dict")], Below(st));
      EndPlistMirrors(WriterState(Below(st), s.output + [EndElement("dict")]));
    case _ =>
  }

  /** Every other case: the frame on top is reopened, then the event is dispatched. */
  lemma ValueStepMirrors(c: Renderers, s: WriterState, e: Event)
    requires IsValueEvent(e)
    requires Mirrors(s) && Top(s.stack) != Some(Dictionary(ExpectKey))
    ensures Step(c, s, e).result.Ok? ==> Mirrors(Step(c, s, e).state)
  {
    var st := s.stack;
    var top := Top(st);
    var ready := Reopen(WriterState(Below(st), s.output), top);
    assert Mirrors(ready) by {
      if top.None? {
        assert st == [] && Names(st) == [];
        assert Names([Root]) == ["plist"];
        ReplayOne(Some(Names(st)), PlistStart);
        assert [] + ["plist"] == ["plist"];
        assert Replay(Some(Names(s.stack)), [PlistStart]) == Some(Names([Root]));
        MirrorsAfter(s, [PlistStart], [Root]);
        assert Below(st) + [Root] == [Root];
      } else {
        NamesBelow(st);
        NamesPush(Below(st), ready.stack[|ready.stack| - 1]);
        assert ready.stack == Below(st) + [ready.stack[|ready.stack| - 1]];
        assert Names(ready.stack) == Names(st);
      }
    }
    DispatchMirrors(c, ready, e);
    if Dispatch(c, ready, e).result.Ok? {
      EndPlistMirrors(Dispatch(c, ready, e).state);
    }
  }

  /** From a state that mirrors its log, a successful stream of writes leaves a state that still does. */
  lemma {:induction false} RunMirrors(c: Renderers, s: WriterState, es: seq<Event>)
    requires AllValueEvents(es)
    requires Mirrors(s)
    ensures Run(c, s, es).result.Ok? ==> Mirrors(Run(c, s, es).state)
    decreases |es|
  {
    if es != [] {
      StepMirrors(c, s, es[0]);
      var o := Step(c, s, es[0]);
      if o.result.Ok? {
        RunMirrors(c, o.state, es[1..]);
      }
    }
  }

  /**
   * `EndArray` under any frame other than an array or a dictionary
   * waiting for a key is reported as `InvalidData` only after `</array>`
   * has already been emitted, closing an element that is not an array.
   */
  lemma EndArrayMisplacedEmitsCloseTag(c: Renderers, s: WriterState)
    requires Mirrors(s) && ValidStack(s.stack)
    requires Top(s.stack) != Some(Array) && Top(s.stack) != Some(Dictionary(ExpectKey))
    ensures Step(c, s, EndArray).result == Err(InvalidData)
    ensures Step(c, s, EndArray).state.output == s.output + (if s.stack == [] then [PlistStart] else []) + [EndElement("array")]
    ensures OpenElements(Step(c, s, EndArray).state.output) == None
  {
    if s.stack == [] {
      var out := Step(c, s, EndArray).state.output;
      assert out == s.output + [PlistStart] + [EndElement("array")];
      ReplayAppend(Some([]), s.output, [PlistStart, EndElement("array")]);
      assert s.output + [PlistStart] + [EndElement("array")] == s.output + [PlistStart, EndElement("array")];
      assert Names(s.stack) == [];
      ReplayTwo(Some([]), PlistStart, EndElement("array"));
    } else {
      EndArrayMisplacedInside(c, s);
      assert s.output + [] == s.output;
    }
  }

  /** The case of an open document: the frame on top is reopened, then the stray close tag follows. */
  lemma EndArrayMisplacedInside(c: Renderers, s: WriterState)
    requires Mirrors(s) && ValidStack(s.stack) && s.stack != []
    requires Top(s.stack) != Some(Array) && Top(s.stack) != Some(Dictionary(ExpectKey))
    ensures Step(c, s, EndArray).result == Err(InvalidData)
    ensures Step(c, s, EndArray).state.output == s.output + [EndElement("array")]
    ensures OpenElements(Step(c, s, EndArray).state.output) == None
  {
    var st := s.stack;
    var ready := Reopen(WriterState(Below(st), s.output), Top(st));
    assert Names(ready.stack)[|st| - 1] != "array";
    ReplayAppend(Some([]), s.output, [EndElement("array")]);
    assert Names(ready.stack) == Names(st) by {
      NamesBelow(st);
      NamesPush(Below(st), ready.stack[|ready.stack| - 1]);
      assert ready.stack == Below(st) + [ready.stack[|ready.stack| - 1]];
    }
  }
}
