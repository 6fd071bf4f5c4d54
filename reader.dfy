/**
 * The streaming XML property-list reader. It pulls tag-level tokens from
 * an XML tokenizer, keeps a stack of the names of the open elements and
 * turns each plist element into one event, reading the text of leaf
 * elements with one token of lookahead.
 *
 * The tokenizer is modelled as the sequence of tokens it produces and a
 * cursor; everything it does not report as a start tag, an end tag,
 * character data or the end of the document is `Other`.
 */
module XmlReader {
  import opened Plist
  import Decimal

  /** A token of the XML tokenizer (local names only). */
  datatype XmlEvent =
    | StartElement(name: string)
    | EndElement(name: string)
    | Characters(text: string)
    | EndDocument
    | Other

  /**
   * The content decoders the reader relies on but does not define:
   * MIME base64 for data, RFC 3339 (normalised to UTC, with its own
   * error conversion) for dates and Rust's `f64::from_str` for reals.
   */
  datatype Parsers = Parsers(data: string -> Option<seq<byte>>, date: string -> Result<Date>, float: string -> Option<F64>)

  /** What one call of `next` returns, and the tokenizer and stack it leaves behind. */
  datatype Pulled = Pulled(item: Option<Result<Event>>, rest: seq<XmlEvent>, stack: seq<string>)

  /** The next token and the tokens after it; an exhausted tokenizer reports the end of the document. */
  function Advance(rest: seq<XmlEvent>): (XmlEvent, seq<XmlEvent>)
  {
    if rest == [] then (EndDocument, []) else (rest[0], rest[1..])
  }

  // The content decoders of the leaf elements.

  function StringContent(s: string): Result<Event>
  {
    Ok(StringValue(s))
  }

  function DataContent(p: Parsers, s: string): Result<Event>
  {
    match p.data(s)
    case Some(b) => Ok(DataValue(b))
    case None => Err(InvalidData)
  }

  function DateContent(p: Parsers, s: string): Result<Event>
  {
    match p.date(s)
    case Ok(d) => Ok(DateValue(d))
    case Err(e) => Err(e)
  }

  function IntegerContent(s: string): Result<Event>
  {
    match Decimal.ParseI64(s)
    case Some(i) => Ok(IntegerValue(i))
    case None => Err(InvalidData)
  }

  function RealContent(p: Parsers, s: string): Result<Event>
  {
    match p.float(s)
    case Some(x) => Ok(RealValue(x))
    case None => Err(InvalidData)
  }

  /** `read_content`: the next token must be character data, which `f` decodes. */
  function PullContent(f: string -> Result<Event>, rest: seq<XmlEvent>): (Result<Event>, seq<XmlEvent>)
  {
    var (tok, after) := Advance(rest);
    match tok
    case Characters(s) => (f(s), after)
    case _ => (Err(InvalidData), after)
  }

  /** `next`: tokens are consumed until one of them yields an event, an error or the end. */
  function PullEvent(p: Parsers, rest: seq<XmlEvent>, stack: seq<string>): (n: Pulled)
    ensures |n.rest| <= |rest|
    ensures n.item.Some? && n.item.value.Ok? ==> |n.rest| < |rest|
    decreases |rest|
  {
    var (tok, after) := Advance(rest);
    match tok
    case StartElement(name) =>
      var pushed := stack + [name];
      if name == "plist" then Pulled(Some(Ok(StartPlist)), after, pushed)
      else if name == "array" then Pulled(Some(Ok(StartArray(None))), after, pushed)
      else if name == "dict" then Pulled(Some(Ok(StartDictionary(None))), after, pushed)
      else if name == "key" then
        var (r, more) := PullContent(StringContent, after); Pulled(Some(r), more, pushed)
      else if name == "true" then Pulled(Some(Ok(BooleanValue(true))), after, pushed)
      else if name == "false" then Pulled(Some(Ok(BooleanValue(false))), after, pushed)
      else if name == "data" then
        var (r, more) := PullContent(s => DataContent(p, s), after); Pulled(Some(r), more, pushed)
      else if name == "date" then
        var (r, more) := PullContent(s => DateContent(p, s), after); Pulled(Some(r), more, pushed)
      else if name == "integer" then
        var (r, more) := PullContent(IntegerContent, after); Pulled(Some(r), more, pushed)
      else if name == "real" then
        var (r, more) := PullContent(s => RealContent(p, s), after); Pulled(Some(r), more, pushed)
      else if name == "string" then
        var (r, more) := PullContent(StringContent, after); Pulled(Some(r), more, pushed)
      else Pulled(Some(Err(InvalidData)), after, pushed)
    case EndElement(name) =>
      if stack == [] then Pulled(Some(Err(InvalidData)), after, [])
      else
        var popped := stack[..|stack| - 1];
        if stack[|stack| - 1] != name then Pulled(Some(Err(InvalidData)), after, popped)
        else if name == "array" then Pulled(Some(Ok(EndArray)), after, popped)
        else if name == "dict" then Pulled(Some(Ok(EndDictionary)), after, popped)
        else if name == "plist" then Pulled(Some(Ok(EndPlist)), after, popped)
        else PullEvent(p, after, popped)
    case EndDocument =>
      Pulled(if stack == [] then None else Some(Err(UnexpectedEof)), after, stack)
    case _ =>
      PullEvent(p, after, stack)
  }

  /** A result with some events put in front of the ones it already holds; an error stays as it is. */
  function Prepend(es: seq<Event>, r: Result<seq<Event>>): Result<seq<Event>>
  {
    match r
    case Ok(rs) => Ok(es + rs)
    case Err(e) => Err(e)
  }

  /**
   * Pulling events until the reader reports the end, collecting them:
   * the first error ends the collection, as collecting the iterator
   * into a `Result` does.
   */
  function Drain(p: Parsers, rest: seq<XmlEvent>, stack: seq<string>): Result<seq<Event>>
    decreases |rest|
  {
    var n := PullEvent(p, rest, stack);
    match n.item
    case None => Ok([])
    case Some(Err(e)) => Err(e)
    case Some(Ok(ev)) => Prepend([ev], Drain(p, n.rest, n.stack))
  }

  /** The reader, owning the tokenizer (tokens and cursor) and the stack of open element names. */
  class StreamingParser {
    const tokens: seq<XmlEvent>
    var cursor: nat
    var elementStack: seq<string>
    const parsers: Parsers

    ghost predicate Valid()
      reads this
    {
      cursor <= |tokens|
    }

    /** The tokens the tokenizer has not delivered yet. */
    function Remaining(): seq<XmlEvent>
      requires Valid()
      reads this
    {
      tokens[cursor..]
    }

    /** `StreamingParser::new`: nothing read, no element open. */
    constructor (tokens: seq<XmlEvent>, parsers: Parsers)
      ensures Valid()
      ensures this.tokens == tokens && this.parsers == parsers
      ensures Remaining() == tokens && elementStack == []
    {
      this.tokens := tokens;
      this.parsers := parsers;
      cursor := 0;
      elementStack := [];
    }

    /** The tokenizer's `next`. */
    method NextToken() returns (tok: XmlEvent)
      requires Valid()
      modifies this`cursor
      ensures Valid()
      ensures (tok, Remaining()) == Advance(old(Remaining()))
    {
      if cursor < |tokens| {
        tok := tokens[cursor];
        assert tokens[cursor..][1..] == tokens[cursor + 1..];
        cursor := cursor + 1;
      } else {
        tok := EndDocument;
      }
    }

    /** `read_content`. */
    method ReadContent(f: string -> Result<Event>) returns (r: Result<Event>)
      requires Valid()
      modifies this`cursor
      ensures Valid()
      ensures (r, Remaining()) == PullContent(f, old(Remaining()))
    {
      var tok := NextToken();
      match tok {
        case Characters(s) => r := f(s);
        case _ => r := Err(InvalidData);
      }
    }

    /** `Vec::pop` on the element stack. */
    method PopName() returns (top: Option<string>)
      modifies this`elementStack
      ensures old(elementStack) == [] ==> top == None && elementStack == []
      ensures old(elementStack) != [] ==>
        top == Some(old(elementStack)[|old(elementStack)| - 1]) && elementStack == old(elementStack)[..|old(elementStack)| - 1]
    {
      if elementStack == [] {
        top := None;
      } else {
        top := Some(elementStack[|elementStack| - 1]);
        elementStack := elementStack[..|elementStack| - 1];
      }
    }

    /** The start-tag arm of `next`, after the name has been pushed. */
    method StartTag(name: string, ghost below: seq<string>) returns (item: Result<Event>)
      requires Valid()
      modifies this`cursor
      ensures Valid()
      ensures PullEvent(parsers, [StartElement(name)] + old(Remaining()), below) == Pulled(Some(item), Remaining(), below + [name])
    {
      ghost var before := Remaining();
      assert Advance([StartElement(name)] + before) == (StartElement(name), before);
      var p := parsers;
      if name == "plist" {
        item := Ok(StartPlist);
      } else if name == "array" {
        item := Ok(StartArray(None));
      } else if name == "dict" {
        item := Ok(StartDictionary(None));
      } else if name == "key" {
        item := ReadContent(StringContent);
      } else if name == "true" {
        item := Ok(BooleanValue(true));
      } else if name == "false" {
        item := Ok(BooleanValue(false));
      } else if name == "data" {
        item := ReadContent(s => DataContent(p, s));
      } else if name == "date" {
        item := ReadContent(s => DateContent(p, s));
      } else if name == "integer" {
        item := ReadContent(IntegerContent);
      } else if name == "real" {
        item := ReadContent(s => RealContent(p, s));
      } else if name == "string" {
        item := ReadContent(StringContent);
      } else {
        item := Err(InvalidData);
      }
    }

    /** `Iterator::next`: one event, an error, or `None` at the end of a complete document. */
    method Next() returns (item: Option<Result<Event>>)
      requires Valid()
      modifies this`cursor, this`elementStack
      ensures Valid()
      ensures Pulled(item, Remaining(), elementStack) == PullEvent(parsers, old(Remaining()), old(elementStack))
    {
      while true
        invariant Valid()
        invariant PullEvent(parsers, Remaining(), elementStack) == PullEvent(parsers, old(Remaining()), old(elementStack))
        decreases |tokens| - cursor
      {
        ghost var before := Remaining();
        ghost var stackBefore := elementStack;
        var tok := NextToken();
        match tok {
          case StartElement(name) =>
            // the element is recorded before its name is looked at
            elementStack := elementStack + [name];
            assert before == [StartElement(name)] + Remaining();
            var r := StartTag(name, stackBefore);
            return Some(r);
          case EndElement(name) =>
            var open := PopName();
            match open {
              case Some(openName) =>
                if openName != name {
                  return Some(Err(InvalidData));
                }
              case None =>
                return Some(Err(InvalidData));
            }
            if name == "array" {
              return Some(Ok(EndArray));
            } else if name == "dict" {
              return Some(Ok(EndDictionary));
            } else if name == "plist" {
              return Some(Ok(EndPlist));
            }
          case EndDocument =>
            if elementStack == [] {
              return None;
            } else {
              return Some(Err(UnexpectedEof));
            }
          case _ =>
        }
      }
    }
  }

  // ---------------------------------------------------------------------
  // Properties of one call of `next`
  // ---------------------------------------------------------------------

  /** The tag names the reader knows; anything else is `InvalidData`. */
  predicate IsPlistTag(name: string)
  {
    name in ["plist", "array", "dict", "key", "true", "false", "data", "date", "integer", "real", "string"]
  }

  /** Every start tag, known or not, is pushed onto the element stack. */
  lemma StartTagIsPushed(p: Parsers, name: string, rest: seq<XmlEvent>, stack: seq<string>)
    ensures PullEvent(p, [StartElement(name)] + rest, stack).stack == stack + [name]
    ensures !IsPlistTag(name) ==> PullEvent(p, [StartElement(name)] + rest, stack) == Pulled(Some(Err(InvalidData)), rest, stack + [name])
  {
    assert ([StartElement(name)] + rest)[1..] == rest;
  }

  /** Container tags yield their start events, with no length hint, and read nothing more. */
  lemma ContainerStartTags(p: Parsers, rest: seq<XmlEvent>, stack: seq<string>)
    ensures PullEvent(p, [StartElement("plist")] + rest, stack) == Pulled(Some(Ok(StartPlist)), rest, stack + ["plist"])
    ensures PullEvent(p, [StartElement("array")] + rest, stack) == Pulled(Some(Ok(StartArray(None))), rest, stack + ["array"])
    ensures PullEvent(p, [StartElement("dict")] + rest, stack) == Pulled(Some(Ok(StartDictionary(None))), rest, stack + ["dict"])
  {
    assert ([StartElement("plist")] + rest)[1..] == rest;
    assert ([StartElement("array")] + rest)[1..] == rest;
    assert ([StartElement("dict")] + rest)[1..] == rest;
  }

  /** `true` and `false` yield booleans without reading any content. */
  lemma BooleanTags(p: Parsers, rest: seq<XmlEvent>, stack: seq<string>)
    ensures PullEvent(p, [StartElement("true")] + rest, stack) == Pulled(Some(Ok(BooleanValue(true))), rest, stack + ["true"])
    ensures PullEvent(p, [StartElement("false")] + rest, stack) == Pulled(Some(Ok(BooleanValue(false))), rest, stack + ["false"])
  {
    assert ([StartElement("true")] + rest)[1..] == rest;
    assert ([StartElement("false")] + rest)[1..] == rest;
  }

  /**
   * `key` and `string` consume exactly one more token, which must be
   * character data; anything else there (the end tag of an empty
   * element, say, or the end of the input) is `InvalidData`.
   */
  lemma TextTags(p: Parsers, name: string, tok: XmlEvent, rest: seq<XmlEvent>, stack: seq<string>)
    requires name == "key" || name == "string"
    ensures PullEvent(p, [StartElement(name), tok] + rest, stack)
         == Pulled(Some(if tok.Characters? then Ok(StringValue(tok.text)) else Err(InvalidData)), rest, stack + [name])
    ensures PullEvent(p, [StartElement(name)], stack) == Pulled(Some(Err(InvalidData)), [], stack + [name])
  {
    assert ([StartElement(name), tok] + rest)[1..] == [tok] + rest;
    assert ([tok] + rest)[1..] == rest;
  }

  /** Leaf content that does not decode is `InvalidData` (dates report their own parse error). */
  lemma DecodedContent(p: Parsers, s: string, rest: seq<XmlEvent>, stack: seq<string>)
    ensures PullEvent(p, [StartElement("integer"), Characters(s)] + rest, stack).item
         == Some(if Decimal.ParseI64(s).Some? then Ok(IntegerValue(Decimal.ParseI64(s).value)) else Err(InvalidData))
    ensures PullEvent(p, [StartElement("data"), Characters(s)] + rest, stack).item
         == Some(if p.data(s).Some? then Ok(DataValue(p.data(s).value)) else Err(InvalidData))
    ensures PullEvent(p, [StartElement("real"), Characters(s)] + rest, stack).item
         == Some(if p.float(s).Some? then Ok(RealValue(p.float(s).value)) else Err(InvalidData))
    ensures PullEvent(p, [StartElement("date"), Characters(s)] + rest, stack).item
         == Some(if p.date(s).Ok? then Ok(DateValue(p.date(s).value)) else Err(p.date(s).error))
  {
    var tail := [Characters(s)] + rest;
    assert tail[1..] == rest;
    assert ([StartElement("integer"), Characters(s)] + rest)[1..] == tail;
    assert ([StartElement("data"), Characters(s)] + rest)[1..] == tail;
    assert ([StartElement("real"), Characters(s)] + rest)[1..] == tail;
    assert ([StartElement("date"), Characters(s)] + rest)[1..] == tail;
  }

  /** An end tag with no open element, or one that does not close the innermost element, is `InvalidData`. */
  lemma EndTagMismatch(p: Parsers, name: string, rest: seq<XmlEvent>, stack: seq<string>)
    requires stack == [] || stack[|stack| - 1] != name
    ensures PullEvent(p, [EndElement(name)] + rest, stack)
         == Pulled(Some(Err(InvalidData)), rest, if stack == [] then [] else stack[..|stack| - 1])
  {
    assert ([EndElement(name)] + rest)[1..] == rest;
  }

  /**
   * A matching end tag pops its name; the container end tags yield their
   * end events, and every other one is passed over without an event.
   */
  lemma MatchingEndTag(p: Parsers, name: string, rest: seq<XmlEvent>, below: seq<string>)
    ensures name == "array" ==> PullEvent(p, [EndElement(name)] + rest, below + [name]) == Pulled(Some(Ok(EndArray)), rest, below)
    ensures name == "dict" ==> PullEvent(p, [EndElement(name)] + rest, below + [name]) == Pulled(Some(Ok(EndDictionary)), rest, below)
    ensures name == "plist" ==> PullEvent(p, [EndElement(name)] + rest, below + [name]) == Pulled(Some(Ok(EndPlist)), rest, below)
    ensures name != "array" && name != "dict" && name != "plist" ==>
      PullEvent(p, [EndElement(name)] + rest, below + [name]) == PullEvent(p, rest, below)
  {
    assert ([EndElement(name)] + rest)[1..] == rest;
    assert (below + [name])[..|below|] == below;
  }

  /**
   * The end of the document (reported, or reached by running out of
   * tokens) ends the stream exactly when no element is open, and is
   * `UnexpectedEof` otherwise; other tokens are skipped.
   */
  lemma EndOfDocument(p: Parsers, rest: seq<XmlEvent>, stack: seq<string>)
    ensures PullEvent(p, [], stack).item == (if stack == [] then None else Some(Err(UnexpectedEof)))
    ensures PullEvent(p, [EndDocument] + rest, stack).item == (if stack == [] then None else Some(Err(UnexpectedEof)))
    ensures PullEvent(p, [Other] + rest, stack) == PullEvent(p, rest, stack)
    ensures forall s :: PullEvent(p, [Characters(s)] + rest, stack) == PullEvent(p, rest, stack)
  {
    assert ([Other] + rest)[1..] == rest;
    forall s ensures PullEvent(p, [Characters(s)] + rest, stack) == PullEvent(p, rest, stack) {
      assert ([Characters(s)] + rest)[1..] == rest;
    }
  }
}
