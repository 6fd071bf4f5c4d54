/**
 * How the writer, the reader and the serializer fit together.
 *
 * A well-formed event stream is the flattening of a `Tree`: scalars,
 * arrays of trees and dictionaries of string keys and trees. The writer
 * accepts the events of any tree from an empty stack and emits a
 * complete `plist` document; fed token for token to the reader (empty
 * character data disappears on the way, as an XML tokenizer reports
 * none), that document reads back as the same events, wrapped in
 * `StartPlist`/`EndPlist` and with the length hints gone, whenever every
 * text in it is non-empty and every text encoding is undone by the
 * matching decoder.
 */
module RoundTrip {
  import opened Plist
  import Decimal
  import W = XmlWriter
  import R = XmlReader
  import S = Ser

  // ---------------------------------------------------------------------
  // Event trees
  // ---------------------------------------------------------------------

  datatype Tree =
    | Scalar(event: Event)
    | ArrayNode(arrayLen: Option<u64>, items: seq<Tree>)
    | DictNode(dictLen: Option<u64>, pairs: seq<Pair>)

  datatype Pair = Pair(key: string, value: Tree)

  /** Scalars hold scalar events. */
  predicate WellFormed(t: Tree)
  {
    match t
    case Scalar(e) => W.IsScalar(e)
    case ArrayNode(_, items) => forall i :: 0 <= i < |items| ==> WellFormed(items[i])
    case DictNode(_, pairs) => forall i :: 0 <= i < |pairs| ==> WellFormed(pairs[i].value)
  }

  /** The events of a tree, in document order. */
  function Events(t: Tree): seq<Event>
  {
    match t
    case Scalar(e) => [e]
    case ArrayNode(len, items) => [StartArray(len)] + ItemEvents(items) + [EndArray]
    case DictNode(len, pairs) => [StartDictionary(len)] + PairsEvents(pairs) + [EndDictionary]
  }

  function ItemEvents(ts: seq<Tree>): seq<Event>
  {
    if ts == [] then [] else Events(ts[0]) + ItemEvents(ts[1..])
  }

  function PairEvents(pr: Pair): seq<Event>
  {
    [StringValue(pr.key)] + Events(pr.value)
  }

  function PairsEvents(ps: seq<Pair>): seq<Event>
  {
    if ps == [] then [] else PairEvents(ps[0]) + PairsEvents(ps[1..])
  }

  /** The emitter tokens of a tree as an element of a document. */
  function Xml(c: W.Renderers, t: Tree): seq<W.XmlToken>
    requires WellFormed(t)
  {
    match t
    case Scalar(e) => W.ScalarTokens(c, e)
    case ArrayNode(_, items) => [W.StartElement("array", [])] + ItemsXml(c, items) + [W.EndElement("array")]
    case DictNode(_, pairs) => [W.StartElement("dict", [])] + PairsXml(c, pairs) + [W.EndElement("dict")]
  }

  function ItemsXml(c: W.Renderers, ts: seq<Tree>): seq<W.XmlToken>
    requires forall i :: 0 <= i < |ts| ==> WellFormed(ts[i])
  {
    if ts == [] then [] else Xml(c, ts[0]) + ItemsXml(c, ts[1..])
  }

  function PairXml(c: W.Renderers, pr: Pair): seq<W.XmlToken>
    requires WellFormed(pr.value)
  {
    W.Leaf("key", pr.key) + Xml(c, pr.value)
  }

  function PairsXml(c: W.Renderers, ps: seq<Pair>): seq<W.XmlToken>
    requires forall i :: 0 <= i < |ps| ==> WellFormed(ps[i].value)
  {
    if ps == [] then [] else PairXml(c, ps[0]) + PairsXml(c, ps[1..])
  }

  lemma {:induction false} EventsAreValueEvents(t: Tree)
    requires WellFormed(t)
    ensures W.AllValueEvents(Events(t))
    decreases t, 1
  {
    match t
    case Scalar(_) =>
    case ArrayNode(len, items) =>
      ItemEventsAreValueEvents(items);
      AllValueEventsConcat([StartArray(len)], ItemEvents(items), [EndArray]);
    case DictNode(len, pairs) =>
      PairsEventsAreValueEvents(pairs);
      AllValueEventsConcat([StartDictionary(len)], PairsEvents(pairs), [EndDictionary]);
  }

  lemma {:induction false} ItemEventsAreValueEvents(ts: seq<Tree>)
    requires forall i :: 0 <= i < |ts| ==> WellFormed(ts[i])
    ensures W.AllValueEvents(ItemEvents(ts))
    decreases ts, 0
  {
    if ts != [] {
      EventsAreValueEvents(ts[0]);
      ItemEventsAreValueEvents(ts[1..]);
      AllValueEventsConcat(Events(ts[0]), ItemEvents(ts[1..]), []);
      assert Events(ts[0]) + ItemEvents(ts[1..]) + [] == ItemEvents(ts);
    }
  }

  lemma {:induction false} PairsEventsAreValueEvents(ps: seq<Pair>)
    requires forall i :: 0 <= i < |ps| ==> WellFormed(ps[i].value)
    ensures W.AllValueEvents(PairsEvents(ps))
    decreases ps, 0
  {
    if ps != [] {
      PairEventsAreValueEvents(ps[0]);
      PairsEventsAreValueEvents(ps[1..]);
      AllValueEventsConcat(PairEvents(ps[0]), PairsEvents(ps[1..]), []);
      assert PairEvents(ps[0]) + PairsEvents(ps[1..]) + [] == PairsEvents(ps);
    }
  }

  lemma {:induction false} PairEventsAreValueEvents(pr: Pair)
    requires WellFormed(pr.value)
    ensures W.AllValueEvents(PairEvents(pr))
    decreases pr, 0
  {
    EventsAreValueEvents(pr.value);
    AllValueEventsConcat([StringValue(pr.key)], Events(pr.value), []);
    assert [StringValue(pr.key)] + Events(pr.value) + [] == PairEvents(pr);
  }

  lemma AllValueEventsConcat(a: seq<Event>, b: seq<Event>, d: seq<Event>)
    requires W.AllValueEvents(a) && W.AllValueEvents(b) && W.AllValueEvents(d)
    ensures W.AllValueEvents(a + b + d)
  {
    var all := a + b + d;
    forall i | 0 <= i < |all| ensures IsValueEvent(all[i]) {
      if i < |a| {
        assert all[i] == a[i];
      } else if i < |a| + |b| {
        assert all[i] == b[i - |a|];
      } else {
        assert all[i] == d[i - |a| - |b|];
      }
    }
  }

  /** No array or dictionary of the tree carries a length hint. */
  predicate HintFree(t: Tree)
  {
    match t
    case Scalar(_) => true
    case ArrayNode(len, items) => len == None && forall i :: 0 <= i < |items| ==> HintFree(items[i])
    case DictNode(len, pairs) => len == None && forall i :: 0 <= i < |pairs| ==> HintFree(pairs[i].value)
  }

  /** Dropping the hints changes nothing in the events of a hint-free tree. */
  lemma {:induction false} HintFreeEvents(t: Tree)
    requires WellFormed(t) && HintFree(t)
    ensures WithoutHints(Events(t)) == Events(t)
    decreases t, 1
  {
    match t
    case Scalar(e) =>
    case ArrayNode(len, items) =>
      HintFreeItemEvents(items);
      WithoutHintsAppend([StartArray(len)] + ItemEvents(items), [EndArray]);
      WithoutHintsAppend([StartArray(len)], ItemEvents(items));
      assert WithoutHints([StartArray(len)]) == [StartArray(len)] && WithoutHints([EndArray]) == [EndArray];
    case DictNode(len, pairs) =>
      HintFreePairsEvents(pairs);
      WithoutHintsAppend([StartDictionary(len)] + PairsEvents(pairs), [EndDictionary]);
      WithoutHintsAppend([StartDictionary(len)], PairsEvents(pairs));
      assert WithoutHints([StartDictionary(len)]) == [StartDictionary(len)] && WithoutHints([EndDictionary]) == [EndDictionary];
  }

  lemma {:induction false} HintFreeItemEvents(ts: seq<Tree>)
    requires forall i :: 0 <= i < |ts| ==> WellFormed(ts[i]) && HintFree(ts[i])
    ensures WithoutHints(ItemEvents(ts)) == ItemEvents(ts)
    decreases ts, 0
  {
    if ts != [] {
      HintFreeEvents(ts[0]);
      HintFreeItemEvents(ts[1..]);
      WithoutHintsAppend(Events(ts[0]), ItemEvents(ts[1..]));
    }
  }

  lemma {:induction false} HintFreePairsEvents(ps: seq<Pair>)
    requires forall i :: 0 <= i < |ps| ==> WellFormed(ps[i].value) && HintFree(ps[i].value)
    ensures WithoutHints(PairsEvents(ps)) == PairsEvents(ps)
    decreases ps, 0
  {
    if ps != [] {
      HintFreeEvents(ps[0].value);
      HintFreePairsEvents(ps[1..]);
      WithoutHintsAppend([StringValue(ps[0].key)], Events(ps[0].value));
      WithoutHintsAppend(PairEvents(ps[0]), PairsEvents(ps[1..]));
    }
  }

  // ---------------------------------------------------------------------
  // The writer accepts every tree
  // ---------------------------------------------------------------------

  /** A stack at which the writer expects a value: the root, an array, or a dictionary after its key. */
  predicate ValuePosition(st: seq<W.Element>)
  {
    W.ValidStack(st) && st != [] && st[|st| - 1] != W.Dictionary(W.ExpectKey)
  }

  /** What `write` puts back for the frame it pops before a value. */
  function Flip(f: W.Element): W.Element
  {
    if f == W.Dictionary(W.ExpectValue) then W.Dictionary(W.ExpectKey) else f
  }

  /** The stack below a value while its contents are written. */
  function Reopened(st: seq<W.Element>): seq<W.Element>
    requires st != []
  {
    st[..|st| - 1] + [Flip(st[|st| - 1])]
  }

  /** The stack once a complete value has been written at `st`: the document is closed at the root. */
  function AfterValue(st: seq<W.Element>): seq<W.Element>
    requires st != []
  {
    if |st| == 1 then [] else Reopened(st)
  }

  /** What the writer emits after a complete value at `st`: `</plist>` at the root, else nothing. */
  function Closing(st: seq<W.Element>): seq<W.XmlToken>
  {
    if |st| == 1 then [W.EndElement("plist")] else []
  }

  lemma ReopenedFacts(st: seq<W.Element>, out: seq<W.XmlToken>)
    requires ValuePosition(st)
    ensures W.Reopen(W.WriterState(W.Below(st), out), W.Top(st)) == W.WriterState(Reopened(st), out)
    ensures W.ValidStack(Reopened(st)) && |Reopened(st)| == |st|
    ensures |st| == 1 <==> Reopened(st) == [W.Root]
  {
    var n := |st|;
    var top := st[n - 1];
    W.ValidBelow(st);
    if n == 1 {
      assert top == W.Root;
    } else {
      assert top != W.Root;
      W.ValidPush(W.Below(st), Flip(top));
      assert Reopened(st)[0] == st[0];
    }
  }

  lemma ScalarAt(c: W.Renderers, st: seq<W.Element>, out: seq<W.XmlToken>, e: Event)
    requires ValuePosition(st) && W.IsScalar(e)
    ensures W.Step(c, W.WriterState(st, out), e)
         == W.Outcome(Ok(()), W.WriterState(AfterValue(st), out + W.ScalarTokens(c, e) + Closing(st)))
  {
    ReopenedFacts(st, out);
  }

  lemma OpenArrayAt(c: W.Renderers, st: seq<W.Element>, out: seq<W.XmlToken>, len: Option<u64>)
    requires ValuePosition(st)
    ensures W.Step(c, W.WriterState(st, out), StartArray(len))
         == W.Outcome(Ok(()), W.WriterState(Reopened(st) + [W.Array], out + [W.StartElement("array", [])]))
  {
    ReopenedFacts(st, out);
  }

  lemma OpenDictAt(c: W.Renderers, st: seq<W.Element>, out: seq<W.XmlToken>, len: Option<u64>)
    requires ValuePosition(st)
    ensures W.Step(c, W.WriterState(st, out), StartDictionary(len))
         == W.Outcome(Ok(()), W.WriterState(Reopened(st) + [W.Dictionary(W.ExpectKey)], out + [W.StartElement("dict", [])]))
  {
    ReopenedFacts(st, out);
  }

  lemma CloseArrayAt(c: W.Renderers, st: seq<W.Element>, out: seq<W.XmlToken>)
    requires ValuePosition(st)
    ensures W.Step(c, W.WriterState(Reopened(st) + [W.Array], out), EndArray)
         == W.Outcome(Ok(()), W.WriterState(AfterValue(st), out + [W.EndElement("array")] + Closing(st)))
  {
    ReopenedFacts(st, out);
    var inner := Reopened(st) + [W.Array];
    assert W.Top(inner) == Some(W.Array) && W.Below(inner) == Reopened(st);
    assert Reopened(st)[0] == W.Root;
  }

  lemma CloseDictAt(c: W.Renderers, st: seq<W.Element>, out: seq<W.XmlToken>)
    requires ValuePosition(st)
    ensures W.Step(c, W.WriterState(Reopened(st) + [W.Dictionary(W.ExpectKey)], out), EndDictionary)
         == W.Outcome(Ok(()), W.WriterState(AfterValue(st), out + [W.EndElement("dict")] + Closing(st)))
  {
    ReopenedFacts(st, out);
    var inner := Reopened(st) + [W.Dictionary(W.ExpectKey)];
    assert W.Top(inner) == Some(W.Dictionary(W.ExpectKey)) && W.Below(inner) == Reopened(st);
    assert Reopened(st)[0] == W.Root;
  }

  lemma RunSingle(c: W.Renderers, s: W.WriterState, e: Event)
    requires IsValueEvent(e)
    ensures W.AllValueEvents([e])
    ensures W.Run(c, s, [e]) == W.Step(c, s, e)
  {
    assert [e][1..] == [];
    var o := W.Step(c, s, e);
    assert W.Run(c, o.state, []) == W.Outcome(Ok(()), o.state);
  }

  /**
   * The events of a tree written at a value position are accepted: the
   * tree's tokens are emitted, the frames above `st` are back as they
   * were (the parent flipped to its next key) and the document is closed
   * if the tree was the top-level value.
   */
  lemma {:induction false} WriteTree(c: W.Renderers, st: seq<W.Element>, out: seq<W.XmlToken>, t: Tree)
    requires ValuePosition(st) && WellFormed(t)
    ensures W.AllValueEvents(Events(t))
    ensures W.Run(c, W.WriterState(st, out), Events(t))
         == W.Outcome(Ok(()), W.WriterState(AfterValue(st), out + Xml(c, t) + Closing(st)))
    decreases t, 2
  {
    EventsAreValueEvents(t);
    match t
    case Scalar(e) =>
      RunSingle(c, W.WriterState(st, out), e);
      ScalarAt(c, st, out, e);
    case ArrayNode(_, _) =>
      WriteArray(c, st, out, t);
    case DictNode(_, _) =>
      WriteDict(c, st, out, t);
  }

  /** Three parts that each succeed, run one after the other. */
  lemma RunInTurnThree(c: W.Renderers, a: seq<Event>, b: seq<Event>, d: seq<Event>,
                       s0: W.WriterState, s1: W.WriterState, s2: W.WriterState, s3: W.WriterState)
    requires W.AllValueEvents(a) && W.AllValueEvents(b) && W.AllValueEvents(d)
    requires W.Run(c, s0, a) == W.Outcome(Ok(()), s1)
    requires W.Run(c, s1, b) == W.Outcome(Ok(()), s2)
    requires W.Run(c, s2, d) == W.Outcome(Ok(()), s3)
    ensures W.AllValueEvents(a + b + d)
    ensures W.Run(c, s0, a + b + d) == W.Outcome(Ok(()), s3)
  {
    RunInTurn(c, a, b, s0, s1, s2);
    RunInTurn(c, a + b, d, s0, s2, s3);
  }

  lemma {:induction false} WriteArray(c: W.Renderers, st: seq<W.Element>, out: seq<W.XmlToken>, t: Tree)
    requires ValuePosition(st) && WellFormed(t) && t.ArrayNode?
    ensures W.AllValueEvents(Events(t))
    ensures W.Run(c, W.WriterState(st, out), Events(t))
         == W.Outcome(Ok(()), W.WriterState(AfterValue(st), out + Xml(c, t) + Closing(st)))
    decreases t, 1
  {
    var inner := Reopened(st) + [W.Array];
    assert W.Run(c, W.WriterState(inner, out + [W.StartElement("array", [])]), ItemEvents(t.items))
        == W.Outcome(Ok(()), W.WriterState(inner, out + [W.StartElement("array", [])] + ItemsXml(c, t.items))) by {
      ReopenedFacts(st, out);
      W.ValidPush(Reopened(st), W.Array);
      WriteItems(c, inner, out + [W.StartElement("array", [])], t.items);
    }
    ArrayAround(c, st, out, t.arrayLen, ItemEvents(t.items), ItemsXml(c, t.items));
    assert Events(t) == [StartArray(t.arrayLen)] + ItemEvents(t.items) + [EndArray];
    assert Xml(c, t) == [W.StartElement("array", [])] + ItemsXml(c, t.items) + [W.EndElement("array")];
  }

  /** Opening the array in value position. */
  lemma OpenArrayRun(c: W.Renderers, st: seq<W.Element>, out: seq<W.XmlToken>, len: Option<u64>)
    requires ValuePosition(st)
    ensures W.AllValueEvents([StartArray(len)])
    ensures W.Run(c, W.WriterState(st, out), [StartArray(len)])
         == W.Outcome(Ok(()), W.WriterState(Reopened(st) + [W.Array], out + [W.StartElement("array", [])]))
  {
    RunSingle(c, W.WriterState(st, out), StartArray(len));
    OpenArrayAt(c, st, out, len);
  }

  /** Closing the array, which also closes the document when it was the top-level value. */
  lemma CloseArrayRun(c: W.Renderers, st: seq<W.Element>, out: seq<W.XmlToken>)
    requires ValuePosition(st)
    ensures W.AllValueEvents([EndArray])
    ensures W.Run(c, W.WriterState(Reopened(st) + [W.Array], out), [EndArray])
         == W.Outcome(Ok(()), W.WriterState(AfterValue(st), out + [W.EndElement("array")] + Closing(st)))
  {
    RunSingle(c, W.WriterState(Reopened(st) + [W.Array], out), EndArray);
    CloseArrayAt(c, st, out);
  }

  lemma AppendNothing(a: seq<W.XmlToken>, b: seq<W.XmlToken>, m: seq<W.XmlToken>)
    ensures a + b + m + [] == a + (b + m)
  {
  }

  lemma Regroup(a: seq<W.XmlToken>, b: seq<W.XmlToken>, m: seq<W.XmlToken>, z: seq<W.XmlToken>, t: seq<W.XmlToken>)
    ensures a + b + m + z + t == a + (b + m + z) + t
  {
  }

  /** Once the items are written inside the open array, the whole array is written. */
  lemma ArrayAround(c: W.Renderers, st: seq<W.Element>, out: seq<W.XmlToken>, len: Option<u64>,
                     mid: seq<Event>, midXml: seq<W.XmlToken>)
    requires ValuePosition(st) && W.AllValueEvents(mid)
    requires W.Run(c, W.WriterState(Reopened(st) + [W.Array], out + [W.StartElement("array", [])]), mid)
          == W.Outcome(Ok(()), W.WriterState(Reopened(st) + [W.Array], out + [W.StartElement("array", [])] + midXml))
    ensures W.AllValueEvents([StartArray(len)] + mid + [EndArray])
    ensures W.Run(c, W.WriterState(st, out), [StartArray(len)] + mid + [EndArray])
         == W.Outcome(Ok(()), W.WriterState(AfterValue(st), out + ([W.StartElement("array", [])] + midXml + [W.EndElement("array")]) + Closing(st)))
  {
    var inner := Reopened(st) + [W.Array];
    var s0 := W.WriterState(st, out);
    var s1 := W.WriterState(inner, out + [W.StartElement("array", [])]);
    var s2 := W.WriterState(inner, s1.output + midXml);
    var s3 := W.WriterState(AfterValue(st), s2.output + [W.EndElement("array")] + Closing(st));
    OpenArrayRun(c, st, out, len);
    CloseArrayRun(c, st, s2.output);
    RunInTurnThree(c, [StartArray(len)], mid, [EndArray], s0, s1, s2, s3);
    Regroup(out, [W.StartElement("array", [])], midXml, [W.EndElement("array")], Closing(st));
  }

  lemma {:induction false} WriteDict(c: W.Renderers, st: seq<W.Element>, out: seq<W.XmlToken>, t: Tree)
    requires ValuePosition(st) && WellFormed(t) && t.DictNode?
    ensures W.AllValueEvents(Events(t))
    ensures W.Run(c, W.WriterState(st, out), Events(t))
         == W.Outcome(Ok(()), W.WriterState(AfterValue(st), out + Xml(c, t) + Closing(st)))
    decreases t, 1
  {
    var inner := Reopened(st) + [W.Dictionary(W.ExpectKey)];
    assert W.Run(c, W.WriterState(inner, out + [W.StartElement("dict", [])]), PairsEvents(t.pairs))
        == W.Outcome(Ok(()), W.WriterState(inner, out + [W.StartElement("dict", [])] + PairsXml(c, t.pairs))) by {
      ReopenedFacts(st, out);
      W.ValidPush(Reopened(st), W.Dictionary(W.ExpectKey));
      WritePairs(c, inner, out + [W.StartElement("dict", [])], t.pairs);
    }
    DictAround(c, st, out, t.dictLen, PairsEvents(t.pairs), PairsXml(c, t.pairs));
    assert Events(t) == [StartDictionary(t.dictLen)] + PairsEvents(t.pairs) + [EndDictionary];
    assert Xml(c, t) == [W.StartElement("dict", [])] + PairsXml(c, t.pairs) + [W.EndElement("dict")];
  }

  /** Opening the dictionary in value position. */
  lemma OpenDictRun(c: W.Renderers, st: seq<W.Element>, out: seq<W.XmlToken>, len: Option<u64>)
    requires ValuePosition(st)
    ensures W.AllValueEvents([StartDictionary(len)])
    ensures W.Run(c, W.WriterState(st, out), [StartDictionary(len)])
         == W.Outcome(Ok(()), W.WriterState(Reopened(st) + [W.Dictionary(W.ExpectKey)], out + [W.StartElement("dict", [])]))
  {
    RunSingle(c, W.WriterState(st, out), StartDictionary(len));
    OpenDictAt(c, st, out, len);
  }

  /** Closing the dictionary, which also closes the document when it was the top-level value. */
  lemma CloseDictRun(c: W.Renderers, st: seq<W.Element>, out: seq<W.XmlToken>)
    requires ValuePosition(st)
    ensures W.AllValueEvents([EndDictionary])
    ensures W.Run(c, W.WriterState(Reopened(st) + [W.Dictionary(W.ExpectKey)], out), [EndDictionary])
         == W.Outcome(Ok(()), W.WriterState(AfterValue(st), out + [W.EndElement("dict")] + Closing(st)))
  {
    RunSingle(c, W.WriterState(Reopened(st) + [W.Dictionary(W.ExpectKey)], out), EndDictionary);
    CloseDictAt(c, st, out);
  }

  /** Once the entries are written inside the open dictionary, the whole dictionary is written. */
  lemma DictAround(c: W.Renderers, st: seq<W.Element>, out: seq<W.XmlToken>, len: Option<u64>,
                     mid: seq<Event>, midXml: seq<W.XmlToken>)
    requires ValuePosition(st) && W.AllValueEvents(mid)
    requires W.Run(c, W.WriterState(Reopened(st) + [W.Dictionary(W.ExpectKey)], out + [W.StartElement("dict", [])]), mid)
          == W.Outcome(Ok(()), W.WriterState(Reopened(st) + [W.Dictionary(W.ExpectKey)], out + [W.StartElement("dict", [])] + midXml))
    ensures W.AllValueEvents([StartDictionary(len)] + mid + [EndDictionary])
    ensures W.Run(c, W.WriterState(st, out), [StartDictionary(len)] + mid + [EndDictionary])
         == W.Outcome(Ok(()), W.WriterState(AfterValue(st), out + ([W.StartElement("dict", [])] + midXml + [W.EndElement("dict")]) + Closing(st)))
  {
    var inner := Reopened(st) + [W.Dictionary(W.ExpectKey)];
    var s0 := W.WriterState(st, out);
    var s1 := W.WriterState(inner, out + [W.StartElement("dict", [])]);
    var s2 := W.WriterState(inner, s1.output + midXml);
    var s3 := W.WriterState(AfterValue(st), s2.output + [W.EndElement("dict")] + Closing(st));
    OpenDictRun(c, st, out, len);
    CloseDictRun(c, st, s2.output);
    RunInTurnThree(c, [StartDictionary(len)], mid, [EndDictionary], s0, s1, s2, s3);
    Regroup(out, [W.StartElement("dict", [])], midXml, [W.EndElement("dict")], Closing(st));
  }

  /** Two parts that each succeed, run one after the other. */
  lemma RunInTurn(c: W.Renderers, a: seq<Event>, b: seq<Event>, s0: W.WriterState, s1: W.WriterState, s2: W.WriterState)
    requires W.AllValueEvents(a) && W.AllValueEvents(b)
    requires W.Run(c, s0, a) == W.Outcome(Ok(()), s1)
    requires W.Run(c, s1, b) == W.Outcome(Ok(()), s2)
    ensures W.AllValueEvents(a + b)
    ensures W.Run(c, s0, a + b) == W.Outcome(Ok(()), s2)
  {
    W.RunAppend(c, s0, a, b);
  }

  /** The items of an array, written inside it, leave the array open with their tokens emitted. */
  lemma {:induction false} WriteItems(c: W.Renderers, st: seq<W.Element>, out: seq<W.XmlToken>, ts: seq<Tree>)
    requires W.ValidStack(st) && |st| >= 2 && st[|st| - 1] == W.Array
    requires forall i :: 0 <= i < |ts| ==> WellFormed(ts[i])
    ensures W.AllValueEvents(ItemEvents(ts))
    ensures W.Run(c, W.WriterState(st, out), ItemEvents(ts)) == W.Outcome(Ok(()), W.WriterState(st, out + ItemsXml(c, ts)))
    decreases ts, 3
  {
    ItemEventsAreValueEvents(ts);
    if ts == [] {
      assert out + [] == out;
    } else {
      var s0 := W.WriterState(st, out);
      var s1 := W.WriterState(st, out + Xml(c, ts[0]));
      var s2 := W.WriterState(st, out + Xml(c, ts[0]) + ItemsXml(c, ts[1..]));
      assert W.Run(c, s0, Events(ts[0])) == W.Outcome(Ok(()), s1) by {
        WriteTree(c, st, out, ts[0]);
        assert AfterValue(st) == st;
        assert out + Xml(c, ts[0]) + Closing(st) == s1.output;
      }
      assert W.Run(c, s1, ItemEvents(ts[1..])) == W.Outcome(Ok(()), s2) by {
        WriteItems(c, st, s1.output, ts[1..]);
      }
      assert s2.output == out + ItemsXml(c, ts);
      EventsAreValueEvents(ts[0]);
      ItemEventsAreValueEvents(ts[1..]);
      RunInTurn(c, Events(ts[0]), ItemEvents(ts[1..]), s0, s1, s2);
    }
  }

  /** The entries of a dictionary, written inside it, leave it waiting for the next key with their tokens emitted. */
  lemma {:induction false} WritePairs(c: W.Renderers, st: seq<W.Element>, out: seq<W.XmlToken>, ps: seq<Pair>)
    requires W.ValidStack(st) && |st| >= 2 && st[|st| - 1] == W.Dictionary(W.ExpectKey)
    requires forall i :: 0 <= i < |ps| ==> WellFormed(ps[i].value)
    ensures W.AllValueEvents(PairsEvents(ps))
    ensures W.Run(c, W.WriterState(st, out), PairsEvents(ps)) == W.Outcome(Ok(()), W.WriterState(st, out + PairsXml(c, ps)))
    decreases ps, 3
  {
    PairsEventsAreValueEvents(ps);
    if ps == [] {
      assert out + [] == out;
    } else {
      var s0 := W.WriterState(st, out);
      var s1 := W.WriterState(st, out + PairXml(c, ps[0]));
      var s2 := W.WriterState(st, out + PairXml(c, ps[0]) + PairsXml(c, ps[1..]));
      assert W.Run(c, s0, PairEvents(ps[0])) == W.Outcome(Ok(()), s1) by {
        WritePair(c, st, out, ps[0]);
      }
      assert W.Run(c, s1, PairsEvents(ps[1..])) == W.Outcome(Ok(()), s2) by {
        WritePairs(c, st, s1.output, ps[1..]);
      }
      assert s2.output == out + PairsXml(c, ps);
      PairEventsAreValueEvents(ps[0]);
      PairsEventsAreValueEvents(ps[1..]);
      RunInTurn(c, PairEvents(ps[0]), PairsEvents(ps[1..]), s0, s1, s2);
    }
  }

  lemma {:induction false} WritePair(c: W.Renderers, st: seq<W.Element>, out: seq<W.XmlToken>, pr: Pair)
    requires W.ValidStack(st) && |st| >= 2 && st[|st| - 1] == W.Dictionary(W.ExpectKey)
    requires WellFormed(pr.value)
    ensures W.AllValueEvents(PairEvents(pr))
    ensures W.Run(c, W.WriterState(st, out), PairEvents(pr)) == W.Outcome(Ok(()), W.WriterState(st, out + PairXml(c, pr)))
    decreases pr, 3
  {
    PairEventsAreValueEvents(pr);
    EventsAreValueEvents(pr.value);
    var below := W.Below(st);
    var valueAt := below + [W.Dictionary(W.ExpectValue)];
    var out1 := out + W.Leaf("key", pr.key);
    assert W.Run(c, W.WriterState(st, out), [StringValue(pr.key)]) == W.Outcome(Ok(()), W.WriterState(valueAt, out1)) by {
      assert below + [W.Dictionary(W.ExpectKey)] == st;
      RunSingle(c, W.WriterState(st, out), StringValue(pr.key));
      W.ExpectKeyStep(c, below, out, StringValue(pr.key));
    }
    assert W.Run(c, W.WriterState(valueAt, out1), Events(pr.value)) == W.Outcome(Ok(()), W.WriterState(st, out + PairXml(c, pr))) by {
      assert below + [W.Dictionary(W.ExpectKey)] == st;
      W.ValidBelow(st);
      W.ValidPush(below, W.Dictionary(W.ExpectValue));
      WriteTree(c, valueAt, out1, pr.value);
      assert |valueAt| == |st| >= 2;
      assert valueAt[..|valueAt| - 1] == below;
      assert AfterValue(valueAt) == st;
      assert Closing(valueAt) == [];
      AppendNothing(out, W.Leaf("key", pr.key), Xml(c, pr.value));
    }
    RunInTurn(c, [StringValue(pr.key)], Events(pr.value), W.WriterState(st, out), W.WriterState(valueAt, out1),
              W.WriterState(st, out + PairXml(c, pr)));
  }

  /** The first write on a fresh writer behaves as if the root had been opened already. */
  lemma RunFromEmpty(c: W.Renderers, out: seq<W.XmlToken>, es: seq<Event>)
    requires W.AllValueEvents(es) && es != []
    ensures W.Run(c, W.WriterState([], out), es) == W.Run(c, W.WriterState([W.Root], out + [W.PlistStart]), es)
  {
    W.FirstWriteOpensDocument(c, out, es[0]);
  }

  /**
   * The events of any tree are accepted by a writer with no document
   * open, which emits the root element around the tree's tokens and is
   * left with no document open again.
   */
  lemma WriteDocument(c: W.Renderers, out: seq<W.XmlToken>, t: Tree)
    requires WellFormed(t)
    ensures W.AllValueEvents(Events(t))
    ensures W.Run(c, W.WriterState([], out), Events(t))
         == W.Outcome(Ok(()), W.WriterState([], out + [W.PlistStart] + Xml(c, t) + [W.EndElement("plist")]))
  {
    EventsAreValueEvents(t);
    assert Events(t) != [];
    RunFromEmpty(c, out, Events(t));
    WriteTree(c, [W.Root], out + [W.PlistStart], t);
  }

  // ---------------------------------------------------------------------
  // The reader reads every readable tree back
  // ---------------------------------------------------------------------

  /** The token the tokenizer reports for an emitter token; empty character data is not reported. */
  function TransportToken(t: W.XmlToken): seq<R.XmlEvent>
  {
    match t
    case StartElement(name, _) => [R.StartElement(name)]
    case EndElement(name) => [R.EndElement(name)]
    case Characters(text) => if text == "" then [] else [R.Characters(text)]
  }

  /** The tokens a tokenizer reports for the markup an emitter wrote from `ts`. */
  function Transport(ts: seq<W.XmlToken>): seq<R.XmlEvent>
  {
    if ts == [] then [] else TransportToken(ts[0]) + Transport(ts[1..])
  }

  lemma {:induction false} TransportAppend(a: seq<W.XmlToken>, b: seq<W.XmlToken>)
    ensures Transport(a + b) == Transport(a) + Transport(b)
    decreases |a|
  {
    if a == [] {
      assert a + b == b;
    } else {
      assert (a + b)[0] == a[0];
      assert (a + b)[1..] == a[1..] + b;
      TransportAppend(a[1..], b);
    }
  }

  lemma TransportOne(t: W.XmlToken)
    ensures Transport([t]) == TransportToken(t)
  {
    assert [t][1..] == [];
  }

  lemma TransportThree(a: W.XmlToken, b: W.XmlToken, d: W.XmlToken)
    ensures Transport([a, b, d]) == TransportToken(a) + TransportToken(b) + TransportToken(d)
  {
    assert [a, b, d] == [a] + [b] + [d];
    TransportAppend([a] + [b], [d]);
    TransportAppend([a], [b]);
    TransportOne(a);
    TransportOne(b);
    TransportOne(d);
  }

  lemma TransportLeaf(name: string, text: string)
    requires text != ""
    ensures Transport(W.Leaf(name, text)) == [R.StartElement(name), R.Characters(text), R.EndElement(name)]
  {
    TransportThree(W.StartElement(name, []), W.Characters(text), W.EndElement(name));
  }

  /** A scalar's text can be read back: it is non-empty and its decoder undoes its encoder. */
  predicate ReadsBack(c: W.Renderers, p: R.Parsers, e: Event)
  {
    match e
    case StringValue(s) => s != ""
    case DataValue(d) => c.data(d) != "" && p.data(c.data(d)) == Some(d)
    case DateValue(t) => c.date(t) != "" && p.date(c.date(t)) == Ok(t)
    case RealValue(x) => c.float(x) != "" && p.float(c.float(x)) == Some(x)
    case _ => true
  }

  /** Every scalar of the tree reads back, and every key is non-empty. */
  predicate Readable(c: W.Renderers, p: R.Parsers, t: Tree)
  {
    match t
    case Scalar(e) => ReadsBack(c, p, e)
    case ArrayNode(_, items) => forall i :: 0 <= i < |items| ==> Readable(c, p, items[i])
    case DictNode(_, pairs) => forall i :: 0 <= i < |pairs| ==> pairs[i].key != "" && Readable(c, p, pairs[i].value)
  }

  lemma PrependNothing(r: Result<seq<Event>>)
    ensures R.Prepend([], r) == r
  {
    if r.Ok? {
      assert [] + r.value == r.value;
    }
  }

  lemma PrependPrepend(a: seq<Event>, b: seq<Event>, r: Result<seq<Event>>)
    ensures R.Prepend(a, R.Prepend(b, r)) == R.Prepend(a + b, r)
  {
    if r.Ok? {
      assert a + (b + r.value) == (a + b) + r.value;
    }
  }

  /** When `next` yields an event, collecting puts it in front of what follows. */
  lemma DrainEvent(p: R.Parsers, rest: seq<R.XmlEvent>, stack: seq<string>, ev: Event, after: seq<R.XmlEvent>, stack2: seq<string>)
    requires R.PullEvent(p, rest, stack) == R.Pulled(Some(Ok(ev)), after, stack2)
    ensures R.Drain(p, rest, stack) == R.Prepend([ev], R.Drain(p, after, stack2))
  {
  }

  /** A matching end tag of a leaf element is passed over. */
  lemma DrainLeafEnd(p: R.Parsers, name: string, rest: seq<R.XmlEvent>, stack: seq<string>)
    requires name != "array" && name != "dict" && name != "plist"
    ensures R.Drain(p, [R.EndElement(name)] + rest, stack + [name]) == R.Drain(p, rest, stack)
  {
    R.MatchingEndTag(p, name, rest, stack);
  }

  /** A text element whose content decodes to `ev` reads as `ev`. */
  lemma ReadLeaf(p: R.Parsers, name: string, text: string, ev: Event, rest: seq<R.XmlEvent>, stack: seq<string>)
    requires name != "array" && name != "dict" && name != "plist"
    requires R.PullEvent(p, [R.StartElement(name), R.Characters(text), R.EndElement(name)] + rest, stack)
          == R.Pulled(Some(Ok(ev)), [R.EndElement(name)] + rest, stack + [name])
    ensures R.Drain(p, [R.StartElement(name), R.Characters(text), R.EndElement(name)] + rest, stack)
         == R.Prepend([ev], R.Drain(p, rest, stack))
  {
    DrainEvent(p, [R.StartElement(name), R.Characters(text), R.EndElement(name)] + rest, stack, ev, [R.EndElement(name)] + rest, stack + [name]);
    DrainLeafEnd(p, name, rest, stack);
  }

  lemma ReadScalar(c: W.Renderers, p: R.Parsers, e: Event, rest: seq<R.XmlEvent>, stack: seq<string>)
    requires W.IsScalar(e) && ReadsBack(c, p, e)
    ensures R.Drain(p, Transport(W.ScalarTokens(c, e)) + rest, stack) == R.Prepend([e], R.Drain(p, rest, stack))
  {
    match e
    case BooleanValue(b) =>
      var name := if b then "true" else "false";
      var toks := [R.StartElement(name), R.EndElement(name)] + rest;
      assert Transport(W.ScalarTokens(c, e)) == [R.StartElement(name), R.EndElement(name)] by {
        assert W.ScalarTokens(c, e) == [W.StartElement(name, [])] + [W.EndElement(name)];
        TransportAppend([W.StartElement(name, [])], [W.EndElement(name)]);
        TransportOne(W.StartElement(name, []));
        TransportOne(W.EndElement(name));
      }
      assert toks[1..] == [R.EndElement(name)] + rest;
      assert Transport(W.ScalarTokens(c, e)) + rest == toks;
      DrainEvent(p, toks, stack, e, [R.EndElement(name)] + rest, stack + [name]);
      DrainLeafEnd(p, name, rest, stack);
    case StringValue(s) =>
      LeafRead(p, "string", s, e, rest, stack);
    case IntegerValue(i) =>
      Decimal.IntToStringNonEmpty(i as int);
      Decimal.IntToStringRoundTrip(i);
      LeafRead(p, "integer", Decimal.IntToString(i as int), e, rest, stack);
    case DataValue(d) =>
      LeafRead(p, "data", c.data(d), e, rest, stack);
    case DateValue(t) =>
      LeafRead(p, "date", c.date(t), e, rest, stack);
    case RealValue(x) =>
      LeafRead(p, "real", c.float(x), e, rest, stack);
  }

  /** The one-token lookahead of a leaf element, stated for the content decoders. */
  lemma LeafRead(p: R.Parsers, name: string, text: string, ev: Event, rest: seq<R.XmlEvent>, stack: seq<string>)
    requires text != ""
    requires name == "string" || name == "integer" || name == "data" || name == "date" || name == "real"
    requires name == "string" ==> ev == StringValue(text)
    requires name == "integer" ==> Decimal.ParseI64(text).Some? && ev == IntegerValue(Decimal.ParseI64(text).value)
    requires name == "data" ==> p.data(text).Some? && ev == DataValue(p.data(text).value)
    requires name == "date" ==> p.date(text).Ok? && ev == DateValue(p.date(text).value)
    requires name == "real" ==> p.float(text).Some? && ev == RealValue(p.float(text).value)
    ensures R.Drain(p, Transport(W.Leaf(name, text)) + rest, stack) == R.Prepend([ev], R.Drain(p, rest, stack))
  {
    TransportLeaf(name, text);
    var toks := [R.StartElement(name), R.Characters(text), R.EndElement(name)] + rest;
    assert toks[1..] == [R.Characters(text)] + ([R.EndElement(name)] + rest);
    assert ([R.Characters(text)] + ([R.EndElement(name)] + rest))[1..] == [R.EndElement(name)] + rest;
    ReadLeaf(p, name, text, ev, rest, stack);
  }

  lemma PrependThree(a: seq<Event>, b: seq<Event>, d: seq<Event>, r: Result<seq<Event>>)
    ensures R.Prepend(a, R.Prepend(b, R.Prepend(d, r))) == R.Prepend(a + b + d, r)
  {
    PrependPrepend(b, d, r);
    PrependPrepend(a, b + d, r);
    assert a + (b + d) == a + b + d;
  }

  /** The tokens of a container: its start tag, the tokens of its contents, its end tag. */
  lemma TransportContainer(name: string, contents: seq<W.XmlToken>)
    ensures Transport([W.StartElement(name, [])] + contents + [W.EndElement(name)])
         == [R.StartElement(name)] + Transport(contents) + [R.EndElement(name)]
  {
    TransportAppend([W.StartElement(name, [])] + contents, [W.EndElement(name)]);
    TransportAppend([W.StartElement(name, [])], contents);
    TransportOne(W.StartElement(name, []));
    TransportOne(W.EndElement(name));
  }

  /**
   * The tokens of a readable tree, followed by anything, read as the
   * tree's events without their hints, followed by whatever the rest
   * reads as; the stack of open names is the same before and after.
   */
  lemma {:induction false} ReadTree(c: W.Renderers, p: R.Parsers, t: Tree, rest: seq<R.XmlEvent>, stack: seq<string>)
    requires WellFormed(t) && Readable(c, p, t)
    ensures R.Drain(p, Transport(Xml(c, t)) + rest, stack) == R.Prepend(WithoutHints(Events(t)), R.Drain(p, rest, stack))
    decreases t, 2
  {
    match t
    case Scalar(e) =>
      ReadScalar(c, p, e, rest, stack);
      assert WithoutHints([e]) == [e];
    case ArrayNode(_, _) =>
      ReadArray(c, p, t, rest, stack);
    case DictNode(_, _) =>
      ReadDict(c, p, t, rest, stack);
  }

  lemma {:induction false} ReadArray(c: W.Renderers, p: R.Parsers, t: Tree, rest: seq<R.XmlEvent>, stack: seq<string>)
    requires WellFormed(t) && Readable(c, p, t) && t.ArrayNode?
    ensures R.Drain(p, Transport(Xml(c, t)) + rest, stack) == R.Prepend(WithoutHints(Events(t)), R.Drain(p, rest, stack))
    decreases t, 1
  {
    var inner := Transport(ItemsXml(c, t.items));
    var close := [R.EndElement("array")] + rest;
    var base := R.Drain(p, rest, stack);
    assert Transport(Xml(c, t)) + rest == [R.StartElement("array")] + inner + [R.EndElement("array")] + rest by {
      TransportContainer("array", ItemsXml(c, t.items));
    }
    assert R.Drain(p, [R.StartElement("array")] + inner + [R.EndElement("array")] + rest, stack)
        == R.Prepend([StartArray(None)], R.Drain(p, inner + close, stack + ["array"]))
      && R.Drain(p, close, stack + ["array"]) == R.Prepend([EndArray], base) by {
      ReadContainer(p, "array", StartArray(None), EndArray, inner, rest, stack);
    }
    assert R.Drain(p, inner + close, stack + ["array"]) == R.Prepend(WithoutHints(ItemEvents(t.items)), R.Drain(p, close, stack + ["array"])) by {
      ReadItems(c, p, t.items, close, stack + ["array"]);
    }
    assert WithoutHints(Events(t)) == [StartArray(None)] + WithoutHints(ItemEvents(t.items)) + [EndArray] by {
      WithoutHintsAppend([StartArray(t.arrayLen)] + ItemEvents(t.items), [EndArray]);
      WithoutHintsAppend([StartArray(t.arrayLen)], ItemEvents(t.items));
    }
    PrependThree([StartArray(None)], WithoutHints(ItemEvents(t.items)), [EndArray], base);
  }

  lemma {:induction false} ReadDict(c: W.Renderers, p: R.Parsers, t: Tree, rest: seq<R.XmlEvent>, stack: seq<string>)
    requires WellFormed(t) && Readable(c, p, t) && t.DictNode?
    ensures R.Drain(p, Transport(Xml(c, t)) + rest, stack) == R.Prepend(WithoutHints(Events(t)), R.Drain(p, rest, stack))
    decreases t, 1
  {
    var inner := Transport(PairsXml(c, t.pairs));
    var close := [R.EndElement("dict")] + rest;
    var base := R.Drain(p, rest, stack);
    assert Transport(Xml(c, t)) + rest == [R.StartElement("dict")] + inner + [R.EndElement("dict")] + rest by {
      TransportContainer("dict", PairsXml(c, t.pairs));
    }
    assert R.Drain(p, [R.StartElement("dict")] + inner + [R.EndElement("dict")] + rest, stack)
        == R.Prepend([StartDictionary(None)], R.Drain(p, inner + close, stack + ["dict"]))
      && R.Drain(p, close, stack + ["dict"]) == R.Prepend([EndDictionary], base) by {
      ReadContainer(p, "dict", StartDictionary(None), EndDictionary, inner, rest, stack);
    }
    assert R.Drain(p, inner + close, stack + ["dict"]) == R.Prepend(WithoutHints(PairsEvents(t.pairs)), R.Drain(p, close, stack + ["dict"])) by {
      ReadPairs(c, p, t.pairs, close, stack + ["dict"]);
    }
    assert WithoutHints(Events(t)) == [StartDictionary(None)] + WithoutHints(PairsEvents(t.pairs)) + [EndDictionary] by {
      WithoutHintsAppend([StartDictionary(t.dictLen)] + PairsEvents(t.pairs), [EndDictionary]);
      WithoutHintsAppend([StartDictionary(t.dictLen)], PairsEvents(t.pairs));
    }
    PrependThree([StartDictionary(None)], WithoutHints(PairsEvents(t.pairs)), [EndDictionary], base);
  }

  /** The start and end tags of a container around some inner tokens. */
  lemma ReadContainer(p: R.Parsers, name: string, start: Event, end: Event, inner: seq<R.XmlEvent>, rest: seq<R.XmlEvent>, stack: seq<string>)
    requires (name == "array" && start == StartArray(None) && end == EndArray)
          || (name == "dict" && start == StartDictionary(None) && end == EndDictionary)
    ensures R.Drain(p, [R.StartElement(name)] + inner + [R.EndElement(name)] + rest, stack)
         == R.Prepend([start], R.Drain(p, inner + ([R.EndElement(name)] + rest), stack + [name]))
    ensures R.Drain(p, [R.EndElement(name)] + rest, stack + [name]) == R.Prepend([end], R.Drain(p, rest, stack))
  {
    var toks := [R.StartElement(name)] + inner + [R.EndElement(name)] + rest;
    assert toks == [R.StartElement(name)] + (inner + ([R.EndElement(name)] + rest));
    R.ContainerStartTags(p, inner + ([R.EndElement(name)] + rest), stack);
    DrainEvent(p, toks, stack, start, inner + ([R.EndElement(name)] + rest), stack + [name]);
    R.MatchingEndTag(p, name, rest, stack);
    DrainEvent(p, [R.EndElement(name)] + rest, stack + [name], end, rest, stack);
  }

  lemma {:induction false} ReadItems(c: W.Renderers, p: R.Parsers, ts: seq<Tree>, rest: seq<R.XmlEvent>, stack: seq<string>)
    requires forall i :: 0 <= i < |ts| ==> WellFormed(ts[i]) && Readable(c, p, ts[i])
    ensures R.Drain(p, Transport(ItemsXml(c, ts)) + rest, stack) == R.Prepend(WithoutHints(ItemEvents(ts)), R.Drain(p, rest, stack))
    decreases ts, 3
  {
    if ts == [] {
      assert Transport([]) + rest == rest;
      PrependNothing(R.Drain(p, rest, stack));
    } else {
      TransportAppend(Xml(c, ts[0]), ItemsXml(c, ts[1..]));
      assert Transport(ItemsXml(c, ts)) + rest == Transport(Xml(c, ts[0])) + (Transport(ItemsXml(c, ts[1..])) + rest);
      ReadTree(c, p, ts[0], Transport(ItemsXml(c, ts[1..])) + rest, stack);
      ReadItems(c, p, ts[1..], rest, stack);
      WithoutHintsAppend(Events(ts[0]), ItemEvents(ts[1..]));
      PrependPrepend(WithoutHints(Events(ts[0])), WithoutHints(ItemEvents(ts[1..])), R.Drain(p, rest, stack));
    }
  }

  lemma {:induction false} ReadPairs(c: W.Renderers, p: R.Parsers, ps: seq<Pair>, rest: seq<R.XmlEvent>, stack: seq<string>)
    requires forall i :: 0 <= i < |ps| ==> ps[i].key != "" && WellFormed(ps[i].value) && Readable(c, p, ps[i].value)
    ensures R.Drain(p, Transport(PairsXml(c, ps)) + rest, stack) == R.Prepend(WithoutHints(PairsEvents(ps)), R.Drain(p, rest, stack))
    decreases ps, 3
  {
    if ps == [] {
      assert Transport([]) + rest == rest;
      PrependNothing(R.Drain(p, rest, stack));
    } else {
      TransportAppend(PairXml(c, ps[0]), PairsXml(c, ps[1..]));
      assert Transport(PairsXml(c, ps)) + rest == Transport(PairXml(c, ps[0])) + (Transport(PairsXml(c, ps[1..])) + rest);
      ReadPair(c, p, ps[0], Transport(PairsXml(c, ps[1..])) + rest, stack);
      ReadPairs(c, p, ps[1..], rest, stack);
      WithoutHintsAppend(PairEvents(ps[0]), PairsEvents(ps[1..]));
      PrependPrepend(WithoutHints(PairEvents(ps[0])), WithoutHints(PairsEvents(ps[1..])), R.Drain(p, rest, stack));
    }
  }

  lemma {:induction false} ReadPair(c: W.Renderers, p: R.Parsers, pr: Pair, rest: seq<R.XmlEvent>, stack: seq<string>)
    requires pr.key != "" && WellFormed(pr.value) && Readable(c, p, pr.value)
    ensures R.Drain(p, Transport(PairXml(c, pr)) + rest, stack) == R.Prepend(WithoutHints(PairEvents(pr)), R.Drain(p, rest, stack))
    decreases pr, 3
  {
    TransportAppend(W.Leaf("key", pr.key), Xml(c, pr.value));
    TransportLeaf("key", pr.key);
    var after := Transport(Xml(c, pr.value)) + rest;
    var toks := [R.StartElement("key"), R.Characters(pr.key), R.EndElement("key")] + after;
    assert Transport(PairXml(c, pr)) + rest == toks;
    assert toks[1..] == [R.Characters(pr.key)] + ([R.EndElement("key")] + after);
    assert ([R.Characters(pr.key)] + ([R.EndElement("key")] + after))[1..] == [R.EndElement("key")] + after;
    ReadLeaf(p, "key", pr.key, StringValue(pr.key), after, stack);
    ReadTree(c, p, pr.value, rest, stack);
    WithoutHintsAppend([StringValue(pr.key)], Events(pr.value));
    assert WithoutHints([StringValue(pr.key)]) == [StringValue(pr.key)];
    PrependPrepend([StringValue(pr.key)], WithoutHints(Events(pr.value)), R.Drain(p, rest, stack));
  }

  /** The root start tag opens the document. */
  lemma OpenDocument(p: R.Parsers, rest: seq<R.XmlEvent>)
    ensures R.Drain(p, [R.StartElement("plist")] + rest, []) == R.Prepend([StartPlist], R.Drain(p, rest, ["plist"]))
  {
    R.ContainerStartTags(p, rest, []);
    assert [] + ["plist"] == ["plist"];
    DrainEvent(p, [R.StartElement("plist")] + rest, [], StartPlist, rest, ["plist"]);
  }

  /** The root end tag closes the document, and nothing follows it. */
  lemma CloseDocument(p: R.Parsers)
    ensures R.Drain(p, [R.EndElement("plist")], ["plist"]) == Ok([EndPlist])
  {
    R.MatchingEndTag(p, "plist", [], []);
    assert [R.EndElement("plist")] + [] == [R.EndElement("plist")];
    assert [] + ["plist"] == ["plist"];
    DrainEvent(p, [R.EndElement("plist")], ["plist"], EndPlist, [], []);
    R.EndOfDocument(p, [], []);
    assert R.Drain(p, [], []) == Ok([]);
    assert [EndPlist] + [] == [EndPlist];
  }

  /** A complete document around the markup of a readable tree reads back as the tree's events, hints dropped. */
  lemma ReadDocument(c: W.Renderers, p: R.Parsers, t: Tree)
    requires WellFormed(t) && Readable(c, p, t)
    ensures R.Drain(p, Transport([W.PlistStart] + Xml(c, t) + [W.EndElement("plist")]), [])
         == Ok([StartPlist] + WithoutHints(Events(t)) + [EndPlist])
  {
    var body := Xml(c, t);
    var inner := Transport(body);
    var close := [R.EndElement("plist")];
    assert Transport([W.PlistStart] + body + [W.EndElement("plist")]) == [R.StartElement("plist")] + (inner + close) by {
      TransportAppend([W.PlistStart] + body, [W.EndElement("plist")]);
      TransportAppend([W.PlistStart], body);
      TransportOne(W.PlistStart);
      TransportOne(W.EndElement("plist"));
    }
    OpenDocument(p, inner + close);
    assert R.Drain(p, inner + close, ["plist"]) == R.Prepend(WithoutHints(Events(t)), R.Drain(p, close, ["plist"])) by {
      ReadTree(c, p, t, close, ["plist"]);
    }
    CloseDocument(p);
    PrependPrepend([StartPlist], WithoutHints(Events(t)), Ok([EndPlist]));
  }

  /**
   * The round trip: the events of a readable tree, written to a fresh
   * writer, are accepted, and the markup it emits reads back as the same
   * events without their length hints, between `StartPlist` and
   * `EndPlist`.
   */
  lemma WriteThenRead(c: W.Renderers, p: R.Parsers, t: Tree)
    requires WellFormed(t) && Readable(c, p, t)
    ensures W.AllValueEvents(Events(t))
    ensures W.Run(c, W.WriterState([], []), Events(t)).result == Ok(())
    ensures R.Drain(p, Transport(W.Run(c, W.WriterState([], []), Events(t)).state.output), [])
         == Ok([StartPlist] + WithoutHints(Events(t)) + [EndPlist])
  {
    var out := [W.PlistStart] + Xml(c, t) + [W.EndElement("plist")];
    EventsAreValueEvents(t);
    assert W.Run(c, W.WriterState([], []), Events(t)) == W.Outcome(Ok(()), W.WriterState([], out)) by {
      WriteDocument(c, [], t);
      assert [] + [W.PlistStart] + Xml(c, t) + [W.EndElement("plist")] == out;
    }
    ReadDocument(c, p, t);
    WrittenThenRead(c, p, Events(t), out, Ok([StartPlist] + WithoutHints(Events(t)) + [EndPlist]));
  }

  /** Chaining a successful write of `es` with the reading of what it emitted. */
  lemma WrittenThenRead(c: W.Renderers, p: R.Parsers, es: seq<Event>, out: seq<W.XmlToken>, r: Result<seq<Event>>)
    requires W.AllValueEvents(es)
    requires W.Run(c, W.WriterState([], []), es) == W.Outcome(Ok(()), W.WriterState([], out))
    requires R.Drain(p, Transport(out), []) == r
    ensures W.Run(c, W.WriterState([], []), es).result == Ok(())
    ensures R.Drain(p, Transport(W.Run(c, W.WriterState([], []), es).state.output), []) == r
  {
  }

  /** An empty string is written without complaint, as an element with no character data. */
  lemma EmptyStringWritten(c: W.Renderers)
    ensures W.Run(c, W.WriterState([], []), [StringValue("")])
         == W.Outcome(Ok(()), W.WriterState([], [W.PlistStart] + W.Leaf("string", "") + [W.EndElement("plist")]))
  {
    WriteDocument(c, [], Scalar(StringValue("")));
    assert Events(Scalar(StringValue(""))) == [StringValue("")];
    assert [] + [W.PlistStart] + W.Leaf("string", "") + [W.EndElement("plist")] == [W.PlistStart] + W.Leaf("string", "") + [W.EndElement("plist")];
  }

  /** Reading that document back fails with `InvalidData`: the tokenizer reports no text for the string. */
  lemma EmptyStringRejected(p: R.Parsers)
    ensures R.Drain(p, Transport([W.PlistStart] + W.Leaf("string", "") + [W.EndElement("plist")]), []) == Err(InvalidData)
  {
    var out := [W.PlistStart] + W.Leaf("string", "") + [W.EndElement("plist")];
    var toks := [R.StartElement("plist"), R.StartElement("string"), R.EndElement("string"), R.EndElement("plist")];
    assert Transport(out) == toks by {
      TransportAppend([W.PlistStart] + W.Leaf("string", ""), [W.EndElement("plist")]);
      TransportAppend([W.PlistStart], W.Leaf("string", ""));
      TransportOne(W.PlistStart);
      TransportOne(W.EndElement("plist"));
      TransportThree(W.StartElement("string", []), W.Characters(""), W.EndElement("string"));
    }
    var rest := [R.StartElement("string"), R.EndElement("string"), R.EndElement("plist")];
    assert toks[1..] == rest;
    assert R.Drain(p, toks, []) == R.Prepend([StartPlist], R.Drain(p, rest, ["plist"])) by {
      R.ContainerStartTags(p, rest, []);
      assert [R.StartElement("plist")] + rest == toks;
      DrainEvent(p, toks, [], StartPlist, rest, ["plist"]);
    }
    assert R.Drain(p, rest, ["plist"]) == Err(InvalidData) by {
      R.TextTags(p, "string", R.EndElement("string"), [R.EndElement("plist")], ["plist"]);
      assert [R.StartElement("string"), R.EndElement("string")] + [R.EndElement("plist")] == rest;
    }
  }

  // ---------------------------------------------------------------------
  // Serialized values are trees
  // ---------------------------------------------------------------------

  /** Every map inside the value has string keys. */
  predicate StringKeys(v: S.Value)
  {
    match v
    case Present(x) => StringKeys(x)
    case Seq(_, xs) => forall i :: 0 <= i < |xs| ==> StringKeys(xs[i])
    case Map(_, es) => forall i :: 0 <= i < |es| ==> es[i].key.Str? && StringKeys(es[i].value)
    case NewtypeStruct(x) => StringKeys(x)
    case NewtypeVariant(_, x) => StringKeys(x)
    case _ => true
  }

  /** The single-key dictionary convention as a tree. */
  function SingleKeyTree(key: string, value: Tree): Tree
  {
    DictNode(Some(1), [Pair(key, value)])
  }

  /**
   * The tree a serialized value forms. A value that fails has no tree
   * (the empty array stands in); a non-string key has no text (the empty
   * key stands in).
   */
  function ToTree(v: S.Value): Tree
  {
    match v
    case Bool(b) => Scalar(BooleanValue(b))
    case I64(i) => Scalar(IntegerValue(i))
    case U64(u) => Scalar(IntegerValue(S.AsI64(u)))
    case Float(x) => Scalar(RealValue(x))
    case Str(s) => Scalar(StringValue(s))
    case Bytes(b) => Scalar(DataValue(b))
    case Unit => Scalar(StringValue(""))
    case Absent => SingleKeyTree("None", Scalar(StringValue("")))
    case Present(x) => SingleKeyTree("Some", ToTree(x))
    case Seq(len, xs) => ArrayNode(len, ToTrees(xs))
    case Map(len, es) => DictNode(len, ToPairs(es))
    case UnitVariant(variant) => SingleKeyTree(variant, Scalar(StringValue("")))
    case NewtypeStruct(x) => ToTree(x)
    case NewtypeVariant(variant, x) => SingleKeyTree(variant, ToTree(x))
    case Failing(_) => ArrayNode(None, [])
  }

  function ToTrees(xs: seq<S.Value>): (ts: seq<Tree>)
    ensures |ts| == |xs|
  {
    if xs == [] then [] else [ToTree(xs[0])] + ToTrees(xs[1..])
  }

  function ToPair(e: S.Entry): Pair
  {
    Pair(if e.key.Str? then e.key.s else "", ToTree(e.value))
  }

  function ToPairs(es: seq<S.Entry>): (ps: seq<Pair>)
    ensures |ps| == |es|
  {
    if es == [] then [] else [ToPair(es[0])] + ToPairs(es[1..])
  }

  /**
   * A value that raises nothing and has string keys serializes to
   * exactly the events of its tree, and that tree is well formed.
   */
  lemma {:induction false} EncodingIsTree(v: S.Value)
    requires S.FaultFree(v) && StringKeys(v)
    ensures WellFormed(ToTree(v))
    ensures S.Encoding(v) == S.Emitted(Events(ToTree(v)), None)
    decreases v, 2
  {
    match v
    case Absent =>
      S.NoneEncoding();
      SingleKeyEvents("None", Scalar(StringValue("")));
    case UnitVariant(variant) =>
      S.VariantEncodings(variant, S.Unit);
      SingleKeyEvents(variant, Scalar(StringValue("")));
    case Present(x) =>
      EncodingIsTree(x);
      S.SomeEncoding(x);
      SingleKeyEvents("Some", ToTree(x));
    case NewtypeStruct(x) =>
      EncodingIsTree(x);
    case NewtypeVariant(variant, x) =>
      EncodingIsTree(x);
      S.VariantEncodings(variant, x);
      SingleKeyEvents(variant, ToTree(x));
    case Seq(len, xs) =>
      ItemsAreTrees(xs);
      S.ContainerEncodings(len, xs, []);
    case Map(len, es) =>
      EntriesArePairs(es);
      S.ContainerEncodings(len, [], es);
    case _ =>
  }

  lemma SingleKeyEvents(key: string, t: Tree)
    ensures Events(SingleKeyTree(key, t)) == [StartDictionary(Some(1)), StringValue(key)] + Events(t) + [EndDictionary]
  {
    var ps := [Pair(key, t)];
    assert ps[1..] == [];
    assert PairsEvents(ps) == [StringValue(key)] + Events(t);
  }

  lemma {:induction false} ItemsAreTrees(xs: seq<S.Value>)
    requires forall i :: 0 <= i < |xs| ==> S.FaultFree(xs[i]) && StringKeys(xs[i])
    ensures forall i :: 0 <= i < |xs| ==> WellFormed(ToTrees(xs)[i])
    ensures S.SeqEncoding(xs) == S.Emitted(ItemEvents(ToTrees(xs)), None)
    decreases xs, 1
  {
    if xs != [] {
      EncodingIsTree(xs[0]);
      ItemsAreTrees(xs[1..]);
      var ts := ToTrees(xs);
      assert ts[0] == ToTree(xs[0]) && ts[1..] == ToTrees(xs[1..]);
      forall i | 0 <= i < |xs| ensures WellFormed(ts[i]) {
        if i > 0 { assert ts[i] == ToTrees(xs[1..])[i - 1]; }
      }
    }
  }

  lemma {:induction false} EntriesArePairs(es: seq<S.Entry>)
    requires forall i :: 0 <= i < |es| ==> S.FaultFree(es[i].key) && S.FaultFree(es[i].value) && es[i].key.Str? && StringKeys(es[i].value)
    ensures forall i :: 0 <= i < |es| ==> WellFormed(ToPairs(es)[i].value)
    ensures S.EntriesEncoding(es) == S.Emitted(PairsEvents(ToPairs(es)), None)
    decreases es, 1
  {
    if es != [] {
      EntryIsPair(es[0]);
      EntriesArePairs(es[1..]);
      var ps := ToPairs(es);
      assert ps[0] == ToPair(es[0]) && ps[1..] == ToPairs(es[1..]);
      forall i | 0 <= i < |es| ensures WellFormed(ps[i].value) {
        if i > 0 { assert ps[i] == ToPairs(es[1..])[i - 1]; }
      }
    }
  }

  lemma {:induction false} EntryIsPair(e: S.Entry)
    requires S.FaultFree(e.key) && S.FaultFree(e.value) && e.key.Str? && StringKeys(e.value)
    ensures WellFormed(ToPair(e).value)
    ensures S.EntryEncoding(e) == S.Emitted(PairEvents(ToPair(e)), None)
    decreases e, 0
  {
    EncodingIsTree(e.value);
  }

  /**
   * Values whose maps all have string keys, and which raise nothing,
   * are accepted by a writer with no document open: their events form a
   * complete document around the tokens of their tree.
   */
  lemma SerializedDocument(c: W.Renderers, out: seq<W.XmlToken>, v: S.Value)
    requires S.FaultFree(v) && StringKeys(v)
    ensures WellFormed(ToTree(v))
    ensures S.Exec(c, W.WriterState([], out), S.Encoding(v))
         == W.Outcome(Ok(()), W.WriterState([], out + [W.PlistStart] + Xml(c, ToTree(v)) + [W.EndElement("plist")]))
  {
    EncodingIsTree(v);
    WriteDocument(c, out, ToTree(v));
  }

  /** A serialized value whose tree is readable reads back as its events without hints, wrapped in the document events. */
  lemma SerializedRoundTrip(c: W.Renderers, p: R.Parsers, v: S.Value)
    requires S.FaultFree(v) && StringKeys(v)
    requires Readable(c, p, ToTree(v))
    ensures S.Exec(c, W.WriterState([], []), S.Encoding(v)).result == Ok(())
    ensures R.Drain(p, Transport(S.Exec(c, W.WriterState([], []), S.Encoding(v)).state.output), [])
         == Ok([StartPlist] + WithoutHints(S.Encoding(v).events) + [EndPlist])
  {
    EncodingIsTree(v);
    WriteThenRead(c, p, ToTree(v));
  }

  /** `None` is written as `{"None": ""}`, whose empty string cannot be read back. */
  lemma NoneDoesNotReadBack(c: W.Renderers, p: R.Parsers)
    ensures !Readable(c, p, ToTree(S.Absent))
  {
    var ps := [Pair("None", Scalar(StringValue("")))];
    assert !Readable(c, p, ps[0].value);
  }

  // ---------------------------------------------------------------------
  // The six-key test document
  // ---------------------------------------------------------------------

  const TestBytes: seq<byte> := [0, 0, 0, 190, 0, 0, 0, 3, 0, 0, 0, 30, 0, 0, 0]
  /** 1981-05-16T11:32:06Z. */
  const TestDate: Date := Date(358860726)
  /** The bit pattern of 1.6. */
  const TestHeight: F64 := F64(0x3FF9_9999_9999_999A)

  const AuthorPair := Pair("Author", Scalar(StringValue("William Shakespeare")))
  const FirstLine := Scalar(StringValue("It is a tale told by an idiot,"))
  const SecondLine := Scalar(StringValue("Full of sound and fury, signifying nothing."))
  const LinesPair := Pair("Lines", ArrayNode(None, [FirstLine, SecondLine]))
  const DeathPair := Pair("Death", Scalar(IntegerValue(1564)))
  const HeightPair := Pair("Height", Scalar(RealValue(TestHeight)))
  const DataPair := Pair("Data", Scalar(DataValue(TestBytes)))
  const BirthdatePair := Pair("Birthdate", Scalar(DateValue(TestDate)))

  /** The test document as a tree. */
  const TestPairs: seq<Pair> := [AuthorPair, LinesPair, DeathPair, HeightPair, DataPair, BirthdatePair]
  const TestTree: Tree := DictNode(None, TestPairs)

  /** The events the writer test writes (all hints absent). */
  const TestEvents: seq<Event> := [
    StartDictionary(None),
    StringValue("Author"), StringValue("William Shakespeare"),
    StringValue("Lines"), StartArray(None),
    StringValue("It is a tale told by an idiot,"),
    StringValue("Full of sound and fury, signifying nothing."),
    EndArray,
    StringValue("Death"), IntegerValue(1564),
    StringValue("Height"), RealValue(TestHeight),
    StringValue("Data"), DataValue(TestBytes),
    StringValue("Birthdate"), DateValue(TestDate),
    EndDictionary]

  /** The markup of each entry of the test document, as emitter tokens. */
  const AuthorXml := W.Leaf("key", "Author") + W.Leaf("string", "William Shakespeare")
  const LinesXml := W.Leaf("key", "Lines") + ([W.StartElement("array", [])]
    + (W.Leaf("string", "It is a tale told by an idiot,") + W.Leaf("string", "Full of sound and fury, signifying nothing."))
    + [W.EndElement("array")])
  const DeathXml := W.Leaf("key", "Death") + W.Leaf("integer", "1564")
  const HeightXml := W.Leaf("key", "Height") + W.Leaf("real", "1.6")
  const DataXml := W.Leaf("key", "Data") + W.Leaf("data", "AAAAvgAAAAMAAAAeAAAA")
  const BirthdateXml := W.Leaf("key", "Birthdate") + W.Leaf("date", "1981-05-16T11:32:06+00:00")

  /** The markup the writer test expects, as emitter tokens (indentation and the XML declaration aside). */
  const TestTokens: seq<W.XmlToken> := [W.PlistStart]
    + ([W.StartElement("dict", [])] + (AuthorXml + (LinesXml + (DeathXml + (HeightXml + (DataXml + BirthdateXml))))) + [W.EndElement("dict")])
    + [W.EndElement("plist")]

  lemma ItemsOfTwo(c: W.Renderers, a: Tree, b: Tree)
    requires WellFormed(a) && WellFormed(b)
    ensures ItemEvents([a, b]) == Events(a) + Events(b)
    ensures ItemsXml(c, [a, b]) == Xml(c, a) + Xml(c, b)
  {
    assert [a, b][1..] == [b];
    assert [b][1..] == [];
    assert ItemEvents([b]) == Events(b) + [];
    assert ItemsXml(c, [b]) == Xml(c, b) + [];
  }

  /** The events of the entries from position `k` on: entry `k`, then the rest. */
  lemma PairsEventsAt(ps: seq<Pair>, k: nat)
    requires k < |ps|
    ensures PairsEvents(ps[k..]) == PairEvents(ps[k]) + PairsEvents(ps[k + 1..])
  {
    assert ps[k..][1..] == ps[k + 1..];
  }

  /** The markup of the entries from position `k` on: entry `k`, then the rest. */
  lemma PairsXmlAt(c: W.Renderers, ps: seq<Pair>, k: nat)
    requires forall i :: 0 <= i < |ps| ==> WellFormed(ps[i].value)
    requires k < |ps|
    ensures PairsXml(c, ps[k..]) == PairXml(c, ps[k]) + PairsXml(c, ps[k + 1..])
  {
    assert ps[k..][1..] == ps[k + 1..];
  }

  lemma DictNodeEvents(len: Option<u64>, ps: seq<Pair>)
    ensures Events(DictNode(len, ps)) == [StartDictionary(len)] + PairsEvents(ps) + [EndDictionary]
  {
  }

  /** The events of a dictionary of six entries. */
  lemma EventsOfSix(len: Option<u64>, ps: seq<Pair>)
    requires |ps| == 6
    ensures Events(DictNode(len, ps)) == [StartDictionary(len)] + (PairEvents(ps[0]) + (PairEvents(ps[1]) + (PairEvents(ps[2]) + (PairEvents(ps[3]) + (PairEvents(ps[4]) + PairEvents(ps[5])))))) + [EndDictionary]
  {
    DictNodeEvents(len, ps);
    assert PairsEvents(ps[5..]) == PairEvents(ps[5]) by { PairsEventsAt(ps, 5); assert ps[6..] == []; }
    PairsEventsAt(ps, 4);
    PairsEventsAt(ps, 3);
    PairsEventsAt(ps, 2);
    PairsEventsAt(ps, 1);
    PairsEventsAt(ps, 0);
    assert ps[0..] == ps;
  }

  /** The markup of a dictionary of six entries. */
  lemma XmlOfSix(c: W.Renderers, len: Option<u64>, ps: seq<Pair>)
    requires |ps| == 6
    requires forall i :: 0 <= i < |ps| ==> WellFormed(ps[i].value)
    ensures WellFormed(DictNode(len, ps))
    ensures Xml(c, DictNode(len, ps)) == [W.StartElement("dict", [])] + (PairXml(c, ps[0]) + (PairXml(c, ps[1]) + (PairXml(c, ps[2]) + (PairXml(c, ps[3]) + (PairXml(c, ps[4]) + PairXml(c, ps[5])))))) + [W.EndElement("dict")]
  {
    assert WellFormed(DictNode(len, ps));
    assert Xml(c, DictNode(len, ps)) == [W.StartElement("dict", [])] + PairsXml(c, ps) + [W.EndElement("dict")];
    assert PairsXml(c, ps[5..]) == PairXml(c, ps[5]) by { PairsXmlAt(c, ps, 5); assert ps[6..] == []; }
    PairsXmlAt(c, ps, 4);
    PairsXmlAt(c, ps, 3);
    PairsXmlAt(c, ps, 2);
    PairsXmlAt(c, ps, 1);
    PairsXmlAt(c, ps, 0);
    assert ps[0..] == ps;
  }

  /** Each entry of the test document contributes its key and its value's events. */
  lemma TestPairEvents()
    ensures PairEvents(AuthorPair) == [StringValue("Author"), StringValue("William Shakespeare")]
    ensures PairEvents(LinesPair) == [StringValue("Lines"), StartArray(None), FirstLine.event, SecondLine.event, EndArray]
    ensures PairEvents(DeathPair) == [StringValue("Death"), IntegerValue(1564)]
    ensures PairEvents(HeightPair) == [StringValue("Height"), RealValue(TestHeight)]
    ensures PairEvents(DataPair) == [StringValue("Data"), DataValue(TestBytes)]
    ensures PairEvents(BirthdatePair) == [StringValue("Birthdate"), DateValue(TestDate)]
  {
    ItemsOfTwo(W.Renderers(d => "", t => "", x => ""), FirstLine, SecondLine);
  }

  lemma TestTreeEvents()
    ensures WellFormed(TestTree)
    ensures Events(TestTree) == TestEvents
  {
    TestPairEvents();
    EventsOfSix(None, TestPairs);
  }

  lemma TestLinesXml(c: W.Renderers)
    ensures PairXml(c, LinesPair) == LinesXml
  {
    ItemsOfTwo(c, FirstLine, SecondLine);
  }

  lemma TestDeathXml(c: W.Renderers)
    ensures PairXml(c, DeathPair) == DeathXml
  {
    assert Decimal.IntToString(1564) == "1564";
  }

  /** Each entry of the test document is written as the test expects. */
  lemma TestPairsXml(c: W.Renderers)
    requires c.float(TestHeight) == "1.6"
    requires c.data(TestBytes) == "AAAAvgAAAAMAAAAeAAAA"
    requires c.date(TestDate) == "1981-05-16T11:32:06+00:00"
    ensures PairXml(c, AuthorPair) == AuthorXml && PairXml(c, LinesPair) == LinesXml && PairXml(c, DeathPair) == DeathXml
    ensures PairXml(c, HeightPair) == HeightXml && PairXml(c, DataPair) == DataXml && PairXml(c, BirthdatePair) == BirthdateXml
  {
    TestLinesXml(c);
    TestDeathXml(c);
  }

  /**
   * Writing the test's events to a fresh writer succeeds and emits the
   * test's markup, given the renderings of its real, data and date.
   */
  lemma WriterTestDocument(c: W.Renderers)
    requires c.float(TestHeight) == "1.6"
    requires c.data(TestBytes) == "AAAAvgAAAAMAAAAeAAAA"
    requires c.date(TestDate) == "1981-05-16T11:32:06+00:00"
    ensures W.AllValueEvents(TestEvents)
    ensures W.Run(c, W.WriterState([], []), TestEvents) == W.Outcome(Ok(()), W.WriterState([], TestTokens))
  {
    TestTreeEvents();
    WriteDocument(c, [], TestTree);
    TestPairsXml(c);
    XmlOfSix(c, None, TestPairs);
    assert [] + [W.PlistStart] == [W.PlistStart];
  }

  /** Every entry of the test document has a key, and every value reads back under matching parsers. */
  lemma TestTreeReadable(c: W.Renderers, p: R.Parsers)
    requires c.float(TestHeight) == "1.6" && p.float("1.6") == Some(TestHeight)
    requires c.data(TestBytes) == "AAAAvgAAAAMAAAAeAAAA" && p.data("AAAAvgAAAAMAAAAeAAAA") == Some(TestBytes)
    requires c.date(TestDate) == "1981-05-16T11:32:06+00:00" && p.date("1981-05-16T11:32:06+00:00") == Ok(TestDate)
    ensures Readable(c, p, TestTree)
  {
    assert Readable(c, p, LinesPair.value) by {
      assert LinesPair.value.items == [FirstLine, SecondLine];
    }
    assert TestTree.pairs == [AuthorPair, LinesPair, DeathPair, HeightPair, DataPair, BirthdatePair];
  }

  /** The test events carry no length hints, so a reader recovers them exactly. */
  lemma TestEventsUnhinted()
    ensures WithoutHints(TestEvents) == TestEvents
  {
    assert HintFree(LinesPair.value) by {
      assert LinesPair.value.items == [FirstLine, SecondLine];
    }
    assert HintFree(TestTree) by {
      assert TestTree.pairs == [AuthorPair, LinesPair, DeathPair, HeightPair, DataPair, BirthdatePair];
    }
    TestTreeEvents();
    HintFreeEvents(TestTree);
  }

  /**
   * The test's markup, as tokens, reads as the reader test's events:
   * the same events, between `StartPlist` and `EndPlist`.
   */
  lemma ReaderTestDocument(p: R.Parsers)
    requires p.float("1.6") == Some(TestHeight)
    requires p.data("AAAAvgAAAAMAAAAeAAAA") == Some(TestBytes)
    requires p.date("1981-05-16T11:32:06+00:00") == Ok(TestDate)
    ensures R.Drain(p, Transport(TestTokens), []) == Ok([StartPlist] + TestEvents + [EndPlist])
  {
    var c := W.Renderers(d => "AAAAvgAAAAMAAAAeAAAA", t => "1981-05-16T11:32:06+00:00", x => "1.6");
    var run := W.Run(c, W.WriterState([], []), TestEvents);
    assert run.state.output == TestTokens by {
      WriterTestDocument(c);
    }
    assert R.Drain(p, Transport(run.state.output), []) == Ok([StartPlist] + WithoutHints(TestEvents) + [EndPlist]) by {
      TestTreeEvents();
      TestTreeReadable(c, p);
      WriteThenRead(c, p, TestTree);
    }
    TestEventsUnhinted();
  }
}
