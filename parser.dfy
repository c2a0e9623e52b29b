/** The tree builder of lib/parser.js: `toTree` hands htmlparser2 five
    callbacks that build the PostHTML tree with a stack of open elements
    (`bufArray`) and a list of top-level nodes (`results`).

    The tokenizer is not modelled: its output is taken as a sequence of
    events. `Step` says what one callback does to the builder's state; the
    class `TreeBuilder` is the callbacks themselves, updating the stack and
    the results in place, each proved to perform `Step`. */
module Parser {
  import opened JsValue

  /** What htmlparser2 reports, one callback each. The close event's name
      is not read by the builder. */
  datatype Event =
    | Instruction(name: string, data: string)
    | Comment(data: string)
    | OpenTag(name: string, attrs: seq<Prop>)
    | CloseTag(name: string)
    | Text(text: string)

  /** An open element on the stack: `{tag}`, then `attrs` when there are
      any, then `content` once something is placed in it. `content` is only
      ever an array. */
  datatype Buf = Buf(tag: string, attrs: Option<seq<Prop>>, content: Option<seq<Value>>)

  /** The builder's state: `bufArray` and `results`. */
  datatype Builder = Builder(stack: seq<Buf>, results: seq<Value>)

  /** The object an element becomes, its keys in the order they were set. */
  function ToValue(buf: Buf): (v: Value)
    ensures v.Obj? && |v.fields| >= 1
    ensures Lookup(v.fields, "tag") == Str(buf.tag)
    ensures HasKey(v.fields, "attrs") <==> buf.attrs.Some?
    ensures HasKey(v.fields, "content") <==> buf.content.Some?
    ensures buf.content.Some? ==> Lookup(v.fields, "content") == Arr(buf.content.value)
  {
    var t := Prop("tag", Str(buf.tag));
    match (buf.attrs, buf.content)
    case (None, None) =>
      var f := [t];
      assert FindKey(f, "attrs") == 1 && FindKey(f, "content") == 1;
      Obj(f)
    case (Some(a), None) =>
      var f := [t, Prop("attrs", Obj(a))];
      assert FindKey(f, "attrs") == 1 && FindKey(f, "content") == 2;
      Obj(f)
    case (None, Some(c)) =>
      var f := [t, Prop("content", Arr(c))];
      assert FindKey(f, "attrs") == 2 && FindKey(f, "content") == 1;
      Obj(f)
    case (Some(a), Some(c)) =>
      var f := [t, Prop("attrs", Obj(a)), Prop("content", Arr(c))];
      assert FindKey(f, "attrs") == 1 && FindKey(f, "content") == 2;
      Obj(f)
  }

  /** The nodes placed in an element so far. */
  function Children(buf: Buf): seq<Value> {
    if buf.content.Some? then buf.content.value else []
  }

  /** `last.content || (last.content = []); last.content.push(v)`. */
  function AddChild(buf: Buf, v: Value): (r: Buf)
    ensures Children(r) == Children(buf) + [v]
    ensures r.tag == buf.tag && r.attrs == buf.attrs && r.content.Some?
  {
    buf.(content := Some(Children(buf) + [v]))
  }

  /** Where text and comments go: into the innermost open element, or
      into the results when no element is open. */
  function Place(b: Builder, v: Value): (r: Builder)
    ensures b.stack == [] ==> r == Builder([], b.results + [v])
    ensures b.stack != [] ==>
      r.results == b.results && |r.stack| == |b.stack| &&
      r.stack[..|b.stack| - 1] == b.stack[..|b.stack| - 1] &&
      Children(r.stack[|b.stack| - 1]) == Children(b.stack[|b.stack| - 1]) + [v] &&
      r.stack[|b.stack| - 1].tag == b.stack[|b.stack| - 1].tag &&
      r.stack[|b.stack| - 1].attrs == b.stack[|b.stack| - 1].attrs
  {
    if b.stack == [] then Builder([], b.results + [v])
    else
      var n := |b.stack|;
      var s := b.stack[..n - 1] + [AddChild(b.stack[n - 1], v)];
      assert s[..n - 1] == b.stack[..n - 1];
      Builder(s, b.results)
  }

  /** The white space `String.prototype.trim` removes: the ECMAScript
      WhiteSpace and LineTerminator characters. */
  predicate IsJsSpace(ch: char) {
    ch == '\t' || ch == '\n' || ch == '\U{000B}' || ch == '\U{000C}' || ch == '\r' ||
    ch == ' ' || ch == '\U{00A0}' || ch == '\U{1680}' || ('\U{2000}' <= ch <= '\U{200A}') ||
    ch == '\U{2028}' || ch == '\U{2029}' || ch == '\U{202F}' || ch == '\U{205F}' ||
    ch == '\U{3000}' || ch == '\U{FEFF}'
  }

  /** `s` from its first character that is not white space. */
  function TrimStart(s: string): (r: string)
    ensures |r| <= |s| && r == s[|s| - |r|..]
    ensures r != [] ==> !IsJsSpace(r[0])
    ensures forall i :: 0 <= i < |s| - |r| ==> IsJsSpace(s[i])
  {
    if s != [] && IsJsSpace(s[0]) then TrimStart(s[1..]) else s
  }

  /** `s` up to its last character that is not white space. */
  function TrimEnd(s: string): (r: string)
    ensures |r| <= |s| && r == s[..|r|]
    ensures r != [] ==> !IsJsSpace(r[|r| - 1])
    ensures forall i :: |r| <= i < |s| ==> IsJsSpace(s[i])
  {
    if s != [] && IsJsSpace(s[|s| - 1]) then TrimEnd(s[..|s| - 1]) else s
  }

  /** `s.trim()`: the leading white space is cut, then the trailing; what
      is left neither starts nor ends with white space. */
  function Trim(s: string): (r: string)
    ensures r != [] ==> !IsJsSpace(r[0]) && !IsJsSpace(r[|r| - 1])
    ensures r <= TrimStart(s)
    ensures forall i :: |r| <= i < |TrimStart(s)| ==> IsJsSpace(TrimStart(s)[i])
  {
    TrimEnd(TrimStart(s))
  }

  /** The string a comment becomes. */
  function CommentText(data: string): string {
    "<!-- " + Trim(data) + " -->"
  }

  /** One callback of `toTree` on the builder's state. */
  function Step(b: Builder, e: Event): (r: Builder)
    ensures b.results <= r.results && |r.results| <= |b.results| + 1
    ensures e.OpenTag? ==> |r.stack| == |b.stack| + 1 && r.results == b.results
    ensures e.CloseTag? ==> |r.stack| == if b.stack == [] then 0 else |b.stack| - 1
    ensures !e.OpenTag? && !e.CloseTag? ==> |r.stack| == |b.stack|
  {
    match e
    case Instruction(name, data) =>
      if name == "!doctype" then b.(results := b.results + [Str("<" + data + ">")]) else b
    case Comment(data) => Place(b, Str(CommentText(data)))
    case OpenTag(name, attrs) =>
      b.(stack := b.stack + [Buf(name, if attrs == [] then None else Some(attrs), None)])
    case CloseTag(_) =>
      if b.stack == [] then b.(results := b.results + [Undefined])
      else
        var n := |b.stack|;
        var rest := Builder(b.stack[..n - 1], b.results);
        Place(rest, ToValue(b.stack[n - 1]))
    case Text(text) => Place(b, Str(text))
  }

  /** The callbacks for `events`, in order. Results are only ever
      appended to, at most one per event. */
  function Run(b: Builder, events: seq<Event>): (r: Builder)
    ensures b.results <= r.results
    ensures |r.results| <= |b.results| + |events|
    decreases |events|
  {
    if events == [] then b else Run(Step(b, events[0]), events[1..])
  }

  /** `toTree(html)`, given the events the tokenizer reports for `html`. */
  function ToTree(events: seq<Event>): (r: seq<Value>)
    ensures |r| <= |events|
  {
    Run(Builder([], []), events).results
  }

  // ---------------------------------------------------------------------
  // What one callback does
  // ---------------------------------------------------------------------

  /** Text is placed in the innermost open element's content, created if
      missing, or becomes a top-level result when no element is open. */
  lemma TextPlacement(b: Builder, text: string)
    ensures var r := Step(b, Text(text));
      if b.stack == [] then r.results == b.results + [Str(text)] && r.stack == []
      else (r.results == b.results &&
            Children(r.stack[|b.stack| - 1]) == Children(b.stack[|b.stack| - 1]) + [Str(text)])
  {
  }

  /** A comment is placed exactly as text spelling `<!-- data -->` would
      be. */
  lemma CommentIsPlacedLikeText(b: Builder, data: string)
    ensures Step(b, Comment(data)) == Step(b, Text("<!-- " + Trim(data) + " -->"))
  {
  }

  /** An open tag pushes `{tag}`, with `attrs` only when there are any. */
  lemma OpenTagPushes(b: Builder, name: string, attrs: seq<Prop>)
    ensures var r := Step(b, OpenTag(name, attrs));
      r.stack[..|b.stack|] == b.stack &&
      var v := ToValue(r.stack[|b.stack|]);
      Lookup(v.fields, "tag") == Str(name) &&
      (HasKey(v.fields, "attrs") <==> attrs != []) &&
      (attrs != [] ==> Lookup(v.fields, "attrs") == Obj(attrs)) &&
      !HasKey(v.fields, "content")
  {
    var r := Step(b, OpenTag(name, attrs));
    assert r.stack[..|b.stack|] == b.stack;
    var buf := r.stack[|b.stack|];
    if attrs != [] {
      var v := ToValue(buf);
      assert v.fields[1] == Prop("attrs", Obj(attrs));
      assert FindKey(v.fields, "attrs") == 1;
    }
  }

  /** A close tag pops the innermost element: with nothing left open it
      becomes a top-level result, otherwise the last child of the element
      now innermost. */
  lemma CloseTagPlaces(b: Builder, name: string)
    requires b.stack != []
    ensures var n := |b.stack|; var r := Step(b, CloseTag(name)); var v := ToValue(b.stack[n - 1]);
      if n == 1 then r == Builder([], b.results + [v])
      else (r.results == b.results && r.stack[..n - 2] == b.stack[..n - 2] &&
            Children(r.stack[n - 2]) == Children(b.stack[n - 2]) + [v])
  {
    var n := |b.stack|;
    if n > 1 {
      assert b.stack[..n - 1][..n - 2] == b.stack[..n - 2];
    }
  }

  /** A `!doctype` instruction goes to the top-level results even inside an
      open element; every other instruction is ignored. */
  lemma InstructionPlacement(b: Builder, name: string, data: string)
    ensures var r := Step(b, Instruction(name, data));
      r.stack == b.stack &&
      r.results == if name == "!doctype" then b.results + [Str("<" + data + ">")] else b.results
  {
  }

  /** A close event with no element open pushes `undefined` (the result of
      popping an empty array) to the results. */
  lemma StrayCloseTagPushesUndefined(b: Builder, name: string)
    requires b.stack == []
    ensures Step(b, CloseTag(name)) == Builder([], b.results + [Undefined])
  {
  }

  lemma {:induction false} RunAppend(b: Builder, e1: seq<Event>, e2: seq<Event>)
    ensures Run(b, e1 + e2) == Run(Run(b, e1), e2)
    decreases |e1|
  {
    if e1 == [] {
      assert e1 + e2 == e2;
    } else {
      assert (e1 + e2)[0] == e1[0];
      assert (e1 + e2)[1..] == e1[1..] + e2;
      RunAppend(Step(b, e1[0]), e1[1..], e2);
    }
  }

  // ---------------------------------------------------------------------
  // Balanced documents
  // ---------------------------------------------------------------------

  /** A document: text and elements with attributes and children. */
  datatype Node =
    | TextNode(text: string)
    | ElementNode(name: string, attrs: seq<Prop>, children: seq<Node>)

  /** The events a well-formed document produces. */
  function Events(n: Node): seq<Event>
    decreases n, 1
  {
    match n
    case TextNode(t) => [Text(t)]
    case ElementNode(name, attrs, children) =>
      [OpenTag(name, attrs)] + EventsOf(children) + [CloseTag(name)]
  }

  function EventsOf(ns: seq<Node>): seq<Event>
    decreases ns, 0
  {
    if ns == [] then [] else Events(ns[0]) + EventsOf(ns[1..])
  }

  /** The tree node the builder is expected to produce for `n`. */
  function NodeValue(n: Node): Value
    decreases n, 1
  {
    match n
    case TextNode(t) => Str(t)
    case ElementNode(name, attrs, children) =>
      ToValue(Buf(name, if attrs == [] then None else Some(attrs),
                  if children == [] then None else Some(NodeValues(children))))
  }

  function NodeValues(ns: seq<Node>): (r: seq<Value>)
    ensures |r| == |ns|
    decreases ns, 0
  {
    if ns == [] then [] else [NodeValue(ns[0])] + NodeValues(ns[1..])
  }

  /** `Place` for each value in turn. */
  function PlaceAll(b: Builder, vs: seq<Value>): Builder
    decreases |vs|
  {
    if vs == [] then b else PlaceAll(Place(b, vs[0]), vs[1..])
  }

  /** Placing several values in an open element appends them all to its
      content; the content is created only if there is something to put
      in it. */
  lemma {:induction false} PlaceAllInOpen(stack: seq<Buf>, top: Buf, results: seq<Value>, vs: seq<Value>)
    ensures PlaceAll(Builder(stack + [top], results), vs) ==
      Builder(stack + [if vs == [] then top else top.(content := Some(Children(top) + vs))], results)
    decreases |vs|
  {
    if vs != [] {
      var b := Builder(stack + [top], results);
      var top' := AddChild(top, vs[0]);
      assert (stack + [top])[..|stack|] == stack;
      assert Place(b, vs[0]) == Builder(stack + [top'], results);
      PlaceAllInOpen(stack, top', results, vs[1..]);
      assert Children(top') + vs[1..] == Children(top) + vs;
      if vs[1..] == [] {
        assert vs == [vs[0]];
      }
    }
  }

  /** With no element open, placed values become results in order. */
  lemma {:induction false} PlaceAllAtTop(results: seq<Value>, vs: seq<Value>)
    ensures PlaceAll(Builder([], results), vs) == Builder([], results + vs)
    decreases |vs|
  {
    if vs == [] {
      assert results + vs == results;
    } else {
      PlaceAllAtTop(results + [vs[0]], vs[1..]);
      assert results + [vs[0]] + vs[1..] == results + vs;
    }
  }

  /** The events of a node place that node's value, and nothing else
      changes. */
  lemma {:induction false} RunEvents(b: Builder, n: Node)
    ensures Run(b, Events(n)) == Place(b, NodeValue(n))
    decreases n, 1
  {
    match n
    case TextNode(t) =>
      assert Run(b, Events(n)) == Run(Step(b, Text(t)), []);
    case ElementNode(name, attrs, children) =>
      var open := [OpenTag(name, attrs)];
      var close := [CloseTag(name)];
      assert Events(n) == open + (EventsOf(children) + close);
      RunAppend(b, open, EventsOf(children) + close);
      RunAppend(Run(b, open), EventsOf(children), close);
      var top := Buf(name, if attrs == [] then None else Some(attrs), None);
      var b1 := Builder(b.stack + [top], b.results);
      OpenStep(b, name, attrs);
      RunEventsOf(b1, children);
      var vs := NodeValues(children);
      PlaceAllInOpen(b.stack, top, b.results, vs);
      assert vs == [] <==> children == [];
      CloseStep(b, top, vs);
  }

  /** The open event of an element pushes its buffer. */
  lemma OpenStep(b: Builder, name: string, attrs: seq<Prop>)
    ensures Run(b, [OpenTag(name, attrs)]) ==
      Builder(b.stack + [Buf(name, if attrs == [] then None else Some(attrs), None)], b.results)
  {
    assert Run(b, [OpenTag(name, attrs)]) == Run(Step(b, OpenTag(name, attrs)), []);
  }

  /** The close event of an element whose children were all placed in its
      fresh buffer places the element's value one level up. */
  lemma CloseStep(b: Builder, top: Buf, vs: seq<Value>)
    requires top.content.None?
    ensures var full := if vs == [] then top else top.(content := Some(Children(top) + vs));
      Run(Builder(b.stack + [full], b.results), [CloseTag(top.tag)]) ==
        Place(b, ToValue(Buf(top.tag, top.attrs, if vs == [] then None else Some(vs))))
  {
    var full := if vs == [] then top else top.(content := Some(Children(top) + vs));
    assert Children(top) + vs == vs;
    assert full == Buf(top.tag, top.attrs, if vs == [] then None else Some(vs));
    var b2 := Builder(b.stack + [full], b.results);
    assert (b.stack + [full])[..|b.stack|] == b.stack;
    assert Run(b2, [CloseTag(top.tag)]) == Run(Step(b2, CloseTag(top.tag)), []);
  }

  lemma {:induction false} RunEventsOf(b: Builder, ns: seq<Node>)
    ensures Run(b, EventsOf(ns)) == PlaceAll(b, NodeValues(ns))
    decreases ns, 0
  {
    if ns != [] {
      RunAppend(b, Events(ns[0]), EventsOf(ns[1..]));
      RunEvents(b, ns[0]);
      RunEventsOf(Place(b, NodeValue(ns[0])), ns[1..]);
      assert NodeValues(ns)[0] == NodeValue(ns[0]);
      assert NodeValues(ns)[1..] == NodeValues(ns[1..]);
    }
  }

  /** For the events of a well-formed document, every element is closed
      (the stack ends empty) and the results are exactly the document's
      top-level nodes, each element holding its children in order, so each
      closed element appears exactly once in the tree. */
  lemma BalancedRoundTrip(doc: seq<Node>)
    ensures Run(Builder([], []), EventsOf(doc)) == Builder([], NodeValues(doc))
    ensures ToTree(EventsOf(doc)) == NodeValues(doc)
  {
    RunEventsOf(Builder([], []), doc);
    PlaceAllAtTop([], NodeValues(doc));
  }

  // ---------------------------------------------------------------------
  // The callbacks, in place
  // ---------------------------------------------------------------------

  /** `isEmpty(obj)`: the `for...in` loop returns `false` at the first own
      key it meets. */
  method IsEmpty(obj: Value) returns (empty: bool)
    ensures empty <==> EnumerableProps(obj) == []
  {
    var props := EnumerableProps(obj);
    for i := 0 to |props|
      invariant i == 0
    {
      return false;
    }
    return true;
  }

  /** The state `toTree` keeps between callbacks. */
  class TreeBuilder {
    var stack: seq<Buf>
    var results: seq<Value>

    constructor()
      ensures stack == [] && results == []
    {
      stack := [];
      results := [];
    }

    function State(): Builder
      reads this
    {
      Builder(stack, results)
    }

    /** `last.content || (last.content = []); last.content.push(v)` on the
        innermost buffer, or `results.push(v)` with none open. */
    method PlaceValue(v: Value)
      modifies this
      ensures State() == Place(old(State()), v)
    {
      if |stack| == 0 {
        results := results + [v];
        return;
      }
      var last := stack[|stack| - 1];
      if last.content.None? {
        last := last.(content := Some([]));
      }
      last := last.(content := Some(last.content.value + [v]));
      stack := stack[..|stack| - 1] + [last];
    }

    method OnProcessingInstruction(name: string, data: string)
      modifies this
      ensures State() == Step(old(State()), Instruction(name, data))
    {
      if name == "!doctype" {
        results := results + [Str("<" + data + ">")];
      }
    }

    method OnComment(data: string)
      modifies this
      ensures State() == Step(old(State()), Comment(data))
    {
      var comment := "<!-- " + Trim(data) + " -->";
      PlaceValue(Str(comment));
    }

    method OnOpenTag(name: string, attrs: seq<Prop>)
      modifies this
      ensures State() == Step(old(State()), OpenTag(name, attrs))
    {
      var buf := Buf(name, None, None);
      var noAttrs := IsEmpty(Obj(attrs));
      if !noAttrs {
        buf := buf.(attrs := Some(attrs));
      }
      var bufEmpty := IsEmpty(ToValue(buf));
      if bufEmpty {
        // `{ content: '' }` is never built: `buf` always has its `tag` key.
        assert false;
      }
      stack := stack + [buf];
    }

    method OnCloseTag()
      modifies this
      ensures forall name :: State() == Step(old(State()), CloseTag(name))
    {
      if |stack| == 0 {
        results := results + [Undefined];
        return;
      }
      var buf := stack[|stack| - 1];
      stack := stack[..|stack| - 1];
      PlaceValue(ToValue(buf));
    }

    method OnText(text: string)
      modifies this
      ensures State() == Step(old(State()), Text(text))
    {
      PlaceValue(Str(text));
    }

    /** Dispatch one event to its callback. */
    method Handle(e: Event)
      modifies this
      ensures State() == Step(old(State()), e)
    {
      match e
      case Instruction(name, data) => OnProcessingInstruction(name, data);
      case Comment(data) => OnComment(data);
      case OpenTag(name, attrs) => OnOpenTag(name, attrs);
      case CloseTag(_) => OnCloseTag();
      case Text(text) => OnText(text);
    }
  }

  /** `toTree(html)`: feed every event to fresh builder state and return
      the results. */
  method BuildTree(events: seq<Event>) returns (results: seq<Value>)
    ensures results == ToTree(events)
  {
    var builder := new TreeBuilder();
    for i := 0 to |events|
      invariant Run(Builder([], []), events) == Run(builder.State(), events[i..])
    {
      assert events[i..][0] == events[i] && events[i..][1..] == events[i + 1..];
      builder.Handle(events[i]);
    }
    results := builder.results;
  }
}
