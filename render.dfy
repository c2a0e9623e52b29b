/** The HTML renderer of lib/render.js (posthtml-render 1.0.7): a tree of
    strings, numbers, nested arrays and `{tag, attrs, content}` nodes
    becomes one HTML string.

    The functions below say what the renderer produces; the methods are
    the renderer's own loops (the `for` over a tree array that appends to
    `result`, the `for...in` over attributes, the loop over single-tag
    regular expressions), each proved to compute its function. */
module Render {
  import opened JsValue

  /** The void elements of lib/render.js:1-24, PostHTML's four custom ones
      last. */
  const SingleTags: seq<string> := [
    "area", "base", "br", "col", "command", "embed", "hr", "img", "input",
    "keygen", "link", "menuitem", "meta", "param", "source", "track", "wbr",
    "import", "include", "extend", "component"
  ]

  function SingleTagValues(): (r: seq<Value>)
    ensures |r| == |SingleTags|
    ensures forall i :: 0 <= i < |r| ==> r[i] == Str(SingleTags[i])
  {
    seq(|SingleTags|, i requires 0 <= i < |SingleTags| => Str(SingleTags[i]))
  }

  /** What `render` reads from its options. */
  datatype Config = Config(singleTags: seq<Value>, singleRegExp: seq<Value>, closingSingleTag: Value)

  /** The regular expressions among `tags`, in order. */
  function RegExps(tags: seq<Value>): (r: seq<Value>)
    ensures |r| <= |tags|
    ensures forall i :: 0 <= i < |r| ==> r[i].Re? && r[i] in tags
    ensures forall i :: 0 <= i < |tags| && tags[i].Re? ==> tags[i] in r
    ensures (forall i :: 0 <= i < |tags| ==> !tags[i].Re?) ==> r == []
  {
    if tags == [] then []
    else
      var rest := RegExps(tags[1..]);
      if tags[0].Re? then [tags[0]] + rest else rest
  }

  /** `options = options || {}`, then the single-tag list
      `SINGLE_TAGS.concat(options.singleTags || [])`, its regular
      expressions, and the closing style. */
  function Configure(options: Value): (c: Config)
    ensures |c.singleTags| >= |SingleTags| && c.singleTags[..|SingleTags|] == SingleTagValues()
    ensures forall i :: 0 <= i < |c.singleRegExp| ==> c.singleRegExp[i].Re?
    ensures !Truthy(options) ==> c == Config(SingleTagValues(), [], Undefined)
  {
    var opts := if Truthy(options) then options else Obj([]);
    var extra := Get(opts, "singleTags");
    var tags := SingleTagValues() + Concat(if Truthy(extra) then extra else Arr([])).items;
    assert tags[..|SingleTags|] == SingleTagValues();
    Config(tags, RegExps(tags), Get(opts, "closingSingleTag"))
  }

  /** `isSingleTag(tag, singleTags, singleRegExp)`: when there is any
      regular expression, the first one alone decides, through
      `tag.match`, which only strings have; otherwise the tag is looked up
      in the list with `===`. */
  function IsSingleTag(test: RegexTest, c: Config, tag: Value): (r: Completion<bool>)
    ensures r.Throw? ==> r.error == TypeErrorValue
    ensures c.singleRegExp == [] ==>
      r == Normal(exists i :: 0 <= i < |c.singleTags| && StrictEquals(c.singleTags[i], tag))
    ensures c.singleRegExp != [] ==> (r.Throw? <==> !tag.Str?)
    ensures c.singleRegExp != [] && tag.Str? ==> r == Normal(test(c.singleRegExp[0], tag.s))
  {
    if c.singleRegExp != [] then
      if tag.Str? then Normal(test(c.singleRegExp[0], tag.s)) else Throw(TypeErrorValue)
    else Normal(exists i :: 0 <= i < |c.singleTags| && StrictEquals(c.singleTags[i], tag))
  }

  /** How a single tag is closed: `'tag'` repeats it, `'slash'` closes it
      XHTML-style, any other setting leaves it open. */
  function Closing(c: Config, tag: Value): (r: string)
    ensures c.closingSingleTag == Str("tag") ==> r == "></" + ToJsString(tag) + ">"
    ensures c.closingSingleTag == Str("slash") ==> r == " />"
    ensures c.closingSingleTag != Str("tag") && c.closingSingleTag != Str("slash") ==> r == ">"
    ensures |r| > 0 && r[|r| - 1] == '>'
  {
    if StrictEquals(c.closingSingleTag, Str("tag")) then "></" + ToJsString(tag) + ">"
    else if StrictEquals(c.closingSingleTag, Str("slash")) then " />"
    else ">"
  }

  /** One attribute: a bare name for `true`, `name="value"` for a string
      or a number (no escaping), nothing for anything else. */
  function Attr(p: Prop): (r: string)
    ensures !(p.val == Bool(true) || p.val.Str? || p.val.Num?) ==> r == ""
    ensures r == "" || r[0] == ' '
  {
    if p.val.Bool? && p.val.b then " " + p.key
    else if p.val.Str? || p.val.Num? then " " + p.key + "=\"" + ToJsString(p.val) + "\""
    else ""
  }

  /** The attributes of `props` in order. Each one is preceded by a space,
      so the attributes never run into the tag name before them. */
  function AttrsOf(props: seq<Prop>): (r: string)
    ensures r == "" || r[0] == ' '
  {
    if props == [] then "" else Attr(props[0]) + AttrsOf(props[1..])
  }

  /** `attrs(obj)`: every property `for...in` visits, in order; nothing
      for a value with no enumerable properties. */
  function Attrs(obj: Value): (r: string)
    ensures r == "" || r[0] == ' '
    ensures !(obj.Obj? || obj.Arr? || obj.Str?) ==> r == ""
  {
    AttrsOf(EnumerableProps(obj))
  }

  /** Attributes are emitted in key order: the attributes of `f1 + f2` are
      those of `f1` followed by those of `f2`. */
  lemma {:induction false} AttrsOfAppend(f1: seq<Prop>, f2: seq<Prop>)
    ensures AttrsOf(f1 + f2) == AttrsOf(f1) + AttrsOf(f2)
    decreases |f1|
  {
    if f1 == [] {
      assert f1 + f2 == f2;
    } else {
      assert (f1 + f2)[1..] == f1[1..] + f2;
      AttrsOfAppend(f1[1..], f2);
    }
  }

  lemma AttrsOfSnoc(props: seq<Prop>, i: nat)
    requires i < |props|
    ensures AttrsOf(props[..i + 1]) == AttrsOf(props[..i]) + Attr(props[i])
  {
    AttrsOfAppend(props[..i], [props[i]]);
    assert [props[i]][1..] == [];
    assert AttrsOf([props[i]]) == Attr(props[i]) + "";
    assert props[..i + 1] == props[..i] + [props[i]];
  }

  /** Attributes that are `false`, `null`, `undefined`, objects or arrays
      emit nothing at all. */
  lemma {:induction false} SilentAttrs(props: seq<Prop>)
    requires forall i :: 0 <= i < |props| ==>
      props[i].val == Bool(false) || IsNullish(props[i].val) || props[i].val.Obj? || props[i].val.Arr?
    ensures AttrsOf(props) == ""
    decreases |props|
  {
    if props != [] {
      SilentAttrs(props[1..]);
    }
  }

  // ---------------------------------------------------------------------
  // html(tree)
  // ---------------------------------------------------------------------

  /** `html(tree)`: the tree is first made an array with `[].concat`, so a
      lone node renders as a one-node array. */
  function Html(test: RegexTest, c: Config, tree: Value): (r: Completion<string>)
    ensures r.Throw? ==> r.error == TypeErrorValue
    ensures !Truthy(tree) ==> r == Normal("")
    decreases tree, 3
  {
    if tree.Arr? then Slots(test, c, tree, 0) else Slot(test, c, tree)
  }

  /** The render `traverse` over the slots of the array `a` from index
      `from` on: each slot's output, in order. */
  function Slots(test: RegexTest, c: Config, a: Value, from: nat): (r: Completion<string>)
    requires a.Arr?
    ensures r.Throw? ==> r.error == TypeErrorValue
    decreases a, 0, |a.items| - from
  {
    if from >= |a.items| then Normal("")
    else Then(Slot(test, c, a.items[from]), Slots(test, c, a, from + 1))
  }

  /** Both parts in order, or the first error. */
  function Then(first: Completion<string>, second: Completion<string>): (r: Completion<string>)
    ensures r.Normal? <==> first.Normal? && second.Normal?
    ensures r.Normal? ==> r.value == first.value + second.value
    ensures first.Throw? ==> r == first
    ensures r.Throw? ==> r == first || r == second
  {
    match first
    case Throw(e) => Throw(e)
    case Normal(s1) =>
      match second
      case Throw(e) => Throw(e)
      case Normal(s2) => Normal(s1 + s2)
  }

  /** One call of the render callback on `node`, followed by the render
      `traverse` of what the callback returned (only a `tag: false` node
      returns something, its `content`). */
  function Slot(test: RegexTest, c: Config, node: Value): (r: Completion<string>)
    ensures r.Throw? ==> r.error == TypeErrorValue
    decreases node, 2
  {
    if !Truthy(node) then Normal("")
    else if node.Str? || node.Num? then Normal(ToJsString(node))
    else if node.Obj? && Lookup(node.fields, "tag") == Bool(false) then
      var k := FindKey(node.fields, "content");
      if k < |node.fields| then
        var content := node.fields[k].val;
        Then(Normal(if TypeOf(content) != "object" then ToJsString(content) else ""),
             Descend(test, c, content))
      else Normal("undefined")
    else if node.Arr? then Slots(test, c, node, 0)
    else Element(test, c, node)
  }

  /** An element node: `<tag attrs>` for a single tag, `<tag attrs>` +
      content + `</tag>` otherwise; a missing tag is `div`. Either way the
      output opens with `<` and ends with `>`. */
  function Element(test: RegexTest, c: Config, node: Value): (r: Completion<string>)
    requires !node.Arr?
    ensures r.Throw? ==> r.error == TypeErrorValue
    ensures r.Normal? ==> |r.value| >= 2 && r.value[0] == '<' && r.value[|r.value| - 1] == '>'
    decreases node, 1
  {
    var t := Get(node, "tag");
    var tag := if Truthy(t) then t else Str("div");
    match IsSingleTag(test, c, tag)
    case Throw(e) => Throw(e)
    case Normal(single) =>
      if single then Normal("<" + ToJsString(tag) + Attrs(Get(node, "attrs")) + Closing(c, tag))
      else
        var attrs := Get(node, "attrs");
        var open := "<" + ToJsString(tag) + (if Truthy(attrs) then Attrs(attrs) else "") + ">";
        var close := "</" + ToJsString(tag) + ">";
        if node.Obj? && FindKey(node.fields, "content") < |node.fields| &&
           Truthy(node.fields[FindKey(node.fields, "content")].val)
        then Then(Then(Normal(open), Html(test, c, node.fields[FindKey(node.fields, "content")].val)), Normal(close))
        else Normal(open + close)
  }

  /** The render `traverse` of a value the callback returned: an array has
      its slots rendered, an object with an own `content` key has that
      content traversed (the object itself is not rendered), `null` throws
      a TypeError (`null.hasOwnProperty`), anything else renders nothing. */
  function Descend(test: RegexTest, c: Config, v: Value): (r: Completion<string>)
    ensures r.Throw? ==> r.error == TypeErrorValue
    ensures v.Null? ==> r.Throw?
    decreases v, 1
  {
    match v
    case Arr(_) => Slots(test, c, v, 0)
    case Null => Throw(TypeErrorValue)
    case Obj(fields) =>
      var k := FindKey(fields, "content");
      if k < |fields| then Descend(test, c, fields[k].val) else Normal("")
    case _ => Normal("")
  }

  /** `render(tree, options)`: the only exception it raises is a
      TypeError, and a falsy tree renders as the empty string. */
  function RenderTree(test: RegexTest, tree: Value, options: Value): (r: Completion<string>)
    ensures r.Throw? ==> r.error == TypeErrorValue
    ensures !Truthy(tree) ==> r == Normal("")
  {
    Html(test, Configure(options), tree)
  }

  // ---------------------------------------------------------------------
  // Properties of html
  // ---------------------------------------------------------------------

  lemma ThenAssoc(x: Completion<string>, y: Completion<string>, z: Completion<string>)
    ensures Then(Then(x, y), z) == Then(x, Then(y, z))
  {
    if x.Normal? && y.Normal? && z.Normal? {
      assert (x.value + y.value) + z.value == x.value + (y.value + z.value);
    }
  }

  lemma ThenEmpty(x: Completion<string>)
    ensures Then(Normal(""), x) == x
    ensures Then(x, Normal("")) == x
  {
    if x.Normal? {
      assert "" + x.value == x.value;
      assert x.value + "" == x.value;
    }
  }

  /** Siblings render one after the other: an array `a + b` renders as
      `a` followed by `b`, and fails with the first failure. */
  lemma HtmlConcat(test: RegexTest, c: Config, a: seq<Value>, b: seq<Value>)
    ensures Html(test, c, Arr(a + b)) == Then(Html(test, c, Arr(a)), Html(test, c, Arr(b)))
  {
    SlotsSplit(test, c, a, b, 0);
  }

  lemma {:induction false} SlotsSplit(test: RegexTest, c: Config, a: seq<Value>, b: seq<Value>, from: nat)
    requires from <= |a|
    ensures Slots(test, c, Arr(a + b), from) == Then(Slots(test, c, Arr(a), from), Slots(test, c, Arr(b), 0))
    decreases |a| - from
  {
    if from == |a| {
      SlotsShift(test, c, a, b, 0);
      ThenEmpty(Slots(test, c, Arr(b), 0));
    } else {
      assert (a + b)[from] == a[from];
      SlotsSplit(test, c, a, b, from + 1);
      ThenAssoc(Slot(test, c, a[from]), Slots(test, c, Arr(a), from + 1), Slots(test, c, Arr(b), 0));
    }
  }

  lemma {:induction false} SlotsShift(test: RegexTest, c: Config, a: seq<Value>, b: seq<Value>, j: nat)
    requires j <= |b|
    ensures Slots(test, c, Arr(a + b), |a| + j) == Slots(test, c, Arr(b), j)
    decreases |b| - j
  {
    if j < |b| {
      assert (a + b)[|a| + j] == b[j];
      SlotsShift(test, c, a, b, j + 1);
    }
  }

  /** The concatenation of strings. */
  function Joined(xs: seq<string>): string {
    if xs == [] then "" else xs[0] + Joined(xs[1..])
  }

  /** Text is emitted verbatim: an array of strings renders as their
      concatenation, with no escaping. */
  lemma TextRendersVerbatim(test: RegexTest, c: Config, xs: seq<string>)
    ensures Html(test, c, Arr(seq(|xs|, i requires 0 <= i < |xs| => Str(xs[i])))) == Normal(Joined(xs))
  {
    var a := Arr(seq(|xs|, i requires 0 <= i < |xs| => Str(xs[i])));
    SlotsOfText(test, c, xs, a, 0);
  }

  lemma {:induction false} SlotsOfText(test: RegexTest, c: Config, xs: seq<string>, a: Value, from: nat)
    requires a == Arr(seq(|xs|, i requires 0 <= i < |xs| => Str(xs[i]))) && from <= |xs|
    ensures Slots(test, c, a, from) == Normal(Joined(xs[from..]))
    decreases |xs| - from
  {
    if from < |xs| {
      SlotsOfText(test, c, xs, a, from + 1);
      assert xs[from..][1..] == xs[from + 1..];
      assert Slot(test, c, a.items[from]) == Normal(xs[from]);
    }
  }

  /** A `tag: false` node is transparent: with array content it renders
      exactly as that array would, with string content as that string. */
  lemma TagFalseIsTransparent(test: RegexTest, c: Config, content: Value)
    requires content.Arr? || content.Str?
    ensures Html(test, c, Obj([Prop("tag", Bool(false)), Prop("content", content)])) ==
      if content.Arr? then Html(test, c, content) else Normal(content.s)
  {
    var node := Obj([Prop("tag", Bool(false)), Prop("content", content)]);
    assert FindKey(node.fields, "content") == 1;
    if content.Arr? {
      assert Slot(test, c, node) == Then(Normal(""), Slots(test, c, content, 0));
      ThenEmpty(Slots(test, c, content, 0));
    } else {
      assert Slot(test, c, node) == Then(Normal(content.s), Normal(""));
      ThenEmpty(Normal(content.s));
    }
  }

  /** A `tag: false` node whose content is an object with content of its
      own renders only that inner content: render's `traverse` descends
      through the object without handing it to the callback, so its tag
      and attributes are dropped. */
  lemma TagFalseSkipsWrappedNode(test: RegexTest, c: Config, inner: seq<Prop>, xs: seq<Value>)
    requires FindKey(inner, "content") < |inner| && inner[FindKey(inner, "content")].val == Arr(xs)
    ensures Html(test, c, Obj([Prop("tag", Bool(false)), Prop("content", Obj(inner))])) == Html(test, c, Arr(xs))
  {
    var node := Obj([Prop("tag", Bool(false)), Prop("content", Obj(inner))]);
    assert FindKey(node.fields, "content") == 1;
    assert Lookup(node.fields, "tag") == Bool(false);
    assert Descend(test, c, Obj(inner)) == Descend(test, c, Arr(xs)) == Slots(test, c, Arr(xs), 0);
    assert Slot(test, c, node) == Then(Normal(""), Slots(test, c, Arr(xs), 0));
    ThenEmpty(Slots(test, c, Arr(xs), 0));
  }

  /** A node without a tag renders as a `div` around its rendered content
      (when `div` is not made a single tag). */
  lemma MissingTagIsDiv(test: RegexTest, c: Config, xs: seq<Value>)
    requires c.singleRegExp == []
    requires forall i :: 0 <= i < |c.singleTags| ==> c.singleTags[i] != Str("div")
    ensures Html(test, c, Obj([Prop("content", Arr(xs))])) ==
      Then(Then(Normal("<div>"), Html(test, c, Arr(xs))), Normal("</div>"))
  {
    var node := Obj([Prop("content", Arr(xs))]);
    assert FindKey(node.fields, "content") == 0;
    assert node.fields[0].key != "tag" && node.fields[0].key != "attrs";
    assert FindKey(node.fields, "tag") == 1 && FindKey(node.fields, "attrs") == 1;
    assert Get(node, "tag") == Undefined && Get(node, "attrs") == Undefined;
    assert IsSingleTag(test, c, Str("div")) == Normal(false);
    assert "<" + ToJsString(Str("div")) + "" + ">" == "<div>";
    assert "</" + ToJsString(Str("div")) + ">" == "</div>";
    assert Slot(test, c, node) == Element(test, c, node);
  }

  /** Without options, a string tag is single exactly when it is one of
      the built-in single tags. */
  lemma DefaultSingleTags(test: RegexTest, options: Value, t: string)
    requires !Truthy(options)
    ensures IsSingleTag(test, Configure(options), Str(t)) == Normal(t in SingleTags)
  {
    var c := Configure(options);
    if t in SingleTags {
      var k :| 0 <= k < |SingleTags| && SingleTags[k] == t;
      assert StrictEquals(c.singleTags[k], Str(t));
    }
  }

  /** Once the single tags hold a regular expression the list no longer
      counts: adding more tags to it changes nothing. */
  lemma RegExpDecidesAlone(test: RegexTest, c: Config, more: seq<Value>, tag: Value)
    requires c.singleRegExp != []
    ensures IsSingleTag(test, c.(singleTags := c.singleTags + more), tag) == IsSingleTag(test, c, tag)
  {
  }

  /** With a regular expression among the configured single tags, even a
      built-in single tag is single only when that expression matches it. */
  lemma RegExpOverridesBuiltins(test: RegexTest, options: Value, k: nat)
    requires k < |SingleTags|
    requires Configure(options).singleRegExp != []
    ensures IsSingleTag(test, Configure(options), Str(SingleTags[k])) ==
      Normal(test(Configure(options).singleRegExp[0], SingleTags[k]))
  {
  }

  /** A built-in single tag renders as `<tag` and its closing alone,
      whatever content the node has, as long as no regular expression
      was added to the single tags. */
  lemma SingleTagDropsContent(test: RegexTest, options: Value, k: nat, content: Value)
    requires k < |SingleTags|
    requires Configure(options).singleRegExp == []
    ensures var c := Configure(options);
      Html(test, c, Obj([Prop("tag", Str(SingleTags[k])), Prop("content", content)])) ==
      Normal("<" + SingleTags[k] + Closing(c, Str(SingleTags[k])))
  {
    var c := Configure(options);
    var t := Str(SingleTags[k]);
    var node := Obj([Prop("tag", t), Prop("content", content)]);
    assert c.singleTags[k] == SingleTagValues()[k] == t;
    assert IsSingleTag(test, c, t) == Normal(true);
    assert node.fields[0].key != "attrs" && node.fields[1].key != "attrs";
    assert FindKey(node.fields, "attrs") == 2;
    assert Get(node, "attrs") == Undefined;
    assert Attrs(Undefined) == "";
    assert Get(node, "tag") == t;
    assert SingleTags[k] != "";
    assert "<" + SingleTags[k] + "" + Closing(c, t) == "<" + SingleTags[k] + Closing(c, t);
    assert Slot(test, c, node) == Element(test, c, node);
  }

  // ---------------------------------------------------------------------
  // The renderer's loops
  // ---------------------------------------------------------------------

  /** `attrs(obj)`: the `for...in` loop appending to `attr`. */
  method AttrsLoop(obj: Value) returns (attr: string)
    ensures attr == Attrs(obj)
  {
    var props := EnumerableProps(obj);
    attr := "";
    for i := 0 to |props|
      invariant attr == AttrsOf(props[..i])
    {
      var key := props[i].key;
      var v := props[i].val;
      if v.Bool? && v.b {
        attr := attr + (" " + key);
      } else if v.Str? || v.Num? {
        attr := attr + (" " + key + "=\"" + ToJsString(v) + "\"");
      }
      AttrsOfSnoc(props, i);
    }
    assert props[..|props|] == props;
  }

  /** `singleTags.indexOf(tag)`: the first position holding a value `===`
      to `tag`, or -1. */
  method IndexOf(xs: seq<Value>, x: Value) returns (k: int)
    ensures -1 <= k < |xs|
    ensures k == -1 <==> forall i :: 0 <= i < |xs| ==> !StrictEquals(xs[i], x)
    ensures k >= 0 ==> StrictEquals(xs[k], x) && forall i :: 0 <= i < k ==> !StrictEquals(xs[i], x)
  {
    for i := 0 to |xs|
      invariant forall j :: 0 <= j < i ==> !StrictEquals(xs[j], x)
    {
      if StrictEquals(xs[i], x) {
        return i;
      }
    }
    return -1;
  }

  /** `isSingleTag`: its loop over the regular expressions returns in its
      first iteration, so only the first one is ever consulted. */
  method IsSingleTagLoop(test: RegexTest, c: Config, tag: Value) returns (r: Completion<bool>)
    ensures r == IsSingleTag(test, c, tag)
  {
    if |c.singleRegExp| > 0 {
      var re := c.singleRegExp[0];
      if !tag.Str? {
        return Throw(TypeErrorValue);
      }
      return Normal(test(re, tag.s));
    }
    var k := IndexOf(c.singleTags, tag);
    if k == -1 {
      return Normal(false);
    }
    return Normal(true);
  }

  /** `html(tree)`. */
  method RenderHtml(test: RegexTest, c: Config, tree: Value) returns (r: Completion<string>)
    ensures r == Html(test, c, tree)
    decreases tree, 3
  {
    if tree.Arr? {
      r := RenderSlots(test, c, tree);
    } else {
      r := RenderSlot(test, c, tree);
    }
  }

  /** The render `traverse` loop over an array, appending each slot's
      output to `result`; an exception abandons `result`. */
  method RenderSlots(test: RegexTest, c: Config, a: Value) returns (r: Completion<string>)
    requires a.Arr?
    ensures r == Slots(test, c, a, 0)
    decreases a, 0
  {
    var result := "";
    var i := 0;
    ThenEmpty(Slots(test, c, a, 0));
    while i < |a.items|
      invariant 0 <= i <= |a.items|
      invariant Slots(test, c, a, 0) == Then(Normal(result), Slots(test, c, a, i))
    {
      var out := RenderSlot(test, c, a.items[i]);
      if out.Throw? {
        return Throw(out.error);
      }
      ThenAssoc(Normal(result), out, Slots(test, c, a, i + 1));
      result := result + out.value;
      i := i + 1;
    }
    ThenEmpty(Normal(result));
    return Normal(result);
  }

  /** The render callback on one node, then the traversal of what it
      returned. */
  method RenderSlot(test: RegexTest, c: Config, node: Value) returns (r: Completion<string>)
    ensures r == Slot(test, c, node)
    decreases node, 2
  {
    if !Truthy(node) {
      return Normal("");
    }
    if node.Str? || node.Num? {
      return Normal(ToJsString(node));
    }
    if node.Obj? && Lookup(node.fields, "tag") == Bool(false) {
      var k := FindKey(node.fields, "content");
      if k == |node.fields| {
        return Normal("undefined");
      }
      var content := node.fields[k].val;
      var text := if TypeOf(content) != "object" then ToJsString(content) else "";
      var rest := RenderDescend(test, c, content);
      return Then(Normal(text), rest);
    }
    if node.Arr? {
      r := RenderSlots(test, c, node);
      return;
    }
    r := RenderElement(test, c, node);
  }

  /** An element node. */
  method RenderElement(test: RegexTest, c: Config, node: Value) returns (r: Completion<string>)
    requires !node.Arr?
    ensures r == Element(test, c, node)
    decreases node, 1
  {
    var t := Get(node, "tag");
    var tag := if Truthy(t) then t else Str("div");
    var single := IsSingleTagLoop(test, c, tag);
    if single.Throw? {
      return Throw(single.error);
    }
    if single.value {
      var attr := AttrsLoop(Get(node, "attrs"));
      return Normal("<" + ToJsString(tag) + attr + Closing(c, tag));
    }
    var attrs := Get(node, "attrs");
    var attr := "";
    if Truthy(attrs) {
      attr := AttrsLoop(attrs);
    }
    var open := "<" + ToJsString(tag) + attr + ">";
    var close := "</" + ToJsString(tag) + ">";
    if node.Obj? {
      var k := FindKey(node.fields, "content");
      if k < |node.fields| && Truthy(node.fields[k].val) {
        var inner := RenderHtml(test, c, node.fields[k].val);
        return Then(Then(Normal(open), inner), Normal(close));
      }
    }
    return Normal(open + close);
  }

  /** The render `traverse` of a value the callback returned. */
  method RenderDescend(test: RegexTest, c: Config, v: Value) returns (r: Completion<string>)
    ensures r == Descend(test, c, v)
    decreases v, 1
  {
    match v {
      case Arr(_) =>
        r := RenderSlots(test, c, v);
      case Null =>
        r := Throw(TypeErrorValue);
      case Obj(fields) =>
        var k := FindKey(fields, "content");
        if k < |fields| {
          r := RenderDescend(test, c, fields[k].val);
        } else {
          r := Normal("");
        }
      case _ =>
        r := Normal("");
    }
  }

  /** `render(tree, options)`. */
  method Render(test: RegexTest, tree: Value, options: Value) returns (r: Completion<string>)
    ensures r == RenderTree(test, tree, options)
  {
    r := RenderHtml(test, Configure(options), tree);
  }
}
