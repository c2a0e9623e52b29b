/** lib/error.js: the `PostHtmlError` class, whose constructor copies the
    location fields out of a config object and replaces its message with a
    formatted one, and `generatePluginError`, whose subclass merges every
    config into one shared `defaults` object.

    `codeFrame` (babel-code-frame) is a parameter; the stack trace
    `Error.captureStackTrace` records is not modelled. */
module Errors {
  import opened JsValue

  /** `codeFrame(src, line, col)`. */
  type CodeFrameFn = (Value, Value, Value) -> string

  /** `new Error(m).message`: "" when no message is given, the message
      converted to a string otherwise. */
  function ErrorMessage(m: Value): (r: string)
    ensures m.Undefined? ==> r == ""
    ensures m.Str? ==> r == m.s
    ensures !m.Undefined? ==> r == ToJsString(m)
  {
    if m.Undefined? then "" else ToJsString(m)
  }

  /** Re-raising an error's message keeps it:
      `new Error(new Error(m).message).message` is `new Error(m).message`. */
  lemma ErrorMessageStable(m: Value)
    ensures ErrorMessage(Str(ErrorMessage(m))) == ErrorMessage(m)
  {
  }

  /** `From Plugin: <plugin>` on a line of its own, when there is a plugin. */
  function PluginLine(plugin: Value): string {
    if Truthy(plugin) then "\nFrom Plugin: " + ToJsString(plugin) else ""
  }

  /** The file the location names, or "[no filename]". */
  function Place(filename: Value): string {
    if Truthy(filename) then ToJsString(filename) else "[no filename]"
  }

  /** `Location: <file>:<line>:<col>` on a line of its own. */
  function LocationLine(filename: Value, line: Value, col: Value): string {
    "\nLocation: " + (Place(filename) + ":" + (ToJsString(line) + ":" + ToJsString(col)))
  }

  /** The code frame after a blank line, when there is source text. */
  function FrameBlock(src: Value, line: Value, col: Value, codeFrame: CodeFrameFn): string {
    if Truthy(src) then "\n\n" + codeFrame(src, line, col) + "\n" else ""
  }

  /** What `_formatMessage` returns for an error with these fields. */
  function Formatted(message: string, plugin: Value, filename: Value, line: Value, col: Value, src: Value,
                     codeFrame: CodeFrameFn): string
  {
    message + (PluginLine(plugin) + (LocationLine(filename, line, col) + FrameBlock(src, line, col, codeFrame)))
  }

  /** `parts.join('')` for an array of strings. */
  function Joined(parts: seq<string>): (r: string)
    ensures parts == [] ==> r == ""
    ensures |parts| == 1 ==> r == parts[0]
  {
    if parts == [] then "" else parts[0] + Joined(parts[1..])
  }

  /** Pushing a part and then joining is joining and then appending. */
  lemma {:induction false} JoinedPush(parts: seq<string>, s: string)
    ensures Joined(parts + [s]) == Joined(parts) + s
  {
    if parts != [] {
      assert (parts + [s])[1..] == parts[1..] + [s];
      JoinedPush(parts[1..], s);
    }
  }

  lemma Assoc(a: string, b: string, c: string)
    ensures a + b + c == a + (b + c)
  {
  }

  lemma PrefixOfAppend(a: string, b: string)
    ensures a <= a + b
  {
    assert (a + b)[..|a|] == a;
  }

  /** The formatted message begins with the original one, followed by the
      plugin line exactly when `plugin` is truthy, and otherwise directly
      by the location line. */
  lemma FormattedHeader(message: string, plugin: Value, filename: Value, line: Value, col: Value, src: Value,
                        codeFrame: CodeFrameFn)
    ensures var r := Formatted(message, plugin, filename, line, col, src, codeFrame);
      (Truthy(plugin) <==> message + "\nFrom Plugin: " <= r) &&
      (Truthy(plugin) ==> message + "\nFrom Plugin: " + ToJsString(plugin) + "\nLocation: " <= r) &&
      (!Truthy(plugin) ==> message + "\nLocation: " <= r)
  {
    var rest := Place(filename) + ":" + (ToJsString(line) + ":" + ToJsString(col));
    var frame := FrameBlock(src, line, col, codeFrame);
    Assoc("\nLocation: ", rest, frame);
    var r := Formatted(message, plugin, filename, line, col, src, codeFrame);
    assert r == message + (PluginLine(plugin) + ("\nLocation: " + (rest + frame)));
    if Truthy(plugin) {
      assert PluginLine(plugin) == "\nFrom Plugin: " + ToJsString(plugin);
      HeaderWithPlugin(message, ToJsString(plugin), rest + frame);
    } else {
      assert PluginLine(plugin) == "";
      HeaderWithoutPlugin(message, rest + frame);
    }
  }

  lemma HeaderWithPlugin(m: string, t: string, rest: string)
    ensures var r := m + (("\nFrom Plugin: " + t) + ("\nLocation: " + rest));
      m + "\nFrom Plugin: " <= r && m + "\nFrom Plugin: " + t + "\nLocation: " <= r
  {
    var fp := "\nFrom Plugin: ";
    var loc := "\nLocation: " + rest;
    Assoc(m, fp + t, loc);
    Assoc(m, fp, t);
    Assoc(m + fp + t, "\nLocation: ", rest);
    PrefixOfAppend(m + fp + t + "\nLocation: ", rest);
    PrefixOfAppend(m + fp, t + "\nLocation: " + rest);
    Assoc(m + fp, t, "\nLocation: ");
    Assoc(m + fp, t + "\nLocation: ", rest);
  }

  lemma HeaderWithoutPlugin(m: string, rest: string)
    ensures var r := m + ("" + ("\nLocation: " + rest));
      m + "\nLocation: " <= r && !(m + "\nFrom Plugin: " <= r)
  {
    var r := m + ("" + ("\nLocation: " + rest));
    assert "" + ("\nLocation: " + rest) == "\nLocation: " + rest;
    Assoc(m, "\nLocation: ", rest);
    PrefixOfAppend(m + "\nLocation: ", rest);
    assert r[|m| + 1] == 'L';
    assert (m + "\nFrom Plugin: ")[|m| + 1] == 'F';
  }

  /** The location reads `<filename>:<line>:<col>`, with "[no filename]"
      for a falsy filename, and the code frame closes the message exactly
      when `src` is truthy, after a blank line and before a line break. */
  lemma FormattedTail(message: string, plugin: Value, filename: Value, line: Value, col: Value, src: Value,
                      codeFrame: CodeFrameFn)
    ensures var r := Formatted(message, plugin, filename, line, col, src, codeFrame);
      var place := if Truthy(filename) then ToJsString(filename) else "[no filename]";
      var loc := "\nLocation: " + place + ":" + ToJsString(line) + ":" + ToJsString(col);
      (Truthy(src) ==> r == message + PluginLine(plugin) + loc + ("\n\n" + codeFrame(src, line, col) + "\n")) &&
      (!Truthy(src) ==> r == message + PluginLine(plugin) + loc)
  {
    var place := Place(filename);
    var pos := ToJsString(line) + ":" + ToJsString(col);
    var loc := "\nLocation: " + place + ":" + ToJsString(line) + ":" + ToJsString(col);
    assert loc == LocationLine(filename, line, col) by {
      Assoc("\nLocation: " + place, ":", ToJsString(line));
      Assoc("\nLocation: " + place + ":", ToJsString(line), ":");
      Assoc("\nLocation: " + place + ":", ToJsString(line) + ":", ToJsString(col));
      Assoc("\nLocation: " + place, ":", pos);
      Assoc("\nLocation: ", place + ":", pos);
      Assoc("\nLocation: ", place, ":");
    }
    var frame := FrameBlock(src, line, col, codeFrame);
    Assoc(message, PluginLine(plugin), loc + frame);
    Assoc(message + PluginLine(plugin), loc, frame);
    if !Truthy(src) {
      assert loc + frame == loc;
    }
  }

  /** An error object of lib/error.js. */
  class PostHtmlError {
    var name: string
    var message: string
    var line: Value
    var col: Value
    var filename: Value
    var src: Value
    var plugin: Value

    /** The constructor once `config` and `config.location` are known to be
        readable: `super(config.message)`, the fields, then the formatted
        message. */
    constructor (className: string, config: Value, codeFrame: CodeFrameFn)
      requires !IsNullish(config) && !IsNullish(Get(config, "location"))
      ensures Built(this, className, config, codeFrame)
    {
      message := ErrorMessage(Get(config, "message"));
      name := className;
      var location := Get(config, "location");
      line := Get(location, "line");
      col := Get(location, "col");
      var f := Get(location, "filename");
      filename := if Truthy(f) then f else Get(config, "filename");
      src := Get(config, "src");
      plugin := Get(config, "plugin");
      new;
      var formatted := FormatMessage(codeFrame);
      message := formatted;
    }

    /** `_formatMessage()`: push the parts onto `res`, then join them. */
    method FormatMessage(codeFrame: CodeFrameFn) returns (r: string)
      ensures r == Formatted(message, plugin, filename, line, col, src, codeFrame)
    {
      var res: seq<string> := [];
      res := Push(res, message);
      if Truthy(plugin) {
        res := Push(res, "\nFrom Plugin: " + ToJsString(plugin));
      } else {
        assert message + PluginLine(plugin) == message;
      }
      ghost var header := message + PluginLine(plugin);
      assert Joined(res) == header;
      res := Push(res, "\n");
      res := Push(res, "Location: ");
      if Truthy(filename) {
        res := Push(res, ToJsString(filename) + ":");
      } else {
        res := Push(res, "[no filename]:");
      }
      res := Push(res, ToJsString(line) + ":" + ToJsString(col));
      LocationPushes(header, filename, line, col);
      ghost var located := header + LocationLine(filename, line, col);
      assert Joined(res) == located;
      if Truthy(src) {
        res := Push(res, "\n\n");
        res := Push(res, codeFrame(src, line, col));
        res := Push(res, "\n");
        Assoc(located, "\n\n", codeFrame(src, line, col));
        Assoc(located, "\n\n" + codeFrame(src, line, col), "\n");
      } else {
        assert located + FrameBlock(src, line, col, codeFrame) == located;
      }
      assert Joined(res) == located + FrameBlock(src, line, col, codeFrame);
      Assoc(header, LocationLine(filename, line, col), FrameBlock(src, line, col, codeFrame));
      Assoc(message, PluginLine(plugin), LocationLine(filename, line, col) + FrameBlock(src, line, col, codeFrame));
      r := Joined(res);
    }
  }

  /** The four pushes of the location line join to `LocationLine`. */
  lemma LocationPushes(h: string, filename: Value, line: Value, col: Value)
    ensures var placed := if Truthy(filename) then ToJsString(filename) + ":" else "[no filename]:";
      h + "\n" + "Location: " + placed + (ToJsString(line) + ":" + ToJsString(col))
      == h + LocationLine(filename, line, col)
  {
    var placed := if Truthy(filename) then ToJsString(filename) + ":" else "[no filename]:";
    var pos := ToJsString(line) + ":" + ToJsString(col);
    assert placed == Place(filename) + ":";
    assert "\n" + "Location: " == "\nLocation: ";
    Assoc(h, "\n", "Location: ");
    Assoc(h + "\nLocation: ", placed, pos);
    Assoc(h, "\nLocation: ", placed + pos);
  }

  /** `res.push(s)`, carrying what the pushed-to array joins to. */
  method Push(res: seq<string>, s: string) returns (res': seq<string>)
    ensures res' == res + [s]
    ensures Joined(res') == Joined(res) + s
  {
    res' := res + [s];
    JoinedPush(res, s);
  }

  /** The fields of `e` are the ones `new PostHtmlError(config)` sets:
      `line` and `col` from `config.location`, `filename` from
      `location.filename` or else `config.filename`, `src` and `plugin`
      from `config`, and the formatted message. */
  ghost predicate Built(e: PostHtmlError, className: string, config: Value, codeFrame: CodeFrameFn)
    reads e
    requires !IsNullish(config)
  {
    var location := Get(config, "location");
    var f := Get(location, "filename");
    e.name == className &&
    e.line == Get(location, "line") && e.col == Get(location, "col") &&
    e.filename == (if Truthy(f) then f else Get(config, "filename")) &&
    e.src == Get(config, "src") && e.plugin == Get(config, "plugin") &&
    e.message == Formatted(ErrorMessage(Get(config, "message")), e.plugin, e.filename, e.line, e.col, e.src, codeFrame)
  }

  /** `new PostHtmlError(config)` (or a subclass named `className`):
      reading `config.message` or `config.location.line` throws a
      TypeError when `config` or `config.location` is missing. */
  method NewError(className: string, config: Value, codeFrame: CodeFrameFn) returns (r: Completion<PostHtmlError>)
    ensures r.Throw? <==> IsNullish(config) || IsNullish(Get(config, "location"))
    ensures r.Throw? ==> r.error == TypeErrorValue
    ensures r.Normal? ==> fresh(r.value) && Built(r.value, className, config, codeFrame)
  {
    if IsNullish(config) || IsNullish(Get(config, "location")) {
      return Throw(TypeErrorValue);
    }
    var e := new PostHtmlError(className, config, codeFrame);
    r := Normal(e);
  }

  /** `Object.assign(target, source)` on the target's own properties: each
      own enumerable property of `source`, in order, is written over the
      target's (a `null` or `undefined` source copies nothing). The
      target's keys stay where they were; new keys come after them. */
  function Assign(target: seq<Prop>, source: Value): (r: seq<Prop>)
    ensures |target| <= |r| && forall i :: 0 <= i < |target| ==> r[i].key == target[i].key
    ensures IsNullish(source) ==> r == target
  {
    AssignProps(target, EnumerableProps(source))
  }

  function AssignProps(target: seq<Prop>, ps: seq<Prop>): (r: seq<Prop>)
    ensures |target| <= |r| && forall i :: 0 <= i < |target| ==> r[i].key == target[i].key
    decreases ps
  {
    if ps == [] then target else AssignProps(Put(target, ps[0].key, ps[0].val), ps[1..])
  }

  /** The value of the last property named `key`, or `undefined`. */
  function LastValue(ps: seq<Prop>, key: string): Value
    decreases ps
  {
    if ps == [] then Undefined
    else if HasKey(ps[1..], key) then LastValue(ps[1..], key)
    else if ps[0].key == key then ps[0].val
    else Undefined
  }

  /** After `Object.assign`, a key the source has holds the source's last
      value for it, and every other key keeps the target's. */
  lemma {:induction false} AssignPropsLookup(target: seq<Prop>, ps: seq<Prop>, key: string)
    ensures HasKey(ps, key) ==> Lookup(AssignProps(target, ps), key) == LastValue(ps, key)
    ensures !HasKey(ps, key) ==> Lookup(AssignProps(target, ps), key) == Lookup(target, key)
    ensures HasKey(AssignProps(target, ps), key) <==> HasKey(ps, key) || HasKey(target, key)
    decreases ps
  {
    if ps != [] {
      AssignPropsLookup(Put(target, ps[0].key, ps[0].val), ps[1..], key);
    }
  }

  /** `generatePluginError(defaults)`: the subclass, with the `defaults`
      object all its constructions share. */
  class PluginErrorClass {
    var defaults: seq<Prop>

    /** `defaults = {}` when no object is given. */
    constructor (given: Option<seq<Prop>>)
      ensures defaults == if given.Some? then given.value else []
    {
      defaults := if given.Some? then given.value else [];
    }

    /** `new PostHtmlPluginError(config)`: `super(Object.assign(defaults,
        config))`. The merge into the shared object happens first, and
        stays even when the construction then throws. */
    method Construct(config: Value, codeFrame: CodeFrameFn) returns (r: Completion<PostHtmlError>)
      modifies this
      ensures defaults == Assign(old(defaults), config)
      ensures r.Throw? <==> IsNullish(Lookup(defaults, "location"))
      ensures r.Normal? ==> fresh(r.value) && Built(r.value, "PostHtmlPluginError", Obj(defaults), codeFrame)
    {
      defaults := Assign(defaults, config);
      r := NewError("PostHtmlPluginError", Obj(defaults), codeFrame);
    }
  }

  /** The shared object carries over: a property an earlier config set and
      a later one does not mention is still there for the later error, and
      one the later config sets takes that config's value. */
  lemma DefaultsCarryOver(defaults: seq<Prop>, c1: Value, c2: Value, key: string)
    ensures var after := Assign(Assign(defaults, c1), c2);
      (!HasKey(EnumerableProps(c2), key) ==> Lookup(after, key) == Lookup(Assign(defaults, c1), key)) &&
      (HasKey(EnumerableProps(c2), key) ==> Lookup(after, key) == LastValue(EnumerableProps(c2), key))
  {
    AssignPropsLookup(Assign(defaults, c1), EnumerableProps(c2), key);
  }
}
