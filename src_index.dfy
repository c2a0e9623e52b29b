/** The engine of src/index.ts: a `PostHTML` instance keeps its own
    `messages` array, `source`, `options`, `parser` and `render`, and
    copies all its own properties onto every tree object the plugins see.
    Its `process` runs the plugins as `Engine.SyncFrom` and
    `Engine.AsyncFrom` say for the `Src` variant. */
module SrcIndex {
  import opened JsValue
  import opened Api
  import opened Engine

  /** The own properties of an instance once `process` has set `options`
      and `source`: `version`, `name`, `plugins`, `source`, `messages`,
      `parser`, `render`, then `walk` and `match` from `Api.call(this)`,
      then `options`. `Object.assign(tree, this)` copies them all; the
      `messages` copied is the instance's own array. */
  function InstanceProps(name: string, version: string, source: Value, options: Value): (r: map<string, Attached>)
    ensures r.Keys == {"version", "name", "plugins", "source", "messages", "parser", "render", "walk", "match", "options"}
    ensures r["messages"] == InstanceMessages && r["walk"] == WalkFn && r["match"] == MatchFn
    ensures r["options"] == Data(options) && r["source"] == Data(source)
  {
    var own := map["version" := Data(Str(version)), "name" := Data(Str(name)), "plugins" := Member("plugins"),
                   "source" := Data(source), "messages" := InstanceMessages,
                   "parser" := Member("parser"), "render" := Member("render")];
    var attached := AttachApi(own);
    assert attached["messages"] == InstanceMessages && attached["source"] == Data(source);
    attached["options" := Data(options)]
  }

  /** `options = {}`: the default applies to a missing argument only. */
  function DefaultOptions(options: Options): (r: Options)
    ensures !r.value.Undefined?
    ensures r.value.Null? <==> options.value.Null?
    ensures !options.value.Undefined? ==> r == options
  {
    if options.value.Undefined? then Options(Obj([]), None, None) else options
  }

  /** The tree the plugins start from: `tree || []` with `skipParse`, the
      parser's output otherwise, copied by `[].concat` into a new array. */
  function Prepare(parser: ParserFn, input: Value, options: Value): (r: Completion<Tree>)
    ensures r.Normal? ==> r.value.root.Arr? && r.value.ext == map[]
    ensures SkipParse(options) ==>
      r == Normal(Tree(if Truthy(input) then Concat(input) else Arr([]), map[]))
    ensures !SkipParse(options) && parser(input, options).Throw? ==> r == Throw(parser(input, options).error)
  {
    var parsed := if SkipParse(options) then Normal(if Truthy(input) then input else Arr([])) else parser(input, options);
    match parsed
    case Throw(e) => Throw(e)
    case Normal(v) => Normal(Tree(Concat(v), map[]))
  }

  /** The variant a call of `process` runs. */
  function CallVariant(name: string, version: string, input: Value, options: Value): (v: Engine.Variant)
    ensures v.Src? && v.skipParse == SkipParse(options)
    ensures v.instance == InstanceProps(name, version, input, options)
  {
    Src(SkipParse(options), InstanceProps(name, version, input, options))
  }

  /** A call's variant puts the instance's own `messages` array and the
      call's `options` on every object tree a plugin is handed. */
  lemma CallVariantAttaches(name: string, version: string, input: Value, options: Value, t: Tree)
    requires TypeOf(t.root) == "object" && !t.root.Null?
    ensures var v := CallVariant(name, version, input, options);
      Extend(v, t).Normal? &&
      MessagesTarget(Extend(v, t).value) == Some(InstanceMessages) &&
      OptionsOf(Extend(v, t).value) == options
  {
  }

  /** The plugins' run on the prepared tree; messages go to the
      instance's array. */
  function PluginRun(v: Engine.Variant, ps: seq<Plugin>, t: Tree, sync: bool, messages: seq<Value>): (r: RunResult)
    ensures messages <= r.stores.instance
    ensures !sync ==> r.result.Normal? && r.result.value.Promise?
    ensures sync && r.result.Normal? ==> r.result.value.Done?
  {
    var st := Stores([], messages);
    if sync then
      var s := SyncFrom(v, ps, 0, t, st);
      match s.result
      case Normal(t') => RunResult(Normal(Done(Finish(v, t'))), s.stores)
      case Throw(e) => RunResult(Throw(e), s.stores)
    else
      var a := AsyncFrom(v, ps, 0, t, st, InExecutor);
      RunResult(Normal(Promise(a.settlement)), a.stores)
  }

  /** `process(tree, options)` of an instance with the given `name` and
      `version`, given the module-level parser and the instance's
      messages so far. `null` options throw when `options.parser` is
      read. */
  function ProcessRun(parser: ParserFn, ps: seq<Plugin>, name: string, version: string, input: Value,
                      options: Options, messages: seq<Value>): (r: RunResult)
    ensures options.value.Null? ==> r == RunResult(Throw(TypeErrorValue), Stores([], messages))
    ensures messages <= r.stores.instance
    ensures r.result.Normal? ==> (r.result.value.Done? <==> SyncMode(DefaultOptions(options).value))
  {
    var opts := DefaultOptions(options);
    if opts.value.Null? then RunResult(Throw(TypeErrorValue), Stores([], messages))
    else
      var p := if opts.parser.Some? then opts.parser.value else parser;
      match Prepare(p, input, opts.value)
      case Throw(e) => RunResult(Throw(e), Stores([], messages))
      case Normal(t) => PluginRun(CallVariant(name, version, input, opts.value), ps, t, SyncMode(opts.value), messages)
  }

  /** `_treeExtendApi(t, this)`. */
  method TreeExtendApi(v: Engine.Variant, t: Tree) returns (r: Completion<Tree>)
    requires v.Src?
    ensures r == Extend(v, t)
  {
    if TypeOf(t.root) != "object" {
      return Normal(t);
    }
    if t.root.Null? {
      // Object.assign(null, ...)
      return Throw(TypeErrorValue);
    }
    r := Normal(Tree(t.root, t.ext + v.instance));
  }

  /** `tree = options.skipParse ? tree || [] : parser(tree, options)`
      and `tree = [].concat(tree)`. */
  method PrepareTree(parser: ParserFn, input: Value, options: Value) returns (r: Completion<Tree>)
    ensures r == Prepare(parser, input, options)
  {
    var root: Value;
    if SkipParse(options) {
      root := if Truthy(input) then input else Arr([]);
    } else {
      var parsed := parser(input, options);
      if parsed.Throw? {
        return Throw(parsed.error);
      }
      root := parsed.value;
    }
    r := Normal(Tree(Concat(root), map[]));
  }

  /** The instance's properties put `messages` on every tree they are
      copied onto. */
  predicate OwnMessages(v: Engine.Variant) {
    v.Src? && "messages" in v.instance && v.instance["messages"] == InstanceMessages
  }

  /** A push from a plugin lands in the instance's own array: a plugin
      that changes the tree array in place and returns nothing leaves that
      array, with the instance's properties on it, as the result. */
  lemma PushReachesInstanceMessages(v: Engine.Variant, p: Plugin, t: Tree, st: Stores)
    requires OwnMessages(v) && t.root.Arr? && p.arity != 2
    requires p.run(t.root).root.Arr? && p.run(t.root).outcome == Returned(Fresh(Undefined))
    ensures var t1 := Tree(p.run(t.root).root, t.ext + v.instance);
      var st1 := st.(instance := st.instance + p.run(t.root).pushes);
      SyncFrom(v, [p], 0, t, st) == SyncRun(Normal(t1), st1) &&
      AsyncFrom(v, [p], 0, t, st, InExecutor) == AsyncRun(Fulfilled(Finish(v, t1)), st1, InExecutor)
  {
    var t1 := Extend(v, t).value;
    assert MessagesTarget(t1) == Some(InstanceMessages);
    assert !IsPromise(Undefined);
    var c := Invoke(p, t1, st);
    assert AsyncVerdict(v, p, c, InExecutor) == Go(Some(Tree(Undefined, map[])), InExecutor);
    assert AsyncFrom(v, [p], 0, t, st, InExecutor) == AsyncFrom(v, [p], 1, c.tree, c.stores, InExecutor);
    assert t1.ext + v.instance == t1.ext;
  }

  /** Unless `skipParse` is set, the sync loop hands each plugin but the
      first a shallow copy of the tree: after a plugin that returns
      nothing, the next one gets a new array with the same elements and
      none of the properties set on the old one. */
  lemma SyncCopiesBetweenPlugins(v: Engine.Variant, ps: seq<Plugin>, i: nat, t: Tree, st: Stores)
    requires OwnMessages(v) && !v.skipParse && i + 1 < |ps| && ps[i].arity != 2 && t.root.Arr?
    requires Invoke(ps[i], Extend(v, t).value, st).outcome == Returned(Fresh(Undefined))
    ensures var c := Invoke(ps[i], Extend(v, t).value, st);
      SyncFrom(v, ps, i, t, st) == SyncFrom(v, ps, i + 1, Tree(Concat(c.tree.root), map[]), c.stores)
  {
    assert !IsPromise(Undefined);
  }

  /** In async mode the value a run settles with went through
      `_treeExtendApi` last: whenever it is an object, its `messages` is
      the instance's own array. */
  lemma {:induction false} AsyncResultCarriesMessages(v: Engine.Variant, ps: seq<Plugin>, i: nat, t: Tree, st: Stores,
                                                      ctx: Context)
    requires OwnMessages(v)
    ensures var a := AsyncFrom(v, ps, i, t, st, ctx).settlement;
      a.Fulfilled? && TypeOf(a.result.tree.root) == "object" ==> a.result.messages == Some(InstanceMessages)
    decreases |ps| - i
  {
    match Extend(v, t)
    case Throw(_) =>
    case Normal(t1) =>
      if i < |ps| {
        var c := Invoke(ps[i], t1, st);
        match AsyncVerdict(v, ps[i], c, ctx)
        case Settle(_) =>
        case Go(res, ctx') => AsyncResultCarriesMessages(v, ps, i + 1, NextTree(v, res, c.tree), c.stores, ctx');
      }
  }

  /** The PostHTML processor. */
  class PostHTML {
    const version: string
    const name: string
    var plugins: PluginList
    var source: Value
    var messages: seq<Value>
    var parser: ParserFn
    var render: RenderFn
    /** Unset until the first `process`. */
    var options: Option<Value>

    /** `new PostHTML(plugins)`. The package's name and version are
        parameters; the instance takes the module-level parser and
        renderer in effect. */
    constructor (arg: PluginsArg, pkgName: string, pkgVersion: string, defaults: Defaults)
      ensures name == pkgName && version == pkgVersion
      ensures arg.Single? ==> fresh(plugins) && plugins.items == [arg.p]
      ensures arg.List? ==> plugins == arg.list
      ensures arg.NoPlugins? ==> fresh(plugins) && plugins.items == []
      ensures source == Str("") && messages == [] && options == None
      ensures parser == defaults.parser && render == defaults.render
    {
      version := pkgVersion;
      name := pkgName;
      match arg {
        case Single(p) => plugins := new PluginList([p]);
        case List(list) => plugins := list;
        case NoPlugins => plugins := new PluginList([]);
      }
      source := Str("");
      messages := [];
      parser := defaults.parser;
      render := defaults.render;
      options := None;
    }

    /** `use(...args)`: append to the same array and return the
        processor. */
    method Use(ps: seq<Plugin>) returns (self: PostHTML)
      modifies plugins
      ensures self == this && plugins == old(plugins)
      ensures plugins.items == old(plugins.items) + ps
    {
      plugins.items := plugins.items + ps;
      self := this;
    }

    /** `plugin(tree)`: the plugin's pushes land in the instance's array
        when the tree carries it. */
    method CallPlugin(p: Plugin, tree: Tree) returns (c: Call)
      requires MessagesTarget(tree) != Some(ApiMessages)
      modifies this`messages
      ensures c == Invoke(p, tree, Stores([], old(messages)))
      ensures messages == c.stores.instance && c.stores.api == []
    {
      var eff := p.run(tree.root);
      if |eff.pushes| > 0 {
        if MessagesTarget(tree) != Some(InstanceMessages) {
          // `tree.messages` is not an array
          return Call(tree, Stores([], messages), Threw(TypeErrorValue));
        }
        messages := messages + eff.pushes;
      }
      var outcome := eff.outcome;
      if p.arity != 2 && outcome.CalledBack? {
        outcome := Threw(TypeErrorValue);
      }
      c := Call(Tree(eff.root, tree.ext), Stores([], messages), outcome);
    }

    /** The sync mode: `this.plugins.forEach((plugin, index) => ...)`. */
    method RunSync(v: Engine.Variant, ps: seq<Plugin>, t0: Tree) returns (r: Completion<Tree>)
      requires OwnMessages(v) && MessagesTarget(t0) != Some(ApiMessages)
      modifies this`messages
      ensures var run := SyncFrom(v, ps, 0, t0, Stores([], old(messages)));
        r == run.result && messages == run.stores.instance
    {
      ghost var st0 := Stores([], messages);
      var tree := t0;
      var index := 0;
      while index < |ps|
        invariant 0 <= index <= |ps|
        invariant MessagesTarget(tree) != Some(ApiMessages)
        invariant SyncFrom(v, ps, 0, t0, st0) == SyncFrom(v, ps, index, tree, Stores([], messages))
        decreases |ps| - index
      {
        var step := SyncTurn(v, ps[index], index == |ps| - 1, tree);
        if step.Stop? {
          return step.run.result;
        }
        tree := step.tree;
        index := index + 1;
      }
      r := Normal(tree);
    }

    /** The body of the `forEach` callback for one plugin; `last` says
        whether it is the final one. */
    method SyncTurn(v: Engine.Variant, plugin: Plugin, last: bool, tree: Tree) returns (step: SyncStep)
      requires OwnMessages(v) && MessagesTarget(tree) != Some(ApiMessages)
      modifies this`messages
      ensures step == SyncVerdict(v, plugin, last, tree, Stores([], old(messages)))
      ensures step.Stop? ==> step.run.stores == Stores([], messages)
      ensures step.Next? ==> step.stores == Stores([], messages) && MessagesTarget(step.tree) != Some(ApiMessages)
    {
      var extended := TreeExtendApi(v, tree);
      if extended.Throw? {
        return Stop(SyncRun(Throw(extended.error), Stores([], messages)));
      }
      if plugin.arity == 2 {
        return Stop(SyncRun(Throw(AsyncPluginError(v, plugin)), Stores([], messages)));
      }
      var c := CallPlugin(plugin, extended.value);
      match c.outcome {
        case Threw(e) =>
          return Stop(SyncRun(Throw(e), c.stores));
        case Returned(ret) =>
          var result := ResultTree(ret, c.tree);
          if IsPromise(result.root) {
            return Stop(SyncRun(Throw(AsyncPluginError(v, plugin)), c.stores));
          }
          var kept := c.tree;
          if !last && !v.skipParse {
            kept := Tree(Concat(c.tree.root), map[]);
          }
          step := Next(if Truthy(result.root) then result else kept, c.stores);
        case _ =>
          // a promise
          return Stop(SyncRun(Throw(AsyncPluginError(v, plugin)), c.stores));
      }
    }

    /** The async mode: `next` from the first plugin, called inside the
        promise's executor, extending the tree on every call, the last one
        included. `ctx` follows where each later call of `next` runs. */
    method RunAsync(v: Engine.Variant, ps: seq<Plugin>, t0: Tree) returns (r: Settlement)
      requires OwnMessages(v) && MessagesTarget(t0) != Some(ApiMessages)
      modifies this`messages
      ensures var run := AsyncFrom(v, ps, 0, t0, Stores([], old(messages)), InExecutor);
        r == run.settlement && messages == run.stores.instance
    {
      ghost var st0 := Stores([], messages);
      var i := 0;
      var result := t0;
      var ctx := InExecutor;
      while i < |ps|
        invariant 0 <= i <= |ps|
        invariant MessagesTarget(result) != Some(ApiMessages)
        invariant AsyncFrom(v, ps, 0, t0, st0, InExecutor) == AsyncFrom(v, ps, i, result, Stores([], messages), ctx)
        decreases |ps| - i
      {
        var extended := TreeExtendApi(v, result);
        if extended.Throw? {
          // the TypeError escapes `next`
          return Escape(v, ctx, extended.error);
        }
        var plugin := ps[i];
        i := i + 1;
        var verdict, after := AsyncTurn(v, plugin, extended.value, ctx);
        if verdict.Settle? {
          return verdict.s;
        }
        var res := verdict.res;
        ctx := verdict.ctx;
        // `_next(res)`: a truthy result is copied unless `skipParse`
        if res.Some? && Truthy(res.value.root) {
          result := if v.skipParse then res.value else Tree(Concat(res.value.root), map[]);
        } else {
          result := after;
        }
      }
      var extended := TreeExtendApi(v, result);
      if extended.Throw? {
        return Escape(v, ctx, extended.error);
      }
      r := Fulfilled(LazyResult(extended.value, Some(MessagesOf(extended.value))));
    }

    /** One call of `next`, running in `ctx`, past the extension: call the
        plugin and decide, from how it ended, whether the promise settles
        or `_next` goes on with a result (`res`), and where it runs;
        `after` is the tree the plugin was handed. */
    method AsyncTurn(v: Engine.Variant, plugin: Plugin, t1: Tree, ctx: Context) returns (verdict: Verdict, after: Tree)
      requires v.Src? && MessagesTarget(t1) != Some(ApiMessages)
      modifies this`messages
      ensures var c := Invoke(plugin, t1, Stores([], old(messages)));
        verdict == AsyncVerdict(v, plugin, c, ctx) && after == c.tree && c.stores == Stores([], messages)
      ensures MessagesTarget(after) != Some(ApiMessages)
      ensures verdict.Go? && verdict.res.Some? ==> MessagesTarget(verdict.res.value) != Some(ApiMessages)
    {
      var c := CallPlugin(plugin, t1);
      var res: Option<Tree>;
      var next := ctx;
      if plugin.arity == 2 {
        match c.outcome {
          case CalledBack(err, ret, later) =>
            if Truthy(err) {
              return Settle(RejectedWith(err)), c.tree;
            }
            res := Some(ResultTree(ret, c.tree));
            if later {
              // `_next` runs inside the plugin's own later callback
              next := Deferred;
            }
          case Threw(e) =>
            // no `tryCatch` around the call: the exception escapes `next`
            return Settle(Escape(v, ctx, e)), c.tree;
          case _ =>
            // the callback is never called
            return Settle(Stalled), c.tree;
        }
      } else {
        match c.outcome {
          case Threw(e) =>
            if Truthy(e) {
              return Settle(RejectedWith(e)), c.tree;
            }
            res := None;
          case Returned(ret) =>
            res := Some(ResultTree(ret, c.tree));
            if IsPromise(res.value.root) {
              return Settle(Stalled), c.tree;
            }
          case Resolved(ret) =>
            res := Some(ResultTree(ret, c.tree));
            if IsPromise(res.value.root) {
              return Settle(Stalled), c.tree;
            }
            // `.then(_next)`
            next := InThen;
          case Rejected(e) =>
            // `.catch(cb)`
            return Settle(Caught(v, e)), c.tree;
          case _ =>
            return Settle(Stalled), c.tree;
        }
      }
      verdict, after := Go(res, next), c.tree;
    }

    /** What `process` does once the tree is prepared. */
    method RunPlugins(v: Engine.Variant, ps: seq<Plugin>, tree: Tree, sync: bool) returns (r: Completion<Processed>)
      requires OwnMessages(v) && MessagesTarget(tree) != Some(ApiMessages)
      modifies this`messages
      ensures var run := PluginRun(v, ps, tree, sync, old(messages));
        r == run.result && messages == run.stores.instance
    {
      if sync {
        var run := RunSync(v, ps, tree);
        if run.Throw? {
          return Throw(run.error);
        }
        return Normal(Done(LazyResult(run.value, Some(MessagesOf(run.value)))));
      }
      var settlement := RunAsync(v, ps, tree);
      r := Normal(Promise(settlement));
    }

    /** The first lines of `process`: `options = {}`, record the options
        and the source, and let a parser or renderer in the options
        replace both the instance's and the module-level one (`null`
        options throw before that, when `options.parser` is read). */
    method Configure(input: Value, options: Options, defaults: Defaults) returns (opts: Options)
      modifies this`options, this`source, this`parser, this`render, defaults
      ensures opts == DefaultOptions(options)
      ensures this.options == Some(opts.value) && source == input
      ensures if !opts.value.Null? && opts.parser.Some? then defaults.parser == opts.parser.value && parser == opts.parser.value
        else defaults.parser == old(defaults.parser) && parser == old(parser)
      ensures if !opts.value.Null? && opts.render.Some? then defaults.render == opts.render.value && render == opts.render.value
        else defaults.render == old(defaults.render) && render == old(render)
    {
      opts := options;
      if opts.value.Undefined? {
        opts := Options(Obj([]), None, None);
      }
      this.options := Some(opts.value);
      source := input;
      if opts.value.Null? {
        return;
      }
      if opts.parser.Some? {
        defaults.parser := opts.parser.value;
        parser := opts.parser.value;
      }
      if opts.render.Some? {
        defaults.render := opts.render.value;
        render := opts.render.value;
      }
    }

    /** `process(tree, options)`. A parser or renderer in the options
        replaces both the instance's and the module-level one. */
    method Process(input: Value, options: Options, defaults: Defaults) returns (r: Completion<Processed>)
      modifies this, defaults
      ensures plugins == old(plugins)
      ensures this.options == Some(DefaultOptions(options).value) && source == input
      ensures var run := ProcessRun(old(defaults.parser), plugins.items, name, version, input, options, old(messages));
        r == run.result && messages == run.stores.instance
      ensures var o := DefaultOptions(options);
        if !o.value.Null? && o.parser.Some? then defaults.parser == o.parser.value && parser == o.parser.value
        else defaults.parser == old(defaults.parser) && parser == old(parser)
      ensures var o := DefaultOptions(options);
        if !o.value.Null? && o.render.Some? then defaults.render == o.render.value && render == o.render.value
        else defaults.render == old(defaults.render) && render == old(render)
    {
      var parser0 := defaults.parser;
      var opts := Configure(input, options, defaults);
      r := ParseAndRun(parser0, input, options, opts, defaults.parser);
    }

    /** The rest of `process` once the options are settled: parse (or take
        the input as it is), then run the plugins. `parser` is the parser in
        force after the options' override of `parser0`. */
    method ParseAndRun(parser0: ParserFn, input: Value, options: Options, opts: Options, parser: ParserFn)
      returns (r: Completion<Processed>)
      requires opts == DefaultOptions(options)
      requires parser == if !opts.value.Null? && opts.parser.Some? then opts.parser.value else parser0
      modifies this`messages
      ensures var run := ProcessRun(parser0, plugins.items, name, version, input, options, old(messages));
        r == run.result && messages == run.stores.instance
    {
      if opts.value.Null? {
        // reading `options.parser`
        return Throw(TypeErrorValue);
      }
      var prepared := PrepareTree(parser, input, opts.value);
      if prepared.Throw? {
        return Throw(prepared.error);
      }
      var tree := prepared.value;
      var v := CallVariant(name, version, input, opts.value);
      assert ProcessRun(parser0, plugins.items, name, version, input, options, messages) ==
        PluginRun(v, plugins.items, tree, SyncMode(opts.value), messages);
      r := RunPlugins(v, plugins.items, tree, SyncMode(opts.value));
    }
  }
}
