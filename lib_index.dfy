/** The engine of lib/index.js: the `PostHTML` class, its plugin list, and
    `process` with its sync `forEach` and its async `next`, each proved to
    run the plugins as `Engine.SyncFrom` and `Engine.AsyncFrom` say for the
    `Lib` variant.

    The module-level `parser` and `render` variables are the fields of an
    `Engine.Defaults`; the module-level `messages` array of lib/api.js is the
    field of `Api.ApiModule`. */
module LibIndex {
  import opened JsValue
  import opened Api
  import opened Engine

  /** The variant `process` runs: `apiExtend` attaching the lib/api.js
      `messages` array, as intended (see `PushFailsAsWritten` for the code
      as written). */
  const Intended: Variant := Lib(true)

  /** The tree `process` hands to the first plugin: the input itself with
      `skipParse`, the parser's output otherwise, with `options` and
      `processor` set on it (a TypeError on a primitive, the code being
      strict). */
  function Prepare(parser: ParserFn, input: Value, options: Value): (r: Completion<Tree>)
    ensures r.Normal? ==> IsObjectRef(r.value.root)
    ensures r.Normal? ==> r.value.ext == map["options" := Data(options), "processor" := Processor]
    ensures SkipParse(options) ==>
      r == if IsObjectRef(input) then Normal(Tree(input, map["options" := Data(options), "processor" := Processor]))
           else Throw(TypeErrorValue)
  {
    var parsed := if SkipParse(options) then Normal(input) else parser(input, options);
    match parsed
    case Throw(e) => Throw(e)
    case Normal(root) =>
      if IsObjectRef(root) then Normal(Tree(root, map["options" := Data(options), "processor" := Processor]))
      else Throw(TypeErrorValue)
  }

  /** The plugins' run on the prepared tree: `lazyResult` or the sync
      exception, or the promise's settlement. */
  function PluginRun(ps: seq<Plugin>, t: Tree, sync: bool, messages: seq<Value>): (r: RunResult)
    ensures messages <= r.stores.api
    ensures !sync ==> r.result.Normal? && r.result.value.Promise?
    ensures sync && r.result.Normal? ==> r.result.value.Done?
  {
    var st := Stores(messages, []);
    if sync then
      var s := SyncFrom(Intended, ps, 0, t, st);
      match s.result
      case Normal(t') => RunResult(Normal(Done(Finish(Intended, t'))), s.stores)
      case Throw(e) => RunResult(Throw(e), s.stores)
    else
      var a := AsyncFrom(Intended, ps, 0, t, st, InExecutor);
      RunResult(Normal(Promise(a.settlement)), a.stores)
  }

  /** `process(tree, options)`, given the module-level parser in effect
      and the messages gathered so far. */
  function ProcessRun(parser: ParserFn, ps: seq<Plugin>, input: Value, options: Options, messages: seq<Value>): (r: RunResult)
    ensures messages <= r.stores.api
    ensures r.result.Normal? ==> (r.result.value.Done? <==> SyncMode(OrEmpty(options).value))
  {
    var opts := OrEmpty(options);
    var p := if opts.parser.Some? then opts.parser.value else parser;
    match Prepare(p, input, opts.value)
    case Throw(e) => RunResult(Throw(e), Stores(messages, []))
    case Normal(t) => PluginRun(ps, t, SyncMode(opts.value), messages)
  }

  /** `tree = options.skipParse ? tree : parser(tree, options)`, then
      `tree.options = options` and `tree.processor = this`. */
  method PrepareTree(parser: ParserFn, input: Value, options: Value) returns (r: Completion<Tree>)
    ensures r == Prepare(parser, input, options)
  {
    var root := input;
    if !SkipParse(options) {
      var parsed := parser(input, options);
      if parsed.Throw? {
        return Throw(parsed.error);
      }
      root := parsed.value;
    }
    if !IsObjectRef(root) {
      // setting a property on a primitive
      return Throw(TypeErrorValue);
    }
    r := Normal(Tree(root, map["options" := Data(options), "processor" := Processor]));
  }

  /** `plugin(tree)`: the plugin's pushes land in the lib/api.js array. */
  method CallPlugin(p: Plugin, tree: Tree, api: ApiModule) returns (c: Call)
    requires MessagesTarget(tree) == Some(ApiMessages)
    modifies api
    ensures c == Invoke(p, tree, Stores(old(api.messages), []))
    ensures api.messages == c.stores.api && c.stores.instance == []
  {
    var eff := p.run(tree.root);
    if |eff.pushes| > 0 {
      api.messages := api.messages + eff.pushes;
    }
    var outcome := eff.outcome;
    if p.arity != 2 && outcome.CalledBack? {
      // the plugin calls a callback it was never given
      outcome := Threw(TypeErrorValue);
    }
    c := Call(Tree(eff.root, tree.ext), Stores(api.messages, []), outcome);
  }

  /** `apiExtend(tree)`. */
  method ApiExtend(tree: Tree) returns (r: Completion<Tree>)
    ensures r == Extend(Intended, tree) && r == ExtendTree(tree)
  {
    if !IsObjectRef(tree.root) {
      return Throw(TypeErrorValue);
    }
    r := Normal(Tree(tree.root, tree.ext["walk" := WalkFn]["match" := MatchFn]["messages" := ApiMessages]));
  }

  /** As written, `apiExtend` sets `tree.messages` to `api.messages`,
      a property lib/api.js never exports: it is `undefined`, and the
      first message a plugin pushes throws a TypeError, in either mode. */
  lemma PushFailsAsWritten(p: Plugin, t: Tree, st: Stores)
    requires IsObjectRef(t.root) && p.arity != 2 && p.run(t.root).pushes != []
    ensures SyncFrom(Lib(false), [p], 0, t, st).result == Throw(TypeErrorValue)
    ensures AsyncFrom(Lib(false), [p], 0, t, st, InExecutor).settlement == RejectedWith(TypeErrorValue)
  {
    var t1 := Extend(Lib(false), t).value;
    assert MessagesTarget(t1) == Some(Data(Undefined));
    assert Invoke(p, t1, st).outcome == Threw(TypeErrorValue);
  }

  /** With the array attached, a plugin's messages are appended to the
      lib/api.js array, and a plugin that changes the tree in place and
      returns nothing leaves that tree as the result, in either mode. */
  lemma PushReachesApiMessages(p: Plugin, t: Tree, st: Stores)
    requires IsObjectRef(t.root) && p.arity != 2
    requires p.run(t.root).outcome == Returned(Fresh(Undefined))
    ensures var t1 := Tree(p.run(t.root).root, Extend(Intended, t).value.ext);
      var st1 := st.(api := st.api + p.run(t.root).pushes);
      SyncFrom(Intended, [p], 0, t, st) == SyncRun(Normal(t1), st1) &&
      AsyncFrom(Intended, [p], 0, t, st, InExecutor) == AsyncRun(Fulfilled(Finish(Intended, t1)), st1, InExecutor)
  {
    var t1 := Extend(Intended, t).value;
    assert MessagesTarget(t1) == Some(ApiMessages);
    assert !IsPromise(Undefined);
    var c := Invoke(p, t1, st);
    assert AsyncVerdict(Intended, p, c, InExecutor) == Go(Some(Tree(Undefined, map[])), InExecutor);
    assert AsyncFrom(Intended, [p], 0, t, st, InExecutor) == AsyncFrom(Intended, [p], 1, c.tree, c.stores, InExecutor);
  }

  /** The sync mode of `process`: `this.plugins.forEach(...)`, then the
      tree for `lazyResult`. */
  method RunSync(ps: seq<Plugin>, t0: Tree, api: ApiModule) returns (r: Completion<Tree>)
    modifies api
    ensures var run := SyncFrom(Intended, ps, 0, t0, Stores(old(api.messages), []));
      r == run.result && api.messages == run.stores.api
  {
    ghost var st0 := Stores(api.messages, []);
    var tree := t0;
    var i := 0;
    while i < |ps|
      invariant 0 <= i <= |ps|
      invariant SyncFrom(Intended, ps, 0, t0, st0) == SyncFrom(Intended, ps, i, tree, Stores(api.messages, []))
      modifies api
      decreases |ps| - i
    {
      var step := SyncTurn(ps[i], tree, api);
      if step.Stop? {
        return step.run.result;
      }
      tree := step.tree;
      i := i + 1;
    }
    r := Normal(tree);
  }

  /** The body of the `forEach` callback for one plugin. */
  method SyncTurn(plugin: Plugin, tree: Tree, api: ApiModule) returns (step: SyncStep)
    modifies api
    ensures forall last: bool ::
      step == SyncVerdict(Intended, plugin, last, tree, Stores(old(api.messages), []))
    ensures step.Stop? ==> step.run.stores == Stores(api.messages, [])
    ensures step.Next? ==> step.stores == Stores(api.messages, [])
  {
    var extended := ApiExtend(tree);
    if extended.Throw? {
      return Stop(SyncRun(Throw(extended.error), Stores(api.messages, [])));
    }
    if plugin.arity == 2 {
      return Stop(SyncRun(Throw(AsyncPluginError(Intended, plugin)), Stores(api.messages, [])));
    }
    var c := CallPlugin(plugin, extended.value, api);
    match c.outcome {
      case Threw(e) =>
        return Stop(SyncRun(Throw(e), c.stores));
      case Returned(ret) =>
        var result := ResultTree(ret, c.tree);
        if IsPromise(result.root) {
          return Stop(SyncRun(Throw(AsyncPluginError(Intended, plugin)), c.stores));
        }
        step := Next(if Truthy(result.root) then result else c.tree, c.stores);
      case _ =>
        // a promise
        return Stop(SyncRun(Throw(AsyncPluginError(Intended, plugin)), c.stores));
    }
  }

  /** The async mode of `process`: `next` from the first plugin, called
      inside the promise's executor, and how the promise it feeds settles.
      `ctx` follows where each later call of `next` runs. */
  method RunAsync(ps: seq<Plugin>, t0: Tree, api: ApiModule) returns (r: Settlement)
    modifies api
    ensures var run := AsyncFrom(Intended, ps, 0, t0, Stores(old(api.messages), []), InExecutor);
      r == run.settlement && api.messages == run.stores.api
  {
    ghost var st0 := Stores(api.messages, []);
    var i := 0;
    var result := t0;
    var ctx := InExecutor;
    while i < |ps|
      invariant 0 <= i <= |ps|
      invariant AsyncFrom(Intended, ps, 0, t0, st0, InExecutor) == AsyncFrom(Intended, ps, i, result, Stores(api.messages, []), ctx)
      modifies api
      decreases |ps| - i
    {
      var extended := ApiExtend(result);
      if extended.Throw? {
        // the TypeError escapes `next`
        return Escape(Intended, ctx, extended.error);
      }
      var plugin := ps[i];
      i := i + 1;
      var verdict, after := AsyncTurn(plugin, extended.value, ctx, api);
      if verdict.Settle? {
        return verdict.s;
      }
      var res := verdict.res;
      ctx := verdict.ctx;
      // `_next(res)`: next(res || result)
      result := if res.Some? && Truthy(res.value.root) then res.value else after;
    }
    r := Fulfilled(LazyResult(result, Some(MessagesOf(result))));
  }

  /** One call of `next`, running in `ctx`, past the extension: call the
      plugin and decide, from how it ended, whether the promise settles or
      `_next` goes on with a result, and where it runs; `after` is the
      tree the plugin was handed. */
  method AsyncTurn(plugin: Plugin, t1: Tree, ctx: Context, api: ApiModule) returns (verdict: Verdict, after: Tree)
    requires MessagesTarget(t1) == Some(ApiMessages)
    modifies api
    ensures var c := Invoke(plugin, t1, Stores(old(api.messages), []));
      verdict == AsyncVerdict(Intended, plugin, c, ctx) && after == c.tree && c.stores == Stores(api.messages, [])
  {
    var c := CallPlugin(plugin, t1, api);
    var res: Option<Tree>;
    var next := ctx;
    if plugin.arity == 2 {
      match c.outcome {
        case CalledBack(err, ret, later) =>
          if Truthy(err) {
            return Settle(RejectedWith(err)), c.tree;
          }
          res := Some(ResultTree(ret, c.tree));
          if later {
            // `_next` runs inside the plugin's own later callback
            next := Deferred;
          }
        case Threw(e) =>
          // no `tryCatch` around the call: the exception escapes `next`
          return Settle(Escape(Intended, ctx, e)), c.tree;
        case _ =>
          // the callback is never called
          return Settle(Stalled), c.tree;
      }
    } else {
      match c.outcome {
        case Threw(e) =>
          if Truthy(e) {
            return Settle(RejectedWith(e)), c.tree;
          }
          // tryCatch hands back nothing
          res := None;
        case Returned(ret) =>
          res := Some(ResultTree(ret, c.tree));
          if IsPromise(res.value.root) {
            // a thenable the model does not follow
            return Settle(Stalled), c.tree;
          }
        case Resolved(ret) =>
          res := Some(ResultTree(ret, c.tree));
          if IsPromise(res.value.root) {
            return Settle(Stalled), c.tree;
          }
          // `.then(_next)`
          next := InThen;
        case Rejected(e) =>
          // `.catch(cb)`
          return Settle(Caught(Intended, e)), c.tree;
        case _ =>
          return Settle(Stalled), c.tree;
      }
    }
    verdict, after := Go(res, next), c.tree;
  }

  /** What `process` does once the tree is prepared. */
  method RunPlugins(ps: seq<Plugin>, tree: Tree, sync: bool, api: ApiModule) returns (r: Completion<Processed>)
    modifies api
    ensures var run := PluginRun(ps, tree, sync, old(api.messages));
      r == run.result && api.messages == run.stores.api
  {
    if sync {
      var run := RunSync(ps, tree, api);
      if run.Throw? {
        return Throw(run.error);
      }
      return Normal(Done(LazyResult(run.value, Some(MessagesOf(run.value)))));
    }
    var settlement := RunAsync(ps, tree, api);
    r := Normal(Promise(settlement));
  }

  /** The PostHTML processor. */
  class PostHTML {
    const name: string
    const version: string
    var plugins: PluginList

    /** `new PostHTML(plugins)`: one function becomes a one-plugin list, an
        array is kept (the caller's own array), nothing gives `[]`. The
        package's name and version are parameters. */
    constructor (arg: PluginsArg, pkgName: string, pkgVersion: string)
      ensures name == pkgName && version == pkgVersion
      ensures arg.Single? ==> fresh(plugins) && plugins.items == [arg.p]
      ensures arg.List? ==> plugins == arg.list
      ensures arg.NoPlugins? ==> fresh(plugins) && plugins.items == []
    {
      name := pkgName;
      version := pkgVersion;
      match arg {
        case Single(p) => plugins := new PluginList([p]);
        case List(list) => plugins := list;
        case NoPlugins => plugins := new PluginList([]);
      }
    }

    /** `use(...plugins)`: append to the same array, in order, and return
        the processor. */
    method Use(ps: seq<Plugin>) returns (self: PostHTML)
      modifies plugins
      ensures self == this && plugins == old(plugins)
      ensures plugins.items == old(plugins.items) + ps
    {
      plugins.items := plugins.items + ps;
      self := this;
    }

    /** `process(tree, options)`. A parser or renderer in the options
        replaces the module-level one for good. */
    method Process(input: Value, options: Options, defaults: Defaults, api: ApiModule)
      returns (r: Completion<Processed>)
      modifies defaults, api
      ensures var run := ProcessRun(old(defaults.parser), plugins.items, input, options, old(api.messages));
        r == run.result && api.messages == run.stores.api
      ensures defaults.parser == if Truthy(options.value) && options.parser.Some? then options.parser.value else old(defaults.parser)
      ensures defaults.render == if Truthy(options.value) && options.render.Some? then options.render.value else old(defaults.render)
    {
      var opts := options;
      if !Truthy(opts.value) {
        opts := Options(Obj([]), None, None);
      }
      if opts.parser.Some? {
        defaults.parser := opts.parser.value;
      }
      if opts.render.Some? {
        defaults.render := opts.render.value;
      }
      var prepared := PrepareTree(defaults.parser, input, opts.value);
      if prepared.Throw? {
        return Throw(prepared.error);
      }
      var tree := prepared.value;
      var ps := plugins.items;
      assert opts == OrEmpty(options);
      assert ProcessRun(old(defaults.parser), ps, input, options, api.messages) == PluginRun(ps, tree, SyncMode(opts.value), api.messages);
      r := RunPlugins(ps, tree, SyncMode(opts.value), api);
    }
  }
}
