/** The engine of lib/posthtml.js, the older entry point: a `PostHTML`
    object over a plugin array, and `process` with its sync `forEach` and
    its async `next`, proved to run the plugins as `Engine.SyncFrom` and
    `Engine.AsyncFrom` say for the `Legacy` variant.

    Unlike lib/index.js it keeps no state of its own besides the plugin
    array: the default parser (`PostHTML.parse`) and the renderer are
    fixed at load time and are parameters here, the parser the options
    name is used for that call only, and the result has no `messages`. */
module LibPosthtml {
  import opened JsValue
  import opened Api
  import opened Engine

  /** The tree `process` hands to the first plugin: the input itself with
      `skipParse`, otherwise the parser's output on the input and
      `options.parserOptions`; then `tree.options = options`, a TypeError
      on a primitive (the file is strict). */
  function Prepare(parser: ParserFn, input: Value, options: Value): (r: Completion<Tree>)
    ensures r.Normal? ==> IsObjectRef(r.value.root) && r.value.ext == map["options" := Data(options)]
    ensures SkipParse(options) ==>
      r == if IsObjectRef(input) then Normal(Tree(input, map["options" := Data(options)])) else Throw(TypeErrorValue)
    ensures !SkipParse(options) ==>
      var parsed := parser(input, Get(options, "parserOptions"));
      r == match parsed
           case Throw(e) => Throw(e)
           case Normal(root) =>
             if IsObjectRef(root) then Normal(Tree(root, map["options" := Data(options)])) else Throw(TypeErrorValue)
  {
    var parsed := if SkipParse(options) then Normal(input) else parser(input, Get(options, "parserOptions"));
    match parsed
    case Throw(e) => Throw(e)
    case Normal(root) =>
      if IsObjectRef(root) then Normal(Tree(root, map["options" := Data(options)]))
      else Throw(TypeErrorValue)
  }

  /** The plugins' run on the prepared tree: `lazyRender(tree)` or the
      sync exception, or the promise's settlement. No message store is
      reachable from the tree, so the stores stay empty. */
  function PluginRun(ps: seq<Plugin>, t: Tree, sync: bool): (r: Completion<Processed>)
    ensures sync ==> match SyncFrom(Legacy, ps, 0, t, Stores([], [])).result
      case Normal(t') => r == Normal(Done(LazyResult(t', None)))
      case Throw(e) => r == Throw(e)
    ensures !sync ==> r == Normal(Promise(AsyncFrom(Legacy, ps, 0, t, Stores([], []), InExecutor).settlement))
  {
    if sync then
      match SyncFrom(Legacy, ps, 0, t, Stores([], [])).result
      case Normal(t') => Normal(Done(Finish(Legacy, t')))
      case Throw(e) => Throw(e)
    else Normal(Promise(AsyncFrom(Legacy, ps, 0, t, Stores([], []), InExecutor).settlement))
  }

  /** `process(tree, options)`, given the default parser. */
  function ProcessRun(parser: ParserFn, ps: seq<Plugin>, input: Value, options: Options): (r: Completion<Processed>)
    ensures r.Normal? ==> (r.value.Done? <==> SyncMode(OrEmpty(options).value))
  {
    var opts := OrEmpty(options);
    var p := if opts.parser.Some? then opts.parser.value else parser;
    match Prepare(p, input, opts.value)
    case Throw(e) => Throw(e)
    case Normal(t) => PluginRun(ps, t, SyncMode(opts.value))
  }

  /** The parser `process` calls is the one the options name, or else the
      default one, whatever earlier calls used: it receives the input and
      `options.parserOptions`, its exception is `process`'s, a primitive
      result fails on `tree.options = options`, and the plugins run on an
      object result carrying the options. */
  lemma ParserIsPerCall(parser: ParserFn, ps: seq<Plugin>, input: Value, options: Options, used: ParserFn)
    requires Truthy(options.value) && !SkipParse(options.value)
    requires used == if options.parser.Some? then options.parser.value else parser
    ensures var parsed := used(input, Get(options.value, "parserOptions"));
      ProcessRun(parser, ps, input, options) ==
        match parsed
        case Throw(e) => Throw(e)
        case Normal(root) =>
          if IsObjectRef(root) then PluginRun(ps, Tree(root, map["options" := Data(options.value)]), SyncMode(options.value))
          else Throw(TypeErrorValue)
  {
    assert OrEmpty(options) == options;
    if options.parser.Some? {
      assert used == options.parser.value;
    }
  }

  /** The result of the sync mode has no `messages`, and with plugins that
      neither take a callback nor return a promise the two modes agree:
      the sync result is what the promise fulfils with, and the sync
      exception is what it rejects with. */
  lemma SyncAndAsyncProcessAgree(ps: seq<Plugin>, t: Tree)
    requires forall j :: 0 <= j < |ps| ==> SyncFriendly(ps[j])
    ensures var s := PluginRun(ps, t, true); var a := PluginRun(ps, t, false);
      a.Normal? && a.value.Promise? &&
      (s.Normal? ==> s.value.Done? && s.value.result.messages.None? &&
                     a.value.settlement == Fulfilled(s.value.result)) &&
      (s.Throw? ==> a.value.settlement == RejectedWith(s.error))
  {
    SyncAndAsyncAgree(Legacy, ps, 0, t, Stores([], []), InExecutor);
  }

  /** `tree = options.skipParse ? tree : parser(tree, options.parserOptions)`,
      then `tree.options = options`. */
  method PrepareTree(parser: ParserFn, input: Value, options: Value) returns (r: Completion<Tree>)
    ensures r == Prepare(parser, input, options)
  {
    var root := input;
    if !SkipParse(options) {
      var parsed := parser(input, Get(options, "parserOptions"));
      if parsed.Throw? {
        return Throw(parsed.error);
      }
      root := parsed.value;
    }
    if !IsObjectRef(root) {
      // setting a property on a primitive
      return Throw(TypeErrorValue);
    }
    r := Normal(Tree(root, map["options" := Data(options)]));
  }

  /** `apiExtend(tree)`: `walk` and `match` only. */
  method ApiExtend(tree: Tree) returns (r: Completion<Tree>)
    ensures r == Extend(Legacy, tree)
    ensures r.Normal? ==> MessagesTarget(r.value) == MessagesTarget(tree)
  {
    if !IsObjectRef(tree.root) {
      return Throw(TypeErrorValue);
    }
    r := Normal(Tree(tree.root, tree.ext["walk" := WalkFn]["match" := MatchFn]));
  }

  /** `plugin(tree)`: nothing sets `tree.messages`, so a push throws. */
  method CallPlugin(p: Plugin, tree: Tree) returns (c: Call)
    requires MessagesTarget(tree).None?
    ensures c == Invoke(p, tree, Stores([], []))
    ensures c.stores == Stores([], []) && c.tree.ext == tree.ext
  {
    var eff := p.run(tree.root);
    if |eff.pushes| > 0 {
      // `tree.messages` is undefined
      return Call(tree, Stores([], []), Threw(TypeErrorValue));
    }
    var outcome := eff.outcome;
    if p.arity != 2 && outcome.CalledBack? {
      // the plugin calls a callback it was never given
      outcome := Threw(TypeErrorValue);
    }
    c := Call(Tree(eff.root, tree.ext), Stores([], []), outcome);
  }

  /** The body of the `forEach` callback for one plugin. */
  method SyncTurn(plugin: Plugin, tree: Tree) returns (step: SyncStep)
    requires MessagesTarget(tree).None?
    ensures forall last: bool :: step == SyncVerdict(Legacy, plugin, last, tree, Stores([], []))
    ensures step.Stop? ==> step.run.stores == Stores([], [])
    ensures step.Next? ==> step.stores == Stores([], []) && MessagesTarget(step.tree).None?
  {
    var extended := ApiExtend(tree);
    if extended.Throw? {
      return Stop(SyncRun(Throw(extended.error), Stores([], [])));
    }
    if plugin.arity == 2 {
      return Stop(SyncRun(Throw(AsyncPluginError(Legacy, plugin)), Stores([], [])));
    }
    var c := CallPlugin(plugin, extended.value);
    match c.outcome {
      case Threw(e) =>
        return Stop(SyncRun(Throw(e), c.stores));
      case Returned(ret) =>
        var result := ResultTree(ret, c.tree);
        if IsPromise(result.root) {
          return Stop(SyncRun(Throw(AsyncPluginError(Legacy, plugin)), c.stores));
        }
        // `tree = result || tree`
        step := Next(if Truthy(result.root) then result else c.tree, c.stores);
      case _ =>
        // a promise
        return Stop(SyncRun(Throw(AsyncPluginError(Legacy, plugin)), c.stores));
    }
  }

  /** The sync mode: `this.plugins.forEach(...)`. */
  method RunSync(ps: seq<Plugin>, t0: Tree) returns (r: Completion<Tree>)
    requires MessagesTarget(t0).None?
    ensures r == SyncFrom(Legacy, ps, 0, t0, Stores([], [])).result
  {
    var tree := t0;
    var i := 0;
    while i < |ps|
      invariant 0 <= i <= |ps|
      invariant MessagesTarget(tree).None?
      invariant SyncFrom(Legacy, ps, 0, t0, Stores([], [])) == SyncFrom(Legacy, ps, i, tree, Stores([], []))
      decreases |ps| - i
    {
      var step := SyncTurn(ps[i], tree);
      if step.Stop? {
        return step.run.result;
      }
      tree := step.tree;
      i := i + 1;
    }
    r := Normal(tree);
  }

  /** One call of `next`, running in `ctx`, past the extension: call the
      plugin and decide, from how it ended, whether the promise settles or
      `_next` goes on with a result, and where it runs; `after` is the
      tree the plugin was handed. */
  method AsyncTurn(plugin: Plugin, t1: Tree, ctx: Context) returns (verdict: Verdict, after: Tree)
    requires MessagesTarget(t1).None?
    ensures var c := Invoke(plugin, t1, Stores([], []));
      verdict == AsyncVerdict(Legacy, plugin, c, ctx) && after == c.tree
    ensures MessagesTarget(after).None?
    ensures verdict.Go? && verdict.res.Some? ==> MessagesTarget(verdict.res.value).None?
  {
    var c := CallPlugin(plugin, t1);
    var res: Option<Tree>;
    var next := ctx;
    if plugin.arity == 2 {
      match c.outcome {
        case CalledBack(err, ret, later) =>
          if Truthy(err) {
            return Settle(RejectedWith(err)), c.tree;
          }
          res := Some(ResultTree(ret, c.tree));
          if later {
            // `_next` runs inside the plugin's own later callback
            next := Deferred;
          }
        case Threw(e) =>
          // no `tryCatch` around the call: the exception escapes `next`
          return Settle(Escape(Legacy, ctx, e)), c.tree;
        case _ =>
          // the callback is never called
          return Settle(Stalled), c.tree;
      }
    } else {
      match c.outcome {
        case Threw(e) =>
          if Truthy(e) {
            return Settle(RejectedWith(e)), c.tree;
          }
          // `tryCatch` hands back nothing
          res := None;
        case Returned(ret) =>
          res := Some(ResultTree(ret, c.tree));
          if IsPromise(res.value.root) {
            // a thenable the model does not follow
            return Settle(Stalled), c.tree;
          }
        case Resolved(ret) =>
          res := Some(ResultTree(ret, c.tree));
          if IsPromise(res.value.root) {
            return Settle(Stalled), c.tree;
          }
          // `.then(_next)`
          next := InThen;
        case Rejected(e) =>
          // `.catch(cb)`
          return Settle(Caught(Legacy, e)), c.tree;
        case _ =>
          return Settle(Stalled), c.tree;
      }
    }
    verdict, after := Go(res, next), c.tree;
  }

  /** The async mode: `next` from the first plugin, called inside the
      promise's executor, and how the promise settles. The final tree is
      not extended again. `ctx` follows where each later call of `next`
      runs. */
  method RunAsync(ps: seq<Plugin>, t0: Tree) returns (r: Settlement)
    requires MessagesTarget(t0).None?
    ensures r == AsyncFrom(Legacy, ps, 0, t0, Stores([], []), InExecutor).settlement
  {
    var i := 0;
    var result := t0;
    var ctx := InExecutor;
    while i < |ps|
      invariant 0 <= i <= |ps|
      invariant MessagesTarget(result).None?
      invariant AsyncFrom(Legacy, ps, 0, t0, Stores([], []), InExecutor) == AsyncFrom(Legacy, ps, i, result, Stores([], []), ctx)
      decreases |ps| - i
    {
      var extended := ApiExtend(result);
      if extended.Throw? {
        // the TypeError escapes `next`
        return Escape(Legacy, ctx, extended.error);
      }
      var plugin := ps[i];
      i := i + 1;
      var verdict, after := AsyncTurn(plugin, extended.value, ctx);
      if verdict.Settle? {
        return verdict.s;
      }
      var res := verdict.res;
      ctx := verdict.ctx;
      // `_next(pluginResult)`: next(pluginResult || res)
      result := if res.Some? && Truthy(res.value.root) then res.value else after;
    }
    // `cb(null, res)`: resolve with `lazyRender(res)`
    r := Fulfilled(LazyResult(result, None));
  }

  /** The PostHTML object of lib/posthtml.js. */
  class PostHTML {
    var plugins: PluginList

    /** `new PostHTML(plugins)`: `this.plugins = plugins || []`, the
        caller's own array when one is given. */
    constructor (arg: Option<PluginList>)
      ensures arg.Some? ==> plugins == arg.value
      ensures arg.None? ==> fresh(plugins) && plugins.items == []
    {
      match arg {
        case Some(list) => plugins := list;
        case None => plugins := new PluginList([]);
      }
    }

    /** `use(...plugins)`: `[].push.apply(this.plugins, arguments)`, then
        the object itself. */
    method Use(ps: seq<Plugin>) returns (self: PostHTML)
      modifies plugins
      ensures self == this && plugins == old(plugins)
      ensures plugins.items == old(plugins.items) + ps
    {
      plugins.items := plugins.items + ps;
      self := this;
    }

    /** `process(tree, options)`, with `parser` the default parser
        (`PostHTML.parse`). Nothing outlives the call. */
    method Process(input: Value, options: Options, parser: ParserFn) returns (r: Completion<Processed>)
      ensures r == ProcessRun(parser, plugins.items, input, options)
    {
      var opts := options;
      if !Truthy(opts.value) {
        opts := Options(Obj([]), None, None);
      }
      var p := if opts.parser.Some? then opts.parser.value else parser;
      var prepared := PrepareTree(p, input, opts.value);
      if prepared.Throw? {
        return Throw(prepared.error);
      }
      var tree := prepared.value;
      assert opts == OrEmpty(options);
      if SyncMode(opts.value) {
        var run := RunSync(plugins.items, tree);
        if run.Throw? {
          return Throw(run.error);
        }
        return Normal(Done(LazyResult(run.value, None)));
      }
      var settlement := RunAsync(plugins.items, tree);
      r := Normal(Promise(settlement));
    }
  }
}
