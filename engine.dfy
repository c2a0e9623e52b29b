/** What the three PostHTML engines (lib/index.js, src/index.ts and
    lib/posthtml.js) do with a list of plugins, stated once for all three.

    A plugin is modelled by its declared arity and by what a call does:
    the changes it makes to the tree it is handed, the messages it pushes
    to `tree.messages`, and how the call ends (a value, an exception, a
    callback, a promise that settles or one that never does). Promises and
    the event loop are modelled only as far as they decide the outcome:
    the order in which plugins run, which outcome ends the run, and where
    each call of `next` runs, since that decides where an exception
    escaping it goes. The engines differ only in the points a `Variant`
    names. */
module Engine {
  import opened JsValue
  import opened Api

  /** A parser: source and options to a tree, or an exception. */
  type ParserFn = (Value, Value) -> Completion<Value>

  /** A renderer: tree and options to HTML, or an exception. */
  type RenderFn = (Value, Value) -> Completion<string>

  /** The `options` argument of `process`: the object itself, and the
      functions stored under its `parser` and `render` keys when those are
      set (a function value is only a name in `Value`). */
  datatype Options = Options(value: Value, parser: Option<ParserFn>, render: Option<RenderFn>)

  /** `options = options || {}` (lib/index.js, lib/posthtml.js). */
  function OrEmpty(options: Options): (r: Options)
    ensures Truthy(r.value)
    ensures Truthy(options.value) ==> r == options
  {
    if Truthy(options.value) then options else Options(Obj([]), None, None)
  }

  /** `options.sync === true`. */
  predicate SyncMode(options: Value) {
    !IsNullish(options) && Get(options, "sync") == Bool(true)
  }

  /** `!!options.skipParse`. */
  predicate SkipParse(options: Value) {
    !IsNullish(options) && Truthy(Get(options, "skipParse"))
  }

  // ---------------------------------------------------------------------
  // Plugins
  // ---------------------------------------------------------------------

  /** The value a plugin hands back: the very tree object it was given, or
      some other value. */
  datatype Ret = Same | Fresh(v: Value)

  /** How a call of a plugin ends. `Resolved`, `Rejected` and `Pending` are
      a returned promise that fulfils, rejects, or never settles;
      `CalledBack` is a call of the callback an arity-2 plugin is given
      (a plugin that never calls it is `Pending`), made `later` when the
      plugin calls it after it has returned (from a timer, say) rather
      than during the call. */
  datatype Outcome =
    | Returned(ret: Ret)
    | Threw(error: Value)
    | Resolved(ret: Ret)
    | Rejected(reason: Value)
    | Pending
    | CalledBack(err: Value, ret: Ret, later: bool)

  /** One call of a plugin on a tree: the tree's contents after the call's
      in-place changes, the messages pushed, and how the call ended. */
  datatype Effect = Effect(root: Value, pushes: seq<Value>, outcome: Outcome)

  /** A plugin function: its `name`, its `length` and its behaviour. */
  datatype Plugin = Plugin(name: string, arity: nat, run: Value -> Effect)

  /** A plugin list, shared by reference: the array a caller passes to the
      constructor is the very array `use` appends to. */
  class PluginList {
    var items: seq<Plugin>

    constructor (items: seq<Plugin>)
      ensures this.items == items
    {
      this.items := items;
    }
  }

  /** The constructor's argument: one plugin function, an array of them,
      or nothing (a falsy value). */
  datatype PluginsArg = Single(p: Plugin) | List(list: PluginList) | NoPlugins

  /** `!!p && typeof p.then === 'function'`. */
  predicate IsPromise(v: Value) {
    Truthy(v) && TypeOf(Get(v, "then")) == "function"
  }

  /** An array index is spelled with digits only, so no array element or
      string character is found under a key containing anything else. */
  lemma {:induction false} IndexLookupNeedsDigits(items: seq<Value>, key: string, from: nat)
    requires exists j :: 0 <= j < |key| && !('0' <= key[j] <= '9')
    ensures IndexLookup(items, key, from) == Undefined
    decreases |items| - from
  {
    if from < |items| {
      var j :| 0 <= j < |key| && !('0' <= key[j] <= '9');
      var d := NatToString(from);
      if j < |d| {
        assert d[j] != key[j];
      }
      assert d != key;
      IndexLookupNeedsDigits(items, key, from + 1);
    }
  }

  /** Only an object with a `then` function is taken for a promise. */
  lemma PromiseIsThenable(v: Value)
    ensures IsPromise(v) <==> v.Obj? && Lookup(v.fields, "then").Fn?
  {
    assert !('0' <= "then"[0] <= '9');
    match v {
      case Arr(items) => IndexLookupNeedsDigits(items, "then", 0);
      case Str(s) =>
        IndexLookupNeedsDigits(seq(|s|, i requires 0 <= i < |s| => Str([s[i]])), "then", 0);
      case _ =>
    }
  }

  // ---------------------------------------------------------------------
  // Message stores and plugin calls
  // ---------------------------------------------------------------------

  /** The arrays `tree.messages` can refer to: the module-level array of
      lib/api.js and the array of a src/index.ts instance. */
  datatype Stores = Stores(api: seq<Value>, instance: seq<Value>)

  /** `tree.messages.push(...xs)`: appends to the array `tree.messages`
      refers to; with no such array the first push throws a TypeError. */
  function Push(st: Stores, target: Option<Attached>, xs: seq<Value>): (r: Completion<Stores>)
    ensures xs == [] ==> r == Normal(st)
    ensures xs != [] && target == Some(ApiMessages) ==> r == Normal(st.(api := st.api + xs))
    ensures xs != [] && target == Some(InstanceMessages) ==> r == Normal(st.(instance := st.instance + xs))
    ensures xs != [] && target != Some(ApiMessages) && target != Some(InstanceMessages) ==> r == Throw(TypeErrorValue)
  {
    if xs == [] then Normal(st)
    else match target
      case Some(ApiMessages) => Normal(st.(api := st.api + xs))
      case Some(InstanceMessages) => Normal(st.(instance := st.instance + xs))
      case _ => Throw(TypeErrorValue)
  }

  /** What `tree.messages` refers to. */
  function MessagesTarget(t: Tree): Option<Attached> {
    if "messages" in t.ext then Some(t.ext["messages"]) else None
  }

  /** A call, after the fact: the tree object (contents changed in place,
      engine properties kept), the stores, and how it ended. */
  datatype Call = Call(tree: Tree, stores: Stores, outcome: Outcome)

  /** `plugin(tree)`: a push with nowhere to go throws inside the plugin,
      and so does calling the callback a plugin of another arity is not
      given (`undefined(...)`). */
  function Invoke(p: Plugin, t: Tree, st: Stores): (c: Call)
    ensures c.tree.ext == t.ext
    ensures st.api <= c.stores.api && st.instance <= c.stores.instance
    ensures p.arity != 2 ==> !c.outcome.CalledBack?
    ensures (p.run(t.root).pushes != [] && MessagesTarget(t) != Some(ApiMessages) &&
             MessagesTarget(t) != Some(InstanceMessages)) ==> c == Call(t, st, Threw(TypeErrorValue))
  {
    var eff := p.run(t.root);
    match Push(st, MessagesTarget(t), eff.pushes)
    case Throw(e) => Call(t, st, Threw(e))
    case Normal(st') =>
      var outcome := if p.arity != 2 && eff.outcome.CalledBack? then Threw(TypeErrorValue) else eff.outcome;
      Call(Tree(eff.root, t.ext), st', outcome)
  }

  /** The tree a returned value stands for: the tree object itself, or a
      new value with no engine properties on it. */
  function ResultTree(ret: Ret, t: Tree): (r: Tree)
    ensures ret.Same? ==> r == t
    ensures ret.Fresh? ==> r.root == ret.v && r.ext == map[]
  {
    match ret
    case Same => t
    case Fresh(v) => Tree(v, map[])
  }

  // ---------------------------------------------------------------------
  // The engines
  // ---------------------------------------------------------------------

  /** Where the engines differ.
      - `Lib`: lib/index.js. `messagesAttached` says whether its
        `apiExtend` really attaches the module's `messages` array (see
        `ExtendAsWritten`).
      - `Src`: src/index.ts, with its `skipParse` option and the own
        properties of the instance, which it copies onto every tree.
      - `Legacy`: lib/posthtml.js. */
  datatype Variant =
    | Lib(messagesAttached: bool)
    | Src(skipParse: bool, instance: map<string, Attached>)
    | Legacy

  /** The engine's `apiExtend`/`_treeExtendApi` step before each plugin.
      lib/index.js and lib/posthtml.js are strict code, so setting a
      property on a primitive throws a TypeError; src/index.ts copies only
      onto values whose `typeof` is "object", and `Object.assign(null, …)`
      throws. */
  function Extend(v: Variant, t: Tree): (r: Completion<Tree>)
    ensures r.Normal? ==> r.value.root == t.root
    ensures r.Throw? ==> r.error == TypeErrorValue
    ensures !v.Src? ==> (r.Normal? <==> IsObjectRef(t.root))
    ensures v.Src? ==> (r.Throw? <==> t.root.Null?)
    ensures v.Src? && r.Normal? ==>
      r.value.ext == if TypeOf(t.root) == "object" then t.ext + v.instance else t.ext
    ensures !v.Src? && r.Normal? ==>
      "walk" in r.value.ext && "match" in r.value.ext &&
      r.value.ext["walk"] == WalkFn && r.value.ext["match"] == MatchFn &&
      forall k :: k in t.ext && k != "walk" && k != "match" && k != "messages" ==>
        k in r.value.ext && r.value.ext[k] == t.ext[k]
    ensures v.Lib? && r.Normal? ==>
      "messages" in r.value.ext &&
      r.value.ext["messages"] == (if v.messagesAttached then ApiMessages else Data(Undefined))
    ensures v.Legacy? && r.Normal? ==> r.value.ext == t.ext["walk" := WalkFn]["match" := MatchFn]
  {
    match v
    case Lib(attached) =>
      if IsObjectRef(t.root) then
        Normal(Tree(t.root, t.ext["walk" := WalkFn]["match" := MatchFn]
                                 ["messages" := if attached then ApiMessages else Data(Undefined)]))
      else Throw(TypeErrorValue)
    case Src(_, instance) =>
      if TypeOf(t.root) != "object" then Normal(t)
      else if t.root.Null? then Throw(TypeErrorValue)
      else Normal(Tree(t.root, t.ext + instance))
    case Legacy =>
      if IsObjectRef(t.root) then Normal(Tree(t.root, t.ext["walk" := WalkFn]["match" := MatchFn]))
      else Throw(TypeErrorValue)
  }

  /** The error a sync run raises for an asynchronous plugin. */
  function AsyncPluginError(v: Variant, p: Plugin): (e: Value)
    ensures Truthy(e)
  {
    if v.Legacy? then ErrorValue("Can\U{2019}t process synchronously because of async plugin: " + p.name)
    else ErrorValue("Can\U{2019}t process contents in sync mode because of async plugin: " + p.name)
  }

  datatype SyncRun = SyncRun(result: Completion<Tree>, stores: Stores)

  /** What the sync loop does with one plugin: stop the run, or go on
      with the next tree. */
  datatype SyncStep = Stop(run: SyncRun) | Next(tree: Tree, stores: Stores)

  /** One iteration of the sync `forEach`: extend, refuse an arity-2
      plugin without calling it, call the plugin, refuse a thenable
      result, then `tree = result || tree` (src/index.ts first makes
      `tree` a shallow copy, unless this is the `last` plugin or
      `skipParse` is set). An exception stops the run. */
  function SyncVerdict(v: Variant, p: Plugin, last: bool, t: Tree, st: Stores): (r: SyncStep)
    ensures Extend(v, t).Throw? ==> r == Stop(SyncRun(Throw(TypeErrorValue), st))
    ensures Extend(v, t).Normal? && p.arity == 2 ==> r == Stop(SyncRun(Throw(AsyncPluginError(v, p)), st))
    ensures r.Next? ==>
      p.arity != 2 && Extend(v, t).Normal? && Invoke(p, Extend(v, t).value, st).outcome.Returned?
    ensures r.Stop? ==> r.run.result.Throw?
    ensures var st' := if r.Stop? then r.run.stores else r.stores;
      st.api <= st'.api && st.instance <= st'.instance
  {
    match Extend(v, t)
    case Throw(e) => Stop(SyncRun(Throw(e), st))
    case Normal(t1) =>
      if p.arity == 2 then Stop(SyncRun(Throw(AsyncPluginError(v, p)), st))
      else
        var c := Invoke(p, t1, st);
        match c.outcome
        case Threw(e) => Stop(SyncRun(Throw(e), c.stores))
        case Returned(ret) =>
          var res := ResultTree(ret, c.tree);
          if IsPromise(res.root) then Stop(SyncRun(Throw(AsyncPluginError(v, p)), c.stores))
          else
            var kept := if v.Src? && !last && !v.skipParse then Tree(Concat(c.tree.root), map[]) else c.tree;
            Next(if Truthy(res.root) then res else kept, c.stores)
        case _ =>
          // a promise, which is truthy and has a `then` method
          Stop(SyncRun(Throw(AsyncPluginError(v, p)), c.stores))
  }

  /** Without the copy between plugins, whether a plugin is the last one
      does not matter. */
  lemma SyncVerdictIgnoresLast(v: Variant, p: Plugin, t: Tree, st: Stores)
    requires !v.Src? || v.skipParse
    ensures SyncVerdict(v, p, true, t, st) == SyncVerdict(v, p, false, t, st)
  {
  }

  /** The sync `forEach` from plugin `i` on. Messages are only ever
      appended: whatever the run ends with, the arrays it started with are
      prefixes of the arrays it leaves. */
  function SyncFrom(v: Variant, ps: seq<Plugin>, i: nat, t: Tree, st: Stores): (r: SyncRun)
    ensures st.api <= r.stores.api && st.instance <= r.stores.instance
    decreases |ps| - i
  {
    if i >= |ps| then SyncRun(Normal(t), st)
    else
      match SyncVerdict(v, ps[i], i == |ps| - 1, t, st)
      case Stop(run) => run
      case Next(t', st') => SyncFrom(v, ps, i + 1, t', st')
  }

  /** The object `lazyResult`/`lazyRender` returns: the final tree and, for
      lib/index.js and src/index.ts, what `tree.messages` referred to. Its
      `html` is computed on each read (`ResultHtml`). */
  datatype LazyResult = LazyResult(tree: Tree, messages: Option<Attached>)

  /** `tree.messages`, read on the final tree. */
  function MessagesOf(t: Tree): Attached {
    if "messages" in t.ext then t.ext["messages"] else Data(Get(t.root, "messages"))
  }

  /** `tree.options`. */
  function OptionsOf(t: Tree): Value {
    if "options" in t.ext && t.ext["options"].Data? then t.ext["options"].v else Get(t.root, "options")
  }

  /** The getter `html`: `render(tree, tree.options)`. */
  function ResultHtml(r: LazyResult, render: RenderFn): (h: Completion<string>)
    ensures IsNullish(r.tree.root) ==> h == Throw(TypeErrorValue)
    ensures !IsNullish(r.tree.root) ==> h == render(r.tree.root, OptionsOf(r.tree))
  {
    if IsNullish(r.tree.root) then Throw(TypeErrorValue) else render(r.tree.root, OptionsOf(r.tree))
  }

  function Finish(v: Variant, t: Tree): (r: LazyResult)
    ensures r.tree == t
    ensures r.messages.Some? <==> !v.Legacy?
  {
    if v.Legacy? then LazyResult(t, None) else LazyResult(t, Some(MessagesOf(t)))
  }

  /** How the promise `process` returns ends. */
  datatype Settlement = Fulfilled(result: LazyResult) | RejectedWith(reason: Value) | Stalled

  /** Where a call of `next` runs, which decides where an exception
      escaping it goes: inside the executor of the promise `process`
      returns (the first call, and every call reached from it without
      waiting), inside a callback an arity-2 plugin called after it had
      returned, or inside the `.then(_next)` of a plugin's promise. */
  datatype Context = InExecutor | Deferred | InThen

  /** `cb(err)`, the callback `process` hands to `next`, reached from
      `.catch(cb)` or with a truthy `err`: a truthy `err` rejects the
      promise; a falsy one resolves it with the result for an `undefined`
      tree, which lib/index.js and src/index.ts fail to build
      (`undefined.messages`) inside a promise handler nobody watches. */
  function Caught(v: Variant, e: Value): (s: Settlement)
    ensures s.RejectedWith? <==> Truthy(e)
    ensures s.RejectedWith? ==> s.reason == e
    ensures s.Fulfilled? <==> !Truthy(e) && v.Legacy?
    ensures s.Fulfilled? ==> s.result == LazyResult(Tree(Undefined, map[]), None)
  {
    if Truthy(e) then RejectedWith(e)
    else if v.Legacy? then Fulfilled(LazyResult(Tree(Undefined, map[]), None))
    else Stalled
  }

  /** Where an exception escaping `next` ends: the executor turns it
      into a rejection, whatever its value; a timer loses it, so the
      promise never settles; `.then(_next)` passes it to `.catch(cb)`. */
  function Escape(v: Variant, ctx: Context, e: Value): (s: Settlement)
    ensures s.RejectedWith? ==> s.reason == e
    ensures s.RejectedWith? <==> ctx.InExecutor? || (ctx.InThen? && Truthy(e))
    ensures s.Fulfilled? ==> ctx.InThen? && v.Legacy?
  {
    match ctx
    case InExecutor => RejectedWith(e)
    case Deferred => Stalled
    case InThen => Caught(v, e)
  }

  /** A run's settlement, the message stores it leaves, and where the
      `next` that settled it was running. */
  datatype AsyncRun = AsyncRun(settlement: Settlement, stores: Stores, ctx: Context)

  /** What `next` does after calling one plugin: settle the promise, or go
      on with the value the plugin produced (`Go(None, _)` when it produced
      none, as after a swallowed falsy exception), in the context the
      next call of `next` runs in. */
  datatype Verdict = Settle(s: Settlement) | Go(res: Option<Tree>, ctx: Context)

  function AsyncVerdict(v: Variant, p: Plugin, c: Call, ctx: Context): (r: Verdict)
    ensures p.arity == 2 && c.outcome.CalledBack? && Truthy(c.outcome.err) ==> r == Settle(RejectedWith(c.outcome.err))
    ensures p.arity == 2 && c.outcome.Threw? ==> r == Settle(Escape(v, ctx, c.outcome.error))
    ensures p.arity != 2 && c.outcome.Threw? && Truthy(c.outcome.error) ==> r == Settle(RejectedWith(c.outcome.error))
    ensures p.arity != 2 && c.outcome.Threw? && !Truthy(c.outcome.error) ==> r == Go(None, ctx)
    ensures p.arity != 2 && c.outcome.Rejected? ==> r == Settle(Caught(v, c.outcome.reason))
    ensures c.outcome.Pending? ==> r == Settle(Stalled)
    ensures r.Go? && r.ctx != ctx ==>
      (r.ctx == Deferred && c.outcome.CalledBack? && c.outcome.later) || (r.ctx == InThen && c.outcome.Resolved?)
  {
    if p.arity == 2 then
      match c.outcome
      case CalledBack(err, ret, later) =>
        if Truthy(err) then Settle(RejectedWith(err))
        else Go(Some(ResultTree(ret, c.tree)), if later then Deferred else ctx)
      // an arity-2 plugin is called without `tryCatch`
      case Threw(e) => Settle(Escape(v, ctx, e))
      case _ => Settle(Stalled)
    else
      match c.outcome
      case Threw(e) => if Truthy(e) then Settle(RejectedWith(e)) else Go(None, ctx)
      case Returned(ret) =>
        var res := ResultTree(ret, c.tree);
        if IsPromise(res.root) then Settle(Stalled) else Go(Some(res), ctx)
      case Resolved(ret) =>
        var res := ResultTree(ret, c.tree);
        if IsPromise(res.root) then Settle(Stalled) else Go(Some(res), InThen)
      case Rejected(e) => Settle(Caught(v, e))
      case _ => Settle(Stalled)
  }

  /** `next(res || result)`; src/index.ts wraps a truthy result with
      `[].concat` unless `skipParse`. */
  function NextTree(v: Variant, res: Option<Tree>, previous: Tree): (r: Tree)
    ensures res.None? || !Truthy(res.value.root) ==> r == previous
  {
    if res.Some? && Truthy(res.value.root) then
      if v.Src? && !v.skipParse then Tree(Concat(res.value.root), map[]) else res.value
    else previous
  }

  /** The async `next` from plugin `i` on, called in context `ctx`.
      src/index.ts extends the current tree first on every call, the final
      one included; the others extend only before calling a plugin.
      Messages are only ever appended, however the run settles. */
  function AsyncFrom(v: Variant, ps: seq<Plugin>, i: nat, t: Tree, st: Stores, ctx: Context): (r: AsyncRun)
    ensures st.api <= r.stores.api && st.instance <= r.stores.instance
    decreases |ps| - i, 1
  {
    if v.Src? then
      match Extend(v, t)
      case Throw(e) => AsyncRun(Escape(v, ctx, e), st, ctx)
      case Normal(t1) =>
        if i >= |ps| then AsyncRun(Fulfilled(Finish(v, t1)), st, ctx) else AsyncCall(v, ps, i, t1, st, ctx)
    else if i >= |ps| then AsyncRun(Fulfilled(Finish(v, t)), st, ctx)
    else
      match Extend(v, t)
      case Throw(e) => AsyncRun(Escape(v, ctx, e), st, ctx)
      case Normal(t1) => AsyncCall(v, ps, i, t1, st, ctx)
  }

  /** The call of plugin `i` on the extended tree, then `next`. */
  function AsyncCall(v: Variant, ps: seq<Plugin>, i: nat, t1: Tree, st: Stores, ctx: Context): (r: AsyncRun)
    requires i < |ps|
    ensures st.api <= r.stores.api && st.instance <= r.stores.instance
    decreases |ps| - i, 0
  {
    var c := Invoke(ps[i], t1, st);
    match AsyncVerdict(v, ps[i], c, ctx)
    case Settle(s) => AsyncRun(s, c.stores, ctx)
    case Go(res, ctx') => AsyncFrom(v, ps, i + 1, NextTree(v, res, c.tree), c.stores, ctx')
  }

  /** What `process` returns when it does not throw: the lazy result in
      sync mode, the promise otherwise. */
  datatype Processed = Done(result: LazyResult) | Promise(settlement: Settlement)

  datatype RunResult = RunResult(result: Completion<Processed>, stores: Stores)

  /** The module-level `let parser` and `let render` of an engine file,
      which an option replaces for every later call. */
  class Defaults {
    var parser: ParserFn
    var render: RenderFn

    constructor (parser: ParserFn, render: RenderFn)
      ensures this.parser == parser && this.render == render
    {
      this.parser := parser;
      this.render := render;
    }
  }

  // ---------------------------------------------------------------------
  // Properties of the runs
  // ---------------------------------------------------------------------

  /** A plugin that, on every tree, returns a value that is not a promise
      or throws a truthy exception: the kind a sync run accepts. */
  ghost predicate SyncFriendly(p: Plugin) {
    p.arity != 2 &&
    forall root :: var eff := p.run(root);
      (eff.outcome.Returned? && !IsPromise(if eff.outcome.ret.Same? then eff.root else eff.outcome.ret.v)) ||
      (eff.outcome.Threw? && Truthy(eff.outcome.error))
  }

  /** For lib/index.js and lib/posthtml.js, a sync run and an async run of
      sync-friendly plugins agree: the same messages, the same final tree
      when one completes, the same exception when one fails. The async
      run never waits, so it stays where it started: in the executor, or
      in a `.then`, but not in a timer, which would lose an exception. */
  lemma {:induction false} SyncAndAsyncAgree(v: Variant, ps: seq<Plugin>, i: nat, t: Tree, st: Stores, ctx: Context)
    requires !v.Src? && !ctx.Deferred?
    requires forall j :: 0 <= j < |ps| ==> SyncFriendly(ps[j])
    ensures var s := SyncFrom(v, ps, i, t, st); var a := AsyncFrom(v, ps, i, t, st, ctx);
      a.stores == s.stores &&
      (s.result.Normal? ==> a.settlement == Fulfilled(Finish(v, s.result.value))) &&
      (s.result.Throw? ==> a.settlement == RejectedWith(s.result.error))
    decreases |ps| - i
  {
    if i < |ps| && Extend(v, t).Normal? {
      var t1 := Extend(v, t).value;
      var p := ps[i];
      assert SyncFriendly(p);
      var c := Invoke(p, t1, st);
      var eff := p.run(t1.root);
      assert c.outcome.Returned? || (c.outcome.Threw? && Truthy(c.outcome.error)) by {
        if c != Call(t1, st, Threw(TypeErrorValue)) {
          assert c.outcome == eff.outcome;
        }
      }
      match SyncVerdict(v, p, i == |ps| - 1, t, st)
      case Stop(_) =>
      case Next(t', st') =>
        var res := ResultTree(c.outcome.ret, c.tree);
        assert AsyncVerdict(v, p, c, ctx) == Go(Some(res), ctx) && st' == c.stores;
        assert NextTree(v, Some(res), c.tree) == t';
        SyncAndAsyncAgree(v, ps, i + 1, t', st', ctx);
    }
  }

  /** A run that fails never reaches the plugins after the failure:
      appending plugins does not change it. */
  lemma {:induction false} SyncFailureStopsRun(v: Variant, ps: seq<Plugin>, qs: seq<Plugin>, i: nat, t: Tree, st: Stores)
    requires SyncFrom(v, ps, i, t, st).result.Throw?
    ensures SyncFrom(v, ps + qs, i, t, st) == SyncFrom(v, ps, i, t, st)
    decreases |ps| - i
  {
    assert i < |ps|;
    assert (ps + qs)[i] == ps[i];
    match SyncVerdict(v, ps[i], i == |ps| - 1, t, st)
    case Stop(_) =>
      assert SyncVerdict(v, ps[i], i == |ps + qs| - 1, t, st) == SyncVerdict(v, ps[i], i == |ps| - 1, t, st);
    case Next(t', st') =>
      assert i != |ps| - 1;
      SyncFailureStopsRun(v, ps, qs, i + 1, t', st');
  }

  /** Likewise for an async run that rejects or stalls. */
  lemma {:induction false} AsyncFailureStopsRun(v: Variant, ps: seq<Plugin>, qs: seq<Plugin>, i: nat, t: Tree, st: Stores,
                                                ctx: Context)
    requires !AsyncFrom(v, ps, i, t, st, ctx).settlement.Fulfilled?
    ensures AsyncFrom(v, ps + qs, i, t, st, ctx) == AsyncFrom(v, ps, i, t, st, ctx)
    decreases |ps| - i
  {
    if i < |ps| {
      assert (ps + qs)[i] == ps[i];
      match Extend(v, t)
      case Throw(_) =>
      case Normal(t1) =>
        var c := Invoke(ps[i], t1, st);
        match AsyncVerdict(v, ps[i], c, ctx)
        case Settle(_) =>
        case Go(res, ctx') =>
          AsyncFailureStopsRun(v, ps, qs, i + 1, NextTree(v, res, c.tree), c.stores, ctx');
    }
  }

  /** Plugins at the same place from the end run the same way: the
      runs of `ps + qs` from `|ps| + j` and of `qs` from `j` coincide. */
  lemma {:induction false} SyncShift(v: Variant, ps: seq<Plugin>, qs: seq<Plugin>, j: nat, t: Tree, st: Stores)
    ensures SyncFrom(v, ps + qs, |ps| + j, t, st) == SyncFrom(v, qs, j, t, st)
    decreases |qs| - j
  {
    if j < |qs| {
      assert (ps + qs)[|ps| + j] == qs[j];
      assert (|ps| + j == |ps + qs| - 1) == (j == |qs| - 1);
      match SyncVerdict(v, qs[j], j == |qs| - 1, t, st)
      case Stop(_) =>
      case Next(t', st') => SyncShift(v, ps, qs, j + 1, t', st');
    }
  }

  /** Plugins run in registration order: running `ps + qs` is running
      `ps` and then `qs` on the tree and messages it left (for
      src/index.ts only with `skipParse`, since without it the tree is
      copied between any two plugins but not after the last). */
  lemma {:induction false} SyncSequencing(v: Variant, ps: seq<Plugin>, qs: seq<Plugin>, i: nat, t: Tree, st: Stores)
    requires !v.Src? || v.skipParse
    requires i <= |ps|
    requires SyncFrom(v, ps, i, t, st).result.Normal?
    ensures var s := SyncFrom(v, ps, i, t, st);
      SyncFrom(v, ps + qs, i, t, st) == SyncFrom(v, qs, 0, s.result.value, s.stores)
    decreases |ps| - i
  {
    if i == |ps| {
      SyncShift(v, ps, qs, 0, t, st);
    } else {
      assert (ps + qs)[i] == ps[i];
      SyncVerdictIgnoresLast(v, ps[i], t, st);
      var step := SyncVerdict(v, ps[i], i == |ps| - 1, t, st);
      assert SyncFrom(v, ps + qs, i, t, st) == SyncFrom(v, ps + qs, i + 1, step.tree, step.stores);
      assert SyncFrom(v, ps, i, t, st) == SyncFrom(v, ps, i + 1, step.tree, step.stores);
      SyncSequencing(v, ps, qs, i + 1, step.tree, step.stores);
    }
  }

  /** src/index.ts's copy of the instance's properties is idempotent. */
  lemma SrcExtendIdempotent(v: Variant, t: Tree)
    requires v.Src? && Extend(v, t).Normal?
    ensures Extend(v, Extend(v, t).value) == Extend(v, t)
  {
    if TypeOf(t.root) == "object" {
      var e := t.ext + v.instance;
      assert e + v.instance == e;
    }
  }

  lemma {:induction false} AsyncShift(v: Variant, ps: seq<Plugin>, qs: seq<Plugin>, j: nat, t: Tree, st: Stores, ctx: Context)
    ensures AsyncFrom(v, ps + qs, |ps| + j, t, st, ctx) == AsyncFrom(v, qs, j, t, st, ctx)
    decreases |qs| - j
  {
    if j < |qs| {
      assert (ps + qs)[|ps| + j] == qs[j];
      match Extend(v, t)
      case Throw(_) =>
      case Normal(t1) =>
        var c := Invoke(qs[j], t1, st);
        match AsyncVerdict(v, qs[j], c, ctx)
        case Settle(_) =>
        case Go(res, ctx') =>
          AsyncShift(v, ps, qs, j + 1, NextTree(v, res, c.tree), c.stores, ctx');
    }
  }

  /** In async mode every engine runs `ps + qs` as `ps` and then `qs`,
      started from the tree, the messages and the context the run of `ps`
      ended with. */
  lemma {:induction false} AsyncSequencing(v: Variant, ps: seq<Plugin>, qs: seq<Plugin>, i: nat, t: Tree, st: Stores,
                                           ctx: Context)
    requires i <= |ps|
    requires var a := AsyncFrom(v, ps, i, t, st, ctx).settlement;
      a.Fulfilled? && Truthy(a.result.tree.root)
    ensures var a := AsyncFrom(v, ps, i, t, st, ctx);
      AsyncFrom(v, ps + qs, i, t, st, ctx) == AsyncFrom(v, qs, 0, a.settlement.result.tree, a.stores, a.ctx)
    decreases |ps| - i
  {
    if i == |ps| {
      AsyncShift(v, ps, qs, 0, t, st, ctx);
      if v.Src? {
        SrcExtendIdempotent(v, t);
      }
    } else {
      assert (ps + qs)[i] == ps[i];
      match Extend(v, t)
      case Throw(_) =>
      case Normal(t1) =>
        var c := Invoke(ps[i], t1, st);
        match AsyncVerdict(v, ps[i], c, ctx)
        case Settle(_) =>
        case Go(res, ctx') =>
          AsyncSequencing(v, ps, qs, i + 1, NextTree(v, res, c.tree), c.stores, ctx');
    }
  }

  /** A falsy plugin result keeps the tree the plugin was handed, with
      whatever it changed in place (lib/index.js, lib/posthtml.js, sync
      mode). */
  lemma FalsyResultKeepsTree(v: Variant, ps: seq<Plugin>, i: nat, t: Tree, st: Stores)
    requires !v.Src? && i < |ps| && ps[i].arity != 2 && Extend(v, t).Normal?
    requires var c := Invoke(ps[i], Extend(v, t).value, st);
      c.outcome.Returned? && c.outcome.ret.Fresh? && !Truthy(c.outcome.ret.v)
    ensures var c := Invoke(ps[i], Extend(v, t).value, st);
      SyncFrom(v, ps, i, t, st) == SyncFrom(v, ps, i + 1, c.tree, c.stores) &&
      c.tree.root == ps[i].run(Extend(v, t).value.root).root
  {
    var c := Invoke(ps[i], Extend(v, t).value, st);
    assert !IsPromise(c.outcome.ret.v);
  }

  /** In async mode a plugin that throws a falsy value is passed over: the
      run goes on with the tree it was handed. */
  lemma FalsyThrowIsSwallowed(v: Variant, ps: seq<Plugin>, i: nat, t: Tree, st: Stores, ctx: Context)
    requires !v.Src? && i < |ps| && ps[i].arity != 2 && Extend(v, t).Normal?
    requires var c := Invoke(ps[i], Extend(v, t).value, st);
      c.outcome.Threw? && !Truthy(c.outcome.error)
    ensures var c := Invoke(ps[i], Extend(v, t).value, st);
      AsyncFrom(v, ps, i, t, st, ctx) == AsyncFrom(v, ps, i + 1, c.tree, c.stores, ctx)
  {
  }

  /** After a truthy result that is not a promise, a sync run goes on
      with the tree object itself, engine properties and all, when the
      plugin returned it, and with a bare value, which has lost
      `messages`, `options` and the API, otherwise. */
  lemma SyncGoesOnWithResult(v: Variant, p: Plugin, last: bool, t: Tree, st: Stores)
    requires Extend(v, t).Normal? && p.arity != 2
    requires var c := Invoke(p, Extend(v, t).value, st);
      c.outcome.Returned? &&
      Truthy(ResultTree(c.outcome.ret, c.tree).root) && !IsPromise(ResultTree(c.outcome.ret, c.tree).root)
    ensures var c := Invoke(p, Extend(v, t).value, st);
      SyncVerdict(v, p, last, t, st) == Next(ResultTree(c.outcome.ret, c.tree), c.stores)
    ensures var c := Invoke(p, Extend(v, t).value, st); var step := SyncVerdict(v, p, last, t, st);
      (c.outcome.ret.Same? ==> step.tree.ext == Extend(v, t).value.ext) &&
      (c.outcome.ret.Fresh? ==> step.tree.ext == map[] && step.tree.root == c.outcome.ret.v)
  {
  }

  /** The `html` of a result reads nothing but the final tree's root and
      its `options`: results that agree on those render alike, whatever
      their messages or the engine that produced them. */
  lemma HtmlReadsRootAndOptions(r1: LazyResult, r2: LazyResult, render: RenderFn)
    requires r1.tree.root == r2.tree.root && OptionsOf(r1.tree) == OptionsOf(r2.tree)
    ensures ResultHtml(r1, render) == ResultHtml(r2, render)
  {
  }

  /** An exception thrown by an arity-2 plugin escapes `next`. When the
      plugin before it called back during its call, `next` still runs in
      the executor and the promise rejects; when it called back later,
      `next` runs in that callback, the exception is lost and the promise
      never settles. */
  lemma {:induction false} LateCallbackLosesThrow(v: Variant, now: Plugin, later: Plugin, q: Plugin, t: Tree, st: Stores, e: Value)
    requires IsObjectRef(t.root)
    requires now.arity == 2 && now.run(t.root) == Effect(t.root, [], CalledBack(Null, Same, false))
    requires later.arity == 2 && later.run(t.root) == Effect(t.root, [], CalledBack(Null, Same, true))
    requires q.arity == 2 && forall root :: q.run(root) == Effect(root, [], Threw(e))
    ensures AsyncFrom(v, [now, q], 0, t, st, InExecutor).settlement == RejectedWith(e)
    ensures AsyncFrom(v, [later, q], 0, t, st, InExecutor).settlement == Stalled
  {
    var t1 := Extend(v, t).value;
    var t2 := NextTree(v, Some(t1), t1);
    assert IsObjectRef(t2.root);
    assert Extend(v, t2).Normal?;
    var t3 := Extend(v, t2).value;
    var c2 := Invoke(q, t3, st);
    assert c2 == Call(t3, st, Threw(e));
    assert AsyncFrom(v, [now, q], 0, t, st, InExecutor) == AsyncFrom(v, [now, q], 1, t2, st, InExecutor);
    assert AsyncFrom(v, [now, q], 1, t2, st, InExecutor) == AsyncCall(v, [now, q], 1, t3, st, InExecutor);
    assert AsyncFrom(v, [later, q], 0, t, st, InExecutor) == AsyncFrom(v, [later, q], 1, t2, st, Deferred);
    assert AsyncFrom(v, [later, q], 1, t2, st, Deferred) == AsyncCall(v, [later, q], 1, t3, st, Deferred);
  }

  /** After a plugin whose promise fulfils, `next` runs inside
      `.then(_next)`, and an exception escaping it reaches `.catch(cb)`: a
      falsy one, which would have rejected the promise from the executor,
      makes lib/posthtml.js fulfil with an `undefined` tree and leaves the
      other two engines' promises pending. */
  lemma {:induction false} ThenStepCatchesThrow(v: Variant, p: Plugin, q: Plugin, t: Tree, st: Stores)
    requires IsObjectRef(t.root)
    requires p.arity == 1 && p.run(t.root) == Effect(t.root, [], Resolved(Fresh(Undefined)))
    requires q.arity == 2 && forall root :: q.run(root) == Effect(root, [], Threw(Num(0)))
    ensures AsyncFrom(v, [q], 0, t, st, InExecutor).settlement == RejectedWith(Num(0))
    ensures var a := AsyncFrom(v, [p, q], 0, t, st, InExecutor).settlement;
      if v.Legacy? then a == Fulfilled(LazyResult(Tree(Undefined, map[]), None)) else a == Stalled
  {
    var t1 := Extend(v, t).value;
    assert Invoke(q, t1, st).outcome == Threw(Num(0));
    assert !IsPromise(Undefined);
    assert AsyncFrom(v, [p, q], 0, t, st, InExecutor) == AsyncFrom(v, [p, q], 1, t1, st, InThen);
    assert Extend(v, t1).Normal?;
    var t2 := Extend(v, t1).value;
    assert Invoke(q, t2, st) == Call(t2, st, Threw(Num(0)));
    assert AsyncFrom(v, [p, q], 1, t1, st, InThen) == AsyncCall(v, [p, q], 1, t2, st, InThen);
  }

  /** lib/posthtml.js never attaches a `messages` array, so a plugin that
      pushes a message fails with a TypeError, wherever `next` runs. */
  lemma LegacyPushFails(p: Plugin, t: Tree, st: Stores, ctx: Context)
    requires IsObjectRef(t.root) && !("messages" in t.ext)
    requires p.arity != 2 && p.run(t.root).pushes != []
    ensures SyncFrom(Legacy, [p], 0, t, st).result == Throw(TypeErrorValue)
    ensures AsyncFrom(Legacy, [p], 0, t, st, ctx).settlement == RejectedWith(TypeErrorValue)
  {
    var t1 := Extend(Legacy, t).value;
    assert !("messages" in t1.ext);
    assert Invoke(p, t1, st).outcome == Threw(TypeErrorValue);
  }
}
