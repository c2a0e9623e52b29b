# PostHTML core in Dafny

PostHTML is an HTML tree-transformation pipeline. It parses HTML into a tree
of nodes (strings and `{tag, attrs, content}` objects), runs a list of
plugins over that tree, and renders the result back to HTML. This project
models its core and proves properties of the model:

- the tree query API of lib/api.js and src/api.ts: `compare`, `traverse`,
  `walk`, `match` and the extender that puts them on a tree
  (api.dfy, module `Api`);
- the renderer of lib/render.js (render.dfy, module `Render`);
- the event-driven tree builder of lib/parser.js (parser.dfy, module
  `Parser`);
- the three plugin runners: lib/index.js, src/index.ts and lib/posthtml.js
  (lib_index.dfy, src_index.dfy, lib_posthtml.dfy). They share one
  specification of a sync and an async run (engine.dfy, module `Engine`);
- the error class of lib/error.js and `generatePluginError` (error.dfy,
  module `Errors`).

js_value.dfy (module `JsValue`) holds the JavaScript values the core works
on:

- `undefined`, `null`, booleans, numbers (integers only), strings, arrays,
  objects with ordered keys, regular expressions and functions;
- a `Completion` that is a value or a thrown exception.

What the source does in place is modelled in place:

- The root level of `traverse` runs over an `array<Value>`.
- The parser's `bufArray`/`results` state is a class with a `seq` stack.
- A plugin list is a class whose array `use` appends to.
- The module-level `let parser`/`let render` of the engines is a `Defaults`
  object.
- The lib/api.js `messages` array is the field of an `ApiModule` object.
- A src/index.ts instance is a class with its own `messages`.
- The shared `defaults` of a plugin error class is a field of that class.

Each method is proved equal to a specification function, and the
properties are proved about those functions.

Things the code cannot see are parameters:

- the regular-expression engine (`test`);
- the default parser and renderer (posthtml-parser, posthtml-render);
- babel-code-frame (`codeFrame`);
- the package's name and version (`package.json`);
- the htmlparser2 tokenizer, modelled as the sequence of events it reports.

A plugin is a name, a declared arity and a behaviour. The behaviour maps
the tree it is handed to three things:

- the tree's contents after its in-place changes;
- the messages it pushes;
- how the call ends: returned, threw, a promise that resolved, rejected
  or stays pending, or a callback call, made during the call or later.

An async run also follows where each call of `next` runs: in the executor
of the promise `process` returns, in a callback a plugin called later, or
in the `.then` of a plugin's promise. An exception escaping `next` ends
up in a different place in each.

The variants differ in the ways the code does, and the model keeps them
apart:

- lib/index.js overwrites the module-level parser and renderer for good.
- lib/posthtml.js picks the parser per call.
- src/index.ts copies the tree with `[].concat` and copies the instance's
  own properties onto it.
- lib/posthtml.js attaches no `messages` at all.

## Model

| member | source | states |
|---|---|---|
| Api.Candidates | lib/api.js:162 | definition of the elements `[].some.call` visits: an array's items, none for any other value (array-like objects left out, see below); what this means for a pattern is `ArrayPatternOnNonArray` |
| Api.ArrayPatternOnNonArray | lib/api.js:160-166 | an array pattern with any sub-pattern never matches a record without an own `length` or a regular expression, which offer no candidate; the empty array pattern matches them |
| Api.Compare | lib/api.js:149-181 | a RegExp pattern is false on an object and the regex test on a string; a `typeof` mismatch is false; a primitive or `null` pattern is `===`; a TypeError only for a record or array pattern against `null` |
| Api.EveryPattern | lib/api.js:160-166 | the `every` over an array pattern's sub-patterns is true only if each one's `some` is true, and fails with the first exception |
| Api.SomeCandidate | lib/api.js:162-164 | the `some` over candidates is true exactly when one candidate compares true before any throws |
| Api.EveryField | lib/api.js:168-180 | the `every` over a record pattern's keys holds only when every field holds, left to right |
| Api.CompareMeansMatches | lib/api.js:149-181 | on a candidate containing no `null`, `compare` never throws and returns exactly the quantified meaning `Matches`: an array pattern means every sub-pattern matches some element, and a record pattern means every field matches |
| Api.EveryPatternMeans | lib/api.js:160-166 | the `every`/`some` loop over an array pattern computes "each sub-pattern from here on has a matching candidate" |
| Api.SomeCandidateMeans | lib/api.js:162-164 | the `some` loop computes "some candidate from here on matches" |
| Api.EveryFieldMeans | lib/api.js:168-180 | the `every` loop over the keys computes "each field from here on matches" |
| Api.RecordPatternSplits | lib/api.js:168 | fields are checked left to right: matching `f1 + f2` is matching `f1` and then `f2` |
| Api.EveryFieldSplits | lib/api.js:168 | the key loop over `f1 + f2` is the loop over `f1` followed, only if it held, by the loop over `f2` |
| Api.EveryFieldShifts | lib/api.js:168 | the key loop from position `|f1| + j` of `f1 + f2` is the loop from `j` of `f2` |
| Api.BooleanFieldIsPresence | lib/api.js:175-177 | a boolean field asks only whether the key holds something other than `null`/`undefined`: `{value: true}` accepts `0`, `{content: false}` accepts a missing key |
| Api.ContentChildPattern | lib/api.js:160-166 | `{content: ['Text']}` accepts exactly the nodes whose `content` is an array holding `'Text'` |
| Api.SomeCandidateFindsString | lib/api.js:162-164 | the `some` for a one-string array pattern is true exactly when that string is among the candidates |
| Api.GetNullFree | lib/api.js:169 | a field read from a null-free value is null-free |
| Api.IndexLookupNullFree | lib/api.js:169 | an element read from a null-free array is null-free |
| Api.Traverse | lib/api.js:134-146 | an array has each slot replaced by the traversal of `cb(slot)`; an object with an own `content` is descended into and returned as it is; other values are returned unchanged; running out of stack is a RangeError |
| Api.TraverseSlots | lib/api.js:136-138 | the slot loop keeps the slots it finished and stops at the first exception |
| Api.Height | lib/api.js:134-146 | the stack depth an unchanging traversal of a tree needs |
| Api.MaxHeight | lib/api.js:136-138 | the stack depth the slot loop over a list of nodes needs |
| Api.TraverseIdentity | lib/api.js:134-146 | `walk(node => node)` leaves every tree as it is, given enough stack |
| Api.SlotsIdentity | lib/api.js:136-138 | the slot loop with an identity callback leaves every slot as it is |
| Api.TraverseVisitsPreOrder | lib/api.js:134-146 | a logging callback is handed exactly the pre-order list of the tree's nodes, left to right |
| Api.SlotsVisitPreOrder | lib/api.js:136-138 | the slot loop hands a logging callback each slot and then what lies beneath it, in order |
| Api.TraverseConstant | lib/api.js:137 | `walk(() => 'a')` on an array gives an array of as many `'a'`s, without descending |
| Api.SlotsConstant | lib/api.js:137 | the slot loop with a constant string callback replaces every slot by that string |
| Api.WrappingExhaustsStack | lib/api.js:134-146 | a callback that wraps every node in a new array makes `traverse` end in a RangeError whatever the stack |
| Api.TraverseArray | lib/api.js:134-138 | the in-place loop over an array leaves it holding exactly what `TraverseSlots` computes; on an exception the earlier slots keep their new values and the later ones are untouched |
| Api.SlotsAdvance | lib/api.js:136-138 | one turn of the loop either stops the run with its error or adds the new slot value to the finished ones |
| Api.Walk | lib/api.js:34-36 | `walk` traverses the array in place and returns the very same array, so calls chain |
| Api.FirstMatch | lib/api.js:79-81 | the first alternative `compare` accepts, or none; an exception stops the search |
| Api.Fires | lib/api.js:77-89 | an array expression fires on the first matching alternative; any other expression is one pattern |
| Api.Selector | lib/api.js:77-89 | the callback `match` passes to `traverse`: `cb(node)` when the expression accepts the node, the node itself otherwise |
| Api.SelectNode | src/api.ts:12-18 | the alternatives loop calls `cb` at most once, at the first match, and otherwise returns the node |
| Api.SelectorFiresOnMatch | lib/api.js:77-84 | on a null-free node an array expression hands the node to `cb` exactly when some alternative matches it, and leaves it unchanged otherwise |
| Api.Match | lib/api.js:76-90 | `match` walks the array in place with the selecting callback and returns the very same array |
| Api.ApiModule.constructor | lib/api.js:112 | the module starts with one empty `messages` array |
| Api.ExtendTree | lib/api.js:124-128 | the extender sets `walk`, `match` and the module's single `messages` array on an object tree, so every extended tree shares it; on a primitive it throws a TypeError |
| Api.AttachApi | src/api.ts:1-4 | `Api.call(obj)` sets `walk` and `match` and leaves every other property as it is |
| Render.SingleTagValues | lib/render.js:1-24 | definition of the built-in single tags as string values; `DefaultSingleTags` states what they decide |
| Render.RegExps | lib/render.js:50-52 | the regular expressions among the tags, in order, and nothing else |
| Render.Configure | lib/render.js:47-54 | `options || {}`, then `SINGLE_TAGS` followed by `options.singleTags`, their regular expressions, and the closing style |
| Render.DefaultSingleTags | lib/render.js:47-52 | without options, a string tag is single exactly when it is one of the 21 built-in tags |
| Render.IsSingleTag | lib/render.js:156-168 | definition of `isSingleTag`: with any regular expression the first one alone decides and a non-string tag throws a TypeError, otherwise list membership by `===`; `RegExpDecidesAlone` and `RegExpOverridesBuiltins` state the consequences |
| Render.RegExpDecidesAlone | lib/render.js:156-168 | once a regular expression is among the single tags, adding more tags to the list changes no answer |
| Render.RegExpOverridesBuiltins | lib/render.js:156-168 | with a regular expression configured, even a built-in single tag such as `br` is single only when that expression matches it |
| Render.Closing | lib/render.js:95-106 | `'tag'` gives `></tag>`, `'slash'` gives ` />`, anything else `>`; whichever the style, the tag is closed by `>` |
| Render.Attr | lib/render.js:129-136 | `true` gives ` key`, a string or number gives ` key="value"` with no escaping, anything else nothing |
| Render.AttrsOfAppend | lib/render.js:128-137 | attributes are emitted in key order: those of `f1 + f2` are those of `f1` then those of `f2` |
| Render.AttrsOfSnoc | lib/render.js:128-137 | one more key appends exactly that key's attribute |
| Render.SilentAttrs | lib/render.js:129-136 | `false`, `null`, `undefined`, objects and arrays emit nothing |
| Render.AttrsOf | lib/render.js:128-137 | the attributes in key order are empty or begin with a space, so no attribute runs into the tag name before it |
| Render.Attrs | lib/render.js:125-140 | `attrs(obj)` is empty or begins with a space, and is empty for a value with no enumerable properties |
| Render.Html | lib/render.js:65-113 | `html(tree)` raises no exception but a TypeError, and a falsy tree renders as the empty string |
| Render.Slots | lib/render.js:143-153 | the render `traverse` over an array's slots raises no exception but a TypeError |
| Render.Slot | lib/render.js:68-110 | the callback on one node and the traversal of what it returned raise no exception but a TypeError |
| Render.Element | lib/render.js:90-108 | an element renders as text that opens with `<` and ends with `>`, single tag or not; its only exception is the TypeError of `tag.match` on a non-string tag |
| Render.Descend | lib/render.js:143-153 | traversing a returned `null` throws a TypeError (`null.hasOwnProperty`), and no other exception arises |
| Render.RenderTree | lib/render.js:34-56 | `render(tree, options)` raises no exception but a TypeError, and a falsy tree renders as the empty string |
| Render.Then | lib/render.js:68-110 | two outputs in order, or the first exception |
| Render.ThenAssoc | lib/render.js:68-110 | appending outputs is associative |
| Render.ThenEmpty | lib/render.js:68-110 | an empty output is neutral on either side |
| Render.HtmlConcat | lib/render.js:143-153 | siblings render one after the other: `a + b` renders as `a` then `b`, failing with the first failure |
| Render.SlotsSplit | lib/render.js:145-147 | the slot loop over `a + b` is the loop over `a` followed by the loop over `b` |
| Render.SlotsShift | lib/render.js:145-147 | the loop from position `|a| + j` of `a + b` is the loop from `j` of `b` |
| Render.TextRendersVerbatim | lib/render.js:71-75 | an array of strings renders as their concatenation, unescaped |
| Render.SlotsOfText | lib/render.js:71-75 | the slot loop over strings emits them in order |
| Render.TagFalseIsTransparent | lib/render.js:77-81 | a `tag: false` node renders exactly as its array content would, or as its string content |
| Render.TagFalseSkipsWrappedNode | lib/render.js:77-81 | a `tag: false` node whose content is an object with its own content renders only that inner content, dropping the object's tag and attributes |
| Render.MissingTagIsDiv | lib/render.js:90 | a node without a tag renders as a `div` around its content |
| Render.SingleTagDropsContent | lib/render.js:92-106 | a built-in single tag renders as `<tag` and its closing alone, whatever its content, when no regular expression was added |
| Render.AttrsLoop | lib/render.js:125-140 | the `for...in` loop builds exactly the attributes of every enumerable property in order |
| Render.IndexOf | lib/render.js:163 | `indexOf` returns the first position holding a `===` value, or -1 when there is none |
| Render.IsSingleTagLoop | lib/render.js:156-168 | the loop returns in its first iteration, so it computes `IsSingleTag` |
| Render.RenderHtml | lib/render.js:65-113 | `html(tree)` computes the specified output of `[].concat(tree)` |
| Render.RenderSlots | lib/render.js:143-153 | the traverse loop appends each slot's output to `result`, exactly the specified output or the first exception |
| Render.RenderSlot | lib/render.js:68-110 | the callback on one node followed by the traversal of what it returned |
| Render.RenderElement | lib/render.js:90-108 | an element node renders as specified: single tags closed by the style, others wrapping their content |
| Render.RenderDescend | lib/render.js:143-153 | the traversal of a returned value: array slots, an own `content`, a TypeError on `null` |
| Render.Render | lib/render.js:34-56 | `render(tree, options)` returns the specified output |
| Parser.ToValue | lib/parser.js:29-39 | an element becomes `{tag}` plus `attrs` only when it has any, plus `content` once a child arrives |
| Parser.AddChild | lib/parser.js:26-27 | `last.content` is created if missing and the child appended to it |
| Parser.Place | lib/parser.js:55-64 | a value goes into the innermost open element's content, or to the results when none is open |
| Parser.TrimStart | lib/parser.js:18 | the string from its first non-white-space character, a suffix of the input |
| Parser.TrimEnd | lib/parser.js:18 | the string up to its last non-white-space character, a prefix of the input |
| Parser.Trim | lib/parser.js:18 | `trim()` leaves a substring that neither starts nor ends with white space |
| Parser.Step | lib/parser.js:13-65 | no callback removes a result and none adds more than one; an open tag pushes one buffer and leaves the results; a close tag pops one (none on an empty stack); the others keep the stack's depth |
| Parser.TextPlacement | lib/parser.js:55-64 | text goes to the innermost open element's content (created if missing), or to the results when none is open |
| Parser.CommentIsPlacedLikeText | lib/parser.js:17-28 | a comment is placed as the text `<!-- ` + trimmed data + ` -->` would be |
| Parser.OpenTagPushes | lib/parser.js:29-39 | an open tag pushes `{tag}`, with `attrs` only when there are any |
| Parser.CloseTagPlaces | lib/parser.js:40-54 | a close tag pops the innermost element; it becomes a result when nothing is left open, else the last child of the new innermost element |
| Parser.InstructionPlacement | lib/parser.js:14-16 | `!doctype` pushes `<data>` to the results even when nested; other instructions change nothing |
| Parser.StrayCloseTagPushesUndefined | lib/parser.js:40-46 | a close event with nothing open pushes `undefined` to the results |
| Parser.Run | lib/parser.js:13-65 | over a sequence of callbacks the results are only ever appended to, at most one per event |
| Parser.RunAppend | lib/parser.js:67-68 | running `e1 + e2` is running `e1` then `e2` |
| Parser.NodeValues | lib/parser.js:29-54 | each node of a well-formed document becomes exactly one value |
| Parser.PlaceAllInOpen | lib/parser.js:62-63 | placing values in an open element appends them all to its content |
| Parser.PlaceAllAtTop | lib/parser.js:57-59 | with nothing open, placed values become results in order |
| Parser.RunEvents | lib/parser.js:29-64 | a node's events place exactly that node's value and change nothing else |
| Parser.OpenStep | lib/parser.js:29-39 | the open event of an element pushes its buffer |
| Parser.CloseStep | lib/parser.js:40-54 | the close event places the element's value one level up |
| Parser.RunEventsOf | lib/parser.js:13-65 | the events of a list of nodes place their values in order |
| Parser.BalancedRoundTrip | lib/parser.js:4-71 | for a balanced event sequence the stack ends empty and the results are exactly the document's top-level nodes, each element holding its children in order, so each closed element appears once |
| Parser.ToTree | lib/parser.js:4-71 | `toTree` yields at most one top-level node per tokenizer event; `BalancedRoundTrip` states what it yields for a balanced document |
| Parser.IsEmpty | lib/parser.js:77-85 | `isEmpty` is true exactly when the object has no own key |
| Parser.TreeBuilder.constructor | lib/parser.js:6-7 | `bufArray` and `results` start empty |
| Parser.TreeBuilder.PlaceValue | lib/parser.js:55-64 | the in-place placement leaves the state `Place` specifies |
| Parser.TreeBuilder.OnProcessingInstruction | lib/parser.js:14-16 | the handler leaves the state `Step` specifies |
| Parser.TreeBuilder.OnComment | lib/parser.js:17-28 | the handler leaves the state `Step` specifies |
| Parser.TreeBuilder.OnOpenTag | lib/parser.js:29-39 | the handler leaves the state `Step` specifies |
| Parser.TreeBuilder.OnCloseTag | lib/parser.js:40-54 | the handler leaves the state `Step` specifies |
| Parser.TreeBuilder.OnText | lib/parser.js:55-64 | the handler leaves the state `Step` specifies |
| Parser.TreeBuilder.Handle | lib/parser.js:13-65 | dispatching an event leaves the state `Step` specifies |
| Parser.BuildTree | lib/parser.js:4-71 | `toTree` returns exactly `ToTree(events)` |
| JsValue.Concat | src/index.ts:36 | definition of `[].concat(v)`: an array's elements copied, anything else wrapped in a one-element array; `ConcatIdempotent` states its properties |
| JsValue.ConcatIdempotent | src/index.ts:36 | `[].concat` returns an equal value exactly for an array, and applying it twice is applying it once |
| JsValue.EnumerableProps | lib/render.js:128 | `for...in` visits an object's own fields, an array's or string's indices, and nothing of other values |
| JsValue.Put | lib/index.js:115-116 | setting a property overwrites it in place or appends it; every other key keeps its value, and every existing key keeps its position |
| Engine.OrEmpty | lib/index.js:106 | falsy options become `{}`, truthy options are kept |
| Engine.SyncMode | lib/index.js:119 | definition of `options.sync === true`; the `ProcessRun` rows state that `process` returns a lazy result rather than a promise exactly in this mode |
| Engine.SkipParse | lib/index.js:111-113 | definition of `!!options.skipParse`; the `Prepare` rows state its effect |
| Engine.PluginList.constructor | lib/index.js:22-24 | a plugin list holds the given plugins |
| Engine.IndexLookupNeedsDigits | lib/index.js:247 | no array element or string character is found under a key that is not all digits |
| Engine.IsPromise | lib/index.js:246-248 | definition of `isPromise`: a truthy value whose `then` is a function; `PromiseIsThenable` says which values those are |
| Engine.PromiseIsThenable | lib/index.js:246-248 | `isPromise` holds exactly for an object whose `then` is a function |
| Engine.Push | lib/api.js:101 | `tree.messages.push` appends to the array `tree.messages` refers to, and throws a TypeError when there is none |
| Engine.Invoke | lib/index.js:125 | a plugin call keeps the engine's properties on the tree, only appends messages, throws when it pushes with nowhere to go, and an arity other than 2 never calls back |
| Engine.ResultTree | lib/index.js:131 | definition of the tree a returned value stands for: the tree itself for the tree object, a value without engine properties otherwise; `SyncGoesOnWithResult` states the consequence |
| Engine.Extend | lib/index.js:276-280 | the extension keeps the root; lib/index.js and lib/posthtml.js throw a TypeError on a primitive; src/index.ts throws only on `null`; each sets exactly the properties its code sets |
| Engine.AsyncPluginError | lib/index.js:126-128 | the sync-mode error is an Error value (truthy) naming the plugin |
| Engine.SyncVerdict | lib/index.js:120-132 | a failed extension or an arity-2 plugin stops the run without a call; a thenable result stops it after the call; otherwise the next tree is `result \|\| tree`; messages only grow |
| Engine.SyncVerdictIgnoresLast | src/index.ts:48-50 | without the copy between plugins, being the last plugin changes nothing |
| Engine.SyncFrom | lib/index.js:119-135 | the sync `forEach` only appends messages: the arrays a run starts with are prefixes of the arrays it leaves, however it ends |
| Engine.MessagesOf | lib/index.js:298 | definition of `tree.messages` on the final tree: the attached array, else the tree's own property; `Finish` puts it in the lazy result |
| Engine.OptionsOf | lib/index.js:295 | definition of `tree.options`: the options set on the tree, else its own property; `HtmlReadsRootAndOptions` and `CallVariantAttaches` use it |
| Engine.ResultHtml | lib/index.js:294-296 | definition of the `html` getter, `render(tree, tree.options)` read anew on each access, a TypeError on a `null` or `undefined` tree; `HtmlReadsRootAndOptions` states what it depends on |
| Engine.HtmlReadsRootAndOptions | lib/index.js:294-296 | results that agree on the final tree's root and its `options` have the same `html`, whatever their messages or engine |
| Engine.Finish | lib/index.js:292-300 | the lazy result holds the final tree, and `messages` except in lib/posthtml.js |
| Engine.Caught | lib/index.js:187-201 | `.catch(cb)` and `cb(err)`: a truthy reason rejects the promise with it; a falsy one fulfils lib/posthtml.js's promise with an `undefined` tree and leaves the others pending |
| Engine.Escape | lib/index.js:198-202 | an exception escaping `next` rejects the promise with it, whatever its value, only inside the executor; a timer loses it, so the promise stays pending; inside `.then` it goes to `cb` as `Caught` says |
| Engine.AsyncVerdict | lib/index.js:159-195 | a callback error, or a truthy exception or rejection from a plugin of another arity, rejects the promise; an arity-2 plugin's exception goes where `next` runs (`Escape`); a falsy rejection goes to `cb` (`Caught`); a falsy exception of another arity is passed over; a pending promise or callback never settles; `next` moves into a timer only after a later callback and into a `.then` only after a fulfilled promise |
| Engine.NextTree | lib/index.js:149-151 | `next(res \|\| result)`: a missing or falsy result keeps the previous tree |
| Engine.AsyncFrom | lib/index.js:138-203 | the async `next`, wherever it runs, only appends messages, however the run settles; a failed extension escapes it as `Escape` says |
| Engine.AsyncCall | lib/index.js:157-195 | one plugin call followed by `next` only appends messages |
| Engine.Defaults.constructor | lib/index.js:6-7 | the module-level parser and renderer start as given |
| Engine.SyncAndAsyncAgree | lib/index.js:119-203 | with sync-friendly plugins a sync and an async run started in the executor or a `.then` agree on messages, final tree and exception |
| Engine.SyncFailureStopsRun | lib/index.js:120-132 | a failed sync run never reaches later plugins: appending plugins does not change it |
| Engine.AsyncFailureStopsRun | lib/index.js:159-193 | a rejected or stalled async run never reaches later plugins |
| Engine.SyncShift | lib/index.js:120 | the runs of `ps + qs` from `|ps| + j` and of `qs` from `j` coincide |
| Engine.SyncSequencing | lib/index.js:120-132 | plugins run in registration order: running `ps + qs` is running `ps` and then `qs` on what it left |
| Engine.SrcExtendIdempotent | src/index.ts:119-123 | copying the instance's properties twice is copying them once |
| Engine.AsyncShift | lib/index.js:157 | async runs of `ps + qs` from `|ps| + j` and of `qs` from `j` coincide |
| Engine.AsyncSequencing | lib/index.js:140-196 | an async run of `ps + qs` is the run of `ps` followed by the run of `qs` from the tree, messages and context it ended with |
| Engine.FalsyResultKeepsTree | lib/index.js:131 | a falsy result keeps the tree the plugin was handed, with its in-place changes |
| Engine.FalsyThrowIsSwallowed | lib/index.js:172-185 | in async mode a falsy thrown value is passed over and the run goes on with the handed tree |
| Engine.SyncGoesOnWithResult | lib/index.js:125-132 | after a truthy result that is not a promise the sync run goes on with it: the tree object itself keeps `messages`, `options` and the API, a fresh value has lost them |
| Engine.LegacyPushFails | lib/posthtml.js:177-180 | lib/posthtml.js attaches no `messages`, so a plugin that pushes fails with a TypeError, wherever `next` runs |
| Engine.LateCallbackLosesThrow | lib/index.js:159-165 | an arity-2 plugin's exception rejects the promise after a callback made during the previous call, and is lost, leaving the promise pending, after one made later |
| Engine.ThenStepCatchesThrow | lib/index.js:187-192 | a falsy exception that rejects the promise from the executor, thrown after a fulfilled promise instead, fulfils lib/posthtml.js's promise with an `undefined` tree and leaves the others pending |
| LibIndex.Prepare | lib/index.js:111-116 | the starting tree is the input with `skipParse` or the parser's output on the input and the options, carrying `options` and `processor`; a primitive throws a TypeError |
| LibIndex.PrepareTree | lib/index.js:111-116 | the in-place preparation computes `Prepare` |
| LibIndex.CallPlugin | lib/index.js:125 | a plugin call appends its messages to the lib/api.js array when the tree carries it (with the corrected `apiExtend`, see ## Findings) |
| LibIndex.ApiExtend | lib/index.js:276-280 | the corrected `apiExtend` attaches `walk`, `match` and the lib/api.js `messages` array |
| LibIndex.PushFailsAsWritten | lib/index.js:279 | as written, `tree.messages` is `undefined` and the first push throws a TypeError in either mode |
| LibIndex.PushReachesApiMessages | lib/index.js:276-280 | with the array attached, a plugin's messages are appended to the lib/api.js array and a plugin that returns nothing leaves its changed tree as the result |
| LibIndex.SyncTurn | lib/index.js:120-132 | one `forEach` iteration is exactly `SyncVerdict` (with the corrected `apiExtend`, see ## Findings) |
| LibIndex.RunSync | lib/index.js:119-135 | the sync loop returns exactly `SyncFrom`'s result (with the corrected `apiExtend`, see ## Findings) |
| LibIndex.AsyncTurn | lib/index.js:157-195 | one call of `next`, wherever it runs, decides past the extension exactly as `AsyncVerdict` (with the corrected `apiExtend`, see ## Findings) |
| LibIndex.RunAsync | lib/index.js:138-203 | the async `next`, first called in the executor and followed wherever it runs, settles exactly as `AsyncFrom` says (with the corrected `apiExtend`, see ## Findings) |
| LibIndex.RunPlugins | lib/index.js:119-203 | the run after preparation is `PluginRun` (with the corrected `apiExtend`, see ## Findings) |
| LibIndex.PluginRun | lib/index.js:119-203 | messages are only appended to the lib/api.js array; async mode always returns a promise, sync mode a lazy result unless it throws (with the corrected `apiExtend`, see ## Findings) |
| LibIndex.ProcessRun | lib/index.js:95-204 | messages are only appended; when `process` returns, it returns a lazy result exactly when `options.sync === true` and a promise otherwise (with the corrected `apiExtend`, see ## Findings) |
| LibIndex.PostHTML.constructor | lib/index.js:19-25 | one function becomes a one-plugin list, an array is kept by reference, nothing gives `[]` |
| LibIndex.PostHTML.Use | lib/index.js:69-73 | `use` appends its arguments in order to the same array and returns the processor |
| LibIndex.PostHTML.Process | lib/index.js:95-204 | `process` computes `ProcessRun` with the parser in force, and a parser or renderer in the options replaces the module-level one for later calls (with the corrected `apiExtend`, see ## Findings) |
| SrcIndex.InstanceProps | src/index.ts:11-29 | an instance's own properties, with `messages` its own array, `source` and `options` as last set |
| SrcIndex.DefaultOptions | src/index.ts:27 | the `options = {}` default applies to a missing argument only |
| SrcIndex.Prepare | src/index.ts:34-36 | the starting tree is `[].concat` of `tree \|\| []` with `skipParse`, or of the parser's output; always an array |
| SrcIndex.CallVariant | src/index.ts:27-36 | definition of the variant a call runs: the src variant with the instance's properties and its `skipParse`; `CallVariantAttaches` states what plugins then see |
| SrcIndex.CallVariantAttaches | src/index.ts:119-123 | every object tree a plugin is handed carries the instance's own `messages` array and the call's `options` |
| SrcIndex.TreeExtendApi | src/index.ts:119-123 | `_treeExtendApi` computes `Extend`: copy onto objects, a TypeError on `null` |
| SrcIndex.PrepareTree | src/index.ts:34-36 | the preparation computes `Prepare` |
| SrcIndex.PushReachesInstanceMessages | src/index.ts:40-44 | a plugin's push lands in the instance's own array, and a plugin returning nothing leaves its changed array as the result |
| SrcIndex.SyncCopiesBetweenPlugins | src/index.ts:48-52 | without `skipParse`, a plugin after one that returned nothing gets a new array with the same elements and none of the old properties |
| SrcIndex.AsyncResultCarriesMessages | src/index.ts:60-66 | an async run's result went through `_treeExtendApi` last, so an object result carries the instance's `messages` |
| SrcIndex.PostHTML.constructor | src/index.ts:11-21 | the instance holds the plugins, `source = ""`, an empty `messages`, the module-level parser and renderer, and `walk`/`match` |
| SrcIndex.PostHTML.Use | src/index.ts:22-26 | `use` appends to the same array and returns the processor |
| SrcIndex.PostHTML.CallPlugin | src/index.ts:44 | a plugin's pushes land in the instance's array when the tree carries it |
| SrcIndex.PostHTML.SyncTurn | src/index.ts:39-53 | one `forEach` iteration is exactly `SyncVerdict`, copying the tree when not last and not `skipParse` |
| SrcIndex.PostHTML.RunSync | src/index.ts:38-56 | the sync loop returns exactly `SyncFrom`'s result |
| SrcIndex.PostHTML.AsyncTurn | src/index.ts:75-105 | one call of `next`, wherever it runs, decides past the extension exactly as `AsyncVerdict` |
| SrcIndex.PostHTML.RunAsync | src/index.ts:58-113 | `next`, first called in the executor and followed wherever it runs, extends the tree on every call, the final one included, and settles exactly as `AsyncFrom` says |
| SrcIndex.PostHTML.RunPlugins | src/index.ts:38-113 | the run after preparation is `PluginRun` |
| SrcIndex.PluginRun | src/index.ts:38-113 | messages are only appended to the instance's array; async mode always returns a promise, sync mode a lazy result unless it throws |
| SrcIndex.ProcessRun | src/index.ts:27-114 | `null` options throw a TypeError; messages are only appended; when `process` returns, it returns a lazy result exactly when `options.sync === true` and a promise otherwise |
| SrcIndex.PostHTML.Configure | src/index.ts:27-32 | records `options` and `source`; a parser or renderer in the options replaces both the instance's and the module-level one |
| SrcIndex.PostHTML.Process | src/index.ts:27-114 | `process` computes `ProcessRun`; the instance keeps the messages it gathered |
| SrcIndex.PostHTML.ParseAndRun | src/index.ts:34-113 | parsing with the parser in force and running the plugins computes `ProcessRun` |
| LibPosthtml.Prepare | lib/posthtml.js:68-70 | the input with `skipParse`, otherwise the parser's output on the input and `options.parserOptions`, carrying `options`; a primitive throws a TypeError |
| LibPosthtml.PluginRun | lib/posthtml.js:73-145 | the sync mode gives `lazyRender` of `SyncFrom`'s tree or its exception; the async mode gives a promise settling as `AsyncFrom` says |
| LibPosthtml.ProcessRun | lib/posthtml.js:66-146 | when `process` returns, it returns a lazy result exactly when `options.sync === true` and a promise otherwise |
| LibPosthtml.ParserIsPerCall | lib/posthtml.js:68-70 | the parser is `options.parser` or else the default, for this call only, fed `options.parserOptions`; its exception is `process`'s |
| LibPosthtml.SyncAndAsyncProcessAgree | lib/posthtml.js:73-145 | with sync-friendly plugins the sync result has no `messages` and is what the promise fulfils with; the sync exception is what it rejects with |
| LibPosthtml.PrepareTree | lib/posthtml.js:69-70 | the preparation computes `Prepare` |
| LibPosthtml.ApiExtend | lib/posthtml.js:177-180 | `apiExtend` attaches only `walk` and `match` |
| LibPosthtml.CallPlugin | lib/posthtml.js:78 | a plugin call changes no message store; a push throws a TypeError |
| LibPosthtml.SyncTurn | lib/posthtml.js:74-86 | one `forEach` iteration is exactly `SyncVerdict` |
| LibPosthtml.RunSync | lib/posthtml.js:73-89 | the sync loop returns exactly `SyncFrom`'s result |
| LibPosthtml.AsyncTurn | lib/posthtml.js:109-137 | one call of `next`, wherever it runs, decides past the extension exactly as `AsyncVerdict` |
| LibPosthtml.RunAsync | lib/posthtml.js:92-145 | the async `next`, first called in the executor and followed wherever it runs, settles exactly as `AsyncFrom` says |
| LibPosthtml.PostHTML.constructor | lib/posthtml.js:23-25 | `plugins \|\| []`: the caller's array when given |
| LibPosthtml.PostHTML.Use | lib/posthtml.js:41-44 | `use` appends its arguments to the same array and returns the object |
| LibPosthtml.PostHTML.Process | lib/posthtml.js:66-146 | `process` computes `ProcessRun` and changes nothing that outlives the call |
| Errors.ErrorMessage | lib/error.js:5 | definition of `new Error(m).message`: `""` for a missing message, its string form otherwise; `ErrorMessageStable` states a consequence |
| Errors.ErrorMessageStable | lib/error.js:5 | re-raising an error's message keeps it: `new Error(new Error(m).message).message` is `new Error(m).message` |
| Errors.Formatted | lib/error.js:18-36 | definition of what `_formatMessage` returns; `FormattedHeader` and `FormattedTail` state its parts and `FormatMessage` computes it |
| Errors.Joined | lib/error.js:35 | `join('')` of no parts is empty and of one part is that part |
| Errors.JoinedPush | lib/error.js:19-35 | pushing a part and joining is joining and appending that part |
| Errors.FormattedHeader | lib/error.js:19-23 | the message begins with the original message; `\nFrom Plugin: <plugin>` follows exactly when `plugin` is truthy, otherwise `\nLocation: ` follows directly |
| Errors.FormattedTail | lib/error.js:22-34 | the location reads `\nLocation: <filename>:<line>:<col>` with `[no filename]` for a falsy filename, and the code frame, after a blank line and before a line break, closes the message exactly when `src` is truthy |
| Errors.PostHtmlError.FormatMessage | lib/error.js:18-36 | the pushes joined give exactly the formatted message |
| Errors.LocationPushes | lib/error.js:22-29 | the four location pushes join to the location line |
| Errors.PostHtmlError.constructor | lib/error.js:4-16 | `name` is the class name, `line`/`col` come from `config.location`, `filename` prefers `location.filename` over `config.filename`, and `message` is the formatted one |
| Errors.NewError | lib/error.js:4-13 | construction throws a TypeError exactly when `config` or `config.location` is missing, and otherwise builds the error as the constructor does |
| Errors.Assign | lib/error.js:43 | `Object.assign` keeps the target's keys where they were and puts new keys after them; a `null` or `undefined` source copies nothing |
| Errors.AssignProps | lib/error.js:43 | the copy loop keeps the target's keys where they were |
| Errors.AssignPropsLookup | lib/error.js:43 | after `Object.assign`, a key the source has holds its last value there, every other key keeps its value, and no key is lost |
| Errors.PluginErrorClass.constructor | lib/error.js:41 | `defaults = {}` when no object is given |
| Errors.PluginErrorClass.Construct | lib/error.js:42-44 | each construction first merges the config into the shared `defaults`, which stays merged even when the construction throws, then builds the error from it |
| Errors.DefaultsCarryOver | lib/error.js:41-46 | a property an earlier config set and a later one does not mention is still in `defaults` for the later error; one the later config sets takes its value |

## Left out

- Promise and event-loop mechanics are modelled only as far as they decide a run's settlement: where each call of `next` runs, and so where an exception escaping it ends up. The job queue, and when each step runs relative to other code, are not modelled. A run's outcome is a settlement: fulfilled, rejected, or stalled.
- Stalled covers several cases the model does not follow further:
  - a pending promise;
  - a callback that is never called;
  - a thenable a plugin returns whose `then` the model does not run;
  - an exception lost in a callback a plugin called later;
  - an exception thrown while `cb` builds the result inside `.catch(cb)`.
- An arity-2 plugin is taken not to catch the exceptions that the rest of the run throws through its callback when it calls back during its call.
- A plugin's behaviour is a function of the tree it is handed only. Plugins that read or mutate `tree.options`, the processor or other plugins are not modelled.
- Numbers are integers. Floating point, `NaN` and their string forms are not modelled.
- Objects are values. Object identity is modelled only where the engine relies on it:
  - a plugin returning the very tree it got (`Same`);
  - the shared plugin array;
  - the shared `messages` arrays.
  Two distinct object values compare as not `===`.
- The regular-expression engine is the parameter `test`, including `tag.match`; the stateful `lastIndex` of `g` patterns is not modelled.
- The htmlparser2 tokenizer is not modelled: the parser consumes the events it reports.
- posthtml-parser and posthtml-render, as loaded by the engines, are parameters. The `PostHTML.parse`/`PostHTML.render` statics that only re-export them are not modelled.
- babel-code-frame is the parameter `codeFrame`, and package.json's name and version are parameters.
- The nested levels of `traverse` are rebuilt as values. Only the root array is updated in place, so aliasing between nested arrays is not modelled.
- `traverse` is given the stack depth it may use. A JavaScript engine's actual stack limit is a parameter.
- `this.plugins.length` is read once per run: plugins that call `use` on the processor while it runs are not modelled.
- LibPosthtml.PostHTML.constructor: a single plugin function passed to the lib/posthtml.js constructor is not modelled. It is stored as is, and `use` would then fail on it.
- Errors.PostHtmlError.constructor: the stack trace `Error.captureStackTrace` records is not modelled.
- Errors.PluginErrorClass.constructor: a `defaults` argument that is not a plain object (a primitive, an array) is not modelled.
- Api.Candidates: `[].some.call` iterates any array-like value by its `length`; the model iterates arrays only, so an object with a numeric `length` and index keys is treated as having no candidates.
- JsValue.StrictEquals: functions are identified by their name, so two distinct functions with the same name compare `===` here. This reaches `compare` (lib/api.js:179) and `indexOf` over single tags (lib/render.js:163).
- JsValue.Get: only own properties are read, plus the `source`, `flags` and `lastIndex` of a regular expression and a function's `name`. Inherited members such as `constructor` or `toString` read as `undefined`, so a record pattern that names one is checked against `undefined` unless the node has it as an own property.
- `Object.assign` and `for...in` visit keys in insertion order. JavaScript's rule that integer-like keys come first is not modelled.
- Api.EveryField: `compare` walks `Object.keys(expected)` (lib/api.js:168, src/api.ts:52) in insertion order, not integer-like keys first. When an earlier key fails and an integer-like key after it would throw, JavaScript throws and the model answers `Normal(false)`: `{b: 'no', 1: [{x: 1}]}` against `{b: 'yes', 1: [null]}` is one such pair.
- Engine.SyncVerdict / Engine.NextTree: the `[].concat` copy of src/index.ts (src/index.ts:36, :49 and :69) is modelled as a new array with no engine properties. When the tree is not an array, `[].concat` wraps it, and the properties copied onto it (`messages`, `options`, `walk`, `match` and the other instance keys) stay readable on `tree[0]`. The model does not carry them onto the wrapped element.
- lib/posthtml.js ignores `options.render`: its `lazyRender` always uses the renderer loaded with the module, which is a parameter here.
- lib/Error/frame.js and lib/Error/index.js are not part of this model: they are chalk-coloured presentation of error frames.
- index.js at the root (a wrapper over other packages), the type declarations and the build tooling are not part of this model.
- Features the tests exercise but the core does not define are not modelled: `tree.warn`, `tree.error`, `tree.dependency`, `result.template`, `getOptions`.

## Findings

| source | as written | input that shows it | evidently intended | confidence | as-written member | corrected member |
|---|---|---|---|---|---|---|
| lib/index.js:276-280 | `apiExtend` sets `tree.messages = api.messages`, but lib/api.js:130-131 exports only `walk` and `match`, so `tree.messages` is `undefined` | any plugin that calls `tree.messages.push(...)`, in either mode: the push throws a TypeError and `process` fails | `tree.messages` is the module-level `messages` array of lib/api.js:112, as the documentation of that array shows plugins using it | not executed | LibIndex.PushFailsAsWritten | LibIndex.PushReachesApiMessages |
