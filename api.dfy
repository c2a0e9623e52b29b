/** The tree API that PostHTML hangs on every tree (lib/api.js, and the
    ES-module copy src/api.ts): the structural matcher `compare`, the
    in-place pre-order `traverse`, and `walk` and `match` built on them.

    A tree callback may close over state of its own (a counter, a log);
    that state is threaded explicitly as `S`. JavaScript's call stack is
    finite, and a callback that keeps wrapping nodes in arrays makes
    `traverse` recurse without end: `depth` is the number of `traverse`
    frames still available, and running out of them throws a RangeError. */
module Api {
  import opened JsValue

  // ---------------------------------------------------------------------
  // compare(expected, actual)
  // ---------------------------------------------------------------------

  /** The elements `[].some.call(actual, ...)` visits: an array's items.
      Any other value is taken to have none; an object whose own `length`
      makes it array-like is not iterated here. */
  function Candidates(actual: Value): (r: seq<Value>)
    ensures actual.Arr? ==> r == actual.items
    ensures !actual.Arr? ==> r == []
  {
    if actual.Arr? then actual.items else []
  }

  /** An array pattern meets a record without a `length` or a regular
      expression: with any sub-pattern it fails, since there is no
      candidate to match it; with none it holds. */
  lemma ArrayPatternOnNonArray(test: RegexTest, items: seq<Value>, actual: Value)
    requires (actual.Obj? && !HasKey(actual.fields, "length")) || actual.Re?
    ensures |items| > 0 ==> Compare(test, Arr(items), actual) == Normal(false)
    ensures items == [] ==> Compare(test, Arr(items), actual) == Normal(true)
  {
    if |items| > 0 {
      assert SomeCandidate(test, Arr(items), 0, Candidates(actual), 0) == Normal(false);
    }
  }

  /** `compare(expected, actual)`. It throws (a TypeError) only when a
      record or array pattern meets a `null` candidate. */
  function Compare(test: RegexTest, expected: Value, actual: Value): (r: Completion<bool>)
    ensures r.Throw? ==> r.error == TypeErrorValue
    ensures expected.Re? && TypeOf(actual) == "object" ==> r == Normal(false)
    ensures expected.Re? && actual.Str? ==> r == Normal(test(expected, actual.s))
    decreases expected, 2
  {
    if expected.Re? && TypeOf(actual) == "object" then Normal(false)
    else if expected.Re? && actual.Str? then Normal(test(expected, actual.s))
    else if TypeOf(expected) != TypeOf(actual) then Normal(false)
    else if TypeOf(expected) != "object" || expected.Null? then
      Normal(StrictEquals(expected, actual))
    else if expected.Arr? then EveryPattern(test, expected, 0, actual)
    else if expected.Obj? then EveryField(test, expected, 0, actual)
    else Normal(false)
  }

  /** `expected.every(exp => [].some.call(actual, act => compare(exp, act)))`
      over the sub-patterns from index `from` on. */
  function EveryPattern(test: RegexTest, expected: Value, from: nat, actual: Value): (r: Completion<bool>)
    requires expected.Arr?
    ensures r.Throw? ==> r.error == TypeErrorValue
    decreases expected, 1, |expected.items| - from
  {
    if from >= |expected.items| then Normal(true)
    else if actual.Null? then Throw(TypeErrorValue)
    else
      match SomeCandidate(test, expected, from, Candidates(actual), 0)
      case Throw(e) => Throw(e)
      case Normal(found) =>
        if found then EveryPattern(test, expected, from + 1, actual) else Normal(false)
  }

  /** `[].some.call(candidates, act => compare(expected.items[k], act))`
      over the candidates from index `from` on. */
  function SomeCandidate(test: RegexTest, expected: Value, k: nat, candidates: seq<Value>, from: nat): (r: Completion<bool>)
    requires expected.Arr? && k < |expected.items|
    ensures r.Throw? ==> r.error == TypeErrorValue
    decreases expected, 0, |candidates| - from
  {
    if from >= |candidates| then Normal(false)
    else
      match Compare(test, expected.items[k], candidates[from])
      case Throw(e) => Throw(e)
      case Normal(hit) =>
        if hit then Normal(true) else SomeCandidate(test, expected, k, candidates, from + 1)
  }

  /** `Object.keys(expected).every(key => ...)` over the fields of a record
      pattern from index `from` on. */
  function EveryField(test: RegexTest, expected: Value, from: nat, actual: Value): (r: Completion<bool>)
    requires expected.Obj?
    ensures r.Throw? ==> r.error == TypeErrorValue
    decreases expected, 1, |expected.fields| - from
  {
    if from >= |expected.fields| then Normal(true)
    else if actual.Null? then Throw(TypeErrorValue)
    else
      var eo := expected.fields[from].val;
      var ao := Get(actual, expected.fields[from].key);
      var here :=
        if TypeOf(eo) == "object" && !eo.Null? && !ao.Null? then Compare(test, eo, ao)
        else if eo.Bool? then Normal(eo.b != IsNullish(ao))
        else Normal(StrictEquals(ao, eo));
      match here
      case Throw(e) => Throw(e)
      case Normal(ok) =>
        if ok then EveryField(test, expected, from + 1, actual) else Normal(false)
  }

  /** What a pattern means, stated with quantifiers instead of the
      short-circuiting `every`/`some` loops. */
  ghost predicate Matches(test: RegexTest, expected: Value, actual: Value)
    decreases expected, 1
  {
    if expected.Re? && TypeOf(actual) == "object" then false
    else if expected.Re? && actual.Str? then test(expected, actual.s)
    else if TypeOf(expected) != TypeOf(actual) then false
    else if TypeOf(expected) != "object" || expected.Null? then StrictEquals(expected, actual)
    else if expected.Arr? then PatternsMatchFrom(test, expected, 0, Candidates(actual))
    else if expected.Obj? then FieldsMatchFrom(test, expected, 0, actual)
    else false
  }

  /** Every sub-pattern from index `from` on has a matching candidate. */
  ghost predicate PatternsMatchFrom(test: RegexTest, expected: Value, from: nat, candidates: seq<Value>)
    requires expected.Arr?
    decreases expected, 0
  {
    forall i :: from <= i < |expected.items| ==> SomeMatch(test, expected.items[i], candidates)
  }

  /** Every field of a record pattern from index `from` on matches. */
  ghost predicate FieldsMatchFrom(test: RegexTest, expected: Value, from: nat, actual: Value)
    requires expected.Obj?
    decreases expected, 0, 1
  {
    forall i :: from <= i < |expected.fields| ==>
      FieldMatches(test, expected, i, Get(actual, expected.fields[i].key))
  }

  /** Some candidate matches `pattern`. */
  ghost predicate SomeMatch(test: RegexTest, pattern: Value, candidates: seq<Value>)
    decreases pattern, 2
  {
    exists j :: 0 <= j < |candidates| && Matches(test, pattern, candidates[j])
  }

  /** One record field: an object pattern recurses, a boolean asks whether
      the candidate's value is present (neither `null` nor `undefined`),
      anything else is compared with `===`. */
  ghost predicate FieldMatches(test: RegexTest, expected: Value, i: nat, ao: Value)
    requires expected.Obj? && i < |expected.fields|
    decreases expected, 0, 0
  {
    var eo := expected.fields[i].val;
    if TypeOf(eo) == "object" && !eo.Null? && !ao.Null? then Matches(test, eo, ao)
    else if eo.Bool? then eo.b != IsNullish(ao)
    else StrictEquals(ao, eo)
  }

  /** Reading a property of a null-free value gives a null-free value. */
  lemma GetNullFree(v: Value, key: string)
    requires NullFree(v)
    ensures NullFree(Get(v, key))
  {
    match v
    case Arr(items) =>
      if key != "length" {
        IndexLookupNullFree(items, key, 0);
      }
    case Str(s) =>
      if key != "length" {
        IndexLookupNullFree(seq(|s|, i requires 0 <= i < |s| => Str([s[i]])), key, 0);
      }
    case Obj(fields) =>
      var i := FindKey(fields, key);
    case _ =>
  }

  lemma {:induction false} IndexLookupNullFree(items: seq<Value>, key: string, from: nat)
    requires forall i :: 0 <= i < |items| ==> NullFree(items[i])
    ensures NullFree(IndexLookup(items, key, from))
    decreases |items| - from
  {
    if from < |items| && NatToString(from) != key {
      IndexLookupNullFree(items, key, from + 1);
    }
  }

  /** On a candidate that contains no `null`, `compare` does not throw and
      computes exactly `Matches`. */
  lemma {:induction false} CompareMeansMatches(test: RegexTest, expected: Value, actual: Value)
    requires NullFree(actual)
    ensures Compare(test, expected, actual) == Normal(Matches(test, expected, actual))
    decreases expected, 2
  {
    if expected.Re? && TypeOf(actual) == "object" {
    } else if expected.Re? && actual.Str? {
    } else if TypeOf(expected) != TypeOf(actual) {
    } else if TypeOf(expected) != "object" || expected.Null? {
    } else if expected.Arr? {
      EveryPatternMeans(test, expected, 0, actual);
    } else if expected.Obj? {
      EveryFieldMeans(test, expected, 0, actual);
    }
  }

  lemma {:induction false} EveryPatternMeans(test: RegexTest, expected: Value, from: nat, actual: Value)
    requires expected.Arr? && from <= |expected.items| && NullFree(actual)
    ensures EveryPattern(test, expected, from, actual) ==
      Normal(PatternsMatchFrom(test, expected, from, Candidates(actual)))
    decreases expected, 1, |expected.items| - from
  {
    if from < |expected.items| {
      var cands := Candidates(actual);
      assert forall c :: 0 <= c < |cands| ==> NullFree(cands[c]);
      SomeCandidateMeans(test, expected, from, cands, 0);
      var here := SomeMatch(test, expected.items[from], cands);
      assert SomeCandidate(test, expected, from, cands, 0) == Normal(here);
      assert !actual.Null?;
      assert EveryPattern(test, expected, from, actual) ==
        if here then EveryPattern(test, expected, from + 1, actual) else Normal(false);
      EveryPatternMeans(test, expected, from + 1, actual);
      assert PatternsMatchFrom(test, expected, from, cands) ==
        (here && PatternsMatchFrom(test, expected, from + 1, cands));
    }
  }

  lemma {:induction false} SomeCandidateMeans(test: RegexTest, expected: Value, k: nat, candidates: seq<Value>, from: nat)
    requires expected.Arr? && k < |expected.items| && from <= |candidates|
    requires forall c :: 0 <= c < |candidates| ==> NullFree(candidates[c])
    ensures SomeCandidate(test, expected, k, candidates, from) ==
      Normal(exists j :: from <= j < |candidates| && Matches(test, expected.items[k], candidates[j]))
    decreases expected, 0, |candidates| - from
  {
    if from < |candidates| {
      CompareMeansMatches(test, expected.items[k], candidates[from]);
      SomeCandidateMeans(test, expected, k, candidates, from + 1);
    }
  }

  lemma {:induction false} EveryFieldMeans(test: RegexTest, expected: Value, from: nat, actual: Value)
    requires expected.Obj? && from <= |expected.fields| && NullFree(actual)
    ensures EveryField(test, expected, from, actual) ==
      Normal(FieldsMatchFrom(test, expected, from, actual))
    decreases expected, 1, |expected.fields| - from
  {
    if from < |expected.fields| {
      var eo := expected.fields[from].val;
      var ao := Get(actual, expected.fields[from].key);
      GetNullFree(actual, expected.fields[from].key);
      if TypeOf(eo) == "object" && !eo.Null? && !ao.Null? {
        CompareMeansMatches(test, eo, ao);
      }
      var here := FieldMatches(test, expected, from, ao);
      assert !actual.Null?;
      assert EveryField(test, expected, from, actual) ==
        if here then EveryField(test, expected, from + 1, actual) else Normal(false);
      EveryFieldMeans(test, expected, from + 1, actual);
      assert FieldsMatchFrom(test, expected, from, actual) ==
        (here && FieldsMatchFrom(test, expected, from + 1, actual));
    }
  }

  /** Record patterns are checked key by key, left to right: matching the
      fields `f1 + f2` is matching `f1`, and then, only if that held,
      matching `f2`. */
  lemma RecordPatternSplits(test: RegexTest, f1: seq<Prop>, f2: seq<Prop>, actual: Value)
    ensures Compare(test, Obj(f1 + f2), actual) ==
      match Compare(test, Obj(f1), actual)
      case Throw(e) => Throw(e)
      case Normal(ok) => if ok then Compare(test, Obj(f2), actual) else Normal(false)
  {
    if TypeOf(actual) == "object" {
      EveryFieldSplits(test, f1, f2, 0, actual);
    }
  }

  lemma {:induction false} EveryFieldSplits(test: RegexTest, f1: seq<Prop>, f2: seq<Prop>, from: nat, actual: Value)
    requires from <= |f1|
    ensures EveryField(test, Obj(f1 + f2), from, actual) ==
      match EveryField(test, Obj(f1), from, actual)
      case Throw(e) => Throw(e)
      case Normal(ok) => if ok then EveryField(test, Obj(f2), 0, actual) else Normal(false)
    decreases |f1| - from
  {
    if from == |f1| {
      EveryFieldShifts(test, f1, f2, 0, actual);
    } else {
      assert (f1 + f2)[from] == f1[from];
      EveryFieldSplits(test, f1, f2, from + 1, actual);
    }
  }

  lemma {:induction false} EveryFieldShifts(test: RegexTest, f1: seq<Prop>, f2: seq<Prop>, j: nat, actual: Value)
    requires j <= |f2|
    ensures EveryField(test, Obj(f1 + f2), |f1| + j, actual) == EveryField(test, Obj(f2), j, actual)
    decreases |f2| - j
  {
    if j < |f2| {
      assert (f1 + f2)[|f1| + j] == f2[j];
      EveryFieldShifts(test, f1, f2, j + 1, actual);
    }
  }

  /** A one-field record pattern whose value is a boolean asks only whether
      the node has that key set to something other than `null` or
      `undefined`: `{value: true}` accepts `value: 0`, `{content: false}`
      accepts a node with no content. */
  lemma BooleanFieldIsPresence(test: RegexTest, key: string, b: bool, actual: Value)
    requires TypeOf(actual) == "object" && !actual.Null?
    ensures Compare(test, Obj([Prop(key, Bool(b))]), actual) == Normal(b != IsNullish(Get(actual, key)))
  {
    var pattern := Obj([Prop(key, Bool(b))]);
    assert EveryField(test, pattern, 1, actual) == Normal(true);
    assert Compare(test, pattern, actual) == EveryField(test, pattern, 0, actual);
  }

  /** An array pattern with one string asks for that string among the
      elements: `{content: ['Text']}` accepts exactly the nodes whose
      `content` is an array holding 'Text'. */
  lemma ContentChildPattern(test: RegexTest, t: string, node: Value)
    requires node.Obj?
    ensures Compare(test, Obj([Prop("content", Arr([Str(t)]))]), node) ==
      Normal(Get(node, "content").Arr? && Str(t) in Get(node, "content").items)
  {
    var pattern := Arr([Str(t)]);
    var ao := Get(node, "content");
    if ao.Arr? {
      SomeCandidateFindsString(test, pattern, ao.items, 0);
      assert ao.items[0..] == ao.items;
      assert EveryPattern(test, pattern, 1, ao) == Normal(true);
      assert Compare(test, pattern, ao) == Normal(Str(t) in ao.items);
      assert EveryField(test, Obj([Prop("content", pattern)]), 1, node) == Normal(true);
    } else if ao.Obj? || ao.Re? {
      assert SomeCandidate(test, pattern, 0, Candidates(ao), 0) == Normal(false);
      assert Compare(test, pattern, ao) == Normal(false);
    } else if !ao.Null? {
      assert Compare(test, pattern, ao) == Normal(false);
    }
  }

  lemma {:induction false} SomeCandidateFindsString(test: RegexTest, pattern: Value, candidates: seq<Value>, from: nat)
    requires pattern.Arr? && |pattern.items| == 1 && pattern.items[0].Str? && from <= |candidates|
    ensures SomeCandidate(test, pattern, 0, candidates, from) == Normal(pattern.items[0] in candidates[from..])
    decreases |candidates| - from
  {
    if from < |candidates| {
      SomeCandidateFindsString(test, pattern, candidates, from + 1);
      assert candidates[from..] == [candidates[from]] + candidates[from + 1..];
    }
  }

  // ---------------------------------------------------------------------
  // traverse(tree, cb)
  // ---------------------------------------------------------------------

  /** A callback's effect: its new state and how the call completed. */
  datatype Step<S> = Step(state: S, out: Completion<Value>)

  /** A tree callback `cb(node)`, with the state it closes over. */
  type Callback<!S> = (S, Value) -> Step<S>

  /** The `for` loop over one array: the values stored back into the slots
      processed so far, and the error that stopped the loop, if any. */
  datatype SlotRun<S> = SlotRun(state: S, done: seq<Value>, error: Option<Value>)

  /** `traverse(tree, cb)` given `depth` free stack frames: the value the
      slot holding `tree` ends up with. An array has every slot replaced by
      the traversal of `cb(slot)`; an object with an own `content` key has
      that content traversed; every other value is returned as it is. */
  function Traverse<S>(cb: Callback<S>, s: S, tree: Value, depth: nat): (r: Step<S>)
    ensures r.out.Normal? && tree.Arr? ==> r.out.value.Arr? && |r.out.value.items| == |tree.items|
    ensures r.out.Normal? && tree.Obj? ==> r.out.value.Obj? && |r.out.value.fields| == |tree.fields|
    ensures depth > 0 && !tree.Arr? && !(tree.Obj? && HasKey(tree.fields, "content")) ==> r == Step(s, Normal(tree))
    decreases depth, 0
  {
    if depth == 0 then Step(s, Throw(RangeErrorValue))
    else
      match tree
      case Arr(items) =>
        var run := TraverseSlots(cb, s, items, depth - 1);
        Step(run.state, if run.error.Some? then Throw(run.error.value) else Normal(Arr(run.done)))
      case Obj(fields) =>
        var i := FindKey(fields, "content");
        if i < |fields| then
          var inner := Traverse(cb, s, fields[i].val, depth - 1);
          match inner.out
          case Throw(e) => Step(inner.state, Throw(e))
          case Normal(c) => Step(inner.state, Normal(Obj(fields[i := Prop("content", c)])))
        else Step(s, Normal(tree))
      case _ => Step(s, Normal(tree))
  }

  /** One slot: `traverse(cb(slot), cb)`. */
  function Visit<S>(cb: Callback<S>, s: S, x: Value, depth: nat): (r: Step<S>)
    decreases depth, 1, 0
  {
    var c := cb(s, x);
    match c.out
    case Throw(e) => Step(c.state, Throw(e))
    case Normal(v) => Traverse(cb, c.state, v, depth)
  }

  /** The loop `for (i ...) tree[i] = traverse(cb(tree[i]), cb)` over the
      slots `xs`, left to right, stopping at the first error. */
  function TraverseSlots<S>(cb: Callback<S>, s: S, xs: seq<Value>, depth: nat): (r: SlotRun<S>)
    ensures |r.done| <= |xs|
    ensures r.error.None? ==> |r.done| == |xs|
    decreases depth, 1, |xs| + 1
  {
    if xs == [] then SlotRun(s, [], None)
    else
      var t := Visit(cb, s, xs[0], depth);
      match t.out
      case Throw(e) => SlotRun(t.state, [], Some(e))
      case Normal(w) =>
        var rest := TraverseSlots(cb, t.state, xs[1..], depth);
        SlotRun(rest.state, [w] + rest.done, rest.error)
  }

  /** The stack frames `traverse` needs on `v` when the callback leaves every
      node as it is. */
  function Height(v: Value): (h: nat)
    ensures h >= 1
  {
    match v
    case Arr(items) => 1 + MaxHeight(items)
    case Obj(fields) =>
      var i := FindKey(fields, "content");
      if i < |fields| then 1 + Height(fields[i].val) else 1
    case _ => 1
  }

  function MaxHeight(xs: seq<Value>): (h: nat)
    ensures forall i :: 0 <= i < |xs| ==> Height(xs[i]) <= h
  {
    if xs == [] then 0
    else
      var a := Height(xs[0]);
      var b := MaxHeight(xs[1..]);
      assert forall i :: 1 <= i < |xs| ==> xs[i] == xs[1..][i - 1];
      if a > b then a else b
  }

  /** The nodes a callback that changes nothing is handed, in order: every
      array slot, followed by what lies beneath it, left to right. */
  function PreOrder(v: Value): seq<Value> {
    match v
    case Arr(items) => SlotsPreOrder(items)
    case Obj(fields) =>
      var i := FindKey(fields, "content");
      if i < |fields| then PreOrder(fields[i].val) else []
    case _ => []
  }

  function SlotsPreOrder(xs: seq<Value>): seq<Value> {
    if xs == [] then [] else [xs[0]] + PreOrder(xs[0]) + SlotsPreOrder(xs[1..])
  }

  /** `walk(node => node)` leaves every tree as it is, given enough stack. */
  lemma {:induction false} TraverseIdentity<S>(cb: Callback<S>, s: S, v: Value, depth: nat)
    requires forall x :: cb(s, x) == Step(s, Normal(x))
    requires depth >= Height(v)
    ensures Traverse(cb, s, v, depth) == Step(s, Normal(v))
    decreases v
  {
    match v
    case Arr(items) =>
      SlotsIdentity(cb, s, items, depth - 1);
    case Obj(fields) =>
      var i := FindKey(fields, "content");
      if i < |fields| {
        TraverseIdentity(cb, s, fields[i].val, depth - 1);
        assert fields[i := Prop("content", fields[i].val)] == fields;
      }
    case _ =>
  }

  lemma {:induction false} SlotsIdentity<S>(cb: Callback<S>, s: S, xs: seq<Value>, depth: nat)
    requires forall x :: cb(s, x) == Step(s, Normal(x))
    requires depth >= MaxHeight(xs)
    ensures TraverseSlots(cb, s, xs, depth) == SlotRun(s, xs, None)
    decreases xs
  {
    if xs != [] {
      TraverseIdentity(cb, s, xs[0], depth);
      SlotsIdentity(cb, s, xs[1..], depth);
    }
  }

  /** A callback that logs every node it is handed and returns it is handed
      exactly `PreOrder(v)`: traverse visits slots in pre-order, left to
      right, and leaves the tree as it is. */
  lemma {:induction false} TraverseVisitsPreOrder(cb: Callback<seq<Value>>, log: seq<Value>, v: Value, depth: nat)
    requires forall l, x :: cb(l, x) == Step(l + [x], Normal(x))
    requires depth >= Height(v)
    ensures Traverse(cb, log, v, depth) == Step(log + PreOrder(v), Normal(v))
    decreases v
  {
    match v
    case Arr(items) =>
      SlotsVisitPreOrder(cb, log, items, depth - 1);
    case Obj(fields) =>
      var i := FindKey(fields, "content");
      if i < |fields| {
        TraverseVisitsPreOrder(cb, log, fields[i].val, depth - 1);
        assert fields[i := Prop("content", fields[i].val)] == fields;
      } else {
        assert log + [] == log;
      }
    case _ =>
      assert log + [] == log;
  }

  lemma {:induction false} SlotsVisitPreOrder(cb: Callback<seq<Value>>, log: seq<Value>, xs: seq<Value>, depth: nat)
    requires forall l, x :: cb(l, x) == Step(l + [x], Normal(x))
    requires depth >= MaxHeight(xs)
    ensures TraverseSlots(cb, log, xs, depth) == SlotRun(log + SlotsPreOrder(xs), xs, None)
    decreases xs
  {
    if xs == [] {
      assert log + [] == log;
    } else {
      var log1 := log + [xs[0]];
      assert cb(log, xs[0]) == Step(log1, Normal(xs[0]));
      assert depth >= Height(xs[0]) && depth >= MaxHeight(xs[1..]);
      TraverseVisitsPreOrder(cb, log1, xs[0], depth);
      var log2 := log1 + PreOrder(xs[0]);
      assert Visit(cb, log, xs[0], depth) == Step(log2, Normal(xs[0]));
      SlotsVisitPreOrder(cb, log2, xs[1..], depth);
      SlotsCons(cb, log, xs, depth);
      PreOrderCons(log, xs);
      assert [xs[0]] + xs[1..] == xs;
    }
  }

  lemma PreOrderCons(log: seq<Value>, xs: seq<Value>)
    requires xs != []
    ensures log + [xs[0]] + PreOrder(xs[0]) + SlotsPreOrder(xs[1..]) == log + SlotsPreOrder(xs)
  {
    AppendAssoc(log, [xs[0]], PreOrder(xs[0]), SlotsPreOrder(xs[1..]));
  }

  lemma AppendAssoc(a: seq<Value>, b: seq<Value>, c: seq<Value>, d: seq<Value>)
    ensures a + b + c + d == a + (b + c + d)
  {
  }

  /** `walk(() => 'a')` on an array of any nodes gives an array of as many
      'a's: the replacement is a string, so nothing is descended into. */
  lemma {:induction false} TraverseConstant<S>(cb: Callback<S>, s: S, c: string, xs: seq<Value>, depth: nat)
    requires forall x :: cb(s, x) == Step(s, Normal(Str(c)))
    requires depth >= 2
    ensures Traverse(cb, s, Arr(xs), depth) == Step(s, Normal(Arr(seq(|xs|, _ => Str(c)))))
  {
    SlotsConstant(cb, s, c, xs, depth - 1);
  }

  lemma {:induction false} SlotsConstant<S>(cb: Callback<S>, s: S, c: string, xs: seq<Value>, depth: nat)
    requires forall x :: cb(s, x) == Step(s, Normal(Str(c)))
    requires depth >= 1
    ensures TraverseSlots(cb, s, xs, depth) == SlotRun(s, seq(|xs|, _ => Str(c)), None)
    decreases xs
  {
    if xs != [] {
      SlotsConstant(cb, s, c, xs[1..], depth);
      assert [Str(c)] + seq(|xs| - 1, _ => Str(c)) == seq(|xs|, _ => Str(c));
    }
  }

  /** A callback that wraps every node in a new array makes traverse
      descend for ever: whatever the stack, it ends in a RangeError. */
  lemma {:induction false} WrappingExhaustsStack<S>(cb: Callback<S>, s: S, v: Value, depth: nat)
    requires forall x :: cb(s, x) == Step(s, Normal(Arr([x])))
    ensures Traverse(cb, s, Arr([v]), depth) == Step(s, Throw(RangeErrorValue))
    decreases depth
  {
    if depth > 0 {
      WrappingExhaustsStack(cb, s, v, depth - 1);
      assert Visit(cb, s, v, depth - 1) == Step(s, Throw(RangeErrorValue));
      SlotsCons(cb, s, [v], depth - 1);
    }
  }

  /** The `for` loop of `traverse` over an array held in place: each slot
      in turn is replaced by the traversal of the callback's result. If a
      callback or a nested traversal throws, the slots before the failing
      one keep their new values and the rest are untouched. */
  method TraverseArray<S>(tree: array<Value>, cb: Callback<S>, s0: S, depth: nat) returns (s: S, error: Option<Value>)
    modifies tree
    ensures var run := TraverseSlots(cb, s0, old(tree[..]), depth);
      s == run.state && error == run.error && tree[..] == run.done + old(tree[..])[|run.done|..]
  {
    ghost var xs := tree[..];
    s := s0;
    var i := 0;
    while i < tree.Length
      invariant 0 <= i <= tree.Length
      invariant tree[i..] == xs[i..]
      invariant TraverseSlots(cb, s0, xs, depth) == Prefixed(tree[..i], TraverseSlots(cb, s, xs[i..], depth))
    {
      SlotsAdvance(cb, s0, xs, tree[..i], s, i, depth);
      var t := Visit(cb, s, tree[i], depth);
      if t.out.Throw? {
        assert tree[..] == tree[..i] + xs[i..];
        return t.state, Some(t.out.error);
      }
      ghost var before := tree[..i];
      tree[i] := t.out.value;
      assert tree[..i + 1] == before + [t.out.value];
      s := t.state;
      i := i + 1;
    }
    assert xs[i..] == [] && tree[..] == tree[..i] && tree[..i] + [] == tree[..i];
    assert TraverseSlots(cb, s0, xs, depth) == SlotRun(s, tree[..], None);
    error := None;
  }

  /** One turn of the slot loop, seen from the whole run: with `done`
      already replaced, visiting slot `i` either stops the run with its
      error or adds the new value to `done`. */
  lemma SlotsAdvance<S>(cb: Callback<S>, s0: S, xs: seq<Value>, done: seq<Value>, s: S, i: nat, depth: nat)
    requires i < |xs|
    requires TraverseSlots(cb, s0, xs, depth) == Prefixed(done, TraverseSlots(cb, s, xs[i..], depth))
    ensures var t := Visit(cb, s, xs[i], depth);
      TraverseSlots(cb, s0, xs, depth) ==
        if t.out.Throw? then SlotRun(t.state, done, Some(t.out.error))
        else Prefixed(done + [t.out.value], TraverseSlots(cb, t.state, xs[i + 1..], depth))
  {
    SlotsCons(cb, s, xs[i..], depth);
    assert xs[i..][0] == xs[i] && xs[i..][1..] == xs[i + 1..];
    assert done + [] == done;
  }

  /** The first step of the slot loop. */
  lemma SlotsCons<S>(cb: Callback<S>, s: S, xs: seq<Value>, depth: nat)
    requires xs != []
    ensures var t := Visit(cb, s, xs[0], depth);
      TraverseSlots(cb, s, xs, depth) ==
        if t.out.Throw? then SlotRun(t.state, [], Some(t.out.error))
        else Prefixed([t.out.value], TraverseSlots(cb, t.state, xs[1..], depth))
  {
  }


  /** `run` with the slots `p` already done in front of it. */
  function Prefixed<S>(p: seq<Value>, run: SlotRun<S>): (r: SlotRun<S>)
    ensures r.state == run.state && r.error == run.error && r.done == p + run.done
  {
    SlotRun(run.state, p + run.done, run.error)
  }

  /** `tree.walk(cb)` on an array tree: traverse it in place and return
      the very same array, so that calls can be chained. */
  method Walk<S>(tree: array<Value>, cb: Callback<S>, s0: S, depth: nat) returns (s: S, r: Completion<array<Value>>)
    modifies tree
    ensures Traverse(cb, s0, Arr(old(tree[..])), depth) ==
      Step(s, if r.Normal? then Normal(Arr(tree[..])) else Throw(r.error))
    ensures r.Normal? ==> r.value == tree
    ensures depth > 0 ==> var run := TraverseSlots(cb, s0, old(tree[..]), depth - 1);
      tree[..] == run.done + old(tree[..])[|run.done|..]
    ensures depth == 0 ==> tree[..] == old(tree[..])
  {
    if depth == 0 {
      return s0, Throw(RangeErrorValue);
    }
    ghost var xs := tree[..];
    var error;
    s, error := TraverseArray(tree, cb, s0, depth - 1);
    ghost var run := TraverseSlots(cb, s0, xs, depth - 1);
    if error.Some? {
      r := Throw(error.value);
    } else {
      assert xs[|run.done|..] == [];
      assert tree[..] == run.done;
      r := Normal(tree);
    }
  }

  // ---------------------------------------------------------------------
  // match(expression, cb)
  // ---------------------------------------------------------------------

  /** The first alternative, from index `from` on, that `compare` accepts
      for `node`; `compare` throwing stops the search. */
  function FirstMatch(test: RegexTest, alternatives: seq<Value>, node: Value, from: nat): (r: Completion<Option<nat>>)
    ensures r.Normal? && r.value.Some? ==>
      from <= r.value.value < |alternatives| &&
      Compare(test, alternatives[r.value.value], node) == Normal(true) &&
      forall j :: from <= j < r.value.value ==> Compare(test, alternatives[j], node) == Normal(false)
    ensures r == Normal(None) <==>
      forall j :: from <= j < |alternatives| ==> Compare(test, alternatives[j], node) == Normal(false)
    ensures r.Throw? ==> exists j :: from <= j < |alternatives| && Compare(test, alternatives[j], node).Throw?
    decreases |alternatives| - from
  {
    if from >= |alternatives| then Normal(None)
    else
      match Compare(test, alternatives[from], node)
      case Throw(e) => Throw(e)
      case Normal(hit) => if hit then Normal(Some(from)) else FirstMatch(test, alternatives, node, from + 1)
  }

  /** Whether `match(expression, cb)` hands `node` to `cb`: an array
      expression is a list of alternatives, anything else one pattern. */
  function Fires(test: RegexTest, expression: Value, node: Value): (r: Completion<bool>)
    ensures expression.Arr? && r.Normal? ==>
      (r.value <==> exists j :: 0 <= j < |expression.items| && Compare(test, expression.items[j], node) == Normal(true))
  {
    if expression.Arr? then
      match FirstMatch(test, expression.items, node, 0)
      case Throw(e) => Throw(e)
      case Normal(k) => Normal(k.Some?)
    else Compare(test, expression, node)
  }

  /** The callback `match` gives to `traverse`: `cb(node)` for a node the
      expression accepts, the node itself otherwise. */
  function Selector<S(!new)>(test: RegexTest, expression: Value, cb: Callback<S>): (r: Callback<S>)
    ensures forall s, node :: Fires(test, expression, node) == Normal(false) ==> r(s, node) == Step(s, Normal(node))
    ensures forall s, node :: Fires(test, expression, node) == Normal(true) ==> r(s, node) == cb(s, node)
  {
    (s: S, node: Value) =>
      match Fires(test, expression, node)
      case Throw(e) => Step(s, Throw(e))
      case Normal(hit) => if hit then cb(s, node) else Step(s, Normal(node))
  }

  /** The body of the callback `match` builds for an array expression: try
      the alternatives in order and hand the node to `cb` at the first one
      that matches, at most once. */
  method SelectNode<S(!new)>(test: RegexTest, alternatives: seq<Value>, cb: Callback<S>, s: S, node: Value) returns (r: Step<S>)
    ensures r == Selector(test, Arr(alternatives), cb)(s, node)
  {
    var i := 0;
    while i < |alternatives|
      invariant 0 <= i <= |alternatives|
      invariant FirstMatch(test, alternatives, node, 0) == FirstMatch(test, alternatives, node, i)
    {
      var c := Compare(test, alternatives[i], node);
      if c.Throw? {
        return Step(s, Throw(c.error));
      }
      if c.value {
        return cb(s, node);
      }
      i := i + 1;
    }
    return Step(s, Normal(node));
  }

  /** On a node with no `null` inside, an array expression hands the node
      to `cb` exactly when some alternative matches it, and leaves it as it
      is otherwise. */
  lemma SelectorFiresOnMatch<S(!new)>(test: RegexTest, alternatives: seq<Value>, cb: Callback<S>, s: S, node: Value)
    requires NullFree(node)
    ensures Selector(test, Arr(alternatives), cb)(s, node) ==
      if exists j :: 0 <= j < |alternatives| && Matches(test, alternatives[j], node)
      then cb(s, node) else Step(s, Normal(node))
  {
    forall j | 0 <= j < |alternatives|
      ensures Compare(test, alternatives[j], node) == Normal(Matches(test, alternatives[j], node))
    {
      CompareMeansMatches(test, alternatives[j], node);
    }
  }

  /** `tree.match(expression, cb)` on an array tree: walk it with the
      selecting callback and return the very same array. */
  method Match<S(!new)>(tree: array<Value>, test: RegexTest, expression: Value, cb: Callback<S>, s0: S, depth: nat)
    returns (s: S, r: Completion<array<Value>>)
    modifies tree
    ensures Traverse(Selector(test, expression, cb), s0, Arr(old(tree[..])), depth) ==
      Step(s, if r.Normal? then Normal(Arr(tree[..])) else Throw(r.error))
    ensures r.Normal? ==> r.value == tree
  {
    s, r := Walk(tree, Selector(test, expression, cb), s0, depth);
  }

  // ---------------------------------------------------------------------
  // Attaching the API to a tree
  // ---------------------------------------------------------------------

  /** A property the engine sets on a tree's root object: the `walk` and
      `match` functions, the module-level `messages` array of lib/api.js,
      the `messages` array of a src/index.ts instance, the processor
      itself, another own member of the processor (by name), or a plain
      value. */
  datatype Attached =
    | WalkFn
    | MatchFn
    | ApiMessages
    | InstanceMessages
    | Processor
    | Member(key: string)
    | Data(v: Value)

  /** A tree as the engine holds it: the root value and the properties set
      on the root object from outside the tree's own data. */
  datatype Tree = Tree(root: Value, ext: map<string, Attached>)

  /** The module-level `api` object of lib/api.js: one `messages` array for
      the whole module. */
  class ApiModule {
    var messages: seq<Value>

    constructor ()
      ensures messages == []
    {
      messages := [];
    }
  }

  /** The extender exported by lib/api.js: set `walk`, `match` and the
      module's one `messages` array on the tree. The module is strict, so
      setting a property on a primitive throws a TypeError. */
  function ExtendTree(t: Tree): (r: Completion<Tree>)
    ensures r.Normal? <==> IsObjectRef(t.root)
    ensures r.Throw? ==> r.error == TypeErrorValue
    ensures r.Normal? ==> r.value.root == t.root
    ensures r.Normal? ==> "walk" in r.value.ext && r.value.ext["walk"] == WalkFn
    ensures r.Normal? ==> "match" in r.value.ext && r.value.ext["match"] == MatchFn
    ensures r.Normal? ==> "messages" in r.value.ext && r.value.ext["messages"] == ApiMessages
    ensures r.Normal? ==> forall k :: k in t.ext && k != "walk" && k != "match" && k != "messages" ==>
      k in r.value.ext && r.value.ext[k] == t.ext[k]
  {
    if IsObjectRef(t.root) then
      Normal(Tree(t.root, t.ext["walk" := WalkFn]["match" := MatchFn]["messages" := ApiMessages]))
    else Throw(TypeErrorValue)
  }

  /** `Api.call(obj)` of src/api.ts: set `walk` and `match` on an object's
      properties, leaving the others as they are. */
  function AttachApi(props: map<string, Attached>): (r: map<string, Attached>)
    ensures r.Keys == props.Keys + {"walk", "match"}
    ensures r["walk"] == WalkFn && r["match"] == MatchFn
    ensures forall k :: k in props && k != "walk" && k != "match" ==> r[k] == props[k]
  {
    props["walk" := WalkFn]["match" := MatchFn]
  }
}
