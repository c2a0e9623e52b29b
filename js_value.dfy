/** JavaScript values as the PostHTML code sees them.

    Trees, patterns, options and plugin results are all plain JavaScript
    values in the source; this module gives them one tagged representation
    and the handful of language operations the core relies on: `typeof`,
    truthiness, property reads, `===`, string conversion, `for...in`
    enumeration and `[].concat(x)`.

    Objects are modelled as values: two objects with the same fields are
    equal here, so object identity is not represented. */
module JsValue {

  /** A JavaScript value. Numbers are integers; `Re` is a regular expression
      literal (its engine is supplied by callers as a `RegexTest`); `Fn` is a
      function value, identified by its name. */
  datatype Value =
    | Undefined
    | Null
    | Bool(b: bool)
    | Num(n: int)
    | Str(s: string)
    | Arr(items: seq<Value>)
    | Obj(fields: seq<Prop>)
    | Re(source: string, flags: string)
    | Fn(name: string)

  /** One own enumerable property of an object, in insertion order. */
  datatype Prop = Prop(key: string, val: Value)

  datatype Option<T> = None | Some(value: T)

  /** How a JavaScript expression completes: with a value, or by throwing. */
  datatype Completion<T> = Normal(value: T) | Throw(error: Value)

  /** The regular-expression engine: `test(re, s)` is `re.test(s)`. */
  type RegexTest = (Value, string) -> bool

  /** The error objects the runtime itself throws. Their messages depend on
      the JavaScript engine and are not modelled. */
  const TypeErrorValue: Value := Obj([Prop("name", Str("TypeError"))])
  const RangeErrorValue: Value := Obj([Prop("name", Str("RangeError"))])

  /** `new Error(message)`. */
  function ErrorValue(message: string): (e: Value)
    ensures Truthy(e)
  {
    Obj([Prop("name", Str("Error")), Prop("message", Str(message))])
  }

  /** `typeof v`. */
  function TypeOf(v: Value): string {
    match v
    case Undefined => "undefined"
    case Null => "object"
    case Bool(_) => "boolean"
    case Num(_) => "number"
    case Str(_) => "string"
    case Arr(_) => "object"
    case Obj(_) => "object"
    case Re(_, _) => "object"
    case Fn(_) => "function"
  }

  /** The values that carry properties of their own (everything whose
      `typeof` is "object" or "function", except `null`). */
  predicate IsObjectRef(v: Value) {
    v.Arr? || v.Obj? || v.Re? || v.Fn?
  }

  /** `v == null`: reading a property of such a value throws a TypeError. */
  predicate IsNullish(v: Value) {
    v.Null? || v.Undefined?
  }

  /** `!!v`. */
  predicate Truthy(v: Value) {
    match v
    case Undefined => false
    case Null => false
    case Bool(b) => b
    case Num(n) => n != 0
    case Str(s) => s != ""
    case _ => true
  }

  /** `a === b`. Primitives compare by value and functions by name; two
      object values are taken to be distinct objects. */
  predicate StrictEquals(a: Value, b: Value) {
    if a.Fn? || b.Fn? then a == b
    else if IsObjectRef(a) && IsObjectRef(b) then false
    else a == b
  }

  function DigitChar(d: nat): char
    requires d < 10
  {
    "0123456789"[d]
  }

  /** The decimal spelling of a natural number, as `String(n)` gives it. */
  function NatToString(n: nat): (r: string)
    ensures |r| > 0
    ensures forall i :: 0 <= i < |r| ==> '0' <= r[i] <= '9'
  {
    if n < 10 then [DigitChar(n)] else NatToString(n / 10) + [DigitChar(n % 10)]
  }

  function IntToString(i: int): (r: string)
    ensures |r| > 0
  {
    if i < 0 then "-" + NatToString(-i) else NatToString(i)
  }

  /** `String(v)`, as used by `+` on strings and by template literals. A
      function's source text is not modelled; its name stands in for it. */
  function ToJsString(v: Value): string {
    match v
    case Undefined => "undefined"
    case Null => "null"
    case Bool(b) => if b then "true" else "false"
    case Num(n) => IntToString(n)
    case Str(s) => s
    case Arr(items) => Join(items)
    case Obj(_) => "[object Object]"
    case Re(source, flags) => "/" + source + "/" + flags
    case Fn(name) => "function " + name + "() { [native code] }"
  }

  /** `items.join(",")`, where `null` and `undefined` become "". */
  function Join(items: seq<Value>): string
    decreases items
  {
    if items == [] then ""
    else
      var first := if IsNullish(items[0]) then "" else ToJsString(items[0]);
      if |items| == 1 then first else first + "," + Join(items[1..])
  }

  /** The value of the first property named `key`, or `undefined`. */
  function Lookup(fields: seq<Prop>, key: string): Value {
    if fields == [] then Undefined
    else if fields[0].key == key then fields[0].val
    else Lookup(fields[1..], key)
  }

  predicate HasKey(fields: seq<Prop>, key: string) {
    fields != [] && (fields[0].key == key || HasKey(fields[1..], key))
  }

  /** The position of the first property named `key`, or `|fields|` when
      there is none; `HasKey` and `Lookup` agree with it. */
  function FindKey(fields: seq<Prop>, key: string): (i: nat)
    ensures i <= |fields|
    ensures i < |fields| ==> fields[i].key == key
    ensures forall j :: 0 <= j < i ==> fields[j].key != key
    ensures HasKey(fields, key) <==> i < |fields|
    ensures Lookup(fields, key) == if i < |fields| then fields[i].val else Undefined
  {
    if fields == [] then 0
    else if fields[0].key == key then 0
    else 1 + FindKey(fields[1..], key)
  }

  /** `obj[key] = v`: overwrite the property in place, or append it. */
  function Put(fields: seq<Prop>, key: string, v: Value): (r: seq<Prop>)
    ensures Lookup(r, key) == v
    ensures forall k :: k != key ==> Lookup(r, k) == Lookup(fields, k)
    ensures HasKey(r, key)
    ensures forall k :: k != key ==> (HasKey(r, k) <==> HasKey(fields, k))
    ensures HasKey(fields, key) ==> |r| == |fields|
    ensures |fields| <= |r| && forall i :: 0 <= i < |fields| ==> r[i].key == fields[i].key
    ensures !HasKey(fields, key) ==> r == fields + [Prop(key, v)]
  {
    if fields == [] then [Prop(key, v)]
    else if fields[0].key == key then [Prop(key, v)] + fields[1..]
    else
      var rest := Put(fields[1..], key, v);
      assert ([fields[0]] + rest)[1..] == rest;
      [fields[0]] + rest
  }

  /** The array element whose index spells `key`, searching from `from`. */
  function IndexLookup(items: seq<Value>, key: string, from: nat): Value
    decreases |items| - from
  {
    if from >= |items| then Undefined
    else if NatToString(from) == key then items[from]
    else IndexLookup(items, key, from + 1)
  }

  /** `v[key]` for a value that is not `null` or `undefined` (reading a
      property of those throws; callers check `IsNullish` first). Own
      properties, plus what a regular expression and a function expose
      through their prototypes; no other inherited member is modelled. */
  function Get(v: Value, key: string): Value {
    match v
    case Obj(fields) => Lookup(fields, key)
    case Arr(items) =>
      if key == "length" then Num(|items|) else IndexLookup(items, key, 0)
    case Str(s) =>
      if key == "length" then Num(|s|)
      else
        IndexLookup(seq(|s|, i requires 0 <= i < |s| => Str([s[i]])), key, 0)
    case Re(source, flags) =>
      if key == "source" then Str(source)
      else if key == "flags" then Str(flags)
      else if key == "lastIndex" then Num(0)
      else Undefined
    case Fn(name) =>
      if key == "name" then Str(name) else Undefined
    case _ => Undefined
  }

  /** The properties `for (key in v)` visits, with their values: an object's
      own fields, an array's or a string's indices; nothing for other values
      (including `null` and `undefined`, over which the loop does not run). */
  function EnumerableProps(v: Value): (r: seq<Prop>)
    ensures v.Obj? ==> r == v.fields
    ensures !(v.Obj? || v.Arr? || v.Str?) ==> r == []
  {
    match v
    case Obj(fields) => fields
    case Arr(items) => seq(|items|, i requires 0 <= i < |items| => Prop(NatToString(i), items[i]))
    case Str(s) => seq(|s|, i requires 0 <= i < |s| => Prop(NatToString(i), Str([s[i]])))
    case _ => []
  }

  /** `[].concat(v)`: an array is copied element by element, anything else
      becomes the single element of a new array. */
  function Concat(v: Value): (r: Value)
    ensures r.Arr?
    ensures v.Arr? ==> r.items == v.items
    ensures !v.Arr? ==> r.items == [v]
  {
    if v.Arr? then Arr(v.items) else Arr([v])
  }

  /** `[].concat` leaves an array's contents as they are and changes every
      other value, so a second application changes nothing. */
  lemma ConcatIdempotent(v: Value)
    ensures Concat(Concat(v)) == Concat(v)
    ensures Concat(v) == v <==> v.Arr?
  {
  }

  /** Every value reachable from `v` through array elements and object
      fields is other than `null`. */
  predicate NullFree(v: Value) {
    match v
    case Null => false
    case Arr(items) => forall i :: 0 <= i < |items| ==> NullFree(items[i])
    case Obj(fields) => forall i :: 0 <= i < |fields| ==> NullFree(fields[i].val)
    case _ => true
  }
}
