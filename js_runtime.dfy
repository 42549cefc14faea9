/**
 * The small part of JavaScript's semantics that the title parser relies on:
 * the values `JSON.parse` produces, truthiness, property reads that throw on
 * `null`/`undefined`, the string coercion `JSON.parse` applies to its
 * argument, `Array.prototype.join` and `String.prototype.trim`.
 */
module JsRuntime {

  datatype Option<+T> = None | Some(value: T)

  /** A JavaScript value as far as JSON can produce one, plus `undefined`.
      A number is kept as the text `Number.prototype.toString` gives for it
      (`0` and `-0` both render as "0"), which is all the parser ever
      observes of a number: its truthiness and its string coercion. */
  datatype JsValue =
    | Undefined
    | Null
    | Bool(b: bool)
    | Num(text: string)
    | Str(s: string)
    | Arr(elems: seq<JsValue>)
    | Obj(props: map<string, JsValue>)

  /** The exceptions the parser's own statements can raise. */
  datatype Exception = TypeError | SyntaxError

  /** The completion of a JavaScript expression: a value or a thrown exception. */
  datatype Completion<+T> = Normal(value: T) | Throw(exc: Exception) {
    predicate IsFailure() { Throw? }

    function PropagateFailure<U>(): Completion<U>
      requires Throw?
    {
      Throw(exc)
    }

    function Extract(): T
      requires Normal?
    {
      value
    }
  }

  /** ToBoolean: the falsy values are `undefined`, `null`, `false`, `0`, `NaN` and "". */
  predicate Truthy(v: JsValue) {
    match v
    case Undefined => false
    case Null => false
    case Bool(b) => b
    case Num(text) => text != "0" && text != "NaN"
    case Str(s) => s != ""
    case Arr(_) => true
    case Obj(_) => true
  }

  /** The property keys the title parser reads. None of them is an own or
      inherited property of an array, a string, a number, a boolean or a
      plain object, except "0", the first index of an array or a string. */
  const ReadKeys: set<string> := {"choices", "0", "message", "content", "title", "artist"}

  /** `v[key]` / `v.key`: reading a property of `null` or `undefined` throws
      a TypeError; a key an object lacks reads as `undefined`. */
  function Get(v: JsValue, key: string): (r: Completion<JsValue>)
    requires key in ReadKeys
    ensures r.Throw? <==> v == Undefined || v == Null
    ensures r.Throw? ==> r.exc == TypeError
    ensures v.Obj? ==> r == Normal(if key in v.props then v.props[key] else Undefined)
  {
    match v
    case Undefined => Throw(TypeError)
    case Null => Throw(TypeError)
    case Obj(props) => Normal(if key in props then props[key] else Undefined)
    case Arr(elems) => Normal(if key == "0" && |elems| > 0 then elems[0] else Undefined)
    case Str(s) => Normal(if key == "0" && |s| > 0 then Str([s[0]]) else Undefined)
    case Bool(_) => Normal(Undefined)
    case Num(_) => Normal(Undefined)
  }

  /** `JSON.parse(text)`, with the parser itself abstracted as `parse`:
      text that is not JSON raises a SyntaxError. */
  function JsonParse(parse: string -> Option<JsValue>, text: string): (r: Completion<JsValue>)
    ensures r.Throw? <==> parse(text).None?
    ensures r.Throw? ==> r.exc == SyntaxError
    ensures r.Normal? ==> Some(r.value) == parse(text)
  {
    match parse(text)
    case Some(v) => Normal(v)
    case None => Throw(SyntaxError)
  }

  /** ToString, as `JSON.parse` applies it to a non-string argument. An array
      renders through `join(",")` with `null`/`undefined` elements as "".
      An object renders as "[object Object]", unless it has an own
      `toString` key: that value is not callable, the inherited `valueOf`
      returns the object itself, and the conversion throws a TypeError. */
  function ToJsString(v: JsValue): (r: Completion<string>)
    decreases v
    ensures v.Str? ==> r == Normal(v.s)
    ensures r.Throw? ==> r.exc == TypeError
  {
    match v
    case Undefined => Normal("undefined")
    case Null => Normal("null")
    case Bool(b) => Normal(if b then "true" else "false")
    case Num(text) => Normal(text)
    case Str(s) => Normal(s)
    case Arr(elems) => ElementsToString(elems)
    case Obj(props) => if "toString" in props then Throw(TypeError) else Normal("[object Object]")
  }

  /** `elems.join(",")` for the array case of ToJsString. */
  function ElementsToString(elems: seq<JsValue>): (r: Completion<string>)
    decreases elems
    ensures r.Throw? ==> r.exc == TypeError
  {
    if |elems| == 0 then Normal("")
    else
      var first :- if elems[0] == Undefined || elems[0] == Null then Normal("") else ToJsString(elems[0]);
      if |elems| == 1 then Normal(first)
      else
        var rest :- ElementsToString(elems[1..]);
        Normal(first + "," + rest)
  }

  /** `xs.join(sep)` over an array of strings. */
  function Join(xs: seq<string>, sep: string): (r: string)
    ensures |xs| == 1 ==> r == xs[0]
    ensures |xs| >= 2 ==> |r| >= |sep|
  {
    if |xs| == 0 then ""
    else if |xs| == 1 then xs[0]
    else xs[0] + sep + Join(xs[1..], sep)
  }

  /** With a non-empty separator, a join is empty exactly for `[]` and `[""]`. */
  lemma {:induction false} JoinEmptyIff(xs: seq<string>, sep: string)
    requires sep != ""
    ensures Join(xs, sep) == "" <==> xs == [] || xs == [""]
  {
    if |xs| >= 2 {
      assert |Join(xs, sep)| >= |xs[0] + sep|;
    }
  }

  /** WhiteSpace and LineTerminator code points of ECMAScript, the set
      `String.prototype.trim` strips. */
  predicate IsWhitespace(c: char) {
    var n := c as int;
    (0x09 <= n <= 0x0D) || n == 0x20 || n == 0xA0 || n == 0x1680
    || (0x2000 <= n <= 0x200A) || n == 0x2028 || n == 0x2029
    || n == 0x202F || n == 0x205F || n == 0x3000 || n == 0xFEFF
  }

  predicate AllWhitespace(s: string) {
    forall i :: 0 <= i < |s| ==> IsWhitespace(s[i])
  }

  /** Where the leading whitespace of `s` ends. */
  function LeadingEnd(s: string): (k: nat)
    ensures k <= |s| && AllWhitespace(s[..k])
    ensures k < |s| ==> !IsWhitespace(s[k])
  {
    if |s| > 0 && IsWhitespace(s[0]) then
      var k := 1 + LeadingEnd(s[1..]);
      assert s[..k] == [s[0]] + s[1..][..k - 1];
      k
    else 0
  }

  /** Where the trailing whitespace of `s` starts. */
  function TrailingStart(s: string): (k: nat)
    ensures k <= |s| && AllWhitespace(s[k..])
    ensures forall m :: k <= m < |s| ==> IsWhitespace(s[m])
    ensures k > 0 ==> !IsWhitespace(s[k - 1])
  {
    if |s| > 0 && IsWhitespace(s[|s| - 1]) then
      var k := TrailingStart(s[..|s| - 1]);
      assert s[k..] == s[..|s| - 1][k..] + [s[|s| - 1]];
      assert forall m :: k <= m < |s| ==> s[m] == s[k..][m - k];
      k
    else |s|
  }

  /** `s.trim()`: the middle slice of `s` that neither starts nor ends with
      whitespace, with only whitespace cut away on either side. */
  function Trim(s: string): (r: string)
    ensures r == [] || (!IsWhitespace(r[0]) && !IsWhitespace(r[|r| - 1]))
    ensures r == [] <==> AllWhitespace(s)
    ensures exists k :: 0 <= k <= |s| - |r| && s[k..k + |r|] == r
                        && AllWhitespace(s[..k]) && AllWhitespace(s[k + |r|..])
  {
    var i := LeadingEnd(s);
    var j := TrailingStart(s);
    if i == |s| then
      assert s[i..i] == [];
      []
    else
      assert !AllWhitespace(s) by { assert !IsWhitespace(s[i]); }
      s[i..j]
  }

  /** Trimming is idempotent. */
  lemma TrimIdempotent(s: string)
    ensures Trim(Trim(s)) == Trim(s)
  {
    TrimOfTrimmed(Trim(s));
  }

  /** A string with no whitespace at either end is its own trim. */
  lemma TrimOfTrimmed(s: string)
    requires s == [] || (!IsWhitespace(s[0]) && !IsWhitespace(s[|s| - 1]))
    ensures Trim(s) == s
  {
    if s != [] {
      assert LeadingEnd(s) == 0;
      assert TrailingStart(s) == |s|;
    }
  }
}
