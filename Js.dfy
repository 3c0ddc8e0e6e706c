/**
 * The JavaScript values the chat client receives from its server (parsed JSON,
 * socket payloads) and the few pieces of JavaScript semantics its handlers rely
 * on: truthiness, `a || b || c` alias chains, property reads, `String(x)`,
 * strict equality, `trim()` and `indexOf`.
 */
module Js {

  datatype Option<+T> = None | Some(value: T)

  /** A JavaScript value as it arrives from JSON or a socket payload.
      Numbers are integers: the client never computes with fractions. */
  datatype Json =
    | Undefined
    | Null
    | Bool(b: bool)
    | Num(n: int)
    | Str(s: string)
    | Arr(items: seq<Json>)
    | Obj(fields: map<string, Json>)

  /** The outcome of `await fetch(...)` followed by `await res.json()`:
      either a response with its `ok` flag and parsed body, or a thrown
      error whose `message` property is given. */
  datatype Reply = Reply(ok: bool, body: Json) | Thrown(message: Json)

  /** The `message` of the TypeError the engine throws when code reads a
      property of `null` or `undefined` or calls a missing method; its exact
      wording is the engine's, only its being a non-empty string matters. */
  const TypeErrorMessage: Json := Str("TypeError")

  /** JavaScript truthiness: `undefined`, `null`, `false`, `0` and `''` are falsy. */
  predicate Truthy(j: Json) {
    match j
    case Undefined => false
    case Null => false
    case Bool(b) => b
    case Num(n) => n != 0
    case Str(s) => s != ""
    case Arr(_) => true
    case Obj(_) => true
  }

  /** Reading a property of these values throws a TypeError. */
  predicate Nullish(j: Json) {
    j.Undefined? || j.Null?
  }

  /** No element is `null` or `undefined`, so reading a property of every
      element succeeds. */
  predicate Readable(list: seq<Json>) {
    forall i :: 0 <= i < |list| ==> !Nullish(list[i])
  }

  /** `j[k]` for a value that is not nullish: own fields of an object, and
      `undefined` for every other value (the client only reads data keys,
      none of which exist on strings, numbers or arrays). */
  function Field(j: Json, k: string): (r: Json)
    ensures j.Obj? && k in j.fields ==> r == j.fields[k]
    ensures !(j.Obj? && k in j.fields) ==> r == Undefined
  {
    if j.Obj? && k in j.fields then j.fields[k] else Undefined
  }

  /** `a && a[k]`, the guarded read the client uses for nested payloads. */
  function AndField(a: Json, k: string): (r: Json)
    ensures !Truthy(a) ==> r == a
    ensures Truthy(a) ==> r == Field(a, k)
  {
    if Truthy(a) then Field(a, k) else a
  }

  /** `a?.[k]`: optional chaining. */
  function OptField(a: Json, k: string): (r: Json)
    ensures Nullish(a) ==> r == Undefined
    ensures !Nullish(a) ==> r == Field(a, k)
  {
    if Nullish(a) then Undefined else Field(a, k)
  }

  /** `a || b`. */
  function Or(a: Json, b: Json): (r: Json)
    ensures Truthy(a) ==> r == a
    ensures !Truthy(a) ==> r == b
  {
    if Truthy(a) then a else b
  }

  predicate AnyTruthy(alts: seq<Json>) {
    exists i :: 0 <= i < |alts| && Truthy(alts[i])
  }

  /** `alts` holds a truthy value at `i` and none before it. */
  predicate FirstTruthyAt(alts: seq<Json>, i: int) {
    0 <= i < |alts| && Truthy(alts[i]) && forall j :: 0 <= j < i ==> !Truthy(alts[j])
  }

  /** `alts[0] || alts[1] || ... || alts[n-1]`: the first truthy alternative,
      or the last alternative when none is truthy. */
  function FirstTruthy(alts: seq<Json>): (r: Json)
    requires |alts| > 0
    ensures AnyTruthy(alts) <==> Truthy(r)
    ensures Truthy(r) ==> exists i :: FirstTruthyAt(alts, i) && r == alts[i]
    ensures !Truthy(r) ==> r == alts[|alts| - 1]
  {
    if |alts| == 1 || Truthy(alts[0]) then alts[0]
    else
      var r := FirstTruthy(alts[1..]);
      if Truthy(r) then
        var i :| FirstTruthyAt(alts[1..], i) && r == alts[1..][i];
        assert FirstTruthyAt(alts, i + 1);
        r
      else r
  }

  /** The first truthy alternative is the one at any index where `alts` first turns truthy. */
  lemma FirstTruthyIs(alts: seq<Json>, i: int)
    requires FirstTruthyAt(alts, i)
    ensures FirstTruthy(alts) == alts[i]
  {
    var r := FirstTruthy(alts);
    var k :| FirstTruthyAt(alts, k) && r == alts[k];
    assert k == i;
  }

  /** `a || b` is the first truthy of `[a, b]`. */
  lemma Or2(a: Json, b: Json)
    ensures FirstTruthy([a, b]) == Or(a, b)
  {
    assert [a, b][1..] == [b];
  }

  /** `a || b || c` is the first truthy of `[a, b, c]`. */
  lemma Or3(a: Json, b: Json, c: Json)
    ensures FirstTruthy([a, b, c]) == Or(Or(a, b), c)
  {
    assert [a, b, c][1..] == [b, c];
    Or2(b, c);
  }

  /** `a || b || c || d` is the first truthy of `[a, b, c, d]`. */
  lemma Or4(a: Json, b: Json, c: Json, d: Json)
    ensures FirstTruthy([a, b, c, d]) == Or(Or(Or(a, b), c), d)
  {
    assert [a, b, c, d][1..] == [b, c, d];
    Or3(b, c, d);
  }

  /** `a || b || c || d || e` is the first truthy of `[a, b, c, d, e]`. */
  lemma Or5(a: Json, b: Json, c: Json, d: Json, e: Json)
    ensures FirstTruthy([a, b, c, d, e]) == Or(Or(Or(Or(a, b), c), d), e)
  {
    assert [a, b, c, d, e][1..] == [b, c, d, e];
    Or4(b, c, d, e);
  }

  /** The number a string of decimal digits spells. */
  function DigitsValue(s: string): nat
    requires forall i :: 0 <= i < |s| ==> '0' <= s[i] <= '9'
    decreases |s|
  {
    if s == [] then 0
    else DigitsValue(s[..|s| - 1]) * 10 + (s[|s| - 1] as int - '0' as int)
  }

  /** Decimal digits of a natural number, with no leading zero. */
  function NatToStr(n: nat): (r: string)
    ensures |r| > 0
    ensures forall i :: 0 <= i < |r| ==> '0' <= r[i] <= '9'
    ensures DigitsValue(r) == n
    ensures n > 0 ==> r[0] != '0'
    decreases n
  {
    var d := ['0' + (n % 10) as char];
    if n < 10 then d
    else
      var p := NatToStr(n / 10);
      assert (p + d)[..|p + d| - 1] == p;
      p + d
  }

  /** `String(j)`. Arrays join their elements with commas, writing `null`
      and `undefined` elements as empty strings. Numbers are written out in
      full decimal, and every object is `[object Object]`. */
  function ToStr(j: Json): (r: string)
    decreases j
  {
    match j
    case Undefined => "undefined"
    case Null => "null"
    case Bool(b) => if b then "true" else "false"
    case Num(n) => if n < 0 then "-" + NatToStr(-n) else NatToStr(n)
    case Str(s) => s
    case Arr(items) => Join(seq(|items|, i requires 0 <= i < |items| => if Nullish(items[i]) then "" else ToStr(items[i])))
    case Obj(_) => "[object Object]"
  }

  function Join(parts: seq<string>): string {
    if |parts| == 0 then ""
    else if |parts| == 1 then parts[0]
    else Join(parts[..|parts| - 1]) + "," + parts[|parts| - 1]
  }

  /** `a === b` between two values that come from separately parsed payloads:
      primitives compare by value, objects and arrays are distinct references. */
  predicate StrictEquals(a: Json, b: Json) {
    match a
    case Undefined => b.Undefined?
    case Null => b.Null?
    case Bool(x) => b.Bool? && b.b == x
    case Num(x) => b.Num? && b.n == x
    case Str(x) => b.Str? && b.s == x
    case Arr(_) => false
    case Obj(_) => false
  }

  /** The characters `String.prototype.trim` removes. */
  predicate IsSpace(c: char) {
    c == ' ' || c == '\t' || c == '\n' || c == '\r' || c == '\U{B}' || c == '\U{C}'
    || c == '\U{A0}' || c == '\U{1680}' || ('\U{2000}' <= c <= '\U{200A}')
    || c == '\U{2028}' || c == '\U{2029}' || c == '\U{202F}' || c == '\U{205F}'
    || c == '\U{3000}' || c == '\U{FEFF}'
  }

  /** `!s.trim()`: the text is empty or whitespace only. */
  predicate Blank(s: string) {
    forall i :: 0 <= i < |s| ==> IsSpace(s[i])
  }

  /** `s.indexOf(sub) !== -1`. */
  predicate Contains(s: string, sub: string) {
    exists i | 0 <= i <= |s| - |sub| :: OccursAt(s, sub, i)
  }

  predicate OccursAt(s: string, sub: string, i: int) {
    0 <= i <= |s| - |sub| && s[i..i + |sub|] == sub
  }
}
