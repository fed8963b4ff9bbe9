/** JavaScript-level building blocks shared by the whole model: optional values,
    dynamically typed values and their truthiness, decimal number printing,
    substring search, and the `filter` / `map` array operations. */
module Js {

  /** `undefined` / `null` versus a present value. */
  datatype Option<+T> = None | Some(value: T)

  /** A JavaScript value, as far as this model needs one. Numbers are integers. */
  datatype JsValue =
    | Undefined
    | Null
    | Bool(b: bool)
    | Num(n: int)
    | Str(s: string)
    | Arr(items: seq<JsValue>)
    | Obj(props: seq<(string, JsValue)>)

  /** JavaScript truthiness (`if (v)`, `v ? … : …`, `v || …`). */
  predicate Truthy(v: JsValue) {
    match v
    case Undefined => false
    case Null => false
    case Bool(b) => b
    case Num(n) => n != 0
    case Str(s) => s != ""
    case Arr(_) => true
    case Obj(_) => true
  }

  /** Truthiness of a `string | null | undefined` field. */
  predicate Present(o: Option<string>) {
    o.Some? && o.value != ""
  }

  /** `o || fallback` for an optional string. */
  function Or(o: Option<string>, fallback: string): string {
    if Present(o) then o.value else fallback
  }

  /** `o || undefined` for an optional string: the empty string is dropped too. */
  function OrUndefined(o: Option<string>): (r: Option<string>)
    ensures r.Some? <==> Present(o)
    ensures r.Some? ==> r == o
  {
    if Present(o) then o else None
  }

  /** `prop in obj`. */
  predicate HasProp(props: seq<(string, JsValue)>, key: string) {
    exists i :: 0 <= i < |props| && props[i].0 == key
  }

  /** `obj[key]`; a later duplicate key wins, as with `JSON.parse`. */
  function GetProp(props: seq<(string, JsValue)>, key: string): JsValue {
    if props == [] then Undefined
    else if props[|props| - 1].0 == key then props[|props| - 1].1
    else GetProp(props[..|props| - 1], key)
  }

  /** A key stored at `i` and at no later position reads as the value stored at `i`. */
  lemma {:induction false} GetPropAt(props: seq<(string, JsValue)>, key: string, i: nat)
    requires i < |props| && props[i].0 == key
    requires forall j :: i < j < |props| ==> props[j].0 != key
    ensures GetProp(props, key) == props[i].1
    decreases |props|
  {
    if i < |props| - 1 {
      GetPropAt(props[..|props| - 1], key, i);
    }
  }

  /** The keys of an object literal, in order. */
  function Keys(props: seq<(string, JsValue)>): (ks: seq<string>)
    ensures |ks| == |props|
    ensures forall i :: 0 <= i < |props| ==> ks[i] == props[i].0
  {
    if props == [] then [] else [props[0].0] + Keys(props[1..])
  }

  // ---------------------------------------------------------------- digits

  predicate IsDigit(c: char) {
    '0' <= c <= '9'
  }

  predicate AllDigits(s: string) {
    forall i :: 0 <= i < |s| ==> IsDigit(s[i])
  }

  function DigitChar(d: nat): (c: char)
    requires d < 10
    ensures IsDigit(c) && (c as int) - ('0' as int) == d
  {
    (('0' as int) + d) as char
  }

  /** The value of a string of decimal digits. */
  function DigitsValue(s: string): nat
    requires AllDigits(s)
  {
    if s == [] then 0
    else DigitsValue(s[..|s| - 1]) * 10 + ((s[|s| - 1] as int) - ('0' as int))
  }

  /** `n.toString()` for a non-negative integer. */
  function NatToString(n: nat): string
  {
    if n < 10 then [DigitChar(n)] else NatToString(n / 10) + [DigitChar(n % 10)]
  }

  /** `n.toString()` for an integer. */
  function IntToString(n: int): string
  {
    if n < 0 then "-" + NatToString(-n) else NatToString(n)
  }

  /** `String(v)`, as a template literal `${v}` converts a value. */
  function ToText(v: JsValue): string
    decreases v
  {
    match v
    case Undefined => "undefined"
    case Null => "null"
    case Bool(b) => if b then "true" else "false"
    case Num(n) => IntToString(n)
    case Str(s) => s
    case Arr(items) => JoinTexts(v, items)
    case Obj(_) => "[object Object]"
  }

  /** The elements of an array joined by commas; `null` and `undefined` print as nothing. */
  function JoinTexts(whole: JsValue, items: seq<JsValue>): string
    requires forall i :: 0 <= i < |items| ==> items[i] < whole
    decreases whole, |items|
  {
    if items == [] then ""
    else
      var last := items[|items| - 1];
      var text := if last.Undefined? || last.Null? then "" else ToText(last);
      if |items| == 1 then text else JoinTexts(whole, items[..|items| - 1]) + "," + text
  }

  /** A non-negative number written with at least `width` digits, padded with zeros. */
  function PadNat(n: nat, width: nat): string
  {
    var s := NatToString(n);
    if |s| >= width then s else seq(width - |s|, _ => '0') + s
  }

  lemma {:induction false} NatToStringDigits(n: nat)
    ensures |NatToString(n)| >= 1
    ensures AllDigits(NatToString(n))
    ensures DigitsValue(NatToString(n)) == n
    ensures n >= 10 ==> NatToString(n)[0] != '0'
    decreases n
  {
    if n >= 10 {
      NatToStringDigits(n / 10);
      var s := NatToString(n / 10) + [DigitChar(n % 10)];
      assert s[..|s| - 1] == NatToString(n / 10);
    }
  }

  /** Printing an integer loses nothing: distinct numbers print differently. */
  lemma IntToStringInjective(a: int, b: int)
    requires IntToString(a) == IntToString(b)
    ensures a == b
  {
    NatToStringDigits(if a < 0 then -a else a);
    NatToStringDigits(if b < 0 then -b else b);
    if a < 0 && b < 0 {
      assert NatToString(-a) == IntToString(a)[1..];
    }
  }

  /** Exactly two digits for every value below 100. */
  lemma PadTwo(n: nat)
    requires n < 100
    ensures PadNat(n, 2) == [DigitChar(n / 10), DigitChar(n % 10)]
  {
    if n >= 10 {
      assert NatToString(n / 10) == [DigitChar(n / 10)];
    }
  }

  // ---------------------------------------------------------------- substrings

  predicate StartsWith(s: string, prefix: string) {
    |prefix| <= |s| && s[..|prefix|] == prefix
  }

  /** `s.includes(sub)`. */
  predicate Contains(s: string, sub: string) {
    exists i :: 0 <= i <= |s| && StartsWith(s[i..], sub)
  }

  // ---------------------------------------------------------------- arrays

  /** `s.filter(p)`. */
  function Filter<T>(s: seq<T>, p: T -> bool): seq<T>
  {
    if s == [] then []
    else Filter(s[..|s| - 1], p) + (if p(s[|s| - 1]) then [s[|s| - 1]] else [])
  }

  /** `filter` distributes over concatenation: it keeps the relative order of what it keeps. */
  lemma {:induction false} FilterAppend<T>(a: seq<T>, b: seq<T>, p: T -> bool)
    ensures Filter(a + b, p) == Filter(a, p) + Filter(b, p)
    decreases |b|
  {
    if b == [] {
      assert a + b == a;
    } else {
      var b' := b[..|b| - 1];
      assert (a + b)[..|a + b| - 1] == a + b';
      assert (a + b)[|a + b| - 1] == b[|b| - 1];
      FilterAppend(a, b', p);
    }
  }

  /** What `filter` keeps: exactly the elements that satisfy the predicate. */
  lemma {:induction false} FilterMembers<T>(s: seq<T>, p: T -> bool)
    ensures forall x :: x in Filter(s, p) <==> x in s && p(x)
    ensures |Filter(s, p)| <= |s|
  {
    if s != [] {
      var s' := s[..|s| - 1];
      FilterMembers(s', p);
      assert s == s' + [s[|s| - 1]];
    }
  }

  /** Two complementary filters split a list: their sizes add up to its length. */
  lemma {:induction false} FilterSplit<T>(s: seq<T>, p: T -> bool, q: T -> bool)
    requires forall x :: x in s ==> (p(x) <==> !q(x))
    ensures |Filter(s, p)| + |Filter(s, q)| == |s|
  {
    if s != [] {
      var s' := s[..|s| - 1];
      assert forall x :: x in s' ==> x in s;
      FilterSplit(s', p, q);
    }
  }

  /** `s.map(f)`. */
  function Map<A, B>(s: seq<A>, f: A -> B): seq<B>
  {
    if s == [] then [] else [f(s[0])] + Map(s[1..], f)
  }

  /** `map` keeps the length and transforms element by element, in order. */
  lemma {:induction false} MapAt<A, B>(s: seq<A>, f: A -> B)
    ensures |Map(s, f)| == |s|
    ensures forall i :: 0 <= i < |s| ==> Map(s, f)[i] == f(s[i])
  {
    if s != [] {
      MapAt(s[1..], f);
    }
  }

  /** `s.map(f)` with an `f` that may throw (`None`): the first throw aborts the whole map. */
  function MapOrThrow<A, B>(s: seq<A>, f: A -> Option<B>): Option<seq<B>>
  {
    if s == [] then Some([])
    else
      var head := f(s[0]);
      var tail := MapOrThrow(s[1..], f);
      if head.None? || tail.None? then None else Some([head.value] + tail.value)
  }

  /** The map succeeds exactly when `f` succeeds on every element, and then keeps the
      length and transforms element by element, in order. */
  lemma {:induction false} MapOrThrowAt<A, B>(s: seq<A>, f: A -> Option<B>)
    ensures MapOrThrow(s, f).Some? <==> forall i :: 0 <= i < |s| ==> f(s[i]).Some?
    ensures MapOrThrow(s, f).Some? ==>
              && |MapOrThrow(s, f).value| == |s|
              && forall i :: 0 <= i < |s| ==> Some(MapOrThrow(s, f).value[i]) == f(s[i])
  {
    if s != [] {
      MapOrThrowAt(s[1..], f);
      assert forall i :: 1 <= i < |s| ==> s[1..][i - 1] == s[i];
    }
  }
}
