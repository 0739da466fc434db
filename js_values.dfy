/** The pieces of JavaScript semantics the client code relies on: the values a
    parsed JSON body (or a missing property) can be, truthiness, property reads,
    `String(v)`, `Number(v)`, and `String.prototype.trim` with the `\s` class. */
module JsValues {

  datatype Option<T> = None | Some(value: T)

  /** A JavaScript value as seen by the client: the data JSON can carry, plus
      `undefined` for a property that is absent. Numbers are integers here. */
  datatype Value =
    | Undefined
    | Null
    | Bool(b: bool)
    | Num(n: int)
    | Str(s: string)
    | Arr(items: seq<Value>)
    | Obj(fields: map<string, Value>)

  /** `!!v` */
  predicate Truthy(v: Value) {
    match v
    case Undefined => false
    case Null => false
    case Bool(b) => b
    case Num(n) => n != 0
    case Str(s) => s != ""
    case Arr(_) => true
    case Obj(_) => true
  }

  /** `v == null`: the two values whose property reads throw a TypeError */
  predicate Nullish(v: Value) {
    v.Undefined? || v.Null?
  }

  /** Property read `v.key` on a value that is not nullish */
  function Get(v: Value, key: string): (r: Value)
    ensures !v.Obj? ==> r == Undefined
    ensures v.Obj? && key !in v.fields ==> r == Undefined
  {
    if v.Obj? && key in v.fields then v.fields[key] else Undefined
  }

  /** `a === b` for values parsed from separate JSON documents: primitives
      compare by value, while two arrays or objects are never the same one */
  predicate StrictEquals(a: Value, b: Value) {
    match a
    case Arr(_) => false
    case Obj(_) => false
    case _ => a == b
  }

  // ---------------------------------------------------------------------
  // Whitespace and trim
  // ---------------------------------------------------------------------

  /** The characters of the `\s` class, which are also the characters
      `String.prototype.trim` and `Number(string)` strip: WhiteSpace
      (tab, vertical tab, form feed, space, no-break space, zero width
      no-break space, the Zs category) and LineTerminator (LF, CR, LS, PS). */
  predicate IsWhitespace(c: char) {
    var k := c as int;
    (9 <= k <= 13) || k == 0x20 || k == 0xA0 || k == 0x1680
    || (0x2000 <= k <= 0x200A) || k == 0x2028 || k == 0x2029
    || k == 0x202F || k == 0x205F || k == 0x3000 || k == 0xFEFF
  }

  predicate AllWhitespace(s: string) {
    forall k | 0 <= k < |s| :: IsWhitespace(s[k])
  }

  /** No whitespace at either end */
  predicate Trimmed(s: string) {
    s == [] || (!IsWhitespace(s[0]) && !IsWhitespace(s[|s| - 1]))
  }

  /** The index of the first non-whitespace character at or after `i`, or `|s|` */
  function SkipWhitespace(s: string, i: nat): (j: nat)
    requires i <= |s|
    ensures i <= j <= |s|
    ensures forall k | i <= k < j :: IsWhitespace(s[k])
    ensures j == |s| || !IsWhitespace(s[j])
    decreases |s| - i
  {
    if i < |s| && IsWhitespace(s[i]) then SkipWhitespace(s, i + 1) else i
  }

  /** The index just past the last non-whitespace character before `j`, or
      `lo` when `s[lo..j]` is all whitespace */
  function BackOverWhitespace(s: string, lo: nat, j: nat): (i: nat)
    requires lo <= j <= |s|
    ensures lo <= i <= j
    ensures forall k | i <= k < j :: IsWhitespace(s[k])
    ensures i == lo || !IsWhitespace(s[i - 1])
  {
    if lo < j && IsWhitespace(s[j - 1]) then BackOverWhitespace(s, lo, j - 1) else j
  }

  /** `s.trim()`: `s` is some whitespace, then the result, then some whitespace,
      and the result has no whitespace at either end. */
  function Trim(s: string): (r: string)
    ensures Trimmed(r)
    ensures var i := SkipWhitespace(s, 0);
            && i + |r| <= |s| && r == s[i..i + |r|]
            && (forall k | 0 <= k < i :: IsWhitespace(s[k]))
            && (forall k | i + |r| <= k < |s| :: IsWhitespace(s[k]))
  {
    var i := SkipWhitespace(s, 0);
    s[i..BackOverWhitespace(s, i, |s|)]
  }

  /** A string with no whitespace at either end is its own trim. */
  lemma TrimOfTrimmed(s: string)
    requires Trimmed(s)
    ensures Trim(s) == s
  {
    assert SkipWhitespace(s, 0) == 0;
    assert BackOverWhitespace(s, 0, |s|) == |s|;
  }

  /** Trimming twice is trimming once. */
  lemma TrimIdempotent(s: string)
    ensures Trim(Trim(s)) == Trim(s)
  {
    TrimOfTrimmed(Trim(s));
  }

  /** The trim is empty exactly when the string is all whitespace. */
  lemma TrimEmptyIff(s: string)
    ensures Trim(s) == "" <==> AllWhitespace(s)
  {
    var i := SkipWhitespace(s, 0);
    if Trim(s) != "" {
      assert s[i] == Trim(s)[0];
    }
  }

  // ---------------------------------------------------------------------
  // Decimal digits, String(n) and Number(s)
  // ---------------------------------------------------------------------

  /** `\d`: the ASCII digits only */
  predicate IsDigit(c: char) {
    '0' <= c <= '9'
  }

  predicate AllDigits(s: string) {
    forall k | 0 <= k < |s| :: IsDigit(s[k])
  }

  function DigitChar(d: nat): (c: char)
    requires d < 10
    ensures IsDigit(c) && c as int - '0' as int == d
  {
    (('0' as int) + d) as char
  }

  /** The value of a string of decimal digits, most significant first */
  function DigitsValue(s: string): nat
    requires AllDigits(s)
  {
    if s == [] then 0
    else DigitsValue(s[..|s| - 1]) * 10 + (s[|s| - 1] as int - '0' as int)
  }

  /** Decimal rendering of a natural number, without leading zeros */
  function NatToString(n: nat): (r: string)
    ensures |r| >= 1 && AllDigits(r)
    ensures |r| > 1 ==> r[0] != '0'
  {
    if n < 10 then [DigitChar(n)] else NatToString(n / 10) + [DigitChar(n % 10)]
  }

  /** `String(n)` for an integer: a `-` sign before the digits of a negative one */
  function IntToString(n: int): (r: string)
    ensures r != [] && Trimmed(r)
    ensures n >= 0 ==> AllDigits(r)
    ensures n < 0 ==> r[0] == '-' && AllDigits(r[1..])
  {
    if n < 0 then "-" + NatToString(-n) else NatToString(n)
  }

  lemma {:induction false} NatToStringRoundTrip(n: nat)
    ensures DigitsValue(NatToString(n)) == n
  {
    if n >= 10 {
      var s := NatToString(n / 10);
      NatToStringRoundTrip(n / 10);
      var t := s + [DigitChar(n % 10)];
      assert t[..|t| - 1] == s;
    }
  }

  /** `Number(s)` for a string, over integers: surrounding whitespace is ignored,
      the empty string is 0, an optional sign precedes decimal digits, anything
      else is NaN (`None`). */
  function StringToNumber(s: string): Option<int> {
    var t := Trim(s);
    if t == "" then Some(0)
    else if |t| > 1 && t[0] == '-' && AllDigits(t[1..]) then Some(0 - DigitsValue(t[1..]) as int)
    else if |t| > 1 && t[0] == '+' && AllDigits(t[1..]) then Some(DigitsValue(t[1..]))
    else if AllDigits(t) then Some(DigitsValue(t))
    else None
  }

  /** `Number(v)`; `None` is NaN, which equals nothing, not even itself. An
      array or object is first turned into its string, so `Number([])` is 0,
      `Number([7])` is 7 and `Number({})` is NaN. */
  function ToNumber(v: Value): Option<int> {
    match v
    case Undefined => None
    case Null => Some(0)
    case Bool(b) => Some(if b then 1 else 0)
    case Num(n) => Some(n)
    case Str(s) => StringToNumber(s)
    case Arr(_) => StringToNumber(ToStr(v))
    case Obj(_) => StringToNumber(ToStr(v))
  }

  /** `Number(a) === Number(b)` */
  predicate SameNumber(a: Value, b: Value) {
    ToNumber(a).Some? && ToNumber(a) == ToNumber(b)
  }

  lemma DigitsToNumber(d: string)
    requires d != [] && AllDigits(d)
    ensures StringToNumber(d) == Some(DigitsValue(d) as int)
  {
    assert Trimmed(d);
    TrimOfTrimmed(d);
    assert d[0] != '-' && d[0] != '+';
  }

  lemma NegatedDigitsToNumber(d: string)
    requires d != [] && AllDigits(d)
    ensures StringToNumber("-" + d) == Some(0 - DigitsValue(d) as int)
  {
    var t := "-" + d;
    assert t[0] == '-';
    assert t[|t| - 1] == d[|d| - 1];
    assert !IsWhitespace(t[0]);
    assert IsDigit(d[|d| - 1]);
    assert !IsWhitespace(t[|t| - 1]);
    assert Trimmed(t);
    TrimOfTrimmed(t);
    assert t[1..] == d;
  }

  /** `Number(String(n)) === n`: the decimal rendering reads back as the same integer. */
  lemma IntToStringRoundTrip(n: int)
    ensures ToNumber(Str(IntToString(n))) == Some(n)
  {
    var r := IntToString(n);
    if n < 0 {
      var d := NatToString(-n);
      assert StringToNumber(r) == Some(n) by {
        assert r == "-" + d;
        NatToStringRoundTrip(-n);
        NegatedDigitsToNumber(d);
      }
    } else {
      var d := NatToString(n);
      assert StringToNumber(r) == Some(n) by {
        assert r == d;
        NatToStringRoundTrip(n);
        DigitsToNumber(d);
      }
    }
  }

  /** `String(v)`, which is also what a template literal `${v}` produces */
  function ToStr(v: Value): string
    decreases v, 1
  {
    match v
    case Undefined => "undefined"
    case Null => "null"
    case Bool(b) => if b then "true" else "false"
    case Num(n) => IntToString(n)
    case Str(s) => s
    case Arr(items) => JoinFrom(v, 0)
    case Obj(_) => "[object Object]"
  }

  /** `Array.prototype.join(",")` of `v.items[i..]`: null and undefined
      elements contribute the empty string */
  function JoinFrom(v: Value, i: nat): string
    requires v.Arr? && i <= |v.items|
    decreases v, 0, |v.items| - i
  {
    if i == |v.items| then ""
    else
      var e := v.items[i];
      var part := if Nullish(e) then "" else ToStr(e);
      if i + 1 == |v.items| then part else part + "," + JoinFrom(v, i + 1)
  }
}
