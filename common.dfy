/** Shared vocabulary: optional values, parsed JSON values with JavaScript's
    truthiness and string conversion, string search, split/join, and the
    hexadecimal and decimal digit alphabets. */
module Common {

  datatype Option<T> = None | Some(value: T)

  /** A parsed JSON value. Numbers are integral: no member of the model
      computes with fractional numbers. */
  datatype Json =
    | JNull
    | JBool(b: bool)
    | JNum(n: int)
    | JStr(s: string)
    | JArr(elems: seq<Json>)
    | JObj(fields: map<string, Json>)

  /** JavaScript truthiness of a present value (arrays and objects are truthy). */
  predicate Truthy(v: Json) {
    match v
    case JNull => false
    case JBool(b) => b
    case JNum(n) => n != 0
    case JStr(s) => s != ""
    case _ => true
  }

  /** Truthiness of a property read, where an absent property is `undefined`. */
  predicate TruthyField(v: Option<Json>) {
    v.Some? && Truthy(v.value)
  }

  const Digits := "0123456789"

  /** `Number.MAX_SAFE_INTEGER`: up to this magnitude a JavaScript number
      holds every integer exactly. */
  const MaxSafeInteger := 0x1F_FFFF_FFFF_FFFF

  /** Decimal text of an integer, as `String(n)` writes it for a number
      below 10^21 in magnitude. */
  function IntToDecimal(n: int): (r: string)
    ensures r != []
    ensures n >= 0 ==> AllDigits(r)
    ensures n < 0 ==> r[0] == '-' && AllDigits(r[1..])
    decreases if n < 0 then -n + 1 else n
  {
    if n < 0 then "-" + NatToDecimal(-n) else NatToDecimal(n)
  }

  function NatToDecimal(n: nat): (r: string)
    ensures r != [] && AllDigits(r)
    ensures |r| > 1 ==> r[0] != '0'
  {
    if n < 10 then [Digits[n]] else NatToDecimal(n / 10) + [Digits[n % 10]]
  }

  predicate IsDigit(c: char) { '0' <= c <= '9' }

  predicate AllDigits(s: string) { forall i :: 0 <= i < |s| ==> IsDigit(s[i]) }

  /** Value of a non-empty run of decimal digits. */
  function DigitsValue(s: string): (n: nat)
    requires AllDigits(s)
  {
    if s == [] then 0 else DigitsValue(s[..|s| - 1]) * 10 + (s[|s| - 1] as int - '0' as int)
  }

  /** Integer value of an optionally signed decimal text; `None` where
      `parseInt` yields NaN (no digit at all). Only a leading sign and
      decimal digits are recognised; the digits run up to the first
      non-digit. */
  function ParseDecimal(s: string): (r: Option<int>)
  {
    var sign := if |s| > 0 && (s[0] == '-' || s[0] == '+') then 1 else 0;
    var k := DigitRun(s, sign);
    if k == sign then None
    else
      var v: int := DigitsValue(s[sign..k]);
      Some(if sign == 1 && s[0] == '-' then -v else v)
  }

  /** End of the run of digits in `s` that starts at `from`. */
  function DigitRun(s: string, from: nat): (k: nat)
    requires from <= |s|
    ensures from <= k <= |s| && AllDigits(s[from..k])
    ensures k < |s| ==> !IsDigit(s[k])
    decreases |s| - from
  {
    if from < |s| && IsDigit(s[from]) then
      var k := DigitRun(s, from + 1);
      assert s[from..k] == [s[from]] + s[from + 1..k];
      k
    else from
  }

  lemma {:induction false} NatDecimalValue(n: nat)
    ensures DigitsValue(NatToDecimal(n)) == n
  {
    if n >= 10 {
      NatDecimalValue(n / 10);
      var r := NatToDecimal(n);
      assert r[..|r| - 1] == NatToDecimal(n / 10);
    }
  }

  /** A safe integer stored as text (by `setItem`) reads back (by
      `parseInt`) as the same number. */
  lemma {:induction false} DecimalRoundTrip(n: int)
    requires -MaxSafeInteger <= n <= MaxSafeInteger
    ensures ParseDecimal(IntToDecimal(n)) == Some(n)
  {
    var r := IntToDecimal(n);
    var m: nat := if n < 0 then -n else n;
    NatDecimalValue(m);
    var d := NatToDecimal(m);
    var sign := if n < 0 then 1 else 0;
    assert r[sign..] == d;
    DigitRunAll(r, sign);
    assert r[sign..|r|] == d;
  }

  lemma {:induction false} DigitRunAll(s: string, from: nat)
    requires from <= |s| && AllDigits(s[from..])
    ensures DigitRun(s, from) == |s|
    decreases |s| - from
  {
    if from < |s| {
      assert s[from..][0] == s[from];
      assert s[from + 1..] == s[from..][1..];
      DigitRunAll(s, from + 1);
    }
  }

  /** JavaScript's `String(v)`, as used by template literals and storage writes. */
  function ToText(v: Json): string
    decreases v
  {
    match v
    case JNull => "null"
    case JBool(b) => if b then "true" else "false"
    case JNum(n) => IntToDecimal(n)
    case JStr(s) => s
    // `Array.prototype.join` writes a null element as empty text
    case JArr(es) => Join(seq(|es|, i requires 0 <= i < |es| => if es[i].JNull? then "" else ToText(es[i])), ",")
    case JObj(_) => "[object Object]"
  }

  /** `String(x)` of a property read, where an absent property is `undefined`. */
  function FieldText(v: Option<Json>): (r: string)
    ensures v.Some? && v.value.JStr? ==> r == v.value.s
    ensures v.None? ==> r == "undefined"
  {
    if v.None? then "undefined" else ToText(v.value)
  }

  // ---------------------------------------------------------------------
  // String search

  predicate OccursAt(s: string, t: string, i: int) {
    0 <= i && i + |t| <= |s| && s[i..i + |t|] == t
  }

  predicate Contains(s: string, t: string) {
    exists i :: 0 <= i <= |s| && OccursAt(s, t, i)
  }

  predicate StartsWith(s: string, p: string) {
    |p| <= |s| && s[..|p|] == p
  }

  /** `s.indexOf(t, from)`: the first occurrence at or after `from`. */
  function IndexOf(s: string, t: string, from: nat): (r: Option<nat>)
    ensures r.Some? ==> from <= r.value && OccursAt(s, t, r.value)
    ensures r.Some? ==> forall i :: from <= i < r.value ==> !OccursAt(s, t, i)
    ensures r.None? ==> forall i :: from <= i ==> !OccursAt(s, t, i)
    decreases |s| - from
  {
    if from + |t| > |s| then None
    else if s[from..from + |t|] == t then Some(from)
    else IndexOf(s, t, from + 1)
  }

  /** The last occurrence of `t` that starts before `k`. */
  function LastIndexBelow(s: string, t: string, k: nat): (r: Option<nat>)
    ensures r.Some? ==> r.value < k && OccursAt(s, t, r.value)
    ensures r.Some? ==> forall i :: r.value < i < k ==> !OccursAt(s, t, i)
    ensures r.None? ==> forall i :: 0 <= i < k ==> !OccursAt(s, t, i)
  {
    if k == 0 then None
    else if OccursAt(s, t, k - 1) then Some(k - 1)
    else LastIndexBelow(s, t, k - 1)
  }

  /** `s.lastIndexOf(t)`. */
  function LastIndexOf(s: string, t: string): (r: Option<nat>)
    ensures r.Some? ==> OccursAt(s, t, r.value)
    ensures r.Some? ==> forall i :: r.value < i ==> !OccursAt(s, t, i)
    ensures r.None? ==> !Contains(s, t)
  {
    LastIndexBelow(s, t, |s| + 1)
  }

  lemma IndexOfContains(s: string, t: string)
    ensures IndexOf(s, t, 0).Some? <==> Contains(s, t)
  {
  }

  // ---------------------------------------------------------------------
  // String.prototype.split with a non-empty separator, and its inverse

  function Split(s: string, sep: string): (parts: seq<string>)
    requires sep != []
    ensures |parts| >= 1
    decreases |s|
  {
    match IndexOf(s, sep, 0)
    case None => [s]
    case Some(i) => [s[..i]] + Split(s[i + |sep|..], sep)
  }

  function Join(parts: seq<string>, sep: string): string {
    if |parts| == 0 then ""
    else if |parts| == 1 then parts[0]
    else parts[0] + sep + Join(parts[1..], sep)
  }

  /** Splitting and re-joining gives back the text. */
  lemma {:induction false} JoinSplit(s: string, sep: string)
    requires sep != []
    ensures Join(Split(s, sep), sep) == s
    decreases |s|
  {
    match IndexOf(s, sep, 0)
    case None =>
    case Some(i) =>
      var rest := s[i + |sep|..];
      var tail := Split(rest, sep);
      JoinSplit(rest, sep);
      assert Split(s, sep) == [s[..i]] + tail;
      JoinCons(s[..i], tail, sep);
      assert s[i..i + |sep|] == sep;
      assert s == s[..i] + sep + rest;
  }

  lemma JoinCons(x: string, parts: seq<string>, sep: string)
    requires |parts| >= 1
    ensures Join([x] + parts, sep) == x + sep + Join(parts, sep)
  {
    assert ([x] + parts)[1..] == parts;
  }

  /** No part of a split contains the separator. */
  lemma {:induction false} SplitPartsFree(s: string, sep: string)
    requires sep != []
    ensures forall k :: 0 <= k < |Split(s, sep)| ==> !Contains(Split(s, sep)[k], sep)
    decreases |s|
  {
    match IndexOf(s, sep, 0)
    case None =>
    case Some(i) =>
      var rest := s[i + |sep|..];
      SplitPartsFree(rest, sep);
      PrefixFree(s, sep, i);
      assert Split(s, sep) == [s[..i]] + Split(rest, sep);
  }

  /** The text before the first occurrence holds no occurrence. */
  lemma PrefixFree(s: string, t: string, i: nat)
    requires t != [] && i <= |s|
    requires forall j :: 0 <= j < i ==> !OccursAt(s, t, j)
    ensures !Contains(s[..i], t)
  {
    forall j | OccursAt(s[..i], t, j)
      ensures false
    {
      assert s[..i][j..j + |t|] == s[j..j + |t|];
      assert OccursAt(s, t, j);
    }
  }

  /** With a one-character separator, splitting distributes over a separator
      between two texts. */
  lemma {:induction false} SplitAround(a: string, c: char, b: string)
    ensures Split(a + [c] + b, [c]) == Split(a, [c]) + Split(b, [c])
    decreases |a|
  {
    var s := a + [c] + b;
    FirstSeparator(a, c, b);
    match IndexOf(a, [c], 0)
    case None =>
      assert s[..|a|] == a;
      assert s[|a| + 1..] == b;
    case Some(i) =>
      var a' := a[i + 1..];
      assert s[..i] == a[..i];
      assert s[i + 1..] == a' + [c] + b;
      SplitAround(a', c, b);
  }

  /** The first separator of `a + [c] + b` is the first of `a`, or else the
      one between them. */
  lemma FirstSeparator(a: string, c: char, b: string)
    ensures IndexOf(a + [c] + b, [c], 0) == (if IndexOf(a, [c], 0).Some? then IndexOf(a, [c], 0) else Some(|a|))
  {
    var s := a + [c] + b;
    var i := if IndexOf(a, [c], 0).Some? then IndexOf(a, [c], 0).value else |a|;
    if IndexOf(a, [c], 0).Some? {
      assert s[i..i + 1] == a[i..i + 1];
    }
    assert OccursAt(s, [c], i);
    forall j | 0 <= j < i ensures !OccursAt(s, [c], j) {
      assert !OccursAt(a, [c], j);
      assert s[j..j + 1] == a[j..j + 1];
    }
  }

  /** Exactly the texts holding the separator split into several parts. */
  lemma SplitSingle(s: string, sep: string)
    requires sep != []
    ensures |Split(s, sep)| == 1 <==> !Contains(s, sep)
  {
    IndexOfContains(s, sep);
  }

  lemma SplitWhole(s: string, sep: string)
    requires sep != [] && !Contains(s, sep)
    ensures Split(s, sep) == [s]
  {
  }

  lemma CharOccurrence(s: string, c: char)
    ensures c in s <==> Contains(s, [c])
  {
    if c in s {
      var j :| 0 <= j < |s| && s[j] == c;
      assert s[j..j + 1] == [c];
      assert OccursAt(s, [c], j);
    } else {
      NoCharNoOccurrence(s, c);
    }
  }

  lemma NoCharNoOccurrence(s: string, c: char)
    requires c !in s
    ensures !Contains(s, [c])
  {
    forall j | 0 <= j < |s| ensures !OccursAt(s, [c], j) {
      assert s[j..j + 1] == [s[j]];
    }
  }

  // ---------------------------------------------------------------------
  // Hexadecimal digits

  type Nibble = x: int | 0 <= x < 16
  type Byte = x: int | 0 <= x < 256

  const LowerHex := "0123456789abcdef"
  const UpperHex := "0123456789ABCDEF"

  /** Value of a hexadecimal digit of either case, or `None`. */
  function HexValue(c: char): (r: Option<Nibble>)
    ensures r.Some? ==> LowerHex[r.value] == c || UpperHex[r.value] == c
  {
    if '0' <= c <= '9' then Some(c as int - '0' as int)
    else if 'a' <= c <= 'f' then Some(c as int - 'a' as int + 10)
    else if 'A' <= c <= 'F' then Some(c as int - 'A' as int + 10)
    else None
  }

  lemma LowerHexValue(n: Nibble)
    ensures HexValue(LowerHex[n]) == Some(n)
  {
  }

  lemma UpperHexValue(n: Nibble)
    ensures HexValue(UpperHex[n]) == Some(n)
  {
  }
}
