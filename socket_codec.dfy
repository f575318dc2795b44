/** The pure encoders of the socket client: the `'<'` escape applied to every
    incoming frame, the escape pass of `parseWebJson`, `arrayBufferToHex`,
    `getGuid`, `initContextRoot` and the socket address. Frame text is a
    JavaScript string, that is a sequence of UTF-16 code units. */
module SocketCodec {
  import opened Common

  /** One UTF-16 code unit. */
  type CodeUnit = x: int | 0 <= x < 0x10000

  const Lt: CodeUnit := 0x3C
  const Backslash: CodeUnit := 0x5C
  const LetterU: CodeUnit := 0x75
  /** `&lt;` */
  const EscapedLt: seq<CodeUnit> := [0x26, 0x6C, 0x74, 0x3B]

  // ---------------------------------------------------------------------
  // The '<' escape

  /** `data.replace(/</g, '&lt;')` */
  function ReplaceLt(s: seq<CodeUnit>): seq<CodeUnit> {
    if s == [] then [] else (if s[0] == Lt then EscapedLt else [s[0]]) + ReplaceLt(s[1..])
  }

  /** The escape works unit by unit. */
  lemma {:induction false} ReplaceLtConcat(a: seq<CodeUnit>, b: seq<CodeUnit>)
    ensures ReplaceLt(a + b) == ReplaceLt(a) + ReplaceLt(b)
  {
    if a != [] {
      var head := if a[0] == Lt then EscapedLt else [a[0]];
      assert (a + b)[0] == a[0];
      assert (a + b)[1..] == a[1..] + b;
      ReplaceLtConcat(a[1..], b);
      calc {
        ReplaceLt(a + b);
        head + ReplaceLt(a[1..] + b);
        head + (ReplaceLt(a[1..]) + ReplaceLt(b));
        (head + ReplaceLt(a[1..])) + ReplaceLt(b);
      }
    } else {
      assert a + b == b;
    }
  }

  /** No `'<'` survives, every other unit is kept, text without `'<'` is left
      as is, and escaping twice is escaping once. */
  lemma {:induction false} ReplaceLtSpec(s: seq<CodeUnit>)
    ensures Lt !in ReplaceLt(s)
    ensures Lt !in s ==> ReplaceLt(s) == s
    ensures ReplaceLt(ReplaceLt(s)) == ReplaceLt(s)
    ensures ReplaceLt(s) == [] <==> s == []
  {
    if s != [] {
      ReplaceLtSpec(s[1..]);
      var head := if s[0] == Lt then EscapedLt else [s[0]];
      assert ReplaceLt(head) == head by {
        if s[0] == Lt {
          assert ReplaceLt(EscapedLt) == [0x26] + ReplaceLt(EscapedLt[1..]);
          assert ReplaceLt(EscapedLt[1..]) == [0x6C] + ReplaceLt(EscapedLt[2..]);
          assert ReplaceLt(EscapedLt[2..]) == [0x74] + ReplaceLt(EscapedLt[3..]);
          assert ReplaceLt(EscapedLt[3..]) == [0x3B] + ReplaceLt(EscapedLt[4..]);
        } else {
          assert ReplaceLt([s[0]]) == [s[0]] + ReplaceLt([]);
        }
      }
      ReplaceLtConcat(head, ReplaceLt(s[1..]));
    }
  }

  // ---------------------------------------------------------------------
  // The escape pass of parseWebJson

  /** The single characters the pattern lets through besides the printable
      ASCII range and the common CJK ideographs: Chinese punctuation, curly
      quotes, the ellipsis, the em dash and the full-width yen sign. */
  const Punctuation: set<CodeUnit> := {
    0x3002, 0xFF1F, 0xFF01, 0xFF0C, 0x3001, 0xFF1B, 0xFF1A, 0x201C, 0x201D, 0x2018, 0x2019,
    0xFF08, 0xFF09, 0x300A, 0x300B, 0x3008, 0x3009, 0x3010, 0x3011, 0x300E, 0x300F, 0x300C,
    0x300D, 0xFE43, 0xFE44, 0x3014, 0x3015, 0x2026, 0x2014, 0xFF5E, 0xFE4F, 0xFFE5 }

  /** A unit the escape pass leaves alone (the negated character class). */
  predicate Allowed(u: CodeUnit) {
    (0x20 <= u <= 0x7E) || (0x4E00 <= u <= 0x9FA5) || u in Punctuation
  }

  /** The code unit of a lower-case hexadecimal digit. */
  function HexUnit(n: Nibble): (u: CodeUnit)
    ensures Allowed(u) && u != Lt && u != Backslash
    ensures u == LowerHex[n] as int
  {
    if n < 10 then 0x30 + n else 0x61 + n - 10
  }

  /** The value of a hexadecimal digit unit of either case. */
  function HexUnitValue(u: CodeUnit): Option<Nibble> {
    if 0x30 <= u <= 0x39 then Some(u - 0x30)
    else if 0x61 <= u <= 0x66 then Some(u - 0x61 + 10)
    else if 0x41 <= u <= 0x46 then Some(u - 0x41 + 10)
    else None
  }

  /** `\u` followed by the unit in four lower-case hexadecimal digits
      (`toString(16).padStart(4, 0)`). */
  function UnicodeEscape(u: CodeUnit): seq<CodeUnit> {
    [Backslash, LetterU, HexUnit(u / 0x1000), HexUnit(u / 0x100 % 0x10), HexUnit(u / 0x10 % 0x10), HexUnit(u % 0x10)]
  }

  /** What the pass writes for one unit. */
  function EscapeUnit(u: CodeUnit): seq<CodeUnit> {
    if Allowed(u) then [u] else UnicodeEscape(u)
  }

  /** `str.replace(regex, …)`: every unit outside the allow-list becomes its
      `\uXXXX` escape. The pattern has no `u` flag, so each half of a
      surrogate pair is escaped on its own. */
  function EscapeWeb(s: seq<CodeUnit>): seq<CodeUnit> {
    if s == [] then [] else EscapeUnit(s[0]) + EscapeWeb(s[1..])
  }

  /** The pass leaves only allowed units, and never writes a `'<'`. */
  lemma {:induction false} EscapeWebAllowed(s: seq<CodeUnit>)
    ensures forall i :: 0 <= i < |EscapeWeb(s)| ==> Allowed(EscapeWeb(s)[i])
    ensures Lt in EscapeWeb(s) ==> Lt in s
  {
    if s != [] {
      EscapeWebAllowed(s[1..]);
      var head := EscapeUnit(s[0]);
      assert forall i :: 0 <= i < |head| ==> Allowed(head[i]) && (head[i] == Lt ==> s[0] == Lt);
      var r := EscapeWeb(s);
      forall i | 0 <= i < |r| ensures Allowed(r[i]) {
        if i >= |head| {
          assert r[i] == EscapeWeb(s[1..])[i - |head|];
        }
      }
    }
  }

  /** Text made only of allowed units is left as is. */
  lemma {:induction false} EscapeWebKeepsAllowed(s: seq<CodeUnit>)
    requires forall i :: 0 <= i < |s| ==> Allowed(s[i])
    ensures EscapeWeb(s) == s
  {
    if s != [] {
      EscapeWebKeepsAllowed(s[1..]);
    }
  }

  /** Escaping twice is escaping once. */
  lemma EscapeWebIdempotent(s: seq<CodeUnit>)
    ensures EscapeWeb(EscapeWeb(s)) == EscapeWeb(s)
  {
    EscapeWebAllowed(s);
    EscapeWebKeepsAllowed(EscapeWeb(s));
  }

  /** The value of four hexadecimal digit units, if they are digits. */
  function Hex4Value(t: seq<CodeUnit>): Option<CodeUnit>
    requires |t| == 4
  {
    match (HexUnitValue(t[0]), HexUnitValue(t[1]), HexUnitValue(t[2]), HexUnitValue(t[3]))
    case (Some(a), Some(b), Some(c), Some(d)) => Some(a * 0x1000 + b * 0x100 + c * 0x10 + d)
    case _ => None
  }

  /** How section 7 of RFC 8259 reads text back: `\uXXXX` stands for the unit
      XXXX, every other unit for itself. */
  function Unescape(t: seq<CodeUnit>): seq<CodeUnit>
    decreases |t|
  {
    if t == [] then []
    else if |t| >= 6 && t[0] == Backslash && t[1] == LetterU && Hex4Value(t[2..6]).Some? then
      [Hex4Value(t[2..6]).value] + Unescape(t[6..])
    else [t[0]] + Unescape(t[1..])
  }

  lemma HexUnitRoundTrip(n: Nibble)
    ensures HexUnitValue(HexUnit(n)) == Some(n)
  {
  }

  /** The four digits put back together give the unit. */
  lemma Hex4Digits(u: CodeUnit)
    ensures (u / 0x1000) * 0x1000 + (u / 0x100 % 0x10) * 0x100 + (u / 0x10 % 0x10) * 0x10 + u % 0x10 == u
  {
    var q1 := u / 0x10;
    var q2 := q1 / 0x10;
    assert u == q1 * 0x10 + u % 0x10;
    assert q1 == q2 * 0x10 + q1 % 0x10;
    assert q2 == (q2 / 0x10) * 0x10 + q2 % 0x10;
    assert q2 == u / 0x100;
    assert q2 / 0x10 == u / 0x1000;
  }

  lemma Hex4RoundTrip(u: CodeUnit)
    ensures Hex4Value(UnicodeEscape(u)[2..6]) == Some(u)
  {
    var t := UnicodeEscape(u)[2..6];
    HexUnitRoundTrip(u / 0x1000);
    HexUnitRoundTrip(u / 0x100 % 0x10);
    HexUnitRoundTrip(u / 0x10 % 0x10);
    HexUnitRoundTrip(u % 0x10);
    Hex4Digits(u);
    assert t == [HexUnit(u / 0x1000), HexUnit(u / 0x100 % 0x10), HexUnit(u / 0x10 % 0x10), HexUnit(u % 0x10)];
  }

  /** Read back as JSON string escapes, the escaped text is the original text,
      provided the original has no backslash of its own. */
  lemma {:induction false} EscapeWebRoundTrip(s: seq<CodeUnit>)
    requires Backslash !in s
    ensures Unescape(EscapeWeb(s)) == s
  {
    if s != [] {
      EscapeWebRoundTrip(s[1..]);
      var rest := EscapeWeb(s[1..]);
      if Allowed(s[0]) {
        assert EscapeWeb(s) == [s[0]] + rest;
      } else {
        var e := UnicodeEscape(s[0]);
        Hex4RoundTrip(s[0]);
        assert EscapeWeb(s) == e + rest;
        assert (e + rest)[2..6] == e[2..6];
        assert (e + rest)[6..] == rest;
      }
    }
  }

  /** `parseWebJson(str)` for a text frame, with `JSON.parse` given as a
      partial function (`None` where it throws): empty text, a failed parse
      and a falsy parse result all give `{}`. */
  function ParseWebJson(str: seq<CodeUnit>, parse: seq<CodeUnit> -> Option<Json>): (r: Json)
    ensures Truthy(r)
    ensures str == [] ==> r == JObj(map[])
    ensures r != JObj(map[]) ==> parse(EscapeWeb(str)) == Some(r)
    ensures str != [] && parse(EscapeWeb(str)).Some? && Truthy(parse(EscapeWeb(str)).value) ==>
              r == parse(EscapeWeb(str)).value
  {
    if str == [] then JObj(map[])
    else
      match parse(EscapeWeb(str))
      case None => JObj(map[])
      case Some(v) => if Truthy(v) then v else JObj(map[])
  }

  /** What `handleMessage` parses an incoming text frame into: text without
      `'<'`, escaped, then parsed. */
  function DecodeFrame(data: seq<CodeUnit>, parse: seq<CodeUnit> -> Option<Json>): Json {
    ParseWebJson(ReplaceLt(data), parse)
  }

  /** The parser is never shown a `'<'`, nor a unit outside the allow-list. */
  lemma ParserInput(data: seq<CodeUnit>)
    ensures Lt !in EscapeWeb(ReplaceLt(data))
    ensures forall i :: 0 <= i < |EscapeWeb(ReplaceLt(data))| ==> Allowed(EscapeWeb(ReplaceLt(data))[i])
  {
    ReplaceLtSpec(data);
    EscapeWebAllowed(ReplaceLt(data));
  }

  // ---------------------------------------------------------------------
  // arrayBufferToHex

  /** `('00' + bit.toString(16)).slice(-2)` */
  function ByteHex(b: Byte): string {
    [LowerHex[b / 16], LowerHex[b % 16]]
  }

  /** `arrayBufferToHex`: two lower-case digits per byte, joined. */
  function ArrayBufferToHex(bytes: seq<Byte>): (r: string)
    ensures |r| == 2 * |bytes|
  {
    if bytes == [] then "" else ByteHex(bytes[0]) + ArrayBufferToHex(bytes[1..])
  }

  /** Reads pairs of hexadecimal digits back into bytes. */
  function HexToBytes(s: string): Option<seq<Byte>>
    decreases |s|
  {
    if s == [] then Some([])
    else if |s| < 2 then None
    else match (HexValue(s[0]), HexValue(s[1]), HexToBytes(s[2..]))
      case (Some(hi), Some(lo), Some(rest)) => Some([hi * 16 + lo] + rest)
      case _ => None
  }

  /** The hex text is lower case. */
  lemma {:induction false} HexLowerCase(bytes: seq<Byte>)
    ensures forall i :: 0 <= i < |ArrayBufferToHex(bytes)| ==> ArrayBufferToHex(bytes)[i] in LowerHex
  {
    if bytes != [] {
      HexLowerCase(bytes[1..]);
      var s := ArrayBufferToHex(bytes);
      var rest := ArrayBufferToHex(bytes[1..]);
      assert s == ByteHex(bytes[0]) + rest;
      forall i | 0 <= i < |s| ensures s[i] in LowerHex {
        if i >= 2 {
          assert s[i] == rest[i - 2];
        }
      }
    }
  }

  /** The hex text decodes to the original bytes. */
  lemma {:induction false} HexRoundTrip(bytes: seq<Byte>)
    ensures HexToBytes(ArrayBufferToHex(bytes)) == Some(bytes)
  {
    if bytes != [] {
      HexRoundTrip(bytes[1..]);
      var b := bytes[0];
      var s := ArrayBufferToHex(bytes);
      LowerHexValue(b / 16);
      LowerHexValue(b % 16);
      assert s == ByteHex(b) + ArrayBufferToHex(bytes[1..]);
      assert s[0] == LowerHex[b / 16] && s[1] == LowerHex[b % 16];
      assert s[2..] == ArrayBufferToHex(bytes[1..]);
      assert [b] + bytes[1..] == bytes;
    }
  }

  // ---------------------------------------------------------------------
  // getGuid

  /** Upper-case form of a character (`toUpperCase` on hexadecimal text). */
  function UpperChar(c: char): char {
    if 'a' <= c <= 'z' then (c as int - 'a' as int + 'A' as int) as char else c
  }

  /** `s[16] & 0x3`: the one-character string is converted to a number, so a
      decimal digit gives its value and a letter gives `NaN`, which the
      bitwise operator turns into 0. */
  function LowBits(c: char): (r: int)
    ensures 0 <= r < 4
  {
    if '0' <= c <= '9' then (c as int - '0' as int) % 4 else 0
  }

  /** The variant digit `getGuid` writes at index 16, from the random nibble
      drawn there: `(d & 0x3) | 0x8`, that is 8 plus the low two bits. */
  function VariantNibble(n: Nibble): Nibble {
    LowBits(LowerHex[n]) + 8
  }

  /** The id `getGuid` returns for the 32 random nibbles. */
  function GuidOf(rand: seq<Nibble>): string
    requires |rand| == 32
  {
    seq(32, i requires 0 <= i < 32 =>
      if i == 12 then '4' else if i == 16 then UpperHex[VariantNibble(rand[16])] else UpperHex[rand[i]])
  }

  /** 32 upper-case hexadecimal digits laid out as a version-4 id of section
      4.4 of RFC 4122 without hyphens: version digit `4` at index 12, variant
      digit `8`, `9`, `A` or `B` at index 16. */
  predicate IsV4Id(id: string) {
    && |id| == 32
    && (forall i :: 0 <= i < 32 ==> id[i] in UpperHex)
    && id[12] == '4'
    && id[16] in "89AB"
  }

  /** `getGuid`: the array of 32 digits filled in a loop, the version and
      variant digits set, then joined and upper-cased. */
  method GetGuid(rand: seq<Nibble>) returns (id: string)
    requires |rand| == 32
    ensures id == GuidOf(rand)
    ensures IsV4Id(id)
  {
    var s := new char[32];
    var i := 0;
    while i < 32
      invariant 0 <= i <= 32
      invariant forall k :: 0 <= k < i ==> s[k] == LowerHex[rand[k]]
    {
      s[i] := LowerHex[rand[i]];
      i := i + 1;
    }
    s[12] := '4';
    s[16] := LowerHex[LowBits(s[16]) + 8];
    id := [];
    var j := 0;
    while j < 32
      invariant 0 <= j <= 32
      invariant |id| == j
      invariant forall k :: 0 <= k < j ==> id[k] == UpperChar(s[k])
    {
      id := id + [UpperChar(s[j])];
      j := j + 1;
    }
    forall k | 0 <= k < 32 ensures id[k] == GuidOf(rand)[k] {
      UpperOfLower(if k == 12 then 4 else if k == 16 then VariantNibble(rand[16]) else rand[k]);
    }
    GuidIsV4(rand);
  }

  lemma UpperOfLower(n: Nibble)
    ensures UpperChar(LowerHex[n]) == UpperHex[n]
  {
  }

  /** Every id is a well-formed version-4 id. */
  lemma GuidIsV4(rand: seq<Nibble>)
    requires |rand| == 32
    ensures IsV4Id(GuidOf(rand))
  {
    var id := GuidOf(rand);
    var v := VariantNibble(rand[16]);
    assert id[16] == UpperHex[v];
    assert 8 <= v < 12;
  }

  /** A nibble drawn at index 16 that yields the given variant digit. */
  function VariantDraw(c: char): Nibble {
    if c == '9' then 1 else if c == 'A' then 2 else if c == 'B' then 3 else 0
  }

  /** The nibbles that make `getGuid` return the given id. */
  function DrawFor(id: string): (rand: seq<Nibble>)
    requires IsV4Id(id)
    ensures |rand| == 32
  {
    seq(32, i requires 0 <= i < 32 => if i == 16 then VariantDraw(id[16]) else HexValue(id[i]).value)
  }

  /** Every well-formed version-4 id can come out of `getGuid`. */
  lemma GuidOnto(id: string)
    requires IsV4Id(id)
    ensures GuidOf(DrawFor(id)) == id
  {
    var rand := DrawFor(id);
    forall i | 0 <= i < 32 ensures GuidOf(rand)[i] == id[i] {
      if i != 12 && i != 16 {
        assert id[i] in UpperHex;
        var k :| 0 <= k < 16 && UpperHex[k] == id[i];
        UpperHexValue(k);
      }
    }
  }

  /** The variant digit is not uniform: a letter drawn at index 16 counts as
      0, so `8` comes from 9 of the 16 nibbles, `9` from 3, `A` and `B` from
      2 each. */
  lemma VariantBias()
    ensures (set n: Nibble | VariantNibble(n) == 8) == {0, 4, 8, 10, 11, 12, 13, 14, 15}
    ensures (set n: Nibble | VariantNibble(n) == 9) == {1, 5, 9}
    ensures (set n: Nibble | VariantNibble(n) == 10) == {2, 6}
    ensures (set n: Nibble | VariantNibble(n) == 11) == {3, 7}
  {
    forall n: Nibble ensures VariantNibble(n) == (if n < 10 then n % 4 + 8 else 8) {
      assert LowerHex[n] == "0123456789abcdef"[n];
    }
  }

  // ---------------------------------------------------------------------
  // initContextRoot and the socket address

  const WebDir := "/web/"

  /** `initContextRoot` on `location.pathname || ''`: the text between the
      leading character and the last `/web/`, when that occurrence starts
      past index 1; otherwise empty. */
  function InitContextRoot(pathname: string): (r: string)
    ensures forall i :: 0 <= i && OccursAt(pathname, WebDir, i) && (forall j :: i < j ==> !OccursAt(pathname, WebDir, j)) ==>
              r == (if i > 1 then pathname[1..i] else "")
    ensures !Contains(pathname, WebDir) ==> r == ""
  {
    match LastIndexOf(pathname, WebDir)
    case None => ""
    case Some(index) => if index > 1 then pathname[1..index] else ""
  }

  /** The page's own location, as far as the socket address needs it. */
  datatype Location = Location(protocol: string, host: string, pathname: string)

  /** `this.url`: `ws://` on plain HTTP and `wss://` otherwise, then the
      host, then `/<context root>` when there is one. */
  function SocketUrl(loc: Location): (r: string)
    ensures StartsWith(r, "ws://") <==> loc.protocol == "http:"
    ensures loc.protocol != "http:" ==> StartsWith(r, "wss://")
    ensures var n := if loc.protocol == "http:" then 5 else 6;
            var root := InitContextRoot(loc.pathname);
            && |r| == n + |loc.host| + (if root == "" then 0 else 1 + |root|)
            && r[n..n + |loc.host|] == loc.host
            && (root != "" ==> r[n + |loc.host|..] == "/" + root)
  {
    var root := InitContextRoot(loc.pathname);
    var scheme := if loc.protocol == "http:" then "ws://" else "wss://";
    var r := scheme + loc.host + (if root != "" then "/" + root else "");
    assert r[..|scheme|] == scheme;
    assert r[2] == scheme[2];
    r
  }
}
