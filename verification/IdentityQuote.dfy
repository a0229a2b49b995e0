/** Quoting of session identity values (runtime/service_adk.go) against a reader of JSON
    strings. */
module IdentityQuote {

  // ----- Writing -----

  /** `unicode.IsControl`. */
  predicate IsControl(c: char) {
    c < ' ' || '\U{7F}' <= c <= '\U{9F}'
  }

  predicate IsSeparator(c: char) {
    c == '\U{2028}' || c == '\U{2029}'
  }

  function Digit(d: nat): (c: char)
    requires d < 0x10
    ensures IsHex(c) && HexValue(c) == d && c != '"' && !IsControl(c) && !IsSeparator(c)
  {
    if d < 10 then '0' + d as char else 'a' + (d - 10) as char
  }

  /** Four lower-case hexadecimal digits. */
  function Hex4(n: nat): string
    requires n < 0x1_0000
  {
    [Digit(n / 0x1000), Digit(n / 0x100 % 0x10), Digit(n / 0x10 % 0x10), Digit(n % 0x10)]
  }

  function Escape(c: char): string {
    match c
    case '\"' => "\\\""
    case '\\' => "\\\\"
    case '\U{08}' => "\\b"
    case '\U{0C}' => "\\f"
    case '\n' => "\\n"
    case '\r' => "\\r"
    case '\t' => "\\t"
    case _ => if IsControl(c) || IsSeparator(c) then "\\u" + Hex4(c as nat) else [c]
  }

  function EscapeAll(v: string): string {
    if v == "" then "" else Escape(v[0]) + EscapeAll(v[1..])
  }

  function Quoted(v: string): string {
    "\"" + EscapeAll(v) + "\""
  }

  lemma {:induction false} EscapeAllNext(v: string, c: char)
    ensures EscapeAll(v + [c]) == EscapeAll(v) + Escape(c)
  {
    hide Escape;
    if v == "" {
      assert v + [c] == [c] && [c][1..] == "";
      assert Escape(c) + "" == Escape(c) == "" + Escape(c);
    } else {
      EscapeAllNext(v[1..], c);
      assert (v + [c])[1..] == v[1..] + [c];
    }
  }

  function Opened(v: string): string {
    "\"" + EscapeAll(v)
  }

  lemma OpenedNext(v: string, i: nat)
    requires i < |v|
    ensures Opened(v[..i + 1]) == Opened(v[..i]) + Escape(v[i])
  {
    assert v[..i + 1] == v[..i] + [v[i]];
    EscapeAllNext(v[..i], v[i]);
    hide EscapeAll, Escape;
  }

  /** What the loop writes for one rune. */
  method EscapeRune(r: char) returns (piece: string)
    ensures piece == Escape(r)
  {
    hide Hex4;
    match r {
      case '\"' => return "\\\"";
      case '\\' => return "\\\\";
      case '\U{08}' => return "\\b";
      case '\U{0C}' => return "\\f";
      case '\n' => return "\\n";
      case '\r' => return "\\r";
      case '\t' => return "\\t";
      case _ =>
        if r < ' ' || IsControl(r) || IsSeparator(r) { return "\\u" + Hex4(r as nat); }
        return [r];
    }
  }

  /** `quoteSessionIdentityValue`. */
  method QuoteSessionIdentityValue(value: string) returns (quoted: string)
    ensures quoted == Quoted(value)
  {
    quoted := "\"";
    assert Opened(value[..0]) == "\"";
    assert Opened(value[..|value|]) + "\"" == Quoted(value) by { assert value[..|value|] == value; }
    hide Opened, Quoted, Escape;
    for i := 0 to |value|
      invariant quoted == Opened(value[..i])
    {
      OpenedNext(value, i);
      var piece := EscapeRune(value[i]);
      quoted := quoted + piece;
    }
    quoted := quoted + "\"";
  }

  // ----- Reading, by section 7 of RFC 8259 -----

  datatype Read = Read(value: string, rest: string) | Malformed

  predicate IsHex(c: char) {
    '0' <= c <= '9' || 'a' <= c <= 'f' || 'A' <= c <= 'F'
  }

  function HexValue(c: char): nat
    requires IsHex(c)
  {
    if c <= '9' then c as nat - '0' as nat
    else if c <= 'F' then c as nat - 'A' as nat + 10
    else c as nat - 'a' as nat + 10
  }

  predicate HasUnit(s: string) {
    |s| >= 6 && s[0] == '\\' && s[1] == 'u' && forall i | 2 <= i < 6 :: IsHex(s[i])
  }

  /** The code unit of a leading `\uXXXX`. */
  function Unit(s: string): nat
    requires HasUnit(s)
  {
    HexValue(s[2]) * 0x1000 + HexValue(s[3]) * 0x100 + HexValue(s[4]) * 0x10 + HexValue(s[5])
  }

  function Prepend(c: char, r: Read): Read {
    if r.Read? then Read([c] + r.value, r.rest) else Malformed
  }

  /** What a two-character escape stands for. */
  function Short(c: char): (r: seq<char>) {
    match c
    case '\"' => "\""
    case '\\' => "\\"
    case '/' => "/"
    case 'b' => "\U{08}"
    case 'f' => "\U{0C}"
    case 'n' => "\n"
    case 'r' => "\r"
    case 't' => "\t"
    case _ => ""
  }

  /** The characters of a string up to its closing quotation mark; a pair of surrogate
      code units stands for one character. */
  function ReadChars(s: string): Read {
    if s == "" then Malformed
    else if s[0] == '\"' then Read("", s[1..])
    else if s[0] != '\\' then (if s[0] < ' ' then Malformed else Prepend(s[0], ReadChars(s[1..])))
    else if |s| >= 2 && Short(s[1]) != "" then Prepend(Short(s[1])[0], ReadChars(s[2..]))
    else if !HasUnit(s) then Malformed
    else
      var u := Unit(s);
      if u < 0xD800 || 0xE000 <= u < 0x1_0000 then Prepend(u as char, ReadChars(s[6..]))
      else if 0xD800 <= u < 0xDC00 && HasUnit(s[6..]) && 0xDC00 <= Unit(s[6..]) < 0xE000 then
        Prepend((0x1_0000 + (u - 0xD800) * 0x400 + (Unit(s[6..]) - 0xDC00)) as char, ReadChars(s[12..]))
      else Malformed
  }

  function ReadString(s: string): Read {
    if s != "" && s[0] == '\"' then ReadChars(s[1..]) else Malformed
  }

  // ----- Round trip -----

  lemma UnitReads(a: char, b: char, c: char, d: char, t: string)
    requires IsHex(a) && IsHex(b) && IsHex(c) && IsHex(d)
    ensures var s := "\\u" + [a, b, c, d] + t;
      HasUnit(s) && s[1] == 'u' && s[6..] == t
      && Unit(s) == HexValue(a) * 0x1000 + HexValue(b) * 0x100 + HexValue(c) * 0x10 + HexValue(d)
  {
    var s := "\\u" + [a, b, c, d] + t;
    assert s[2] == a && s[3] == b && s[4] == c && s[5] == d;
    hide HexValue, IsHex;
  }

  lemma DigitsSum(n: nat)
    requires n < 0x1_0000
    ensures n / 0x1000 * 0x1000 + n / 0x100 % 0x10 * 0x100 + n / 0x10 % 0x10 * 0x10 + n % 0x10 == n
  {
    assert n / 0x10 / 0x10 == n / 0x100 && n / 0x100 / 0x10 == n / 0x1000;
  }

  lemma HexReads(n: nat, t: string)
    requires n < 0x1_0000
    ensures var s := "\\u" + Hex4(n) + t; HasUnit(s) && s[1] == 'u' && s[6..] == t && Unit(s) == n
  {
    DigitsSum(n);
    hide Digit, HexValue, IsHex, HasUnit, Unit;
    UnitReads(Digit(n / 0x1000), Digit(n / 0x100 % 0x10), Digit(n / 0x10 % 0x10), Digit(n % 0x10), t);
  }

  lemma EscapeReads(c: char, t: string)
    ensures ReadChars(Escape(c) + t) == Prepend(c, ReadChars(t))
  {
    var e := Escape(c);
    if |e| == 1 {
      assert e == [c] && c != '\"' && c != '\\' && c >= ' ';
      PlainReads(c, t);
    } else if |e| == 2 {
      assert e == ['\\', e[1]] && Short(e[1]) == [c];
      ShortReads(e[1], t);
    } else {
      UnitEscapeReads(c, t);
    }
  }

  lemma PlainReads(c: char, t: string)
    requires c != '\"' && c != '\\' && c >= ' '
    ensures ReadChars([c] + t) == Prepend(c, ReadChars(t))
  {
    assert ([c] + t)[1..] == t;
  }

  lemma ShortReads(e: char, t: string)
    requires Short(e) != ""
    ensures ReadChars(['\\', e] + t) == Prepend(Short(e)[0], ReadChars(t))
  {
    assert (['\\', e] + t)[2..] == t;
  }

  lemma UnitEscapeReads(c: char, t: string)
    requires (c as nat) < 0xD800
    ensures ReadChars("\\u" + Hex4(c as nat) + t) == Prepend(c, ReadChars(t))
  {
    HexReads(c as nat, t);
    hide Hex4, HasUnit, Unit;
    assert Short('u') == "";
  }

  lemma {:induction false} EscapeAllReads(v: string, t: string)
    ensures ReadChars(EscapeAll(v) + "\"" + t) == Read(v, t)
  {
    hide Escape;
    if v == "" {
      assert EscapeAll(v) + "\"" + t == "\"" + t;
    } else {
      assert EscapeAll(v) + "\"" + t == Escape(v[0]) + (EscapeAll(v[1..]) + "\"" + t);
      EscapeAllReads(v[1..], t);
      hide ReadChars, EscapeAll;
      EscapeReads(v[0], EscapeAll(v[1..]) + "\"" + t);
      assert [v[0]] + v[1..] == v;
    }
  }

  /** A JSON reader gets the original value back, whatever follows the literal. */
  lemma QuotedReads(v: string, rest: string)
    ensures ReadString(Quoted(v) + rest) == Read(v, rest)
  {
    EscapeAllReads(v, rest);
    assert (Quoted(v) + rest)[1..] == EscapeAll(v) + "\"" + rest;
  }

  /** No quoted value is a prefix of another, so a record of them splits in one way. */
  lemma QuotedPrefixFree(a: string, b: string, s: string, t: string)
    requires Quoted(a) + s == Quoted(b) + t
    ensures a == b && s == t
  {
    QuotedReads(a, s);
    QuotedReads(b, t);
  }

  lemma EscapeOneLine(c: char)
    ensures forall i | 0 <= i < |Escape(c)| :: !IsControl(Escape(c)[i]) && !IsSeparator(Escape(c)[i])
  {
  }

  /** The literal stays on one physical line: no control character, no line or
      paragraph separator. */
  lemma {:induction false} QuotedOneLine(v: string)
    ensures forall i | 0 <= i < |Quoted(v)| :: !IsControl(Quoted(v)[i]) && !IsSeparator(Quoted(v)[i])
  {
    EscapeAllOneLine(v);
  }

  lemma {:induction false} EscapeAllOneLine(v: string)
    ensures forall i | 0 <= i < |EscapeAll(v)| :: !IsControl(EscapeAll(v)[i]) && !IsSeparator(EscapeAll(v)[i])
  {
    if v != "" {
      EscapeOneLine(v[0]);
      EscapeAllOneLine(v[1..]);
    }
  }

  /** Which form each rune takes: itself, a two-character escape, or four lower-case
      hexadecimal digits. With the round trip this fixes the literal. */
  lemma EscapeForms(c: char)
    ensures |Escape(c)| == 1 <==>
      c != '"' && c != '\\' && c >= ' ' && !('\U{7F}' <= c <= '\U{9F}') && c != '\U{2028}' && c != '\U{2029}'
    ensures |Escape(c)| == 2 <==> c in {'"', '\\', '\U{08}', '\U{0C}', '\n', '\r', '\t'}
    ensures |Escape(c)| in {1, 2, 6}
    ensures |Escape(c)| == 1 ==> Escape(c) == [c]
    ensures |Escape(c)| == 6 ==>
      forall i | 2 <= i < 6 :: '0' <= Escape(c)[i] <= '9' || 'a' <= Escape(c)[i] <= 'f'
  {
  }
}
