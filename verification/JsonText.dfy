/**
 Texts as JavaScript holds them: sequences of UTF-16 code units, with the string
 quoting that `JSON.stringify` performs (section 7 of RFC 8259, plus the escaping of
 lone surrogates) and a parser for quoted strings.
 */
module JsonText {
  import opened Wrappers

  type CodeUnit = u: int | 0 <= u < 0x10000 witness 0
  type Text = seq<CodeUnit>

  const QUOTE: CodeUnit := 0x22
  const BACKSLASH: CodeUnit := 0x5C

  predicate IsLead(u: CodeUnit) { 0xD800 <= u < 0xDC00 }

  predicate IsTrail(u: CodeUnit) { 0xDC00 <= u < 0xE000 }

  function HexDigit(n: int): CodeUnit
    requires 0 <= n < 16
  {
    if n < 10 then 0x30 + n else 0x61 + n - 10
  }

  function HexValue(u: CodeUnit): Option<int> {
    if 0x30 <= u <= 0x39 then Some(u - 0x30)
    else if 0x61 <= u <= 0x66 then Some(u - 0x61 + 10)
    else if 0x41 <= u <= 0x46 then Some(u - 0x41 + 10)
    else None
  }

  function UnicodeEscape(u: CodeUnit): Text {
    [BACKSLASH, 0x75, HexDigit(u / 4096), HexDigit(u / 256 % 16), HexDigit(u / 16 % 16), HexDigit(u % 16)]
  }

  /** The text written for one code unit that is not half of a surrogate pair. */
  function EscapeUnit(u: CodeUnit): Text {
    if u == QUOTE || u == BACKSLASH then [BACKSLASH, u]
    else if u == 0x08 then [BACKSLASH, 0x62]
    else if u == 0x0C then [BACKSLASH, 0x66]
    else if u == 0x0A then [BACKSLASH, 0x6E]
    else if u == 0x0D then [BACKSLASH, 0x72]
    else if u == 0x09 then [BACKSLASH, 0x74]
    else if u < 0x20 || IsLead(u) || IsTrail(u) then UnicodeEscape(u)
    else [u]
  }

  function EscapeAll(s: Text): Text {
    if s == [] then []
    else if IsLead(s[0]) && |s| > 1 && IsTrail(s[1]) then [s[0], s[1]] + EscapeAll(s[2..])
    else EscapeUnit(s[0]) + EscapeAll(s[1..])
  }

  /** `JSON.stringify` of a string. */
  function Quote(s: Text): Text { [QUOTE] + EscapeAll(s) + [QUOTE] }

  function SimpleEscape(u: CodeUnit): Option<CodeUnit> {
    if u == QUOTE || u == BACKSLASH || u == 0x2F then Some(u)
    else if u == 0x62 then Some(0x08)
    else if u == 0x66 then Some(0x0C)
    else if u == 0x6E then Some(0x0A)
    else if u == 0x72 then Some(0x0D)
    else if u == 0x74 then Some(0x09)
    else None
  }

  function ParseHex4(t: Text): Option<CodeUnit>
    requires |t| == 4
  {
    match (HexValue(t[0]), HexValue(t[1]), HexValue(t[2]), HexValue(t[3]))
    case (Some(a), Some(b), Some(c), Some(d)) =>
      if 0 <= a < 16 && 0 <= b < 16 && 0 <= c < 16 && 0 <= d < 16
      then Some(a * 4096 + b * 256 + c * 16 + d) else None
    case _ => None
  }

  /** The next code unit of a quoted string's body, and what follows it. */
  function ParseUnit(t: Text): (r: Option<(CodeUnit, Text)>)
    ensures r.Some? ==> |r.value.1| < |t|
  {
    if t == [] || t[0] == QUOTE || t[0] < 0x20 then None
    else if t[0] != BACKSLASH then Some((t[0], t[1..]))
    else if |t| < 2 then None
    else if t[1] == 0x75 then
      if |t| < 6 then None else
      match ParseHex4(t[2..6])
      case Some(u) => Some((u, t[6..]))
      case None => None
    else
      match SimpleEscape(t[1])
      case Some(u) => Some((u, t[2..]))
      case None => None
  }

  /** The rest of a string whose opening quote has been read. */
  function ParseBody(t: Text): (r: Option<(Text, Text)>)
    ensures r.Some? ==> |r.value.1| < |t|
  {
    if t != [] && t[0] == QUOTE then Some(([], t[1..]))
    else
      match ParseUnit(t)
      case None => None
      case Some((u, after)) =>
        match ParseBody(after)
        case None => None
        case Some((s, rest)) => Some(([u] + s, rest))
  }

  lemma HexParts(u: int)
    requires 0 <= u < 65536
    ensures 0 <= u / 4096 < 16
    ensures ((u / 4096 * 16 + u / 256 % 16) * 16 + u / 16 % 16) * 16 + u % 16 == u
  {
    assert u / 16 == u / 256 * 16 + u / 16 % 16;
    assert u / 256 == u / 4096 * 16 + u / 256 % 16;
  }

  lemma HexInverts(u: CodeUnit)
    ensures ParseHex4([HexDigit(u / 4096), HexDigit(u / 256 % 16), HexDigit(u / 16 % 16), HexDigit(u % 16)]) == Some(u)
  {
    HexDigitInverts(u / 4096);
    HexDigitInverts(u / 256 % 16);
    HexDigitInverts(u / 16 % 16);
    HexDigitInverts(u % 16);
    HexParts(u);
  }

  lemma HexDigitInverts(n: int)
    requires 0 <= n < 16
    ensures HexValue(HexDigit(n)) == Some(n)
  {}

  lemma ParseUnitInvertsEscape(u: CodeUnit, rest: Text)
    ensures ParseUnit(EscapeUnit(u) + rest) == Some((u, rest))
  {
    var e := EscapeUnit(u);
    var t := e + rest;
    assert t[|e|..] == rest;
    if |e| == 6 {
      assert e == UnicodeEscape(u);
      assert t[2..6] == e[2..6]
        == [HexDigit(u / 4096), HexDigit(u / 256 % 16), HexDigit(u / 16 % 16), HexDigit(u % 16)];
      HexInverts(u);
    }
  }

  lemma ParseBodyStep(u: CodeUnit, t: Text, after: Text, s: Text, rest: Text)
    requires t != [] && t[0] != QUOTE
    requires ParseUnit(t) == Some((u, after)) && ParseBody(after) == Some((s, rest))
    ensures ParseBody(t) == Some(([u] + s, rest))
  {}

  lemma ParsePair(lead: CodeUnit, trail: CodeUnit, tail: Text, s: Text, rest: Text)
    requires IsLead(lead) && IsTrail(trail) && ParseBody(tail) == Some((s, rest))
    ensures ParseBody([lead, trail] + tail) == Some(([lead, trail] + s, rest))
  {
    var t := [trail] + tail;
    assert t[1..] == tail;
    ParseBodyStep(trail, t, tail, s, rest);
    assert ([lead, trail] + tail)[1..] == t;
    ParseBodyStep(lead, [lead, trail] + tail, t, [trail] + s, rest);
    assert [lead] + ([trail] + s) == [lead, trail] + s;
  }

  lemma EscapeStarts(u: CodeUnit)
    ensures EscapeUnit(u) != [] && EscapeUnit(u)[0] != QUOTE
  {}

  lemma ParseFirst(u: CodeUnit, tail: Text, s: Text, rest: Text)
    requires ParseBody(tail) == Some((s, rest))
    ensures ParseBody(EscapeUnit(u) + tail) == Some(([u] + s, rest))
  {
    ParseUnitInvertsEscape(u, tail);
    EscapeStarts(u);
    ParseBodyStep(u, EscapeUnit(u) + tail, tail, s, rest);
  }

  /** A quoted string, followed by anything, reads back as itself. */
  lemma {:induction false} ParseBodyInvertsEscape(s: Text, rest: Text)
    ensures ParseBody(EscapeAll(s) + [QUOTE] + rest) == Some((s, rest))
  {
    var end := [QUOTE] + rest;
    Regroup(EscapeAll(s), [QUOTE], rest);
    if s == [] {
      assert EscapeAll(s) + end == end;
      assert end[1..] == rest;
    } else if IsLead(s[0]) && |s| > 1 && IsTrail(s[1]) {
      ParseBodyInvertsEscape(s[2..], rest);
      Regroup(EscapeAll(s[2..]), [QUOTE], rest);
      ParsePair(s[0], s[1], EscapeAll(s[2..]) + end, s[2..], rest);
      Regroup([s[0], s[1]], EscapeAll(s[2..]), end);
      assert [s[0], s[1]] + s[2..] == s;
    } else {
      ParseBodyInvertsEscape(s[1..], rest);
      Regroup(EscapeAll(s[1..]), [QUOTE], rest);
      ParseFirst(s[0], EscapeAll(s[1..]) + end, s[1..], rest);
      Regroup(EscapeUnit(s[0]), EscapeAll(s[1..]), end);
      assert [s[0]] + s[1..] == s;
    }
  }

  lemma Regroup(a: Text, b: Text, c: Text)
    ensures a + b + c == a + (b + c)
  {}
}
