/** JSON values as JavaScript holds them, and the text JSON.stringify writes (sections 4 and 7 of RFC 8259).
    Strings and texts are sequences of UTF-16 code units. */
module JsonText {
  import opened Prelude

  type Unit = u: int | 0 <= u < 0x1_0000

  type Str = seq<Unit>

  datatype Member = Member(key: Str, value: Option<Json>)

  /** A number is the text JavaScript gives it; an absent member value is `undefined`. */
  datatype Json =
    | Null
    | Bool(value: bool)
    | Number(digits: Str)
    | String(text: Str)
    | Array(items: seq<Json>)
    | Object(members: seq<Member>)

  const QUOTE: Unit := 0x22
  const COMMA: Unit := 0x2C
  const COLON: Unit := 0x3A
  const OPEN_BRACKET: Unit := 0x5B
  const BACKSLASH: Unit := 0x5C
  const CLOSE_BRACKET: Unit := 0x5D
  const OPEN_BRACE: Unit := 0x7B
  const CLOSE_BRACE: Unit := 0x7D
  const LETTER_U: Unit := 0x75

  const NULL_TEXT: Str := [0x6E, 0x75, 0x6C, 0x6C]
  const TRUE_TEXT: Str := [0x74, 0x72, 0x75, 0x65]
  const FALSE_TEXT: Str := [0x66, 0x61, 0x6C, 0x73, 0x65]

  predicate IsDigit(u: Unit) { 0x30 <= u <= 0x39 }

  /** Digits, sign, point and exponent mark. */
  predicate NumberUnit(u: Unit) { IsDigit(u) || u in {0x2D, 0x2B, 0x2E, 0x45, 0x65} }

  predicate NumberText(digits: Str) {
    && |digits| > 0
    && (IsDigit(digits[0]) || digits[0] == 0x2D)
    && forall i :: 0 <= i < |digits| ==> NumberUnit(digits[i])
  }

  lemma NumberUnitsExactly(u: Unit)
    ensures IsDigit(u) <==> '0' as int <= u <= '9' as int
    ensures NumberUnit(u) <==>
              '0' as int <= u <= '9' as int || u in ['-' as int, '+' as int, '.' as int, 'e' as int, 'E' as int]
  {
  }

  predicate DistinctKeys(members: seq<Member>) {
    forall i, j :: 0 <= i < j < |members| ==> members[i].key != members[j].key
  }

  predicate WellFormed(v: Json)
    decreases v
  {
    match v
    case Number(digits) => NumberText(digits)
    case Array(items) => forall i :: 0 <= i < |items| ==> WellFormed(items[i])
    case Object(members) =>
      && DistinctKeys(members)
      && forall i :: 0 <= i < |members| && members[i].value.Some? ==> WellFormed(members[i].value.value)
    case _ => true
  }

  // ---------------------------------------------------------------------
  // Strings
  // ---------------------------------------------------------------------

  function HexDigit(n: int): Unit
    requires 0 <= n < 16
  {
    if n < 10 then 0x30 + n else 0x57 + n
  }

  function HexValue(u: Unit): (n: int)
    ensures 0 <= n < 16
  {
    if 0x30 <= u <= 0x39 then u - 0x30 else if 0x61 <= u <= 0x66 then u - 0x57 else 0
  }

  function Hex(u: Unit): Str {
    [HexDigit(u / 0x1000), HexDigit(u / 0x100 % 16), HexDigit(u / 16 % 16), HexDigit(u % 16)]
  }

  predicate IsHighSurrogate(u: Unit) { 0xD800 <= u <= 0xDBFF }

  predicate IsLowSurrogate(u: Unit) { 0xDC00 <= u <= 0xDFFF }

  /** The letter of a two-unit escape. */
  function ShortEscape(u: Unit): Option<Unit> {
    if u == QUOTE || u == BACKSLASH then Some(u)
    else if u == 0x08 then Some(0x62)
    else if u == 0x09 then Some(0x74)
    else if u == 0x0A then Some(0x6E)
    else if u == 0x0C then Some(0x66)
    else if u == 0x0D then Some(0x72)
    else None
  }

  function FromShortEscape(letter: Unit): Unit {
    if letter == 0x62 then 0x08
    else if letter == 0x74 then 0x09
    else if letter == 0x6E then 0x0A
    else if letter == 0x66 then 0x0C
    else if letter == 0x72 then 0x0D
    else letter
  }

  function EscapeUnit(u: Unit): Str {
    var short := ShortEscape(u);
    if short.Some? then [BACKSLASH, short.value]
    else if u < 0x20 || IsHighSurrogate(u) || IsLowSurrogate(u) then [BACKSLASH, LETTER_U] + Hex(u)
    else [u]
  }

  predicate StartsWithPair(s: Str) {
    |s| > 1 && IsHighSurrogate(s[0]) && IsLowSurrogate(s[1])
  }

  /** Surrogate pairs stand as they are; a lone surrogate is escaped. */
  function Escape(s: Str): Str {
    if |s| == 0 then []
    else if StartsWithPair(s) then [s[0], s[1]] + Escape(s[2..])
    else EscapeUnit(s[0]) + Escape(s[1..])
  }

  function Quoted(s: Str): Str {
    [QUOTE] + Escape(s) + [QUOTE]
  }

  /** Reading one unit back: the unit and how much of the text it took. */
  function ReadUnit(text: Str): Option<(Unit, nat)> {
    if |text| == 0 || text[0] == QUOTE then None
    else if text[0] != BACKSLASH then Some((text[0], 1))
    else if |text| == 1 then None
    else if text[1] != LETTER_U then Some((FromShortEscape(text[1]), 2))
    else if |text| < 6 then None
    else Some((HexValue(text[2]) * 0x1000 + HexValue(text[3]) * 0x100 + HexValue(text[4]) * 16 + HexValue(text[5]), 6))
  }

  /** Reading a string back up to its closing quote: the string and the text that follows it. */
  function ReadString(text: Str): Option<(Str, Str)>
    decreases |text|
  {
    if |text| > 0 && text[0] == QUOTE then Some(([], text[1..]))
    else
      match ReadUnit(text)
      case None => None
      case Some((u, n)) =>
        if n > |text| then None
        else
          match ReadString(text[n..])
          case None => None
          case Some((s, rest)) => Some(([u] + s, rest))
  }

  /** What each unit is written as, lone surrogates as any control character (QuoteJSONString of ECMA-262): the named
      escapes, lower-case hexadecimal for what else may not stand, and every other unit as itself. */
  lemma EscapesExactly(u: Unit)
    ensures u == '"' as int || u == '\\' as int ==> EscapeUnit(u) == ['\\' as int, u]
    ensures u == 8 ==> EscapeUnit(u) == ['\\' as int, 'b' as int]
    ensures u == 9 ==> EscapeUnit(u) == ['\\' as int, 't' as int]
    ensures u == 10 ==> EscapeUnit(u) == ['\\' as int, 'n' as int]
    ensures u == 12 ==> EscapeUnit(u) == ['\\' as int, 'f' as int]
    ensures u == 13 ==> EscapeUnit(u) == ['\\' as int, 'r' as int]
    ensures u !in {8, 9, 10, 12, 13} && (u < 32 || 0xD800 <= u < 0xE000) ==>
              && |EscapeUnit(u)| == 6 && EscapeUnit(u)[..2] == ['\\' as int, 'u' as int]
              && (forall i :: 2 <= i < 6 ==> '0' as int <= EscapeUnit(u)[i] <= '9' as int
                                             || 'a' as int <= EscapeUnit(u)[i] <= 'f' as int)
              && ReadUnit(EscapeUnit(u)) == Some((u, 6))
    ensures u != '"' as int && u != '\\' as int && u >= 32 && !(0xD800 <= u < 0xE000) ==> EscapeUnit(u) == [u]
  {
    EscapedUnitReadsBack(u, []);
    assert EscapeUnit(u) + [] == EscapeUnit(u);
  }

  lemma HexRoundTrip(u: Unit)
    ensures var h := Hex(u);
            HexValue(h[0]) * 0x1000 + HexValue(h[1]) * 0x100 + HexValue(h[2]) * 16 + HexValue(h[3]) == u
  {
    assert u == u / 16 * 16 + u % 16;
    assert u / 16 == u / 0x100 * 16 + u / 16 % 16;
    assert u / 0x100 == u / 0x1000 * 16 + u / 0x100 % 16;
  }

  lemma EscapedUnitReadsBack(u: Unit, rest: Str)
    ensures ReadUnit(EscapeUnit(u) + rest) == Some((u, |EscapeUnit(u)|))
    ensures (EscapeUnit(u) + rest)[0] != QUOTE
  {
    HexRoundTrip(u);
  }

  lemma EscapedUnitThenString(u: Unit, tail: Str, s: Str, rest: Str)
    requires ReadString(tail) == Some((s, rest))
    ensures ReadString(EscapeUnit(u) + tail) == Some(([u] + s, rest))
  {
    EscapedUnitReadsBack(u, tail);
    assert (EscapeUnit(u) + tail)[|EscapeUnit(u)|..] == tail;
  }

  lemma RawUnitThenString(u: Unit, tail: Str, s: Str, rest: Str)
    requires u != QUOTE && u != BACKSLASH && ReadString(tail) == Some((s, rest))
    ensures ReadString([u] + tail) == Some(([u] + s, rest))
  {
    assert ([u] + tail)[1..] == tail;
  }

  lemma PairThenString(high: Unit, low: Unit, tail: Str, s: Str, rest: Str)
    requires IsHighSurrogate(high) && IsLowSurrogate(low) && ReadString(tail) == Some((s, rest))
    ensures ReadString([high, low] + tail) == Some(([high, low] + s, rest))
  {
    RawUnitThenString(low, tail, s, rest);
    RawUnitThenString(high, [low] + tail, [low] + s, rest);
    assert [high] + ([low] + tail) == [high, low] + tail && [high] + ([low] + s) == [high, low] + s;
  }

  lemma Associates(a: Str, b: Str, c: Str)
    ensures (a + b) + c == a + (b + c)
  {
  }

  /** A quoted string tells where it ends and reads back as itself, whatever follows it. */
  lemma {:induction false} StringReadsBack(s: Str, rest: Str)
    ensures ReadString(Escape(s) + ([QUOTE] + rest)) == Some((s, rest))
  {
    var end := [QUOTE] + rest;
    if |s| == 0 {
      assert Escape(s) + end == end && end[1..] == rest;
    } else if StartsWithPair(s) {
      StringReadsBack(s[2..], rest);
      PairThenString(s[0], s[1], Escape(s[2..]) + end, s[2..], rest);
      Associates([s[0], s[1]], Escape(s[2..]), end);
      assert s == [s[0], s[1]] + s[2..];
    } else {
      StringReadsBack(s[1..], rest);
      EscapedUnitThenString(s[0], Escape(s[1..]) + end, s[1..], rest);
      Associates(EscapeUnit(s[0]), Escape(s[1..]), end);
      assert s == [s[0]] + s[1..];
    }
  }

  /** A string is written unit by unit, but for surrogate pairs, which stand as they are. */
  lemma WritesUnitByUnit(s: Str)
    requires |s| > 0
    ensures if |s| > 1 && 0xD800 <= s[0] <= 0xDBFF && 0xDC00 <= s[1] <= 0xDFFF
            then Escape(s) == s[..2] + Escape(s[2..]) else Escape(s) == EscapeUnit(s[0]) + Escape(s[1..])
  {
  }

  // ---------------------------------------------------------------------
  // Texts
  // ---------------------------------------------------------------------

  function Text(v: Json): Str
    decreases v
  {
    match v
    case Null => NULL_TEXT
    case Bool(b) => if b then TRUE_TEXT else FALSE_TEXT
    case Number(digits) => digits
    case String(s) => Quoted(s)
    case Array(items) =>
      if |items| == 0 then [OPEN_BRACKET, CLOSE_BRACKET]
      else [OPEN_BRACKET] + Text(items[0]) + ItemsTail(items[1..])
    case Object(members) => [OPEN_BRACE] + MembersText(members, true)
  }

  function ItemsTail(items: seq<Json>): Str
    decreases items
  {
    if |items| == 0 then [CLOSE_BRACKET]
    else [COMMA] + Text(items[0]) + ItemsTail(items[1..])
  }

  /** The members from here to the closing brace; `undefined` members are passed over. */
  function MembersText(members: seq<Member>, first: bool): Str
    decreases members
  {
    if |members| == 0 then [CLOSE_BRACE]
    else
      match members[0].value
      case None => MembersText(members[1..], first)
      case Some(item) =>
        var comma := if first then [] else [COMMA];
        comma + Quoted(members[0].key) + [COLON] + Text(item) + MembersText(members[1..], false)
  }

  /** Every member has a value, at every depth. */
  predicate Plain(v: Json)
    decreases v
  {
    match v
    case Array(items) => forall i :: 0 <= i < |items| ==> Plain(items[i])
    case Object(members) => forall i :: 0 <= i < |members| ==> members[i].value.Some? && Plain(members[i].value.value)
    case _ => true
  }

  /** What may follow a value: nothing, a comma or a closing bracket. */
  predicate Follows(rest: Str) {
    |rest| == 0 || rest[0] in {COMMA, CLOSE_BRACKET, CLOSE_BRACE}
  }

  /** How far a number reaches. */
  function NumberLength(text: Str): nat {
    if |text| == 0 || !NumberUnit(text[0]) then 0 else 1 + NumberLength(text[1..])
  }

  lemma {:induction false} NumberReadsBack(digits: Str, rest: Str)
    requires (forall i :: 0 <= i < |digits| ==> NumberUnit(digits[i])) && Follows(rest)
    ensures NumberLength(digits + rest) == |digits|
  {
    if |digits| == 0 {
      assert digits + rest == rest;
    } else {
      NumberReadsBack(digits[1..], rest);
      assert (digits + rest)[1..] == digits[1..] + rest;
    }
  }

  lemma DropQuote(a: Str, s: Str)
    ensures (Quoted(a) + s)[1..] == Escape(a) + ([QUOTE] + s)
  {
  }
}
