/** A reader of JSON text without white space (RFC 8259), and that it reads back what JSON.stringify writes: distinct
    plain values have distinct texts, whatever may follow them. */
module JsonReader {
  import opened Prelude
  import opened JsonText

  predicate Clean(v: Json) { WellFormed(v) && Plain(v) }

  /** The units of an ASCII string. */
  function Units(s: string): Str
    requires forall i :: 0 <= i < |s| ==> s[i] < 128 as char
  {
    seq(|s|, i requires 0 <= i < |s| => s[i] as int)
  }

  predicate Starts(t: Str, c: char)
    requires c < 128 as char
  {
    |t| > 0 && t[0] == c as int
  }

  function ReadValue(t: Str): (r: Option<(Json, Str)>)
    ensures r.Some? ==> |r.value.1| < |t|
    decreases |t|, 0
  {
    if Units("null") <= t then Some((Null, t[4..]))
    else if Units("true") <= t then Some((Bool(true), t[4..]))
    else if Units("false") <= t then Some((Bool(false), t[5..]))
    else if Starts(t, '"') then ReadText(t)
    else if Units("[]") <= t then Some((Array([]), t[2..]))
    else if Starts(t, '[') then
      match ReadItems(t[1..])
      case None => None
      case Some((items, rest)) => Some((Array(items), rest))
    else if Units("{}") <= t then Some((Object([]), t[2..]))
    else if Starts(t, '{') then
      match ReadMembers(t[1..])
      case None => None
      case Some((members, rest)) => Some((Object(members), rest))
    else if NumberLength(t) == 0 || NumberLength(t) > |t| then None
    else Some((Number(t[..NumberLength(t)]), t[NumberLength(t)..]))
  }

  function ReadText(t: Str): (r: Option<(Json, Str)>)
    requires Starts(t, '"')
    ensures r.Some? ==> |r.value.1| < |t|
  {
    match ReadString(t[1..])
    case None => None
    case Some((s, rest)) => if |rest| < |t| then Some((String(s), rest)) else None
  }

  /** At least one item, up to the closing bracket. */
  function ReadItems(t: Str): (r: Option<(seq<Json>, Str)>)
    ensures r.Some? ==> |r.value.1| < |t|
    decreases |t|, 1
  {
    match ReadValue(t)
    case None => None
    case Some((item, rest)) =>
      if Starts(rest, ']') then Some(([item], rest[1..]))
      else if !Starts(rest, ',') then None
      else
        match ReadItems(rest[1..])
        case None => None
        case Some((items, after)) => Some(([item] + items, after))
  }

  /** At least one member, up to the closing brace. */
  function ReadMembers(t: Str): (r: Option<(seq<Member>, Str)>)
    ensures r.Some? ==> |r.value.1| < |t|
    decreases |t|, 1
  {
    if !Starts(t, '"') then None
    else
      match ReadString(t[1..])
      case None => None
      case Some((key, colon)) =>
        if !Starts(colon, ':') || |colon| >= |t| then None
        else
          match ReadValue(colon[1..])
          case None => None
          case Some((item, rest)) =>
            if Starts(rest, '}') then Some(([Member(key, Some(item))], rest[1..]))
            else if !Starts(rest, ',') then None
            else
              match ReadMembers(rest[1..])
              case None => None
              case Some((members, after)) => Some(([Member(key, Some(item))] + members, after))
  }

  // ---------------------------------------------------------------------
  // What is written is read back
  // ---------------------------------------------------------------------

  lemma PrefixOf(head: Str, rest: Str)
    ensures head <= head + rest && (head + rest)[|head|..] == rest
  {
  }

  lemma LiteralReadsBack(v: Json, rest: Str)
    requires v.Null? || v.Bool?
    ensures ReadValue(Text(v) + rest) == Some((v, rest))
  {
    PrefixOf(Text(v), rest);
    assert Units("null") == NULL_TEXT && Units("true") == TRUE_TEXT && Units("false") == FALSE_TEXT;
    assert (Text(v) + rest)[0] == Text(v)[0] && (Text(v) + rest)[1] == Text(v)[1];
  }

  /** No text but that of a literal starts with its first letter. */
  lemma NotALiteral(t: Str)
    requires |t| > 0 && t[0] != 'n' as int && t[0] != 't' as int && t[0] != 'f' as int
    ensures !(Units("null") <= t) && !(Units("true") <= t) && !(Units("false") <= t)
  {
    assert Units("null")[0] == 'n' as int && Units("true")[0] == 't' as int && Units("false")[0] == 'f' as int;
  }

  lemma NumberReadsAsNumber(digits: Str, rest: Str)
    requires NumberText(digits) && Follows(rest)
    ensures ReadValue(digits + rest) == Some((Number(digits), rest))
  {
    var t := digits + rest;
    assert t[0] == digits[0];
    NotALiteral(t);
    assert Units("[]")[0] == '[' as int && Units("{}")[0] == '{' as int;
    NumberReadsBack(digits, rest);
    assert t[..|digits|] == digits && t[|digits|..] == rest;
  }

  lemma QuotedReadsAsString(s: Str, rest: Str)
    ensures Starts(Quoted(s) + rest, '"')
    ensures ReadString((Quoted(s) + rest)[1..]) == Some((s, rest))
    ensures ReadValue(Quoted(s) + rest) == Some((String(s), rest))
  {
    var t := Quoted(s) + rest;
    NotALiteral(t);
    DropQuote(s, rest);
    StringReadsBack(s, rest);
  }

  /** What follows the opening bracket of a nonempty array, or a comma in it. */
  function FromItem(items: seq<Json>, rest: Str): Str
    requires |items| > 0
  {
    Text(items[0]) + (ItemsTail(items[1..]) + rest)
  }

  lemma {:induction false} ItemsReadBack(items: seq<Json>, rest: Str)
    requires |items| > 0 && forall i :: 0 <= i < |items| ==> Clean(items[i])
    ensures ReadItems(FromItem(items, rest)) == Some((items, rest))
    decreases items, 1
  {
    var tail := ItemsTail(items[1..]) + rest;
    ItemsTailStarts(items[1..], rest);
    ReadsBack(items[0], tail);
    if |items| > 1 {
      ItemsReadBack(items[1..], rest);
      assert items == [items[0]] + items[1..];
    } else {
      assert items == [items[0]];
    }
  }

  lemma ItemsTailStarts(items: seq<Json>, rest: Str)
    ensures var tail := ItemsTail(items) + rest;
            if |items| == 0 then Starts(tail, ']') && tail[1..] == rest
            else Starts(tail, ',') && tail[1..] == FromItem(items, rest)
  {
    if |items| > 0 {
      Associates([COMMA] + Text(items[0]), ItemsTail(items[1..]), rest);
      Associates([COMMA], Text(items[0]), ItemsTail(items[1..]) + rest);
      PrefixOf([COMMA], FromItem(items, rest));
    } else {
      PrefixOf([CLOSE_BRACKET], rest);
    }
  }

  predicate CleanMembers(members: seq<Member>) {
    forall i :: 0 <= i < |members| ==> members[i].value.Some? && Clean(members[i].value.value)
  }

  /** What follows the opening brace of a nonempty object, or a comma in it. */
  function FromKey(members: seq<Member>, rest: Str): Str
    requires |members| > 0 && CleanMembers(members)
  {
    Quoted(members[0].key) + ([COLON] + (Text(members[0].value.value) + (MembersText(members[1..], false) + rest)))
  }

  lemma {:induction false} MembersReadBack(members: seq<Member>, rest: Str)
    requires |members| > 0 && CleanMembers(members)
    ensures ReadMembers(FromKey(members, rest)) == Some((members, rest))
    decreases members, 1
  {
    var key, item := members[0].key, members[0].value.value;
    var tail := MembersText(members[1..], false) + rest;
    QuotedReadsAsString(key, [COLON] + (Text(item) + tail));
    PrefixOf([COLON], Text(item) + tail);
    MembersStart(members[1..], false, rest);
    ReadsBack(item, tail);
    assert members[0] == Member(key, Some(item));
    if |members| > 1 {
      MembersReadBack(members[1..], rest);
      assert members == [members[0]] + members[1..];
    } else {
      assert members == [members[0]];
    }
  }

  lemma MembersStart(members: seq<Member>, first: bool, rest: Str)
    requires CleanMembers(members)
    ensures var tail := MembersText(members, first) + rest;
            if |members| == 0 then Starts(tail, '}') && tail[1..] == rest
            else if first then tail == FromKey(members, rest)
            else Starts(tail, ',') && tail[1..] == FromKey(members, rest)
  {
    if |members| > 0 {
      var key, text := Quoted(members[0].key), Text(members[0].value.value);
      RightNested(if first then [] else [COMMA], key, [COLON], text, MembersText(members[1..], false), rest);
      assert [] + FromKey(members, rest) == FromKey(members, rest);
      PrefixOf([COMMA], FromKey(members, rest));
    } else {
      PrefixOf([CLOSE_BRACE], rest);
    }
  }

  lemma RightNested(a: Str, b: Str, c: Str, d: Str, e: Str, f: Str)
    ensures a + b + c + d + e + f == a + (b + (c + (d + (e + f))))
  {
    Associates(a + b + c + d, e, f);
    Associates(a + b + c, d, e + f);
    Associates(a + b, c, d + (e + f));
    Associates(a, b, c + (d + (e + f)));
  }

  lemma {:induction false} ArrayReadsBack(items: seq<Json>, rest: Str)
    requires forall i :: 0 <= i < |items| ==> Clean(items[i])
    ensures ReadValue(Text(Array(items)) + rest) == Some((Array(items), rest))
    decreases items, 2
  {
    var t := Text(Array(items)) + rest;
    NotALiteral(t);
    if |items| == 0 {
      assert Units("[]") == [OPEN_BRACKET, CLOSE_BRACKET];
      PrefixOf(Units("[]"), rest);
    } else {
      Associates([OPEN_BRACKET] + Text(items[0]), ItemsTail(items[1..]), rest);
      Associates([OPEN_BRACKET], Text(items[0]), ItemsTail(items[1..]) + rest);
      PrefixOf([OPEN_BRACKET], FromItem(items, rest));
      NoValueStartsWithBracket(items[0]);
      assert t[1] == FromItem(items, rest)[0] == Text(items[0])[0];
      assert Units("[]")[1] == ']' as int;
      ItemsReadBack(items, rest);
    }
  }

  lemma NoValueStartsWithBracket(v: Json)
    requires WellFormed(v)
    ensures |Text(v)| > 0 && Text(v)[0] != ']' as int
  {
  }

  lemma {:induction false} ObjectReadsBack(members: seq<Member>, rest: Str)
    requires CleanMembers(members)
    ensures ReadValue(Text(Object(members)) + rest) == Some((Object(members), rest))
    decreases members, 2
  {
    var t := Text(Object(members)) + rest;
    NotALiteral(t);
    assert Units("[]")[0] == '[' as int;
    Associates([OPEN_BRACE], MembersText(members, true), rest);
    PrefixOf([OPEN_BRACE], MembersText(members, true) + rest);
    MembersStart(members, true, rest);
    if |members| == 0 {
      assert Units("{}") == [OPEN_BRACE, CLOSE_BRACE];
      assert t == Units("{}") + rest;
      PrefixOf(Units("{}"), rest);
    } else {
      assert t[1] == FromKey(members, rest)[0] == '"' as int;
      assert Units("{}")[1] == '}' as int;
      MembersReadBack(members, rest);
    }
  }

  /** Every plain value is read back from its text, whatever follows it. */
  lemma {:induction false} ReadsBack(v: Json, rest: Str)
    requires Clean(v) && Follows(rest)
    ensures ReadValue(Text(v) + rest) == Some((v, rest))
    decreases v, 3
  {
    match v
    case Number(digits) => NumberReadsAsNumber(digits, rest);
    case String(text) => QuotedReadsAsString(text, rest);
    case Array(items) => ArrayReadsBack(items, rest);
    case Object(members) => ObjectReadsBack(members, rest);
    case _ => LiteralReadsBack(v, rest);
  }

  /** So equal texts are of equal values, and what follows them is equal too. */
  lemma Unambiguous(v: Json, w: Json, s: Str, t: Str)
    requires Clean(v) && Clean(w) && Follows(s) && Follows(t)
    requires Text(v) + s == Text(w) + t
    ensures v == w && s == t
  {
    ReadsBack(v, s);
    ReadsBack(w, t);
  }
}
