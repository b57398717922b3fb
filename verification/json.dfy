/** JSON documents as exchanged on the research socket: a value type, the compact
    encoder of `JSON.stringify` (the backend's `send_json` writes the same compact form),
    the parser both ends use (`JSON.parse`, `json.loads`), and the round trip that ties
    them together. */
module Json {
  import opened Wrappers
  import Text

  datatype Json =
    | JNull
    | JBool(b: bool)
    | JStr(s: string)
    | JArr(items: seq<Json>)
    | JObj(members: seq<Member>)

  datatype Member = Member(key: string, value: Json)

  /** The value of the LAST member called `key`: a later duplicate wins, in both
      `JSON.parse` and `json.loads`. */
  function Lookup(ms: seq<Member>, key: string): (r: Option<Json>)
    ensures r.None? <==> forall i :: 0 <= i < |ms| ==> ms[i].key != key
    ensures r.Some? ==> exists i :: 0 <= i < |ms| && ms[i].key == key && ms[i].value == r.value
                                      && forall j :: i < j < |ms| ==> ms[j].key != key
  {
    if ms == [] then None
    else
      var later := Lookup(ms[1..], key);
      if later.Some? then later
      else if ms[0].key == key then Some(ms[0].value)
      else None
  }

  /** A key that occurs once is found with its own value. */
  lemma LookupUnique(ms: seq<Member>, i: nat)
    requires i < |ms|
    requires forall j :: 0 <= j < |ms| && j != i ==> ms[j].key != ms[i].key
    ensures Lookup(ms, ms[i].key) == Some(ms[i].value)
  {
  }

  // ---------------------------------------------------------------- encoding

  function HexDigit(n: nat): (c: char)
    requires n < 16
  {
    "0123456789abcdef"[n]
  }

  function HexValue(c: char): (r: Option<nat>)
    ensures r.Some? ==> r.value < 16
  {
    if '0' <= c <= '9' then Some(c as nat - '0' as nat)
    else if 'a' <= c <= 'f' then Some(c as nat - 'a' as nat + 10)
    else if 'A' <= c <= 'F' then Some(c as nat - 'A' as nat + 10)
    else None
  }

  lemma HexRoundTrip(n: nat)
    requires n < 16
    ensures HexValue(HexDigit(n)) == Some(n)
  {
  }

  /** How one character of a string is written between the quotes. */
  function EscapeChar(c: char): (r: string)
    ensures |r| >= 1
  {
    if c == '"' then "\\\""
    else if c == '\\' then "\\\\"
    else if c == '\n' then "\\n"
    else if c == '\r' then "\\r"
    else if c == '\t' then "\\t"
    else if c == '\U{8}' then "\\b"
    else if c == '\U{C}' then "\\f"
    else if (c as int) < 0x20 then "\\u00" + [HexDigit(c as int / 16), HexDigit(c as int % 16)]
    else [c]
  }

  function Escape(s: string): string
  {
    if s == [] then [] else EscapeChar(s[0]) + Escape(s[1..])
  }

  function EncodeString(s: string): string
  {
    "\"" + Escape(s) + "\""
  }

  /** Compact serialisation, members in their stored order. */
  function Encode(v: Json): (r: string)
  {
    match v
    case JNull => "null"
    case JBool(b) => if b then "true" else "false"
    case JStr(s) => EncodeString(s)
    case JArr(items) => "[" + EncodeItems(items) + "]"
    case JObj(ms) => "{" + EncodeMembers(ms) + "}"
  }

  function EncodeItems(items: seq<Json>): string
  {
    if items == [] then ""
    else if |items| == 1 then Encode(items[0])
    else Encode(items[0]) + "," + EncodeItems(items[1..])
  }

  function EncodeMember(m: Member): string
  {
    EncodeString(m.key) + ":" + Encode(m.value)
  }

  function EncodeMembers(ms: seq<Member>): string
  {
    if ms == [] then ""
    else if |ms| == 1 then EncodeMember(ms[0])
    else EncodeMember(ms[0]) + "," + EncodeMembers(ms[1..])
  }

  // ---------------------------------------------------------------- parsing

  /** Insignificant whitespace of the JSON grammar. */
  predicate IsWs(c: char)
  {
    c == ' ' || c == '\t' || c == '\n' || c == '\r'
  }

  function SkipWs(s: string): (r: string)
    ensures |r| <= |s|
    ensures r == [] || !IsWs(r[0])
  {
    if |s| > 0 && IsWs(s[0]) then SkipWs(s[1..]) else s
  }

  /** The character an escape sequence stands for; `s` follows the backslash. */
  function ParseEscape(s: string): (r: Option<(char, string)>)
    ensures r.Some? ==> |r.value.1| < |s|
  {
    if |s| == 0 then None
    else if s[0] == '"' then Some(('"', s[1..]))
    else if s[0] == '\\' then Some(('\\', s[1..]))
    else if s[0] == '/' then Some(('/', s[1..]))
    else if s[0] == 'b' then Some(('\U{8}', s[1..]))
    else if s[0] == 'f' then Some(('\U{C}', s[1..]))
    else if s[0] == 'n' then Some(('\n', s[1..]))
    else if s[0] == 'r' then Some(('\r', s[1..]))
    else if s[0] == 't' then Some(('\t', s[1..]))
    else if s[0] == 'u' then
      if |s| < 5 || HexValue(s[1]).None? || HexValue(s[2]).None? || HexValue(s[3]).None? || HexValue(s[4]).None?
      then None
      else
        var code := ((HexValue(s[1]).value * 16 + HexValue(s[2]).value) * 16 + HexValue(s[3]).value) * 16
                    + HexValue(s[4]).value;
        if 0xD800 <= code < 0xE000 then None else Some((code as char, s[5..]))
    else None
  }

  /** The body of a string literal up to its closing quote; `s` follows the opening quote. */
  function ParseString(s: string): (r: Option<(string, string)>)
    ensures r.Some? ==> |r.value.1| < |s|
  {
    if |s| == 0 then None
    else if s[0] == '"' then Some(("", s[1..]))
    else if s[0] == '\\' then
      match ParseEscape(s[1..])
      case None => None
      case Some((c, rest)) =>
        match ParseString(rest)
        case None => None
        case Some((t, rest')) => Some(([c] + t, rest'))
    else if (s[0] as int) < 0x20 then None
    else
      match ParseString(s[1..])
      case None => None
      case Some((t, rest)) => Some(([s[0]] + t, rest))
  }

  /** One JSON value at the front of `s` (after optional whitespace), and what follows it. */
  function ParseValue(s: string): (r: Option<(Json, string)>)
    ensures r.Some? ==> |r.value.1| < |s|
    decreases |s|, 0
  {
    var t := SkipWs(s);
    if |t| == 0 then None
    else if t[0] == 'n' then ParseLiteral(t, "null", JNull)
    else if t[0] == 't' then ParseLiteral(t, "true", JBool(true))
    else if t[0] == 'f' then ParseLiteral(t, "false", JBool(false))
    else if t[0] == '"' then
      match ParseString(t[1..])
      case None => None
      case Some((str, rest)) => Some((JStr(str), rest))
    else if t[0] == '[' then ParseArray(t[1..])
    else if t[0] == '{' then ParseObject(t[1..])
    else None
  }

  function ParseLiteral(t: string, word: string, v: Json): (r: Option<(Json, string)>)
    requires |word| > 0
    ensures r.Some? ==> |r.value.1| < |t|
  {
    if Text.StartsWith(t, word) then Some((v, t[|word|..])) else None
  }

  /** Parsing a value that starts with `[` or `{` is parsing the rest as an array or object. */
  lemma ParseValueOpen(s: string)
    requires |s| > 0 && (s[0] == '[' || s[0] == '{')
    ensures ParseValue(s) == if s[0] == '[' then ParseArray(s[1..]) else ParseObject(s[1..])
  {
    SkipWsNoop(s);
  }

  /** An array whose `[` has been read. */
  function ParseArray(s: string): (r: Option<(Json, string)>)
    ensures r.Some? ==> |r.value.1| < |s|
    decreases |s|, 2
  {
    var t := SkipWs(s);
    if |t| > 0 && t[0] == ']' then Some((JArr([]), t[1..]))
    else
      match ParseElements(s)
      case None => None
      case Some((items, rest)) => Some((JArr(items), rest))
  }

  /** `value (, value)* ]` */
  function ParseElements(s: string): (r: Option<(seq<Json>, string)>)
    ensures r.Some? ==> |r.value.1| < |s|
    decreases |s|, 1
  {
    match ParseValue(s)
    case None => None
    case Some((v, rest)) =>
      var t := SkipWs(rest);
      if |t| > 0 && t[0] == ',' then
        match ParseElements(t[1..])
        case None => None
        case Some((vs, rest')) => Some(([v] + vs, rest'))
      else if |t| > 0 && t[0] == ']' then Some(([v], t[1..]))
      else None
  }

  /** An object whose `{` has been read. */
  function ParseObject(s: string): (r: Option<(Json, string)>)
    ensures r.Some? ==> |r.value.1| < |s|
    decreases |s|, 2
  {
    var t := SkipWs(s);
    if |t| > 0 && t[0] == '}' then Some((JObj([]), t[1..]))
    else
      match ParseMembers(s)
      case None => None
      case Some((ms, rest)) => Some((JObj(ms), rest))
  }

  /** `"key" : value (, "key" : value)* }` */
  function ParseMembers(s: string): (r: Option<(seq<Member>, string)>)
    ensures r.Some? ==> |r.value.1| < |s|
    decreases |s|, 1
  {
    var t := SkipWs(s);
    if |t| == 0 || t[0] != '"' then None
    else
      match ParseString(t[1..])
      case None => None
      case Some((key, rest)) =>
        var u := SkipWs(rest);
        if |u| == 0 || u[0] != ':' then None
        else
          match ParseValue(u[1..])
          case None => None
          case Some((v, rest')) => MembersAfter(Member(key, v), rest')
  }

  /** What follows a member `m`: `, "key" : value ...` or the closing brace. */
  function MembersAfter(m: Member, s: string): (r: Option<(seq<Member>, string)>)
    ensures r.Some? ==> |r.value.1| < |s|
    decreases |s|, 0
  {
    var w := SkipWs(s);
    if |w| > 0 && w[0] == ',' then
      match ParseMembers(w[1..])
      case None => None
      case Some((ms, rest)) => Some(([m] + ms, rest))
    else if |w| > 0 && w[0] == '}' then Some(([m], w[1..]))
    else None
  }

  /** A whole document: one value, surrounded by nothing but whitespace.
      `None` is the exception `JSON.parse` / `json.loads` raise. */
  function Decode(s: string): Option<Json>
  {
    match ParseValue(s)
    case None => None
    case Some((v, rest)) => if SkipWs(rest) == [] then Some(v) else None
  }

  // ---------------------------------------------------------------- round trip

  lemma SkipWsNoop(s: string)
    requires s == [] || !IsWs(s[0])
    ensures SkipWs(s) == s
  {
  }

  lemma {:induction false} EscapeCharRoundTrip(c: char, rest: string)
    ensures ParseString(EscapeChar(c) + rest) ==
              match ParseString(rest)
              case None => None
              case Some((t, r)) => Some(([c] + t, r))
  {
    var s := EscapeChar(c) + rest;
    if ShortEscaped(c) {
      ShortEscapeRoundTrip(c, rest);
      ParseStringEscape(s);
    } else if (c as int) < 0x20 {
      UnicodeEscapeRoundTrip(c, rest);
      ParseStringEscape(s);
    } else {
      assert s[0] == c && s[1..] == rest;
    }
  }

  /** The characters written as a backslash and one letter. */
  predicate ShortEscaped(c: char)
  {
    c == '"' || c == '\\' || c == '\n' || c == '\r' || c == '\t' || c == '\U{8}' || c == '\U{C}'
  }

  /** A string body that starts with a backslash continues after the escape sequence. */
  lemma ParseStringEscape(s: string)
    requires |s| > 0 && s[0] == '\\'
    ensures ParseString(s) ==
              match ParseEscape(s[1..])
              case None => None
              case Some((c, rest)) =>
                match ParseString(rest)
                case None => None
                case Some((t, rest')) => Some(([c] + t, rest'))
  {
  }

  lemma ShortEscapeRoundTrip(c: char, rest: string)
    requires ShortEscaped(c)
    ensures var s := EscapeChar(c) + rest;
      |s| > 0 && s[0] == '\\' && ParseEscape(s[1..]) == Some((c, rest))
  {
    var s := EscapeChar(c) + rest;
    assert s[0] == '\\' && s[1..] == [EscapeChar(c)[1]] + rest;
  }

  lemma UnicodeEscapeRoundTrip(c: char, rest: string)
    requires !ShortEscaped(c) && (c as int) < 0x20
    ensures var s := EscapeChar(c) + rest;
      |s| > 0 && s[0] == '\\' && ParseEscape(s[1..]) == Some((c, rest))
  {
    var s := EscapeChar(c) + rest;
    var hi, lo := c as int / 16, c as int % 16;
    HexRoundTrip(hi);
    HexRoundTrip(lo);
    assert s[0] == '\\' && s[1..] == ['u', '0', '0', HexDigit(hi), HexDigit(lo)] + rest;
    assert ((0 * 16 + 0) * 16 + hi) * 16 + lo == c as int;
    assert s[1..][5..] == rest;
  }

  lemma {:induction false} StringRoundTrip(x: string, rest: string)
    ensures ParseString(Escape(x) + "\"" + rest) == Some((x, rest))
  {
    if x == [] {
      assert Escape(x) + "\"" + rest == "\"" + rest;
    } else {
      assert Escape(x) + "\"" + rest == EscapeChar(x[0]) + (Escape(x[1..]) + "\"" + rest);
      EscapeCharRoundTrip(x[0], Escape(x[1..]) + "\"" + rest);
      StringRoundTrip(x[1..], rest);
      assert [x[0]] + x[1..] == x;
    }
  }

  lemma EncodeNonEmpty(v: Json)
    ensures |Encode(v)| > 0 && !IsWs(Encode(v)[0])
  {
  }

  /** Reading back what was written gives the same value, whatever follows it. */
  lemma {:induction false} ValueRoundTrip(v: Json, rest: string)
    ensures ParseValue(Encode(v) + rest) == Some((v, rest))
    decreases v, 1
  {
    match v
    case JNull => ScalarRoundTrip(v, rest);
    case JBool(_) => ScalarRoundTrip(v, rest);
    case JStr(_) => ScalarRoundTrip(v, rest);
    case JArr(items) => ArrayRoundTrip(items, rest);
    case JObj(ms) => ObjectRoundTrip(ms, rest);
  }

  lemma ScalarRoundTrip(v: Json, rest: string)
    requires !v.JArr? && !v.JObj?
    ensures ParseValue(Encode(v) + rest) == Some((v, rest))
  {
    var s := Encode(v) + rest;
    EncodeNonEmpty(v);
    SkipWsNoop(s);
    match v
    case JNull =>
      assert Text.StartsWith(s, "null") && s[4..] == rest;
    case JBool(b) =>
      if b {
        assert Text.StartsWith(s, "true") && s[4..] == rest;
      } else {
        assert s[0] == 'f';
        assert Text.StartsWith(s, "false") && s[5..] == rest;
      }
    case JStr(str) =>
      assert s[0] == '"';
      assert s[1..] == Escape(str) + "\"" + rest;
      StringRoundTrip(str, rest);
  }

  lemma {:induction false} ArrayRoundTrip(items: seq<Json>, rest: string)
    ensures ParseValue(Encode(JArr(items)) + rest) == Some((JArr(items), rest))
    decreases items, 2
  {
    var body := EncodeItems(items) + "]" + rest;
    ArrayOpen(items, rest);
    if items == [] {
      assert body == "]" + rest;
      SkipWsNoop(body);
      assert body[1..] == rest;
    } else {
      EncodeNonEmpty(items[0]);
      assert EncodeItems(items)[0] == Encode(items[0])[0];
      assert body[0] == Encode(items[0])[0];
      SkipWsNoop(body);
      ElementsRoundTrip(items, rest);
    }
  }

  /** An encoded array parses as its elements after the opening bracket. */
  lemma ArrayOpen(items: seq<Json>, rest: string)
    ensures ParseValue(Encode(JArr(items)) + rest) == ParseArray(EncodeItems(items) + "]" + rest)
  {
    var s := Encode(JArr(items)) + rest;
    var body := EncodeItems(items) + "]" + rest;
    assert s == "[" + body;
    assert s[0] == '[' && s[1..] == body;
    ParseValueOpen(s);
  }

  /** A non-empty member list is encoded starting with the quote of its first key. */
  lemma MembersFirstChar(ms: seq<Member>)
    requires ms != []
    ensures |EncodeMembers(ms)| > 0 && EncodeMembers(ms)[0] == '"'
  {
    var first := EncodeMember(ms[0]);
    assert first == "\"" + (Escape(ms[0].key) + "\"" + ":" + Encode(ms[0].value));
    if |ms| > 1 {
      assert EncodeMembers(ms) == first + ("," + EncodeMembers(ms[1..]));
    }
  }

  /** An encoded object parses as its members after the opening brace. */
  lemma ObjectOpen(ms: seq<Member>, rest: string)
    ensures ParseValue(Encode(JObj(ms)) + rest) == ParseObject(EncodeMembers(ms) + "}" + rest)
  {
    var s := Encode(JObj(ms)) + rest;
    var body := EncodeMembers(ms) + "}" + rest;
    assert s == "{" + body;
    assert s[0] == '{' && s[1..] == body;
    ParseValueOpen(s);
  }

  lemma {:induction false} ObjectRoundTrip(ms: seq<Member>, rest: string)
    ensures ParseValue(Encode(JObj(ms)) + rest) == Some((JObj(ms), rest))
    decreases ms, 2
  {
    var body := EncodeMembers(ms) + "}" + rest;
    ObjectOpen(ms, rest);
    if ms == [] {
      assert body == "}" + rest;
      SkipWsNoop(body);
      assert body[1..] == rest;
    } else {
      MembersFirstChar(ms);
      assert body[0] == '"';
      SkipWsNoop(body);
      MembersRoundTrip(ms, rest);
    }
  }

  lemma {:induction false} ElementsRoundTrip(items: seq<Json>, rest: string)
    requires items != []
    ensures ParseElements(EncodeItems(items) + "]" + rest) == Some((items, rest))
    decreases items, 0
  {
    var s := EncodeItems(items) + "]" + rest;
    if |items| == 1 {
      assert s == Encode(items[0]) + ("]" + rest);
      ValueRoundTrip(items[0], "]" + rest);
      SkipWsNoop("]" + rest);
      assert ("]" + rest)[1..] == rest;
      assert [items[0]] == items;
    } else {
      var tail := EncodeItems(items[1..]) + "]" + rest;
      assert s == Encode(items[0]) + ("," + tail);
      ValueRoundTrip(items[0], "," + tail);
      SkipWsNoop("," + tail);
      assert ("," + tail)[1..] == tail;
      ElementsRoundTrip(items[1..], rest);
      assert [items[0]] + items[1..] == items;
    }
  }

  lemma {:induction false} MembersRoundTrip(ms: seq<Member>, rest: string)
    requires ms != []
    ensures ParseMembers(EncodeMembers(ms) + "}" + rest) == Some((ms, rest))
    decreases ms, 0
  {
    var m := ms[0];
    var after := if |ms| == 1 then "}" + rest else "," + (EncodeMembers(ms[1..]) + "}" + rest);
    MembersText(ms, rest);
    MemberRoundTrip(m, after);
    SkipWsNoop(after);
    if |ms| == 1 {
      assert [m] == ms;
    } else {
      MembersRoundTrip(ms[1..], rest);
      assert [m] + ms[1..] == ms;
    }
  }

  /** An encoded member list is its first member, then a comma and the others or the
      closing brace. */
  lemma MembersText(ms: seq<Member>, rest: string)
    requires ms != []
    ensures var after := if |ms| == 1 then "}" + rest else "," + (EncodeMembers(ms[1..]) + "}" + rest);
      && EncodeMembers(ms) + "}" + rest == EncodeMember(ms[0]) + after
      && |after| > 0 && after[1..] == (if |ms| == 1 then rest else EncodeMembers(ms[1..]) + "}" + rest)
  {
  }

  /** After one member, the member parser continues exactly as after any member. */
  lemma {:induction false} MemberRoundTrip(m: Member, after: string)
    ensures ParseMembers(EncodeMember(m) + after) == MembersAfter(m, after)
    decreases m, 0
  {
    var u := ":" + Encode(m.value) + after;
    var s := EncodeMember(m) + after;
    MemberText(m, after);
    StringRoundTrip(m.key, u);
    MemberKeyStep(s, m.key, u);
    ValueRoundTrip(m.value, after);
  }

  /** How an encoded member followed by `after` splits at its quotes and colon. */
  lemma MemberText(m: Member, after: string)
    ensures var u := ":" + Encode(m.value) + after;
      var s := EncodeMember(m) + after;
      && |s| > 0 && s[0] == '"' && s[1..] == Escape(m.key) + "\"" + u
      && |u| > 0 && u[0] == ':' && u[1..] == Encode(m.value) + after
  {
    var u := ":" + Encode(m.value) + after;
    Regroup("\"", Escape(m.key), "\"", ":", Encode(m.value), after);
  }

  lemma Regroup(a: string, b: string, c: string, d: string, e: string, f: string)
    ensures a + b + c + d + e + f == a + (b + c + (d + e + f))
  {
  }

  /** Once the key of a member has been read, the member parser reads `:` and a value. */
  lemma MemberKeyStep(s: string, key: string, u: string)
    requires |s| > 0 && s[0] == '"' && ParseString(s[1..]) == Some((key, u))
    requires |u| > 0 && u[0] == ':'
    ensures ParseMembers(s) ==
      match ParseValue(u[1..])
      case None => None
      case Some((v, rest)) => MembersAfter(Member(key, v), rest)
  {
    SkipWsNoop(s);
    SkipWsNoop(u);
  }

  /** Parsing the compact text of `v` gives `v` back: `JSON.parse(JSON.stringify(v))`,
      or `json.loads` of the same text. */
  lemma RoundTrip(v: Json)
    ensures Decode(Encode(v)) == Some(v)
  {
    ValueRoundTrip(v, "");
    assert Encode(v) + "" == Encode(v);
  }
}
