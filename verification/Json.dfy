// JSON documents as RFC 8259 writes them: values, their compact text, and a reader that takes
// a value from the front of a text. The compact text has no white space between its tokens and
// no four-digit escapes, and the reader knows neither.
module Json {
  import opened Ids
  import opened JsonNumber

  datatype Value =
    | Null
    | Bool(truth: bool)
    | Number(digits: string)
    | String(text: string)
    | Array(items: seq<Value>)
    | Object(members: seq<Member>)

  datatype Member = Member(key: string, value: Value)

  // ------------------------------------------------------------ the text

  /** The characters that get a two-character escape. */
  function Escape(c: char): string {
    if c == '\\' then ['\\', '\\']
    else if c == '"' then ['\\', '"']
    else if c == '\n' then ['\\', 'n']
    else if c == '\r' then ['\\', 'r']
    else if c == '\t' then ['\\', 't']
    else [c]
  }

  function Escaped(value: string): string {
    if value == "" then "" else Escape(value[0]) + Escaped(value[1..])
  }

  function StringText(text: string): string {
    "\"" + (Escaped(text) + "\"")
  }

  function Text(v: Value): string
    decreases v
  {
    match v
    case Null => "null"
    case Bool(truth) => if truth then "true" else "false"
    case Number(digits) => digits
    case String(text) => StringText(text)
    case Array(items) => "[" + (ItemsText(items) + "]")
    case Object(members) => "{" + (MembersText(members) + "}")
  }

  function ItemsText(items: seq<Value>): string
    decreases items
  {
    if items == [] then ""
    else if |items| == 1 then Text(items[0])
    else Text(items[0]) + ("," + ItemsText(items[1..]))
  }

  function MemberText(m: Member): string
    decreases m
  {
    StringText(m.key) + (":" + Text(m.value))
  }

  function MembersText(members: seq<Member>): string
    decreases members
  {
    if members == [] then ""
    else if |members| == 1 then MemberText(members[0])
    else MemberText(members[0]) + ("," + MembersText(members[1..]))
  }

  // ------------------------------------------------------------ the reader

  /** Consumes exactly this text. */
  function Skip(s: string, text: string): Option<string> {
    if text <= s then Some(s[|text|..]) else None
  }

  function Unescape(c: char): Option<char> {
    if c == '\\' || c == '"' || c == '/' then Some(c)
    else if c == 'n' then Some('\n')
    else if c == 'r' then Some('\r')
    else if c == 't' then Some('\t')
    else if c == 'b' then Some(8 as char)
    else if c == 'f' then Some(12 as char)
    else None
  }

  function Before(c: char, s: Option<Parsed<string>>): Option<Parsed<string>> {
    match s
    case None => None
    case Some(p) => Some(Parsed([c] + p.value, p.rest))
  }

  /** The rest of a string after its opening quote: section 7 of RFC 8259. Control characters
      must not appear in it unescaped. */
  function ReadString(s: string): (r: Option<Parsed<string>>)
    ensures r.Some? ==> |r.value.rest| < |s|
    decreases |s|
  {
    if s == "" then None
    else if s[0] == '"' then Some(Parsed("", s[1..]))
    else if s[0] == '\\' then
      if |s| < 2 || Unescape(s[1]).None? then None else Before(Unescape(s[1]).value, ReadString(s[2..]))
    else if (s[0] as int) < 0x20 then None
    else Before(s[0], ReadString(s[1..]))
  }

  function ReadLiteral(s: string, literal: string, v: Value): Option<Parsed<Value>> {
    match Skip(s, literal)
    case None => None
    case Some(rest) => Some(Parsed(v, rest))
  }

  lemma NumberConsumes(s: string)
    ensures ReadNumber(s).Some? ==> |ReadNumber(s).value.rest| < |s|
  {
    if ReadNumber(s).Some? {
      ReadIsNumber(s);
      NumberChars(ReadNumber(s).value.value);
    }
  }

  function ReadValue(s: string): (r: Option<Parsed<Value>>)
    ensures r.Some? ==> |r.value.rest| < |s|
    decreases |s|, 0
  {
    if s == "" then None
    else if s[0] == '"' then
      match ReadString(s[1..])
      case None => None
      case Some(p) => Some(Parsed(String(p.value), p.rest))
    else if s[0] == '[' then
      if |s| > 1 && s[1] == ']' then Some(Parsed(Array([]), s[2..]))
      else
        match ReadItems(s[1..])
        case None => None
        case Some(p) => Some(Parsed(Array(p.value), p.rest))
    else if s[0] == '{' then
      if |s| > 1 && s[1] == '}' then Some(Parsed(Object([]), s[2..]))
      else
        match ReadMembers(s[1..])
        case None => None
        case Some(p) => Some(Parsed(Object(p.value), p.rest))
    else if s[0] == 'n' then ReadLiteral(s, "null", Null)
    else if s[0] == 't' then ReadLiteral(s, "true", Bool(true))
    else if s[0] == 'f' then ReadLiteral(s, "false", Bool(false))
    else
      NumberConsumes(s);
      match ReadNumber(s)
      case None => None
      case Some(p) => Some(Parsed(Number(p.value), p.rest))
  }

  /** The items of an array and its closing bracket. */
  function ReadItems(s: string): (r: Option<Parsed<seq<Value>>>)
    ensures r.Some? ==> |r.value.rest| < |s|
    decreases |s|, 1
  {
    match ReadValue(s)
    case None => None
    case Some(p) =>
      if p.rest == "" then None
      else if p.rest[0] == ']' then Some(Parsed([p.value], p.rest[1..]))
      else if p.rest[0] == ',' then Prepend(p.value, ReadItems(p.rest[1..]))
      else None
  }

  function Prepend<T>(first: T, others: Option<Parsed<seq<T>>>): Option<Parsed<seq<T>>> {
    match others
    case None => None
    case Some(p) => Some(Parsed([first] + p.value, p.rest))
  }

  /** A key in quotes, a colon and the value. */
  function ReadMember(s: string): (r: Option<Parsed<Member>>)
    ensures r.Some? ==> |r.value.rest| < |s|
    decreases |s|, 1
  {
    if s == "" || s[0] != '"' then None
    else
      match ReadString(s[1..])
      case None => None
      case Some(key) =>
        if key.rest == "" || key.rest[0] != ':' then None
        else
          match ReadValue(key.rest[1..])
          case None => None
          case Some(v) => Some(Parsed(Member(key.value, v.value), v.rest))
  }

  /** The members of an object and its closing brace. */
  function ReadMembers(s: string): (r: Option<Parsed<seq<Member>>>)
    ensures r.Some? ==> |r.value.rest| < |s|
    decreases |s|, 2
  {
    match ReadMember(s)
    case None => None
    case Some(p) =>
      if p.rest == "" then None
      else if p.rest[0] == '}' then Some(Parsed([p.value], p.rest[1..]))
      else if p.rest[0] == ',' then Prepend(p.value, ReadMembers(p.rest[1..]))
      else None
  }

  /** A text that is one value and nothing else. */
  function ReadDocument(s: string): Option<Value> {
    match ReadValue(s)
    case None => None
    case Some(p) => if p.rest == "" then Some(p.value) else None
  }

  // ------------------------------------------------------------ strings

  /** The text has no control characters but those that are escaped. */
  predicate Printable(value: string) {
    forall i :: 0 <= i < |value| ==> value[i] as int >= 0x20 || value[i] in ['\n', '\r', '\t']
  }

  /** What is escaped and how: quotation mark, backslash, line feed, carriage return and tab,
      by the letters of section 7 of RFC 8259. */
  lemma EscapesAre(c: char)
    ensures Escaped(['\\']) == ['\\', '\\'] && Escaped(['"']) == ['\\', '"']
    ensures Escaped(['\n']) == ['\\', 'n'] && Escaped(['\r']) == ['\\', 'r'] && Escaped(['\t']) == ['\\', 't']
    ensures c !in ['\\', '"', '\n', '\r', '\t'] ==> Escaped([c]) == [c]
  {
    assert [c][1..] == "";
  }

  /** Which characters may stand in a string as they are. */
  lemma PlainCharacters(c: char)
    requires c != '"' && c != '\\'
    ensures ReadString([c, '"']) == if c as int >= 32 then Some(Parsed([c], "")) else None
  {
    assert ['"'][1..] == "";
    assert ReadString(['"']) == Some(Parsed("", ""));
    assert [c, '"'][1..] == ['"'] && [c] + "" == [c];
  }

  lemma {:induction false} EscapedSplit(a: string, b: string)
    ensures Escaped(a + b) == Escaped(a) + Escaped(b)
  {
    if a == "" {
      assert a + b == b;
    } else {
      assert (a + b)[1..] == a[1..] + b;
      EscapedSplit(a[1..], b);
    }
  }

  /** A printed string ends at its own closing quote and nowhere earlier; one with another
      control character is no JSON string at all. */
  lemma {:induction false} EscapedIsRead(value: string, rest: string)
    ensures ReadString(Escaped(value) + ("\"" + rest)) == if Printable(value) then Some(Parsed(value, rest)) else None
  {
    if value == "" {
      assert Escaped(value) + ("\"" + rest) == "\"" + rest;
      assert ("\"" + rest)[1..] == rest;
    } else {
      var tail := Escaped(value[1..]) + ("\"" + rest);
      assert Escaped(value) + ("\"" + rest) == Escape(value[0]) + tail;
      EscapedIsRead(value[1..], rest);
      FirstIsRead(value[0], tail);
      assert value == [value[0]] + value[1..];
      assert Printable(value) <==> Printable([value[0]]) && Printable(value[1..]) by {
        assert forall i :: 1 <= i < |value| ==> value[i] == value[1..][i - 1];
      }
    }
  }

  lemma FirstIsRead(c: char, tail: string)
    ensures ReadString(Escape(c) + tail) == if !Printable([c]) then None else Before(c, ReadString(tail))
  {
    var s := Escape(c) + tail;
    if |Escape(c)| == 2 {
      assert s[2..] == tail;
    } else {
      assert s[1..] == tail && s[0] == c;
    }
    assert [c][0] == c;
  }

  lemma StringIsRead(text: string, rest: string)
    ensures var s := StringText(text) + rest;
            s[0] == '"' && ReadString(s[1..]) == if Printable(text) then Some(Parsed(text, rest)) else None
  {
    EscapedIsRead(text, rest);
    assert (StringText(text) + rest)[1..] == Escaped(text) + ("\"" + rest);
  }

  // ------------------------------------------------------------ what is read of a text

  /** What a stream prints for a floating point number: inf and nan are possible. */
  predicate IsStreamText(s: string) {
    s != "" && forall i :: 0 <= i < |s| ==> IsNumberChar(s[i]) || s[i] in ['i', 'n', 'f', 'a']
  }

  /** In place of every number stands something a stream printed for one. */
  ghost predicate Streamed(v: Value)
    decreases v
  {
    match v
    case Number(digits) => IsStreamText(digits)
    case Array(items) => forall i :: 0 <= i < |items| ==> Streamed(items[i])
    case Object(members) => forall i :: 0 <= i < |members| ==> Streamed(members[i].value)
    case _ => true
  }

  /** The text of the value is JSON. */
  ghost predicate WellFormed(v: Value)
    decreases v
  {
    match v
    case Number(digits) => IsJsonNumber(digits)
    case String(text) => Printable(text)
    case Array(items) => forall i :: 0 <= i < |items| ==> WellFormed(items[i])
    case Object(members) => forall i :: 0 <= i < |members| ==> WellFormedMember(members[i])
    case _ => true
  }

  ghost predicate WellFormedMember(m: Member)
    decreases m
  {
    Printable(m.key) && WellFormed(m.value)
  }

  /** What was read ends at the stop behind it if it is well formed, and otherwise at no stop. */
  predicate IsReadIff<T(==)>(wellFormed: bool, p: Option<Parsed<T>>, v: T, rest: string) {
    if wellFormed then p == Some(Parsed(v, rest)) else p.Some? ==> !StopsAt(p.value.rest)
  }

  lemma LiteralIsRead(s: string, rest: string)
    ensures s == "null" ==> ReadValue(s + rest) == Some(Parsed(Null, rest))
    ensures s == "true" ==> ReadValue(s + rest) == Some(Parsed(Bool(true), rest))
    ensures s == "false" ==> ReadValue(s + rest) == Some(Parsed(Bool(false), rest))
  {
    assert (s + rest)[|s|..] == rest;
    assert s <= s + rest;
  }

  lemma NumberIsTried(s: string, digits: string, rest: string)
    requires s != "" && s[0] !in ['"', '[', '{', 't'] && !("null" <= s) && !("false" <= s)
    requires IsReadIff(IsJsonNumber(digits), ReadNumber(s), digits, rest)
    ensures IsReadIff(IsJsonNumber(digits), ReadValue(s), Number(digits), rest)
  {
  }

  lemma DigitsAreTried(digits: string, rest: string)
    requires IsStreamText(digits) && StopsAt(rest)
    ensures IsReadIff(IsJsonNumber(digits), ReadNumber(digits + rest), digits, rest)
  {
    if IsJsonNumber(digits) {
      NumberIsRead(digits, rest);
    } else {
      OthersAreNotRead(digits, rest);
    }
  }

  lemma NumberValueIsRead(digits: string, rest: string)
    requires IsStreamText(digits) && StopsAt(rest)
    ensures IsReadIff(WellFormed(Number(digits)), ReadValue(digits + rest), Number(digits), rest)
  {
    NoLiteral(digits, rest);
    DigitsAreTried(digits, rest);
    NumberIsTried(digits + rest, digits, rest);
  }

  /** No stream text begins like anything but a number. */
  lemma NoLiteral(digits: string, rest: string)
    requires IsStreamText(digits) && StopsAt(rest)
    ensures var s := digits + rest;
            s[0] == digits[0] && s[0] !in ['"', '[', '{', 't'] && !("null" <= s) && !("false" <= s)
  {
    var s := digits + rest;
    assert |digits| > 1 ==> s[1] == digits[1];
    assert |digits| > 2 ==> s[2] == digits[2];
    assert s[|digits|] == rest[0];
    assert "null"[1] == 'u' && "false"[1] == 'a' && "false"[2] == 'l';
  }

  lemma ItemsTextSplit(items: seq<Value>, rest: string)
    requires |items| > 1
    ensures ItemsText(items) + rest == Text(items[0]) + ("," + (ItemsText(items[1..]) + rest))
  {
    Regrouped(Text(items[0]), ",", ItemsText(items[1..]), rest);
  }

  lemma MembersTextSplit(members: seq<Member>, rest: string)
    requires |members| > 1
    ensures MembersText(members) + rest == MemberText(members[0]) + ("," + (MembersText(members[1..]) + rest))
  {
    Regrouped(MemberText(members[0]), ",", MembersText(members[1..]), rest);
  }

  lemma Regrouped(a: string, b: string, c: string, rest: string)
    ensures (a + (b + c)) + rest == a + (b + (c + rest))
  {
    assert (b + c) + rest == b + (c + rest);
  }

  /** No value's text starts like the end of a list. */
  lemma TextStarts(v: Value)
    requires Streamed(v)
    ensures Text(v) != "" && !IsStop(Text(v)[0])
  {
  }

  lemma ListStarts(s: string, text: string, tail: string)
    requires text != "" && !IsStop(text[0]) && text <= s
    ensures !StopsAt(s + tail) && s + tail != ""
  {
  }

  /** A value in a document is read whole, up to the stop behind it, if it is well formed, and
      otherwise the reader gets to no stop. */
  lemma {:induction false} ValueIsRead(v: Value, rest: string)
    requires Streamed(v) && StopsAt(rest)
    ensures IsReadIff(WellFormed(v), ReadValue(Text(v) + rest), v, rest)
    decreases v
  {
    match v {
      case Null => LiteralIsRead("null", rest);
      case Bool(truth) => LiteralIsRead(Text(v), rest);
      case Number(digits) => NumberValueIsRead(digits, rest);
      case String(text) => StringIsRead(text, rest);
      case Array(items) => ArrayIsRead(items, rest);
      case Object(members) => ObjectIsRead(members, rest);
    }
  }

  lemma {:induction false} ArrayIsRead(items: seq<Value>, rest: string)
    requires Streamed(Array(items))
    ensures ReadValue(Text(Array(items)) + rest)
            == if WellFormed(Array(items)) then Some(Parsed(Array(items), rest)) else None
    decreases items, 1
  {
    var s := Text(Array(items)) + rest;
    Regrouped("[", ItemsText(items), "]", rest);
    assert s[1..] == ItemsText(items) + ("]" + rest);
    if items == [] {
      assert s[1..] == "]" + rest;
      assert s[2..] == rest;
    } else {
      ItemsAreRead(items, rest);
      TextStarts(items[0]);
      ListStarts(ItemsText(items), Text(items[0]), "]" + rest);
      assert s[1] == s[1..][0];
    }
  }

  lemma {:induction false} ItemsAreRead(items: seq<Value>, rest: string)
    requires items != [] && Streamed(Array(items))
    ensures ReadItems(ItemsText(items) + ("]" + rest))
            == if WellFormed(Array(items)) then Some(Parsed(items, rest)) else None
    decreases items, 0
  {
    if |items| == 1 {
      ValueIsRead(items[0], "]" + rest);
      LastItem(items, rest);
    } else {
      var tail := ItemsText(items[1..]) + ("]" + rest);
      ValueIsRead(items[0], "," + tail);
      ItemsAreRead(items[1..], rest);
      ItemsTextSplit(items, "]" + rest);
      NextItem(items, tail, rest);
    }
  }

  lemma LastItem(items: seq<Value>, rest: string)
    requires |items| == 1
    requires var s := "]" + rest; IsReadIff(WellFormed(items[0]), ReadValue(Text(items[0]) + s), items[0], s)
    ensures ReadItems(ItemsText(items) + ("]" + rest))
            == if WellFormed(Array(items)) then Some(Parsed(items, rest)) else None
  {
    assert ("]" + rest)[1..] == rest;
    assert items == [items[0]];
  }

  lemma NextItem(items: seq<Value>, tail: string, rest: string)
    requires |items| > 1
    requires var s := "," + tail; IsReadIff(WellFormed(items[0]), ReadValue(Text(items[0]) + s), items[0], s)
    requires ReadItems(tail) == if WellFormed(Array(items[1..])) then Some(Parsed(items[1..], rest)) else None
    ensures ReadItems(Text(items[0]) + ("," + tail))
            == if WellFormed(Array(items)) then Some(Parsed(items, rest)) else None
  {
    assert ("," + tail)[1..] == tail;
    assert items == [items[0]] + items[1..];
    assert WellFormed(Array(items)) <==> WellFormed(items[0]) && WellFormed(Array(items[1..])) by {
      assert forall i :: 1 <= i < |items| ==> items[i] == items[1..][i - 1];
    }
  }

  lemma {:induction false} ObjectIsRead(members: seq<Member>, rest: string)
    requires Streamed(Object(members))
    ensures ReadValue(Text(Object(members)) + rest)
            == if WellFormed(Object(members)) then Some(Parsed(Object(members), rest)) else None
    decreases members, 1
  {
    var s := Text(Object(members)) + rest;
    Regrouped("{", MembersText(members), "}", rest);
    assert s[1..] == MembersText(members) + ("}" + rest);
    if members == [] {
      assert s[1..] == "}" + rest;
      assert s[2..] == rest;
    } else {
      MembersAreRead(members, rest);
      ListStarts(MembersText(members), MemberText(members[0]), "}" + rest);
      assert s[1] == s[1..][0];
    }
  }

  lemma {:induction false} MembersAreRead(members: seq<Member>, rest: string)
    requires members != [] && Streamed(Object(members))
    ensures ReadMembers(MembersText(members) + ("}" + rest))
            == if WellFormed(Object(members)) then Some(Parsed(members, rest)) else None
    decreases members, 0
  {
    if |members| == 1 {
      MemberIsRead(members[0], "}" + rest);
      LastMember(members, rest);
    } else {
      var tail := MembersText(members[1..]) + ("}" + rest);
      MemberIsRead(members[0], "," + tail);
      MembersAreRead(members[1..], rest);
      MembersTextSplit(members, "}" + rest);
      NextMember(members, tail, rest);
    }
  }

  lemma LastMember(members: seq<Member>, rest: string)
    requires |members| == 1
    requires var s := "}" + rest;
             IsReadIff(WellFormedMember(members[0]), ReadMember(MemberText(members[0]) + s), members[0], s)
    ensures ReadMembers(MembersText(members) + ("}" + rest))
            == if WellFormed(Object(members)) then Some(Parsed(members, rest)) else None
  {
    assert ("}" + rest)[1..] == rest;
    assert members == [members[0]];
  }

  lemma NextMember(members: seq<Member>, tail: string, rest: string)
    requires |members| > 1
    requires var s := "," + tail;
             IsReadIff(WellFormedMember(members[0]), ReadMember(MemberText(members[0]) + s), members[0], s)
    requires ReadMembers(tail) == if WellFormed(Object(members[1..])) then Some(Parsed(members[1..], rest)) else None
    ensures ReadMembers(MemberText(members[0]) + ("," + tail))
            == if WellFormed(Object(members)) then Some(Parsed(members, rest)) else None
  {
    assert ("," + tail)[1..] == tail;
    assert members == [members[0]] + members[1..];
    assert WellFormed(Object(members)) <==> WellFormedMember(members[0]) && WellFormed(Object(members[1..])) by {
      assert forall i :: 1 <= i < |members| ==> members[i] == members[1..][i - 1];
    }
  }

  lemma {:induction false} MemberIsRead(m: Member, rest: string)
    requires Streamed(m.value) && StopsAt(rest)
    ensures IsReadIff(WellFormedMember(m), ReadMember(MemberText(m) + rest), m, rest)
    decreases m
  {
    var value := Text(m.value) + rest;
    Regrouped(StringText(m.key), ":", Text(m.value), rest);
    StringIsRead(m.key, ":" + value);
    assert (":" + value)[1..] == value;
    ValueIsRead(m.value, rest);
  }

  /** The text of an object is a JSON document if and only if the object is well formed, and is
      then that object. */
  lemma DocumentRoundTrip(members: seq<Member>)
    requires Streamed(Object(members))
    ensures ReadDocument(Text(Object(members)))
            == if WellFormed(Object(members)) then Some(Object(members)) else None
  {
    ObjectIsRead(members, "");
    assert Text(Object(members)) + "" == Text(Object(members));
  }

  // ------------------------------------------------------------ one line

  predicate OneLine(s: string) {
    '\n' !in s && '\r' !in s
  }

  lemma {:induction false} EscapedIsOneLine(value: string)
    ensures OneLine(Escaped(value))
  {
    if value == "" {
    } else {
      EscapedIsOneLine(value[1..]);
    }
  }

  lemma JoinedIsOneLine(a: string, b: string)
    requires OneLine(a) && OneLine(b)
    ensures OneLine(a + b)
  {
  }

  /** The text of a value is one line, whatever the strings in it contain. */
  lemma {:induction false} TextIsOneLine(v: Value)
    requires Streamed(v)
    ensures OneLine(Text(v))
    decreases v
  {
    match v {
      case String(text) => EscapedIsOneLine(text);
      case Array(items) => ItemsAreOneLine(items);
      case Object(members) => MembersAreOneLine(members);
      case _ =>
    }
  }

  lemma {:induction false} ItemsAreOneLine(items: seq<Value>)
    requires Streamed(Array(items))
    ensures OneLine(ItemsText(items))
    decreases items
  {
    if items == [] {
    } else {
      TextIsOneLine(items[0]);
      ItemsAreOneLine(items[1..]);
    }
  }

  lemma {:induction false} MembersAreOneLine(members: seq<Member>)
    requires Streamed(Object(members))
    ensures OneLine(MembersText(members))
    decreases members
  {
    if members == [] {
    } else {
      MemberIsOneLine(members[0]);
      MembersAreOneLine(members[1..]);
    }
  }

  lemma {:induction false} MemberIsOneLine(m: Member)
    requires Streamed(m.value)
    ensures OneLine(MemberText(m))
    decreases m
  {
    EscapedIsOneLine(m.key);
    TextIsOneLine(m.value);
    JoinedIsOneLine(":", Text(m.value));
    JoinedIsOneLine(StringText(m.key), ":" + Text(m.value));
  }
}
