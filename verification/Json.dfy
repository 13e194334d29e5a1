/** JSON objects for log lines: what Go's `encoding/json` writes, and how section 7 of RFC 8259 reads it back. */
module Json {
  import opened Text
  import opened Demux

  function HexDigit(n: nat): char
    requires n < 16
  {
    if n < 10 then ('0' as int + n) as char else ('a' as int + n - 10) as char
  }

  function HexValue(c: char): Option<nat> {
    if '0' <= c <= '9' then Some(c as int - '0' as int)
    else if 'a' <= c <= 'f' then Some(c as int - 'a' as int + 10)
    else if 'A' <= c <= 'F' then Some(c as int - 'A' as int + 10)
    else None
  }

  /** The escape `\uXXXX` for a character of the basic plane. */
  function UnicodeEscape(c: char): string
    requires c as int < 0x1_0000
  {
    var n := c as int;
    ['\\', 'u', HexDigit(n / 0x1000), HexDigit(n / 0x100 % 16), HexDigit(n / 16 % 16), HexDigit(n % 16)]
  }

  /** Go escapes quotes, backslashes and controls, and also the characters that upset HTML and JavaScript. */
  function EscapeChar(c: char): (e: string)
    ensures |e| >= 1 && forall d | d in e :: ' ' <= d
  {
    if c == '"' then ['\\', '"']
    else if c == '\\' then ['\\', '\\']
    else if c == 8 as char then "\\b"
    else if c == 12 as char then "\\f"
    else if c == '\n' then "\\n"
    else if c == '\r' then "\\r"
    else if c == '\t' then "\\t"
    else if c < ' ' || c == '<' || c == '>' || c == '&' || c == '\U{2028}' || c == '\U{2029}' then UnicodeEscape(c)
    else [c]
  }

  function Escape(s: string): (e: string)
    ensures forall d | d in e :: ' ' <= d
  {
    if s == "" then "" else EscapeChar(s[0]) + Escape(s[1..])
  }

  const OPEN := "{\"stream\":\""
  const MIDDLE := ",\"text\":\""
  const CLOSE := "}"

  /** `json.Marshal` of a log line. No control character survives, so no line break does. */
  function Marshal(line: LogLine): (payload: string)
    ensures forall d | d in payload :: ' ' <= d
  {
    OPEN + (Escape(line.stream) + "\"" + (MIDDLE + (Escape(line.text) + "\"" + CLOSE)))
  }

  /** The one-letter escapes of section 7. */
  function ShortEscape(c: char): Option<char> {
    if c == '"' || c == '\\' || c == '/' then Some(c)
    else if c == 'b' then Some(8 as char)
    else if c == 'f' then Some(12 as char)
    else if c == 'n' then Some('\n')
    else if c == 'r' then Some('\r')
    else if c == 't' then Some('\t')
    else None
  }

  /** Four hexadecimal digits as a character outside the surrogate range. */
  function HexChar(s: string): Option<char>
    requires |s| == 4
  {
    match (HexValue(s[0]), HexValue(s[1]), HexValue(s[2]), HexValue(s[3]))
    case (Some(a), Some(b), Some(c), Some(d)) =>
      var n := a * 0x1000 + b * 0x100 + c * 16 + d;
      if n < 0xD800 || 0xE000 <= n < 0x1_0000 then Some(n as char) else None
    case _ => None
  }

  /** The first character of a string body, and what follows it; None at the closing quote or where it is malformed. */
  function ReadChar(s: string): (r: Option<(char, string)>)
    ensures r.Some? ==> |r.value.1| < |s|
  {
    if s == "" || s[0] == '"' || s[0] < ' ' then None
    else if s[0] != '\\' then Some((s[0], s[1..]))
    else if |s| < 2 then None
    else if s[1] != 'u' then
      match ShortEscape(s[1])
      case Some(c) => Some((c, s[2..]))
      case None => None
    else if |s| < 6 then None
    else
      match HexChar(s[2..6])
      case Some(c) => Some((c, s[6..]))
      case None => None
  }

  /** A string body up to its closing quote, and what follows the quote. */
  function ReadString(s: string): (r: Option<(string, string)>)
    ensures r.Some? ==> |r.value.1| < |s|
    decreases |s|
  {
    if s != "" && s[0] == '"' then Some(("", s[1..]))
    else
      match ReadChar(s)
      case None => None
      case Some((c, rest)) =>
        match ReadString(rest)
        case None => None
        case Some((tail, after)) => Some(([c] + tail, after))
  }

  /** Insignificant whitespace (section 2). */
  function SkipSpace(s: string): (t: string)
    ensures |t| <= |s|
  {
    if s != "" && (s[0] == ' ' || s[0] == '\t' || s[0] == '\n' || s[0] == '\r') then SkipSpace(s[1..]) else s
  }

  /** One structural character, with space around it. */
  function Expect(token: char, s: string): (r: Option<string>)
    ensures r.Some? ==> |r.value| < |s|
  {
    var t := SkipSpace(s);
    if t != "" && t[0] == token then Some(SkipSpace(t[1..])) else None
  }

  /** A string between quotes, and what follows it. */
  function ReadQuoted(s: string): (r: Option<(string, string)>)
    ensures r.Some? ==> |r.value.1| < |s|
  {
    if s == "" || s[0] != '"' then None else ReadString(s[1..])
  }

  /** One member of an object whose values are strings, and what follows it. */
  function ReadMember(s: string): (r: Option<(string, string, string)>)
    ensures r.Some? ==> |r.value.2| < |s|
  {
    match ReadQuoted(s)
    case None => None
    case Some((name, s1)) =>
      match Expect(':', s1)
      case None => None
      case Some(s2) =>
        match ReadQuoted(s2)
        case None => None
        case Some((value, s3)) => Some((name, value, s3))
  }

  /** The members up to the closing brace, which must be the last character; a name that comes again replaces the first. */
  function ReadMembers(s: string, sofar: map<string, string>): Option<map<string, string>>
    decreases |s|
  {
    match ReadMember(s)
    case None => None
    case Some((name, value, rest)) =>
      var members := sofar[name := value];
      match Expect(',', rest)
      case Some(more) => ReadMembers(more, members)
      case None => if Expect('}', rest) == Some("") then Some(members) else None
  }

  /** An object whose values are strings (sections 4 and 7), in any order of its members. */
  function ReadObject(payload: string): Option<map<string, string>> {
    match Expect('{', payload)
    case None => None
    case Some(s) => if Expect('}', s) == Some("") then Some(map[]) else ReadMembers(s, map[])
  }

  /** Reads a log line object back, as the page does: by the names of its fields. */
  function Unmarshal(payload: string): Option<LogLine> {
    match ReadObject(payload)
    case None => None
    case Some(members) =>
      if "stream" in members && "text" in members then Some(LogLine(members["stream"], members["text"])) else None
  }

  lemma HexRoundTrip(n: nat)
    requires n < 16
    ensures HexValue(HexDigit(n)) == Some(n)
  {
  }

  /** Digits may come in either case, and nothing else is one. */
  lemma HexDigitsInEitherCase(c: char)
    ensures HexValue('a') == HexValue('A') == Some(10) && HexValue('f') == HexValue('F') == Some(15)
    ensures 'A' <= c <= 'F' ==> HexValue(c) == HexValue((c as int + 32) as char)
    ensures HexValue(c).Some? <==> '0' <= c <= '9' || 'a' <= c <= 'f' || 'A' <= c <= 'F'
  {
  }

  lemma HexDigitsSum(n: nat)
    requires n < 0x1_0000
    ensures n / 0x1000 < 16
    ensures n / 0x1000 * 0x1000 + n / 0x100 % 16 * 0x100 + n / 16 % 16 * 16 + n % 16 == n
  {
    var a, b := n / 0x100, n / 16;
    assert n / 0x1000 == a / 16 && a == b / 16;
    assert a == a / 16 * 16 + a % 16;
    assert b == b / 16 * 16 + b % 16;
    assert n == n / 16 * 16 + n % 16;
  }

  lemma HexCharRoundTrip(c: char)
    requires c as int < 0xD800
    ensures HexChar(UnicodeEscape(c)[2..]) == Some(c)
  {
    var n := c as int;
    HexRoundTrip(n / 0x1000);
    HexRoundTrip(n / 0x100 % 16);
    HexRoundTrip(n / 16 % 16);
    HexRoundTrip(n % 16);
    HexDigitsSum(n);
  }

  lemma ReadUnicodeEscape(c: char, rest: string)
    requires c as int < 0xD800
    ensures ReadChar(UnicodeEscape(c) + rest) == Some((c, rest))
  {
    HexCharRoundTrip(c);
    var s := UnicodeEscape(c) + rest;
    assert s[0] == '\\' && s[1] == 'u';
    assert s[2..6] == UnicodeEscape(c)[2..];
    assert s[6..] == rest;
  }

  lemma ReadEscapedChar(c: char, rest: string)
    ensures ReadChar(EscapeChar(c) + rest) == Some((c, rest))
    ensures (EscapeChar(c) + rest)[0] != '"'
  {
    var s := EscapeChar(c) + rest;
    if |EscapeChar(c)| == 6 {
      ReadUnicodeEscape(c, rest);
    } else if |EscapeChar(c)| == 2 {
      assert s[2..] == rest;
    } else {
      assert s[1..] == rest;
    }
  }

  lemma {:induction false} ReadEscaped(t: string, rest: string)
    ensures ReadString(Escape(t) + "\"" + rest) == Some((t, rest))
  {
    if t == "" {
      assert (Escape(t) + "\"" + rest)[1..] == rest;
    } else {
      var first, tail := EscapeChar(t[0]), Escape(t[1..]);
      Reassociate(first, tail, "\"");
      Reassociate(first, tail + "\"", rest);
      ReadEscapedChar(t[0], tail + "\"" + rest);
      ReadEscaped(t[1..], rest);
      assert t == [t[0]] + t[1..];
    }
  }

  lemma ExpectToken(token: char, rest: string)
    requires token in {'{', '}', ':', ','}
    requires rest != "" ==> rest[0] == '"' || rest[0] in {'{', '}', ':', ','}
    ensures Expect(token, [token] + rest) == Some(rest)
  {
    assert ([token] + rest)[1..] == rest;
  }

  /** A quoted string, and what is written after it. */
  function Quoted(t: string, rest: string): string {
    ['"'] + (Escape(t) + "\"" + rest)
  }

  /** A member of an object, and what is written after it. */
  function Member(name: string, value: string, rest: string): (m: string)
    ensures m != "" && m[0] == '"'
  {
    Quoted(name, [':'] + Quoted(value, rest))
  }

  lemma ReadQuotedRoundTrip(t: string, rest: string)
    ensures ReadQuoted(Quoted(t, rest)) == Some((t, rest))
  {
    assert Quoted(t, rest)[1..] == Escape(t) + "\"" + rest;
    ReadEscaped(t, rest);
  }

  lemma ReadMemberRoundTrip(name: string, value: string, rest: string)
    ensures ReadMember(Member(name, value, rest)) == Some((name, value, rest))
  {
    var after := Quoted(value, rest);
    ReadQuotedRoundTrip(name, [':'] + after);
    ExpectToken(':', after);
    ReadQuotedRoundTrip(value, rest);
  }

  /** The last member of an object. */
  lemma ReadLastMember(name: string, value: string, sofar: map<string, string>)
    ensures ReadMembers(Member(name, value, "}"), sofar) == Some(sofar[name := value])
  {
    ReadMemberRoundTrip(name, value, "}");
    ExpectToken('}', "");
    assert ['}'] + "" == "}";
  }

  /** A member with more to come. */
  lemma ReadNextMember(name: string, value: string, more: string, sofar: map<string, string>)
    requires more != "" && more[0] == '"'
    ensures ReadMembers(Member(name, value, [','] + more), sofar) == ReadMembers(more, sofar[name := value])
  {
    ReadMemberRoundTrip(name, value, [','] + more);
    ExpectToken(',', more);
  }

  /** Two members, as they are written. */
  lemma ReadTwoMembers(a: string, x: string, b: string, y: string)
    ensures ReadObject(['{'] + Member(a, x, [','] + Member(b, y, "}"))) == Some(map[a := x][b := y])
  {
    var last := Member(b, y, "}");
    var first := Member(a, x, [','] + last);
    ExpectToken('{', first);
    ReadNextMember(a, x, last, map[]);
    ReadLastMember(b, y, map[a := x]);
  }

  /** The brackets around a member's value are one token. */
  lemma TokensJoin(first: char, name: string, value: string)
    ensures [first] + (['"'] + (name + "\"" + ([':'] + (['"'] + value)))) == [first] + "\"" + name + "\":\"" + value
  {
  }

  /** What a page must not see raw: markup, and the separators that end a line in JavaScript. */
  predicate IsMarkup(c: char) {
    c == '<' || c == '>' || c == '&' || c == '\U{2028}' || c == '\U{2029}'
  }

  predicate NoMarkup(s: string) {
    forall d | d in s :: !IsMarkup(d)
  }

  lemma NoMarkupTogether(a: string, b: string)
    requires NoMarkup(a) && NoMarkup(b)
    ensures NoMarkup(a + b)
  {
  }

  lemma {:induction false} EscapedHasNoMarkup(s: string)
    ensures NoMarkup(Escape(s))
  {
    if s != "" {
      EscapedHasNoMarkup(s[1..]);
      assert NoMarkup(EscapeChar(s[0]));
    }
  }

  /** No payload holds any of it. */
  lemma MarshalHasNoMarkup(line: LogLine)
    ensures NoMarkup(Marshal(line))
  {
    var stream, text := Escape(line.stream), Escape(line.text);
    EscapedHasNoMarkup(line.stream);
    EscapedHasNoMarkup(line.text);
    assert NoMarkup(OPEN) && NoMarkup(MIDDLE) && NoMarkup("\"") && NoMarkup(CLOSE);
    NoMarkupTogether("\"", CLOSE);
    Reassociate(text, "\"", CLOSE);
    NoMarkupTogether(text, "\"" + CLOSE);
    NoMarkupTogether(MIDDLE, text + "\"" + CLOSE);
    NoMarkupTogether(stream, "\"");
    NoMarkupTogether(stream + "\"", MIDDLE + (text + "\"" + CLOSE));
    NoMarkupTogether(OPEN, stream + "\"" + (MIDDLE + (text + "\"" + CLOSE)));
  }

  predicate IsPlain(c: char) {
    ' ' <= c && c != '"' && c != '\\' && c != '<' && c != '>' && c != '&' && c != '\U{2028}' && c != '\U{2029}'
  }

  /** Text without quotes, backslashes, controls, angle brackets, ampersands and the two Unicode separators is written as it
      is. */
  lemma {:induction false} PlainTextIsWrittenAsItIs(s: string)
    requires forall i | 0 <= i < |s| :: IsPlain(s[i])
    ensures Escape(s) == s
  {
    if s != "" {
      PlainTextIsWrittenAsItIs(s[1..]);
      assert EscapeChar(s[0]) == [s[0]];
      assert s == [s[0]] + s[1..];
    }
  }

  lemma NamesNeedNoEscape()
    ensures Escape("stream") == "stream" && Escape("text") == "text"
  {
    PlainTextIsWrittenAsItIs("stream");
    PlainTextIsWrittenAsItIs("text");
  }

  lemma OpenIsJoined(value: string)
    ensures OPEN + value == ['{'] + (['"'] + ("stream" + "\"" + ([':'] + (['"'] + value))))
  {
    TokensJoin('{', "stream", value);
    assert OPEN == ['{'] + "\"" + "stream" + "\":\"";
  }

  lemma MiddleIsJoined(value: string)
    ensures MIDDLE + value == [','] + (['"'] + ("text" + "\"" + ([':'] + (['"'] + value))))
  {
    TokensJoin(',', "text", value);
    assert MIDDLE == [','] + "\"" + "text" + "\":\"";
  }

  /** What is written is an object of two members. */
  lemma MarshalWritesTwoMembers(line: LogLine)
    ensures Marshal(line) == ['{'] + Member("stream", line.stream, [','] + Member("text", line.text, "}"))
  {
    NamesNeedNoEscape();
    var text := Escape(line.text) + "\"" + "}";
    OpenIsJoined(Escape(line.stream) + "\"" + (MIDDLE + text));
    MiddleIsJoined(text);
  }

  /** A page finds the fields by their names. */
  lemma FieldsByName(payload: string, line: LogLine)
    requires ReadObject(payload) == Some(map["stream" := line.stream]["text" := line.text])
    ensures Unmarshal(payload) == Some(line)
  {
    var members := map["stream" := line.stream]["text" := line.text];
    assert |"stream"| == 6 && |"text"| == 4;
    assert members["stream"] == line.stream && members["text"] == line.text;
  }

  /** Reading back what was written gives the line, whatever characters it holds. */
  lemma MarshalRoundTrip(line: LogLine)
    ensures Unmarshal(Marshal(line)) == Some(line)
  {
    MarshalWritesTwoMembers(line);
    ReadTwoMembers("stream", line.stream, "text", line.text);
    FieldsByName(Marshal(line), line);
  }
}
