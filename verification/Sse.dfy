/** Server-sent events: what the log handler writes, and how a browser interprets it by sections 9.2.5 and 9.2.6 of the
    WHATWG HTML standard. */
module Sse {
  import opened Text
  import opened Demux
  import opened Json
  import Utf8

  datatype Item = Event(line: LogLine) | KeepAlive

  const DATA := "data"
  const COMMENT := ": keepalive"

  /** The text of one write. */
  function Render(item: Item): string {
    match item
    case Event(line) => DATA + [':'] + (" " + Marshal(line)) + "\n" + "\n"
    case KeepAlive => COMMENT + "\n" + "\n"
  }

  function RenderAll(items: seq<Item>): string {
    if items == [] then "" else Render(items[0]) + RenderAll(items[1..])
  }

  /** The bytes of it. */
  function Bytes(item: Item): seq<Utf8.Byte> {
    Utf8.Encode(Render(item))
  }

  function WireOf(items: seq<Item>): seq<Utf8.Byte> {
    Utf8.Encode(RenderAll(items))
  }

  function EventOf(item: Item): seq<LogLine> {
    if item.Event? then [item.line] else []
  }

  function Events(items: seq<Item>): seq<LogLine> {
    if items == [] then []
    else EventOf(items[0]) + Events(items[1..])
  }

  // --- the browser ---

  /** The terminated lines of a stream, read character by character after `line`. CR, LF and CRLF all end a line, and
      an unfinished line is not one yet. */
  function StreamLines(s: string, line: string): seq<string>
    decreases |s|
  {
    if s == "" then []
    else if s[0] == '\r' && |s| > 1 && s[1] == '\n' then [line] + StreamLines(s[2..], "")
    else if s[0] == '\n' || s[0] == '\r' then [line] + StreamLines(s[1..], "")
    else StreamLines(s[1..], line + [s[0]])
  }

  /** Field value: one leading space is dropped. */
  function FieldValue(v: string): string {
    if v != "" && v[0] == ' ' then v[1..] else v
  }

  /** The data buffer after one non-blank line. Comments and fields other than `data` leave it alone. */
  function Absorb(line: string, data: string): string
    requires line != ""
  {
    var i := IndexOf(line, ':');
    if i == 0 then data
    else if line[..i] == "data" then data + (if i == |line| then "" else FieldValue(line[i + 1..])) + "\n"
    else data
  }

  /** The data of every dispatched event. A blank line dispatches a non-empty buffer, without its last newline; what is
      still in the buffer at the end of the stream is discarded. */
  function Dispatched(lines: seq<string>, data: string): seq<string> {
    if lines == [] then []
    else if lines[0] == "" then
      (if data == "" then [] else [data[..|data| - 1]]) + Dispatched(lines[1..], "")
    else Dispatched(lines[1..], Absorb(lines[0], data))
  }

  /** The events in a text. */
  function EventsIn(text: string): seq<string> {
    Dispatched(StreamLines(text, ""), "")
  }

  /** What the page receives from a stream of bytes. */
  function Received(wire: seq<Utf8.Byte>): seq<string> {
    EventsIn(Utf8.Decode(wire))
  }

  /** What the page makes of it. */
  function Parsed(data: seq<string>): (lines: seq<Option<LogLine>>)
    ensures |lines| == |data|
  {
    seq(|data|, i requires 0 <= i < |data| => Unmarshal(data[i]))
  }

  // --- reading back what was written ---

  /** The text of an item without its blank line. */
  function Head(item: Item): string {
    match item
    case Event(line) => DATA + [':'] + (" " + Marshal(line))
    case KeepAlive => COMMENT
  }

  function Marshalled(lines: seq<LogLine>): (data: seq<string>)
    ensures |data| == |lines|
  {
    seq(|lines|, i requires 0 <= i < |lines| => Marshal(lines[i]))
  }

  lemma {:induction false} FirstLine(line: string, rest: string, sofar: string)
    requires '\n' !in line && '\r' !in line
    ensures StreamLines(line + "\n" + rest, sofar) == [sofar + line] + StreamLines(rest, "")
    decreases |line|
  {
    var s := line + "\n" + rest;
    if line == "" {
      assert s[1..] == rest;
      assert sofar + line == sofar;
    } else {
      assert s[1..] == line[1..] + "\n" + rest;
      FirstLine(line[1..], rest, sofar + [line[0]]);
      assert sofar + [line[0]] + line[1..] == sofar + line;
    }
  }

  /** A carriage return ends a line too, together with a line feed that follows it or on its own. */
  lemma {:induction false} EveryEndingEndsALine(line: string, rest: string, sofar: string)
    requires '\n' !in line && '\r' !in line
    ensures StreamLines(line + "\r\n" + rest, sofar) == [sofar + line] + StreamLines(rest, "")
    ensures rest == "" || rest[0] != '\n' ==> StreamLines(line + "\r" + rest, sofar) == [sofar + line] + StreamLines(rest, "")
    decreases |line|
  {
    var s, t := line + "\r\n" + rest, line + "\r" + rest;
    if line == "" {
      assert s[2..] == rest && t[1..] == rest;
      assert sofar + line == sofar;
    } else {
      assert s[1..] == line[1..] + "\r\n" + rest && t[1..] == line[1..] + "\r" + rest;
      EveryEndingEndsALine(line[1..], rest, sofar + [line[0]]);
      assert sofar + [line[0]] + line[1..] == sofar + line;
    }
  }

  lemma HeadHasNoBreak(item: Item)
    ensures '\n' !in Head(item) && '\r' !in Head(item)
  {
  }

  lemma TwoLines(head: string, rest: string)
    requires '\n' !in head && '\r' !in head
    ensures StreamLines(head + "\n" + ("\n" + rest), "") == [head, ""] + StreamLines(rest, "")
  {
    FirstLine(head, "\n" + rest, "");
    FirstLine("", rest, "");
    assert "" + "\n" + rest == "\n" + rest;
    assert "" + head == head && "" + "" == "";
  }

  lemma ItemLines(item: Item, rest: string)
    ensures StreamLines(Render(item) + rest, "") == [Head(item), ""] + StreamLines(rest, "")
  {
    HeadHasNoBreak(item);
    TwoLines(Head(item), rest);
    Reassociate(Head(item), "\n", "\n");
    Reassociate(Head(item) + "\n", "\n", rest);
  }

  /** One space before a value is not part of it. */
  lemma SpaceIsDropped(v: string)
    ensures FieldValue(" " + v) == v
  {
    assert (" " + v)[1..] == v;
  }

  lemma DataLine(v: string)
    ensures Absorb(DATA + [':'] + (" " + v), "") == v + "\n"
  {
    CutAtFirst(DATA, ':', " " + v);
    SpaceIsDropped(v);
    assert "" + v + "\n" == v + "\n";
  }

  lemma HeadIsAbsorbed(item: Item)
    ensures Head(item) != ""
    ensures Absorb(Head(item), "") == if item.Event? then Marshal(item.line) + "\n" else ""
  {
    if item.Event? {
      DataLine(Marshal(item.line));
    }
  }

  /** The lines of an item, then those of the rest of the stream, dispatch the item's event, then those of the rest. */
  lemma ItemDispatches(item: Item, rest: seq<string>)
    ensures Dispatched([Head(item), ""] + rest, "")
            == (if item.Event? then [Marshal(item.line)] else []) + Dispatched(rest, "")
  {
    HeadIsAbsorbed(item);
    var lines := [Head(item), ""] + rest;
    var data := Absorb(Head(item), "");
    assert lines[1..] == [""] + rest;
    assert lines[1..][1..] == rest;
    assert Dispatched(lines, "") == Dispatched(lines[1..], data);
    if item.Event? {
      assert data[..|data| - 1] == Marshal(item.line);
    }
  }

  lemma ItemComesFirst(item: Item, rest: string)
    ensures EventsIn(Render(item) + rest) == Marshalled(EventOf(item)) + EventsIn(rest)
  {
    ItemLines(item, rest);
    ItemDispatches(item, StreamLines(rest, ""));
    assert Marshalled(EventOf(item)) == if item.Event? then [Marshal(item.line)] else [];
  }

  lemma MarshalledConcat(a: seq<LogLine>, b: seq<LogLine>)
    ensures Marshalled(a + b) == Marshalled(a) + Marshalled(b)
  {
  }

  lemma {:induction false} TextHoldsExactlyTheEvents(items: seq<Item>)
    ensures EventsIn(RenderAll(items)) == Marshalled(Events(items))
  {
    if items != [] {
      ItemComesFirst(items[0], RenderAll(items[1..]));
      MarshalledConcat(EventOf(items[0]), Events(items[1..]));
      TextHoldsExactlyTheEvents(items[1..]);
    }
  }

  /** The page receives exactly the payloads that were sent, one event per line, whatever comments come between. */
  lemma ReceivesExactlyTheEvents(items: seq<Item>)
    ensures Received(WireOf(items)) == Marshalled(Events(items))
  {
    Utf8.RoundTrip(RenderAll(items));
    TextHoldsExactlyTheEvents(items);
  }

  /** On a stream without carriage returns, fewer bytes give fewer lines. */
  lemma {:induction false} FewerBytesFewerLines(s: string, n: nat, line: string)
    requires n <= |s| && '\r' !in s
    ensures StreamLines(s[..n], line) <= StreamLines(s, line)
    decreases |s|
  {
    if n > 0 {
      assert s[..n][1..] == s[1..][..n - 1];
      FewerBytesFewerLines(s[1..], n - 1, if s[0] == '\n' then "" else line + [s[0]]);
    }
  }

  lemma {:induction false} FewerLinesFewerEvents(lines: seq<string>, n: nat, data: string)
    requires n <= |lines|
    ensures Dispatched(lines[..n], data) <= Dispatched(lines, data)
    decreases |lines|
  {
    if n > 0 {
      assert lines[..n][1..] == lines[1..][..n - 1];
      FewerLinesFewerEvents(lines[1..], n - 1, if lines[0] == "" then "" else Absorb(lines[0], data));
    }
  }

  lemma {:induction false} RenderAllHasNoReturn(items: seq<Item>)
    ensures '\r' !in RenderAll(items)
  {
    if items != [] {
      HeadHasNoBreak(items[0]);
      assert Render(items[0]) == Head(items[0]) + "\n" + "\n";
      RenderAllHasNoReturn(items[1..]);
    }
  }

  /** A text cut short holds the first events. */
  lemma CutTextLosesOnlyTheTail(items: seq<Item>, m: nat)
    requires m <= |RenderAll(items)|
    ensures EventsIn(RenderAll(items)[..m]) <= Marshalled(Events(items))
  {
    var text := RenderAll(items);
    RenderAllHasNoReturn(items);
    FewerBytesFewerLines(text, m, "");
    var lines, cut := StreamLines(text, ""), StreamLines(text[..m], "");
    assert lines[..|cut|] == cut;
    FewerLinesFewerEvents(lines, |cut|, "");
    TextHoldsExactlyTheEvents(items);
  }

  /** One more character that ends no line makes no difference. */
  lemma {:induction false} UnfinishedLineIsNotOne(s: string, x: char, line: string)
    requires x != '\n' && x != '\r' && '\r' !in s
    ensures StreamLines(s + [x], line) == StreamLines(s, line)
    decreases |s|
  {
    if s == "" {
      assert (s + [x])[1..] == "";
    } else {
      assert (s + [x])[1..] == s[1..] + [x];
      UnfinishedLineIsNotOne(s[1..], x, if s[0] == '\n' then "" else line + [s[0]]);
    }
  }

  /** A connection that breaks at any byte, be it inside a character, costs the events from there on, and garbles none. */
  lemma BrokenStreamLosesOnlyTheTail(items: seq<Item>, n: nat)
    requires n <= |WireOf(items)|
    ensures Received(WireOf(items)[..n]) <= Marshalled(Events(items))
  {
    var text := RenderAll(items);
    var m := Utf8.BrokenStream(text, n);
    RenderAllHasNoReturn(items);
    UnfinishedLineIsNotOne(text[..m], Utf8.REPLACEMENT, "");
    CutTextLosesOnlyTheTail(items, m);
  }

  /** What the page makes of an event is the line that was sent. */
  lemma ParsedIsWhatWasSent(lines: seq<LogLine>, data: seq<string>)
    requires data <= Marshalled(lines)
    ensures Parsed(data) == seq(|data|, i requires 0 <= i < |data| => Some(lines[i]))
  {
    forall i | 0 <= i < |data| ensures Parsed(data)[i] == Some(lines[i]) {
      MarshalRoundTrip(lines[i]);
    }
  }

  lemma {:induction false} AppendItem(items: seq<Item>, item: Item)
    ensures RenderAll(items + [item]) == RenderAll(items) + Render(item)
    ensures WireOf(items + [item]) == WireOf(items) + Bytes(item)
    ensures Events(items + [item]) == Events(items) + EventOf(item)
  {
    Utf8.EncodeConcat(RenderAll(items), Render(item));
    if items == [] {
      assert [item][1..] == [] && [] + [item] == [item];
      assert RenderAll([item]) == Render(item) + RenderAll([]);
      assert Events([item]) == EventOf(item) + Events([]);
    } else {
      var rest := items[1..];
      assert (items + [item])[1..] == rest + [item] && (items + [item])[0] == items[0];
      AppendItem(rest, item);
      Reassociate(Render(items[0]), RenderAll(rest), Render(item));
      Reassociate(EventOf(items[0]), Events(rest), EventOf(item));
    }
  }
}
