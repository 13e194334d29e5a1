/** Docker's multiplexed log stream, as `internal/docker/logs.go` takes it apart. Go strings are byte strings here:
    each character stands for one byte. */
module Demux {
  import opened Text

  datatype LogLine = LogLine(stream: string, text: string)

  const HEADER_SIZE := 8

  /** The big-endian length in the last four bytes of a header. */
  function PayloadSize(header: string): nat
    requires |header| == HEADER_SIZE
  {
    (header[4] as int) * 0x100_0000 + (header[5] as int) * 0x1_0000 + (header[6] as int) * 0x100 + (header[7] as int)
  }

  function StreamName(kind: char): string {
    if kind == 2 as char then "stderr" else "stdout"
  }

  /** The text lines of one payload: trailing newlines dropped, the rest split at newlines. */
  function PayloadLines(payload: string): seq<string> {
    Split(TrimRight(payload, '\n'), '\n')
  }

  function Tagged(stream: string, lines: seq<string>): (tagged: seq<LogLine>)
    ensures |tagged| == |lines|
  {
    seq(|lines|, i requires 0 <= i < |lines| => LogLine(stream, lines[i]))
  }

  /** The tagged lines of one frame; an empty frame has none. */
  function FrameLines(kind: char, payload: string): seq<LogLine> {
    if payload == "" then [] else Tagged(StreamName(kind), PayloadLines(payload))
  }

  /** Everything a byte stream says, frame by frame, until it ends or breaks off inside a frame. */
  function Lines(bytes: string): seq<LogLine>
    decreases |bytes|
  {
    if |bytes| < HEADER_SIZE then []
    else
      var size := PayloadSize(bytes[..HEADER_SIZE]);
      var body := bytes[HEADER_SIZE..];
      if |body| < size then [] else FrameLines(bytes[0], body[..size]) + Lines(body[size..])
  }

  // --- lines of a payload ---

  /** No line holds a newline, and rejoining them gives the payload without its trailing newlines. No other list of
      newline-free lines does. */
  lemma PayloadLinesRejoin(payload: string, lines: seq<string>)
    ensures forall l | l in PayloadLines(payload) :: '\n' !in l
    ensures Join(PayloadLines(payload), '\n') == TrimRight(payload, '\n')
    ensures |lines| >= 1 && (forall l | l in lines :: '\n' !in l) && Join(lines, '\n') == TrimRight(payload, '\n')
            ==> lines == PayloadLines(payload)
  {
    JoinOfSplit(TrimRight(payload, '\n'), '\n');
    if |lines| >= 1 && forall l | l in lines :: '\n' !in l {
      SplitOfJoin(lines, '\n');
    }
  }

  /** A payload of nothing but newlines still shows as one empty line. */
  lemma OnlyNewlines(payload: string)
    ensures PayloadLines(payload) == [""] <==> forall c | c in payload :: c == '\n'
  {
    var trimmed := TrimRight(payload, '\n');
    assert trimmed != "" ==> trimmed[|trimmed| - 1] == payload[|trimmed| - 1] && payload[|trimmed| - 1] in payload;
    if !forall c | c in payload :: c == '\n' {
      JoinOfSplit(trimmed, '\n');
      var i :| 0 <= i < |payload| && payload[i] != '\n';
      assert i < |trimmed|;
    }
  }

  // --- frames ---

  datatype Frame = Frame(kind: char, padding: string, payload: string)

  predicate ValidFrame(f: Frame) {
    |f.padding| == 3 && |f.payload| < 0x1_0000_0000
  }

  function Byte(n: int): char
    requires 0 <= n < 256
  {
    n as char
  }

  function BigEndian(n: nat): (s: string)
    requires n < 0x1_0000_0000
    ensures |s| == 4
  {
    [Byte(n / 0x100_0000), Byte(n / 0x1_0000 % 0x100), Byte(n / 0x100 % 0x100), Byte(n % 0x100)]
  }

  function Encode(f: Frame): string
    requires ValidFrame(f)
  {
    Header(f) + f.payload
  }

  function EncodeAll(frames: seq<Frame>): string
    requires forall f | f in frames :: ValidFrame(f)
  {
    if frames == [] then "" else Encode(frames[0]) + EncodeAll(frames[1..])
  }

  /** What a frame list says. */
  function Spoken(frames: seq<Frame>): seq<LogLine> {
    if frames == [] then [] else FrameLines(frames[0].kind, frames[0].payload) + Spoken(frames[1..])
  }

  lemma BigEndianValue(n: nat)
    requires n < 0x1_0000_0000
    ensures n / 0x100_0000 * 0x100_0000 + n / 0x1_0000 % 0x100 * 0x1_0000 + n / 0x100 % 0x100 * 0x100 + n % 0x100 == n
  {
    var a, b := n / 0x100, n / 0x1_0000;
    assert b == a / 0x100 && n / 0x100_0000 == b / 0x100;
    assert b == b / 0x100 * 0x100 + b % 0x100;
    assert a == a / 0x100 * 0x100 + a % 0x100;
  }

  function Header(f: Frame): (h: string)
    requires ValidFrame(f)
    ensures |h| == HEADER_SIZE && h[0] == f.kind
  {
    [f.kind] + f.padding + BigEndian(|f.payload|)
  }

  lemma HeaderSize(f: Frame)
    requires ValidFrame(f)
    ensures PayloadSize(Header(f)) == |f.payload|
  {
    var h, n := Header(f), |f.payload|;
    assert h[4] == BigEndian(n)[0] && h[5] == BigEndian(n)[1];
    assert h[6] == BigEndian(n)[2] && h[7] == BigEndian(n)[3];
    BigEndianValue(n);
  }

  /** One whole frame at the front of a byte stream. */
  lemma FrameInFront(header: string, payload: string, rest: string)
    requires |header| == HEADER_SIZE && PayloadSize(header) == |payload|
    ensures Lines(header + (payload + rest))
            == FrameLines(header[0], payload) + Lines(rest)
  {
    var bytes := header + (payload + rest);
    assert bytes[..HEADER_SIZE] == header && bytes[HEADER_SIZE..] == payload + rest;
    assert (payload + rest)[..|payload|] == payload && (payload + rest)[|payload|..] == rest;
  }

  lemma LinesOfFrame(f: Frame, rest: string)
    requires ValidFrame(f)
    ensures Lines(Encode(f) + rest)
            == FrameLines(f.kind, f.payload) + Lines(rest)
  {
    HeaderSize(f);
    Reassociate(Header(f), f.payload, rest);
    FrameInFront(Header(f), f.payload, rest);
  }

  /** What one frame adds, byte by byte: eight bytes of header, then the payload. Nothing if the payload is empty; otherwise
      its lines in order, from "stderr" if and only if the first byte is 2, and from "stdout" otherwise. Then the rest. */
  lemma FrameSays(kind: char, padding: string, size: seq<char>, payload: string, rest: string)
    requires |padding| == 3 && |size| == 4
    requires |payload| == size[0] as int * 16777216 + size[1] as int * 65536 + size[2] as int * 256 + size[3] as int
    ensures var texts := if payload == "" then [] else Split(TrimRight(payload, '\n'), '\n');
            var said := Lines([kind] + padding + size + payload + rest);
            && |said| >= |texts| && said[|texts|..] == Lines(rest)
            && forall i | 0 <= i < |texts| ::
                 said[i].text == texts[i] && said[i].stream == if kind as int == 2 then "stderr" else "stdout"
  {
    var header := [kind] + padding + size;
    Reassociate(header, payload, rest);
    FrameInFront(header, payload, rest);
  }

  /** Demultiplexing an encoded frame list, followed by anything, says what the frames say, then the rest; the padding
      bytes never matter. */
  lemma {:induction false} LinesOfFrames(frames: seq<Frame>, rest: string)
    requires forall f | f in frames :: ValidFrame(f)
    ensures Lines(EncodeAll(frames) + rest) == Spoken(frames) + Lines(rest)
  {
    if frames == [] {
      assert "" + rest == rest;
    } else {
      var f, tail := frames[0], EncodeAll(frames[1..]);
      var said := FrameLines(f.kind, f.payload);
      calc {
        Lines(EncodeAll(frames) + rest);
        { Reassociate(Encode(f), tail, rest); }
        Lines(Encode(f) + (tail + rest));
        { LinesOfFrame(f, tail + rest); }
        said + Lines(tail + rest);
        { LinesOfFrames(frames[1..], rest); }
        said + (Spoken(frames[1..]) + Lines(rest));
        { Reassociate(said, Spoken(frames[1..]), Lines(rest)); }
        Spoken(frames) + Lines(rest);
      }
    }
  }

  lemma SplitAt(s: string, k: nat, n: nat)
    requires k <= n <= |s|
    ensures s[..n] == s[..k] + s[k..][..n - k]
    ensures s == s[..k] + s[k..]
  {
  }

  lemma DropBehind<T>(a: seq<T>, b: seq<T>, k: nat)
    requires k <= |a|
    ensures (a + b)[..k] == a[..k] && (a + b)[k..] == a[k..] + b
  {
  }

  /** More bytes never change what has been said already. */
  lemma {:induction false} MoreBytesMoreLines(bytes: string, more: string)
    ensures Lines(bytes) <= Lines(bytes + more)
    decreases |bytes|
  {
    if |bytes| >= HEADER_SIZE {
      var header, body := bytes[..HEADER_SIZE], bytes[HEADER_SIZE..];
      var size := PayloadSize(header);
      DropBehind(bytes, more, HEADER_SIZE);
      if size <= |body| {
        DropBehind(body, more, size);
        MoreBytesMoreLines(body[size..], more);
        PrefixUnderPrefix(FrameLines(bytes[0], body[..size]), Lines(body[size..]), Lines(body[size..] + more));
      }
    }
  }

  /** Cutting any byte stream short, at any byte, cuts its lines short: nothing is misread, nothing is made up. */
  lemma TruncationKeepsPrefix(bytes: string, n: nat)
    requires n <= |bytes|
    ensures Lines(bytes[..n]) <= Lines(bytes)
  {
    MoreBytesMoreLines(bytes[..n], bytes[n..]);
    assert bytes[..n] + bytes[n..] == bytes;
  }

  lemma BrokenFrameSaysNothing(header: string, part: string)
    requires |header| == HEADER_SIZE && |part| < PayloadSize(header)
    ensures Lines(header + part) == []
  {
    assert (header + part)[..HEADER_SIZE] == header && (header + part)[HEADER_SIZE..] == part;
  }

  // --- the reader loop ---

  /** The log connection: bytes still to come, and whether it will end in a read error rather than end of file. */
  class LogReader {
    var pending: string
    var closed: bool
    const broken: bool

    constructor (bytes: string, broken: bool)
      ensures pending == bytes && !closed && this.broken == broken
    {
      pending, closed, this.broken := bytes, false, broken;
    }

    /** `io.ReadFull`: all `n` bytes or none; a short read uses up what is left. */
    method ReadFull(n: nat) returns (chunk: Option<string>)
      modifies this`pending
      ensures n <= |old(pending)| ==> chunk == Some(old(pending)[..n]) && pending == old(pending)[n..]
      ensures n > |old(pending)| ==> chunk == None && pending == ""
    {
      if n <= |pending| {
        chunk := Some(pending[..n]);
        pending := pending[n..];
      } else {
        chunk := None;
        pending := "";
      }
    }

    method Close()
      modifies this`closed
      ensures closed
    {
      closed := true;
    }
  }

  datatype Ending = EndOfStream | ReadError | Cancelled

  /** Reads one whole frame; None when the stream ends or breaks off before that. */
  method ReadFrame(rc: LogReader) returns (frame: Option<(char, string)>)
    modifies rc`pending
    ensures match frame
            case None => Lines(old(rc.pending)) == []
            case Some((kind, payload)) =>
              && |rc.pending| < |old(rc.pending)|
              && Lines(old(rc.pending)) == FrameLines(kind, payload) + Lines(rc.pending)
  {
    ghost var front := rc.pending;
    var header := rc.ReadFull(HEADER_SIZE);
    if header == None {
      return None;
    }
    ghost var body := rc.pending;
    SplitAt(front, HEADER_SIZE, |front|);
    var size := PayloadSize(header.value);
    var payload := rc.ReadFull(size);
    if payload == None {
      BrokenFrameSaysNothing(header.value, body);
      return None;
    }
    SplitAt(body, size, |body|);
    FrameInFront(header.value, payload.value, rc.pending);
    return Some((header.value[0], payload.value));
  }

  /** Sends the lines of one frame, unless it is empty. */
  method SendFrame(sent: seq<LogLine>, kind: char, payload: string, cancelAt: Option<nat>)
    returns (out: seq<LogLine>, cancelled: bool)
    requires cancelAt.Some? ==> |sent| <= cancelAt.value
    ensures var all := sent + FrameLines(kind, payload);
            && (cancelled <==> cancelAt.Some? && cancelAt.value < |all|)
            && out == if cancelled then all[..cancelAt.value] else all
  {
    if payload == "" {
      return sent, false;
    }
    var streamName := "stdout";
    if kind == 2 as char {
      streamName := "stderr";
    }
    out, cancelled := SendLines(sent, streamName, Split(TrimRight(payload, '\n'), '\n'), cancelAt);
  }

  /** Delivers whole lines until the stream ends, or until the context is seen to be done in place of the send numbered
      `cancelAt`. */
  method DemuxLogs(rc: LogReader, cancelAt: Option<nat>) returns (out: seq<LogLine>, ending: Ending)
    modifies rc
    ensures rc.closed
    ensures var all := Lines(old(rc.pending));
            if cancelAt.Some? && cancelAt.value < |all|
            then out == all[..cancelAt.value] && ending == Cancelled
            else out == all && ending == if rc.broken then ReadError else EndOfStream
  {
    ghost var all, rest := Lines(rc.pending), Lines(rc.pending);
    out := [];
    while true
      invariant rest == Lines(rc.pending)
      invariant all == out + rest
      invariant cancelAt.Some? ==> |out| <= cancelAt.value
      decreases |rc.pending|
    {
      var frame := ReadFrame(rc);
      if frame == None {
        rc.Close();
        return out, if rc.broken then ReadError else EndOfStream;
      }
      ghost var before := out;
      var cancelled;
      out, cancelled := SendFrame(out, frame.value.0, frame.value.1, cancelAt);
      rest := Lines(rc.pending);
      Reassociate(before, FrameLines(frame.value.0, frame.value.1), rest);
      if cancelled {
        DropBehind(before + FrameLines(frame.value.0, frame.value.1), rest, cancelAt.value);
        rc.Close();
        return out, Cancelled;
      }
    }
  }

  /** Sends the lines of one frame; each send gives way to cancellation. */
  method SendLines(sent: seq<LogLine>, stream: string, lines: seq<string>, cancelAt: Option<nat>)
    returns (out: seq<LogLine>, cancelled: bool)
    requires cancelAt.Some? ==> |sent| <= cancelAt.value
    ensures cancelled <==> cancelAt.Some? && cancelAt.value < |sent| + |lines|
    ensures cancelled ==> out == (sent + Tagged(stream, lines))[..cancelAt.value]
    ensures !cancelled ==> out == sent + Tagged(stream, lines)
  {
    out := sent;
    for i := 0 to |lines|
      invariant out == (sent + Tagged(stream, lines))[..|sent| + i]
      invariant cancelAt.Some? ==> |out| <= cancelAt.value
    {
      if cancelAt == Some(|out|) {
        return out, true;
      }
      out := out + [LogLine(stream, lines[i])];
    }
    return out, false;
  }
}
