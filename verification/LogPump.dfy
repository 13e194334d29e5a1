/** The log endpoint of `internal/api/logs.go`: a producer goroutine that demultiplexes, a channel of 64 slots, and the
    select loop that writes server-sent events, under every schedule. */
module LogPump {
  import opened Text
  import opened Demux
  import opened Json
  import opened Sse
  import Utf8

  const SLOTS := 64

  datatype Consumer = Listening | Returned(closedSeen: bool)

  /** `arrived` counts the lines Docker has handed over so far and `ended` says that no more will come; `next` counts the
      lines sent, `drained` says the producer reached the end of its input, `lost` holds the line whose write failed, and
      `wire` is every byte written: whole items, then at most one broken write. */
  datatype Session = Session(
    arrived: nat, ended: bool,
    next: nat, buffer: seq<LogLine>, producing: bool, drained: bool,
    consumer: Consumer, cancelled: bool,
    lost: seq<LogLine>, items: seq<Item>, wire: seq<Utf8.Byte>)

  const START := Session(0, false, 0, [], true, false, Listening, false, [], [], [])

  /** `broken` is how many bytes of a write got through before it failed. */
  datatype Step =
    | Arrive
    | StreamEnds
    | Send
    | EndOfInput
    | NoticeCancel
    | Deliver(broken: Option<nat>)
    | Tick(broken: Option<nat>)
    | SeeClosed
    | SeeCancel
    | Disconnect

  /** Returning from the handler ends the request, which cancels its context. */
  function Return(s: Session, closedSeen: bool): Session {
    s.(consumer := Returned(closedSeen), cancelled := true)
  }

  function Write(s: Session, item: Item, broken: Option<nat>): Session {
    match broken
    case None => s.(items := s.items + [item], wire := s.wire + Bytes(item))
    case Some(n) =>
      var bytes := Bytes(item);
      Return(s.(wire := s.wire + bytes[..if n < |bytes| then n else |bytes|]), false)
  }

  predicate Enabled(all: seq<LogLine>, s: Session, step: Step) {
    match step
    case Arrive => s.arrived < |all|
    case StreamEnds => s.arrived == |all| && !s.ended
    case Send => s.producing && s.next < s.arrived <= |all| && |s.buffer| < SLOTS
    case EndOfInput => s.producing && s.next == s.arrived && s.ended
    case NoticeCancel => s.producing && s.cancelled
    case Deliver(_) => s.consumer.Listening? && s.buffer != []
    case Tick(_) => s.consumer.Listening?
    case SeeClosed => s.consumer.Listening? && s.buffer == [] && !s.producing
    case SeeCancel => s.consumer.Listening? && s.cancelled
    case Disconnect => !s.cancelled
  }

  /** A step that is not enabled changes nothing. `all` is what the stream says, line by line. */
  function Next(all: seq<LogLine>, s: Session, step: Step): Session {
    if !Enabled(all, s, step) then s
    else
      match step
      case Arrive => s.(arrived := s.arrived + 1)
      case StreamEnds => s.(ended := true)
      case Send => s.(next := s.next + 1, buffer := s.buffer + [all[s.next]])
      case EndOfInput => s.(producing := false, drained := true)
      case NoticeCancel => s.(producing := false)
      case Deliver(broken) =>
        var line := s.buffer[0];
        var taken := s.(buffer := s.buffer[1..], lost := if broken.Some? then [line] else s.lost);
        Write(taken, Event(line), broken)
      case Tick(broken) => Write(s, KeepAlive, broken)
      case SeeClosed => Return(s, true)
      case SeeCancel => Return(s, false)
      case Disconnect => s.(cancelled := true)
  }

  function After(all: seq<LogLine>, s: Session, run: seq<Step>): Session
    decreases |run|
  {
    if run == [] then s else After(all, Next(all, s, run[0]), run[1..])
  }

  /** Every line sent is accounted for, once and in order: written, lost in a failed write, or still in the channel. */
  ghost predicate Accounted(all: seq<LogLine>, s: Session) {
    s.next <= s.arrived <= |all| && |s.buffer| <= SLOTS && Events(s.items) + s.lost + s.buffer == all[..s.next]
  }

  ghost predicate Orderly(all: seq<LogLine>, s: Session) {
    && (s.consumer.Listening? ==> s.lost == [])
    && (s.consumer.Returned? ==> s.cancelled)
    && (s.ended ==> s.arrived == |all|)
    && (s.drained ==> !s.producing && s.next == |all|)
    && (s.consumer == Returned(true) ==>
          s.lost == [] && s.buffer == [] && !s.producing && s.wire == WireOf(s.items))
  }

  ghost predicate Inv(all: seq<LogLine>, s: Session) {
    Accounted(all, s) && Orderly(all, s) && OnTheWire(s.wire, s.items, s.lost, s.consumer.Returned?)
  }

  /** Whole items, then a piece of one more write only if that write failed. */
  ghost predicate OnTheWire(wire: seq<Utf8.Byte>, items: seq<Item>, lost: seq<LogLine>, returned: bool) {
    wire == WireOf(items) || (returned && exists item: Item :: PieceOf(wire, items, lost, item))
  }

  ghost predicate PieceOf(wire: seq<Utf8.Byte>, items: seq<Item>, lost: seq<LogLine>, item: Item) {
    wire <= WireOf(items + [item]) && (item.Event? ==> lost == [item.line])
  }

  lemma WriteKeepsWire(s: Session, item: Item, broken: Option<nat>)
    requires s.wire == WireOf(s.items)
    requires item.Event? && broken.Some? ==> s.lost == [item.line]
    ensures var t := Write(s, item, broken); OnTheWire(t.wire, t.items, t.lost, t.consumer.Returned?)
  {
    AppendItem(s.items, item);
    if broken.Some? {
      var t := Write(s, item, broken);
      assert PieceOf(t.wire, t.items, t.lost, item);
    }
  }

  lemma DeliverKeepsAccount(all: seq<LogLine>, s: Session, broken: Option<nat>)
    requires Accounted(all, s) && s.lost == [] && s.consumer.Listening? && s.buffer != []
    ensures Accounted(all, Next(all, s, Deliver(broken)))
  {
    AppendItem(s.items, Event(s.buffer[0]));
    MoveOne(Events(s.items), s.buffer[0], s.buffer[1..]);
    assert s.buffer == [s.buffer[0]] + s.buffer[1..];
  }

  lemma MoveOne<T>(said: seq<T>, x: T, rest: seq<T>)
    ensures said + [] + ([x] + rest) == said + [x] + [] + rest
    ensures said + [] + ([x] + rest) == said + [x] + rest
  {
  }

  lemma DeliverKeepsInv(all: seq<LogLine>, s: Session, broken: Option<nat>)
    requires Inv(all, s) && s.consumer.Listening? && s.buffer != []
    ensures Inv(all, Next(all, s, Deliver(broken)))
  {
    var line := s.buffer[0];
    var taken := s.(buffer := s.buffer[1..], lost := if broken.Some? then [line] else s.lost);
    assert Next(all, s, Deliver(broken)) == Write(taken, Event(line), broken);
    DeliverKeepsAccount(all, s, broken);
    WriteKeepsWire(taken, Event(line), broken);
  }

  lemma TickKeepsInv(all: seq<LogLine>, s: Session, broken: Option<nat>)
    requires Inv(all, s) && s.consumer.Listening?
    ensures Inv(all, Next(all, s, Tick(broken)))
  {
    assert Next(all, s, Tick(broken)) == Write(s, KeepAlive, broken);
    AppendItem(s.items, KeepAlive);
    assert Events(s.items) + [] == Events(s.items);
    WriteKeepsWire(s, KeepAlive, broken);
  }

  lemma SendKeepsInv(all: seq<LogLine>, s: Session)
    requires Inv(all, s) && Enabled(all, s, Send)
    ensures Inv(all, Next(all, s, Send))
  {
    assert all[..s.next + 1] == all[..s.next] + [all[s.next]];
  }

  lemma NextKeepsInv(all: seq<LogLine>, s: Session, step: Step)
    requires Inv(all, s)
    ensures Inv(all, Next(all, s, step))
  {
    if Enabled(all, s, step) {
      match step
      case Send => SendKeepsInv(all, s);
      case Deliver(broken) => DeliverKeepsInv(all, s, broken);
      case Tick(broken) => TickKeepsInv(all, s, broken);
      case _ =>
    }
  }

  lemma {:induction false} RunKeepsInv(all: seq<LogLine>, s: Session, run: seq<Step>)
    requires Inv(all, s)
    ensures Inv(all, After(all, s, run))
    decreases |run|
  {
    if run != [] {
      NextKeepsInv(all, s, run[0]);
      RunKeepsInv(all, Next(all, s, run[0]), run[1..]);
    }
  }

  /** Whatever the schedule, the events delivered are the first lines of the stream, in order and without gaps; when the
      consumer has seen the channel closed after the input was drained, they are all of them. */
  lemma DeliveredInOrder(all: seq<LogLine>, run: seq<Step>)
    ensures var s := After(all, START, run);
            && Events(s.items) <= all
            && (s.consumer == Returned(true) && s.drained ==> Events(s.items) == all)
  {
    RunKeepsInv(all, START, run);
    var s := After(all, START, run);
    assert Events(s.items) <= all[..s.next];
  }

  // --- a request that nothing disturbs ---

  /** The client does not leave and no write fails. */
  predicate Undisturbed(run: seq<Step>) {
    forall i | 0 <= i < |run| ::
      !run[i].Disconnect? && (run[i].Deliver? || run[i].Tick? ==> run[i].broken == None)
  }

  /** As long as the loop runs nothing is cancelled and no line given up; it returns by itself only at the end. */
  predicate Smooth(s: Session) {
    && (s.consumer.Listening? ==> !s.cancelled && (s.producing || s.drained))
    && (s.consumer.Returned? ==> s.consumer == Returned(true) && s.drained)
  }

  lemma {:induction false} StaysSmooth(all: seq<LogLine>, s: Session, run: seq<Step>)
    requires Inv(all, s) && Smooth(s) && Undisturbed(run)
    ensures Smooth(After(all, s, run))
    decreases |run|
  {
    if run != [] {
      NextKeepsInv(all, s, run[0]);
      assert Smooth(Next(all, s, run[0]));
      StaysSmooth(all, Next(all, s, run[0]), run[1..]);
    }
  }

  /** The producer sees the end of its input only once Docker has ended it. */
  lemma {:induction false} EndedBeforeDrained(all: seq<LogLine>, s: Session, run: seq<Step>)
    requires s.drained ==> s.ended
    ensures var t := After(all, s, run); t.drained ==> t.ended
    decreases |run|
  {
    if run != [] {
      EndedBeforeDrained(all, Next(all, s, run[0]), run[1..]);
    }
  }

  /** While nothing disturbs it and the log has ended, the goroutine or the loop has a step to take. */
  lemma SmoothlyGoesOn(all: seq<LogLine>, s: Session) returns (step: Step)
    requires Inv(all, s) && Smooth(s) && s.consumer.Listening? && s.ended
    ensures Own(step) && Enabled(all, s, step) && Undisturbed([step])
  {
    step :=
      if Enabled(all, s, Send) then Send
      else if Enabled(all, s, EndOfInput) then EndOfInput
      else if Enabled(all, s, Deliver(None)) then Deliver(None)
      else SeeClosed;
  }

  lemma AllOnTheWire(all: seq<LogLine>, s: Session)
    requires Inv(all, s) && s.consumer == Returned(true) && s.drained
    ensures Events(s.items) == all && Received(s.wire) == Marshalled(all)
  {
    ReceivesExactlyTheEvents(s.items);
    assert all[..|all|] == all;
  }

  /** If the client stays and writes go through, the handler returns only after the log has ended, and then everything the
      container said is on the wire. After the log's end there is always a step to take until then, and `RankDrops` bounds
      their number. */
  lemma UndisturbedDeliversAll(all: seq<LogLine>, run: seq<Step>)
    requires Undisturbed(run)
    ensures var s := After(all, START, run);
            && (s.consumer.Returned? ==>
                  s.ended && s.consumer == Returned(true) && Events(s.items) == all && Received(s.wire) == Marshalled(all))
            && (s.consumer.Listening? && s.ended ==>
                  exists step :: Own(step) && Enabled(all, s, step) && Undisturbed([step]))
  {
    var s := After(all, START, run);
    RunKeepsInv(all, START, run);
    EndedBeforeDrained(all, START, run);
    StaysSmooth(all, START, run);
    if s.consumer.Returned? {
      AllOnTheWire(all, s);
    } else if s.ended {
      var step := SmoothlyGoesOn(all, s);
    }
  }

  /** A write may break after any number of its bytes: the model leaves no cut of the stream out. */
  lemma EveryCutCanHappen(s: Session, item: Item, n: nat)
    requires n <= |Bytes(item)|
    ensures Write(s, item, Some(n)).wire == s.wire + Bytes(item)[..n]
    ensures Write(s, item, Some(n)).consumer == Returned(false)
  {
    var bytes := Bytes(item);
    assert n == |bytes| ==> bytes[..|bytes|] == bytes[..n];
  }

  lemma PrefixOfMarshalled(a: seq<LogLine>, b: seq<LogLine>)
    requires a <= b
    ensures Marshalled(a) <= Marshalled(b)
  {
  }

  lemma WireIsPrefix(all: seq<LogLine>, s: Session)
    requires Inv(all, s)
    ensures Received(s.wire) <= Marshalled(all)
  {
    var said := Events(s.items);
    if s.wire == WireOf(s.items) {
      ReceivesExactlyTheEvents(s.items);
      assert said <= all[..s.next];
      PrefixOfMarshalled(said, all);
    } else {
      var item: Item :| PieceOf(s.wire, s.items, s.lost, item);
      AppendItem(s.items, item);
      var more := s.items + [item];
      assert WireOf(more)[..|s.wire|] == s.wire;
      BrokenStreamLosesOnlyTheTail(more, |s.wire|);
      assert Events(more) <= said + s.lost;
      assert Events(more) <= all[..s.next];
      PrefixOfMarshalled(Events(more), all);
    }
  }

  /** What the page makes of the bytes, broken write and all, is a prefix of what the container said. */
  lemma PageSeesPrefix(all: seq<LogLine>, run: seq<Step>)
    ensures var s := After(all, START, run);
            var seen := Parsed(Received(s.wire));
            && |seen| <= |all|
            && (forall i | 0 <= i < |seen| :: seen[i] == Some(all[i]))
            && (s.consumer == Returned(true) && s.drained ==> |seen| == |all|)
  {
    var s := After(all, START, run);
    RunKeepsInv(all, START, run);
    WireIsPrefix(all, s);
    ParsedIsWhatWasSent(all, Received(s.wire));
    if s.consumer == Returned(true) && s.drained {
      DeliveredInOrder(all, run);
      ReceivesExactlyTheEvents(s.items);
    }
  }

  /** The same, from the raw bytes of the container's log. `decode` is Go's conversion of a byte string to characters. */
  lemma PageSeesContainerLog(bytes: string, decode: string -> string, run: seq<Step>)
    ensures var said := Lines(bytes);
            var all := seq(|said|, i requires 0 <= i < |said| => LogLine(said[i].stream, decode(said[i].text)));
            var s := After(all, START, run);
            var seen := Parsed(Received(s.wire));
            && |seen| <= |said|
            && (forall i | 0 <= i < |seen| :: seen[i] == Some(LogLine(said[i].stream, decode(said[i].text))))
            && (s.consumer == Returned(true) && s.drained ==> |seen| == |said|)
  {
    var said := Lines(bytes);
    var all := seq(|said|, i requires 0 <= i < |said| => LogLine(said[i].stream, decode(said[i].text)));
    PageSeesPrefix(all, run);
  }

  // --- after the handler has returned ---

  lemma AbandonedStep(all: seq<LogLine>, s: Session, step: Step)
    requires s.consumer.Returned?
    ensures var t := Next(all, s, step);
            t.wire == s.wire && t.consumer.Returned? && t.next >= s.next && |t.buffer| - |s.buffer| == t.next - s.next
  {
  }

  /** Once the consumer has returned nothing more is written, and the producer sends at most what still fits. */
  lemma {:induction false} AbandonedProducerIsBounded(all: seq<LogLine>, s: Session, run: seq<Step>)
    requires |s.buffer| <= SLOTS && s.consumer.Returned?
    ensures var t := After(all, s, run);
            && t.wire == s.wire
            && s.next <= t.next <= s.next + 64 - |s.buffer|
            && |t.buffer| - |s.buffer| == t.next - s.next
            && t.consumer.Returned?
    decreases |run|
  {
    if run != [] {
      AbandonedStep(all, s, run[0]);
      assert |Next(all, s, run[0]).buffer| <= SLOTS;
      AbandonedProducerIsBounded(all, Next(all, s, run[0]), run[1..]);
    }
  }

  /** How much is left to happen, keepalives aside. */
  function Rank(all: seq<LogLine>, s: Session): int {
    (|all| - s.arrived) + (if s.ended then 0 else 1)
    + 3 * (|all| - s.next) + 2 * |s.buffer|
    + (if s.producing then 1 else 0) + (if s.consumer.Listening? then 1 else 0) + (if s.cancelled then 0 else 1)
  }

  lemma DeliveryDropsRank(all: seq<LogLine>, s: Session, broken: Option<nat>)
    requires s.next <= |all| && s.arrived <= |all| && s.consumer.Listening? && s.buffer != []
    ensures 0 <= Rank(all, Next(all, s, Deliver(broken))) < Rank(all, s)
  {
    var line := s.buffer[0];
    var taken := s.(buffer := s.buffer[1..], lost := if broken.Some? then [line] else s.lost);
    assert Next(all, s, Deliver(broken)) == Write(taken, Event(line), broken);
    assert |taken.buffer| == |s.buffer| - 1;
  }

  lemma SendDropsRank(all: seq<LogLine>, s: Session)
    requires s.next <= |all| && s.arrived <= |all| && Enabled(all, s, Send)
    ensures 0 <= Rank(all, Next(all, s, Send)) < Rank(all, s)
  {
    assert |s.buffer + [all[s.next]]| == |s.buffer| + 1;
  }

  /** Every step that is not a keepalive brings the end nearer. */
  lemma RankDrops(all: seq<LogLine>, s: Session, step: Step)
    requires s.next <= |all| && s.arrived <= |all| && Enabled(all, s, step) && !step.Tick?
    ensures 0 <= Rank(all, Next(all, s, step)) < Rank(all, s)
  {
    match step
    case Send => SendDropsRank(all, s);
    case Deliver(broken) => DeliveryDropsRank(all, s, broken);
    case _ =>
  }

  /** How many steps of a schedule do something other than keep the connection alive. */
  function Progress(all: seq<LogLine>, s: Session, run: seq<Step>): nat
    decreases |run|
  {
    if run == [] then 0
    else
      (if Enabled(all, s, run[0]) && !run[0].Tick? then 1 else 0) + Progress(all, Next(all, s, run[0]), run[1..])
  }

  /** Keepalives never take the end further away. */
  lemma TickKeepsRank(all: seq<LogLine>, s: Session, broken: Option<nat>)
    ensures Rank(all, Next(all, s, Tick(broken))) <= Rank(all, s)
  {
  }

  /** In every schedule the steps that are not keepalives number at most the rank at its start: whatever is scheduled, after
      that many nothing but keepalives can happen. */
  lemma {:induction false} SchedulesEnd(all: seq<LogLine>, s: Session, run: seq<Step>)
    requires Inv(all, s)
    ensures Progress(all, s, run) <= Rank(all, s)
    decreases |run|
  {
    assert Rank(all, s) >= 0;
    if run != [] {
      NextKeepsInv(all, s, run[0]);
      SchedulesEnd(all, Next(all, s, run[0]), run[1..]);
      if Enabled(all, s, run[0]) {
        if run[0].Tick? { TickKeepsRank(all, s, run[0].broken); } else { RankDrops(all, s, run[0]); }
      }
    }
  }

  /** A step of the goroutine or of the loop, rather than of Docker, the client or the clock. */
  predicate Own(step: Step) {
    step.Send? || step.EndOfInput? || step.NoticeCancel? || step.Deliver? || step.SeeClosed? || step.SeeCancel?
  }

  /** A quiet log with a page watching: everything that has come has been delivered, and the producer waits in a read. */
  predicate Idle(s: Session) {
    s.producing && s.next == s.arrived && !s.ended && s.consumer.Listening? && s.buffer == [] && !s.cancelled
  }

  /** Nobody is ever stuck. Until both have finished, the goroutine or the loop has a step to take, unless the log is quiet;
      and as soon as the client leaves, or the consumer is gone, the producer can stop, whatever it was waiting for. */
  lemma NeverStuck(all: seq<LogLine>, s: Session)
    requires Inv(all, s)
    ensures (exists step :: Own(step) && Enabled(all, s, step))
            <==> (s.producing || s.consumer.Listening?) && !Idle(s)
    ensures s.producing && (s.cancelled || s.consumer.Returned?) ==> Enabled(all, s, NoticeCancel)
    ensures Idle(s) ==> Enabled(all, s, Disconnect) && Enabled(all, Next(all, s, Disconnect), NoticeCancel)
  {
    var step :=
      if s.producing && s.cancelled then NoticeCancel
      else if Enabled(all, s, Send) then Send
      else if Enabled(all, s, EndOfInput) then EndOfInput
      else if Enabled(all, s, Deliver(None)) then Deliver(None)
      else SeeClosed;
    if (s.producing || s.consumer.Listening?) && !Idle(s) {
      assert Own(step) && Enabled(all, s, step);
    }
  }

  // --- the goroutine, the channel and the loop ---

  /** The channel: bounded, closed once by its sender. */
  class LineChannel {
    var buffer: seq<LogLine>
    var closed: bool

    constructor ()
      ensures buffer == [] && !closed
    {
      buffer, closed := [], false;
    }

    method TrySend(line: LogLine) returns (sent: bool)
      modifies this`buffer
      ensures sent <==> |old(buffer)| < SLOTS
      ensures buffer == if sent then old(buffer) + [line] else old(buffer)
    {
      sent := |buffer| < SLOTS;
      if sent {
        buffer := buffer + [line];
      }
    }

    method Receive() returns (line: LogLine)
      requires buffer != []
      modifies this`buffer
      ensures [line] + buffer == old(buffer)
    {
      line := buffer[0];
      buffer := buffer[1..];
    }

    method Close()
      modifies this`closed
      ensures closed
    {
      closed := true;
    }
  }

  /** One log request: the producer's position, the channel, and the response. */
  class LogRequest {
    const all: seq<LogLine>
    const lines: LineChannel
    var arrived: nat
    var ended: bool
    var next: nat
    var drained: bool
    var consumer: Consumer
    var cancelled: bool
    var wire: seq<Utf8.Byte>
    ghost var lost: seq<LogLine>
    ghost var items: seq<Item>

    constructor (all: seq<LogLine>)
      ensures this.all == all && fresh(lines) && State() == START
    {
      this.all := all;
      lines := new LineChannel();
      arrived, ended := 0, false;
      next, drained, consumer, cancelled, wire := 0, false, Listening, false, [];
      lost, items := [], [];
    }

    ghost function State(): Session
      reads this, lines
    {
      Session(arrived, ended, next, lines.buffer, !lines.closed, drained, consumer, cancelled, lost, items, wire)
    }

    /** Writes to the response; a failed write ends the handler, with some of the bytes already gone. */
    method WriteItem(item: Item, broken: Option<nat>)
      modifies this`wire, this`consumer, this`cancelled, this`items
      ensures State() == Write(old(State()), item, broken)
    {
      var bytes := Bytes(item);
      match broken
      case None =>
        wire := wire + bytes;
        items := items + [item];
      case Some(n) =>
        wire := wire + bytes[..if n < |bytes| then n else |bytes|];
        consumer, cancelled := Returned(false), true;
    }

    /** Takes the next line off the channel and writes its event. */
    method DeliverLine(broken: Option<nat>)
      requires consumer.Listening? && lines.buffer != []
      modifies this, lines`buffer
      ensures State() == Next(all, old(State()), Deliver(broken))
    {
      var line := lines.Receive();
      if broken.Some? {
        lost := [line];
      }
      WriteItem(Event(line), broken);
    }

    /** Offers the next line to the channel. */
    method SendLine()
      requires !lines.closed && next < arrived <= |all|
      modifies this`next, lines`buffer
      ensures State() == Next(all, old(State()), Send)
    {
      var sent := lines.TrySend(all[next]);
      if sent {
        next := next + 1;
      }
    }

    /** The producer goroutine's turn, or one round of the select loop. */
    method TakeStep(step: Step)
      modifies this, lines
      ensures State() == Next(all, old(State()), step)
    {
      match step
      case Arrive =>
        if arrived < |all| {
          arrived := arrived + 1;
        }
      case StreamEnds =>
        if arrived == |all| {
          ended := true;
        }
      case Send =>
        if !lines.closed && next < arrived <= |all| {
          SendLine();
        }
      case EndOfInput =>
        if !lines.closed && next == arrived && ended {
          drained := true;
          lines.Close();
        }
      case NoticeCancel =>
        if !lines.closed && cancelled {
          lines.Close();
        }
      case Deliver(broken) =>
        if consumer.Listening? && lines.buffer != [] {
          DeliverLine(broken);
        }
      case Tick(broken) =>
        if consumer.Listening? {
          WriteItem(KeepAlive, broken);
        }
      case SeeClosed =>
        if consumer.Listening? && lines.buffer == [] && lines.closed {
          consumer, cancelled := Returned(true), true;
        }
      case SeeCancel =>
        if consumer.Listening? && cancelled {
          consumer := Returned(false);
        }
      case Disconnect => cancelled := true;
    }

    /** Any schedule at all. */
    method Run(schedule: seq<Step>)
      requires Inv(all, State())
      modifies this, lines
      ensures State() == After(all, old(State()), schedule)
      ensures Inv(all, State())
    {
      RunKeepsInv(all, State(), schedule);
      var i := 0;
      while i < |schedule|
        invariant 0 <= i <= |schedule|
        invariant After(all, old(State()), schedule) == After(all, State(), schedule[i..])
      {
        assert schedule[i..][0] == schedule[i] && schedule[i..][1..] == schedule[i + 1..];
        TakeStep(schedule[i]);
        i := i + 1;
      }
    }
  }
}
