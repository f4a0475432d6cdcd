// The bounded queues of one client connection (src/app-server/connection.ts). Each function
// below is one synchronous stretch of the connection; the messages' handlers and the
// socket's writes finish in stretches of their own.

module Connection {
  import opened Wrappers

  datatype Limits = Limits(messageBytes: nat, inbound: nat, outbound: nat, outboundBytes: nat)

  datatype Entry = Entry(text: string, bytes: nat)

  // A message off the socket: its size, and its value if it parses.
  datatype Incoming = Binary | Text(bytes: nat, value: Option<string>)

  // `handlers` and `writers` count the message handlers and socket writes in progress.
  // `admitted`, `started`, `accepted` and `written` remember what went through each queue.
  datatype Conn = Conn(
    inbound: seq<string>,
    outbound: seq<Entry>,
    inboundRunning: bool,
    outboundRunning: bool,
    outboundBytes: int,
    closed: bool,
    open: bool,
    alive: bool,
    handlers: nat,
    writers: nat,
    admitted: seq<string>,
    started: seq<string>,
    accepted: seq<Entry>,
    written: seq<Entry>)

  const NEW_CONNECTION := Conn([], [], false, false, 0, false, true, true, 0, 0, [], [], [], [])

  function Close(c: Conn): Conn {
    if c.closed then c else c.(closed := true, open := false)
  }

  // ---- Out --------------------------------------------------------------------

  // One pass of the writer, up to its first wait: what it leaves, and whether its last act
  // is to start over.
  datatype Pass = Pass(conn: Conn, again: bool)

  function FlushPass(c: Conn): Pass {
    if c.outboundRunning then Pass(c, false)
    else if c.closed || !c.open then Pass(c, c.outbound != [] && !c.closed)
    else if c.outbound == [] then Pass(c, false)
    else Pass(BeginWrite(c.(outboundRunning := true)), false)
  }

  function BeginWrite(c: Conn): Conn
    requires c.outbound != []
  {
    var entry := c.outbound[0];
    c.(outbound := c.outbound[1..], outboundBytes := c.outboundBytes - entry.bytes,
       writers := c.writers + 1, written := c.written + [entry])
  }

  // A writer that starts over for ever ends when the stack does, with nothing written; the
  // error may close the connection.
  function Flush(c: Conn, closes: bool): Conn {
    var pass := FlushPass(c);
    if pass.again && closes then Close(c) else pass.conn
  }

  function Send(c: Conn, limits: Limits, entry: Option<Entry>): (Conn, bool) {
    if c.closed || !c.open || entry.None? then (c, false)
    else if |c.outbound| >= limits.outbound || c.outboundBytes + entry.value.bytes > limits.outboundBytes then
      (Close(c), false)
    else
      (Flush(c.(outbound := c.outbound + [entry.value], outboundBytes := c.outboundBytes + entry.value.bytes,
                accepted := c.accepted + [entry.value]), false),
       true)
  }

  function WriteEnds(c: Conn, failed: bool, closes: bool): Conn
    requires c.writers > 0
  {
    var d := c.(writers := c.writers - 1);
    if failed then Close(d).(outboundRunning := false)
    else if d.closed || !d.open || d.outbound == [] then Flush(d.(outboundRunning := false), closes)
    else BeginWrite(d)
  }

  // ---- In ---------------------------------------------------------------------

  function BeginHandler(c: Conn): Conn
    requires c.inbound != []
  {
    c.(inbound := c.inbound[1..], handlers := c.handlers + 1, started := c.started + [c.inbound[0]])
  }

  function Drain(c: Conn): Conn {
    if c.inboundRunning || c.closed || c.inbound == [] then c
    else BeginHandler(c.(inboundRunning := true))
  }

  // `reply` is the error message a refusal sends back.
  function Receive(c: Conn, limits: Limits, message: Incoming, reply: Entry): Conn {
    if c.closed then c
    else match message
      case Binary => Send(c, limits, Some(reply)).0
      case Text(bytes, value) =>
        if bytes > limits.messageBytes then Close(Send(c, limits, Some(reply)).0)
        else if value.None? || |c.inbound| >= limits.inbound then Send(c, limits, Some(reply)).0
        else Drain(c.(inbound := c.inbound + [value.value], admitted := c.admitted + [value.value]))
  }

  function GoOn(c: Conn): Conn {
    if c.closed || c.inbound == [] then c.(inboundRunning := false) else BeginHandler(c)
  }

  // `reply` is the error message a handler that threw sends back.
  function HandlerEnds(c: Conn, limits: Limits, reply: Option<Entry>): Conn
    requires c.handlers > 0
  {
    GoOn(Send(c.(handlers := c.handlers - 1), limits, reply).0)
  }

  // ---- Life and death ---------------------------------------------------------

  function Heartbeat(c: Conn, pingFails: bool): Conn {
    if c.closed then c
    else if !c.alive then Close(c)
    else if pingFails then Close(c.(alive := false))
    else c.(alive := false)
  }

  function HandleClose(c: Conn): Conn {
    c.(closed := true, open := false, inbound := [], outbound := [], outboundBytes := 0)
  }

  datatype Step =
    | SendMessage(entry: Option<Entry>)
    | MessageArrives(message: Incoming, reply: Entry)
    | HandlerReturns(error: Option<Entry>)
    | WriteReturns(failed: bool, closes: bool)
    | Beat(pingFails: bool)
    | Pong
    | PeerCloses
    | SocketClosed
    | CloseCalled

  predicate Enabled(c: Conn, s: Step) {
    match s
    case HandlerReturns(_) => c.handlers > 0
    case WriteReturns(_, _) => c.writers > 0
    case _ => true
  }

  function Next(c: Conn, limits: Limits, s: Step): Conn
    requires Enabled(c, s)
  {
    match s
    case SendMessage(entry) => Send(c, limits, entry).0
    case MessageArrives(message, reply) => Receive(c, limits, message, reply)
    case HandlerReturns(error) => HandlerEnds(c, limits, error)
    case WriteReturns(failed, closes) => WriteEnds(c, failed, closes)
    case Beat(pingFails) => Heartbeat(c, pingFails)
    case Pong => c.(alive := true)
    case PeerCloses => c.(open := false)
    case SocketClosed => HandleClose(c)
    case CloseCalled => Close(c)
  }

  // ---- The connection object --------------------------------------------------

  class AppServerConnection {
    const limits: Limits
    var inbound: seq<string>
    var outbound: seq<Entry>
    var inboundRunning: bool
    var outboundRunning: bool
    var outboundBytes: int
    var closed: bool
    var open: bool
    var alive: bool
    var handlers: nat
    var writers: nat
    ghost var admitted: seq<string>
    ghost var started: seq<string>
    ghost var accepted: seq<Entry>
    ghost var written: seq<Entry>

    ghost function View(): Conn
      reads this
    {
      Conn(inbound, outbound, inboundRunning, outboundRunning, outboundBytes, closed, open, alive,
           handlers, writers, admitted, started, accepted, written)
    }

    constructor (limits: Limits)
      ensures View() == NEW_CONNECTION && this.limits == limits
    {
      this.limits := limits;
      inbound, outbound, inboundRunning, outboundRunning, outboundBytes := [], [], false, false, 0;
      closed, open, alive, handlers, writers := false, true, true, 0, 0;
      admitted, started, accepted, written := [], [], [], [];
    }

    method CloseSocket()
      modifies this`closed, this`open
      ensures View() == Close(old(View()))
    {
      if !closed {
        closed, open := true, false;
      }
    }

    method SendJson(entry: Option<Entry>) returns (sent: bool)
      modifies this
      ensures (View(), sent) == Send(old(View()), limits, entry)
    {
      if closed || !open || entry.None? {
        return false;
      }
      if |outbound| >= limits.outbound || outboundBytes + entry.value.bytes > limits.outboundBytes {
        CloseSocket();
        return false;
      }
      outbound := outbound + [entry.value];
      outboundBytes := outboundBytes + entry.value.bytes;
      accepted := accepted + [entry.value];
      FlushOutbound(false);
      return true;
    }

    method WriteFirst()
      requires outbound != []
      modifies this`outbound, this`outboundBytes, this`writers, this`written
      ensures View() == BeginWrite(old(View()))
    {
      outboundBytes := outboundBytes - outbound[0].bytes;
      written := written + [outbound[0]];
      outbound := outbound[1..];
      writers := writers + 1;
    }

    method FlushOutbound(closes: bool)
      modifies this
      ensures View() == Flush(old(View()), closes)
    {
      if outboundRunning {
        return;
      }
      if !closed && open && outbound != [] {
        outboundRunning := true;
        WriteFirst();
      } else if outbound != [] && !closed && closes {
        CloseSocket();
      }
    }

    method WriteReturned(failed: bool, closes: bool)
      requires writers > 0
      modifies this
      ensures View() == WriteEnds(old(View()), failed, closes)
    {
      writers := writers - 1;
      if failed {
        CloseSocket();
        outboundRunning := false;
      } else if !closed && open && outbound != [] {
        WriteFirst();
      } else {
        outboundRunning := false;
        FlushOutbound(closes);
      }
    }

    method StartFirst()
      requires inbound != []
      modifies this`inbound, this`handlers, this`started
      ensures View() == BeginHandler(old(View()))
    {
      started := started + [inbound[0]];
      inbound := inbound[1..];
      handlers := handlers + 1;
    }

    method DrainInbound()
      modifies this
      ensures View() == Drain(old(View()))
    {
      if inboundRunning {
        return;
      }
      if !closed && inbound != [] {
        inboundRunning := true;
        StartFirst();
      }
    }

    method HandlerReturned(error: Option<Entry>)
      requires handlers > 0
      modifies this
      ensures View() == HandlerEnds(old(View()), limits, error)
    {
      handlers := handlers - 1;
      var sent := SendJson(error);
      NextOrRest();
    }

    // The loop of drainInbound after its wait. It ends only closed or with nothing queued,
    // so there is never anything to restart.
    method NextOrRest()
      modifies this
      ensures View() == GoOn(old(View()))
    {
      if !closed && inbound != [] {
        StartFirst();
      } else {
        inboundRunning := false;
      }
    }

    method ReceiveMessage(message: Incoming, reply: Entry)
      modifies this
      ensures View() == Receive(old(View()), limits, message, reply)
    {
      if closed {
        return;
      }
      if message.Binary? {
        var sent := SendJson(Some(reply));
        return;
      }
      if message.bytes > limits.messageBytes {
        var sent := SendJson(Some(reply));
        CloseSocket();
        return;
      }
      if message.value.None? || |inbound| >= limits.inbound {
        var sent := SendJson(Some(reply));
        return;
      }
      inbound := inbound + [message.value.value];
      admitted := admitted + [message.value.value];
      DrainInbound();
    }

    method HeartbeatTick(pingFails: bool)
      modifies this
      ensures View() == Heartbeat(old(View()), pingFails)
    {
      if closed {
        return;
      }
      if !alive {
        CloseSocket();
        return;
      }
      alive := false;
      if pingFails {
        CloseSocket();
      }
    }

    method SocketDidClose()
      modifies this
      ensures View() == HandleClose(old(View()))
    {
      if !closed {
        closed := true;
      }
      open := false;
      inbound, outbound, outboundBytes := [], [], 0;
    }
  }

  // ---- What every step keeps --------------------------------------------------

  function Bytes(entries: seq<Entry>): nat {
    if entries == [] then 0 else entries[0].bytes + Bytes(entries[1..])
  }

  lemma {:induction false} BytesOfAppend(entries: seq<Entry>, entry: Entry)
    ensures Bytes(entries + [entry]) == Bytes(entries) + entry.bytes
  {
    if entries != [] {
      assert (entries + [entry])[1..] == entries[1..] + [entry];
      BytesOfAppend(entries[1..], entry);
    }
  }

  // One handler at a time, over a bounded queue nothing is lost from, and never a message
  // left waiting with nobody at work on it.
  predicate InboundSound(c: Conn, limits: Limits) {
    && c.handlers == (if c.inboundRunning then 1 else 0)
    && |c.inbound| <= limits.inbound
    && c.started + c.inbound <= c.admitted
    && (!c.closed ==> c.started + c.inbound == c.admitted)
    && (!c.closed && c.inbound != [] ==> c.inboundRunning)
  }

  // The same for writes, whose bytes are counted exactly.
  predicate OutboundSound(c: Conn, limits: Limits) {
    && c.writers == (if c.outboundRunning then 1 else 0)
    && |c.outbound| <= limits.outbound
    && c.outboundBytes == Bytes(c.outbound) <= limits.outboundBytes
    && c.written + c.outbound <= c.accepted
    && (!c.closed ==> c.written + c.outbound == c.accepted)
    && (c.open && c.outbound != [] ==> c.outboundRunning)
  }

  predicate Sound(c: Conn, limits: Limits) {
    InboundSound(c, limits) && OutboundSound(c, limits) && (c.closed ==> !c.open)
  }

  lemma BeginWriteSound(c: Conn, limits: Limits)
    requires c.outbound != [] && c.writers == 0 && c.outboundRunning && |c.outbound| <= limits.outbound
    requires c.outboundBytes == Bytes(c.outbound) <= limits.outboundBytes
    requires c.written + c.outbound <= c.accepted && (!c.closed ==> c.written + c.outbound == c.accepted)
    ensures OutboundSound(BeginWrite(c), limits)
  {
    assert c.written + c.outbound == c.written + [c.outbound[0]] + c.outbound[1..];
  }

  lemma SendKeepsOutbound(c: Conn, limits: Limits, entry: Option<Entry>)
    requires OutboundSound(c, limits)
    ensures OutboundSound(Send(c, limits, entry).0, limits)
  {
    var (d, sent) := Send(c, limits, entry);
    if sent {
      var e := entry.value;
      var queued := c.(outbound := c.outbound + [e], outboundBytes := c.outboundBytes + e.bytes,
                       accepted := c.accepted + [e]);
      BytesOfAppend(c.outbound, e);
      assert queued.written + queued.outbound == c.written + c.outbound + [e];
      if !c.outboundRunning {
        BeginWriteSound(queued.(outboundRunning := true), limits);
      }
    }
  }

  // Sending leaves the other direction alone, but may close the connection.
  lemma SendKeepsInbound(c: Conn, limits: Limits, entry: Option<Entry>)
    ensures var d := Send(c, limits, entry).0;
            && d.inbound == c.inbound && d.inboundRunning == c.inboundRunning && d.handlers == c.handlers
            && d.admitted == c.admitted && d.started == c.started && (c.closed ==> d.closed)
    ensures (c.closed ==> !c.open) ==> var d := Send(c, limits, entry).0; d.closed ==> !d.open
  {
  }

  lemma WriteEndsSound(c: Conn, limits: Limits, failed: bool, closes: bool)
    requires Sound(c, limits) && c.writers > 0
    ensures Sound(WriteEnds(c, failed, closes), limits)
  {
    if !failed && !c.closed && c.open && c.outbound != [] {
      BeginWriteSound(c.(writers := 0), limits);
    }
  }

  lemma BeginHandlerSound(c: Conn, limits: Limits)
    requires c.inbound != [] && c.handlers == 0 && c.inboundRunning && |c.inbound| <= limits.inbound
    requires c.started + c.inbound <= c.admitted && (!c.closed ==> c.started + c.inbound == c.admitted)
    ensures InboundSound(BeginHandler(c), limits)
  {
    assert c.started + c.inbound == c.started + [c.inbound[0]] + c.inbound[1..];
  }

  lemma HandlerEndsSound(c: Conn, limits: Limits, reply: Option<Entry>)
    requires Sound(c, limits) && c.handlers > 0
    ensures Sound(HandlerEnds(c, limits, reply), limits)
  {
    var idle := c.(handlers := 0);
    SendKeepsOutbound(idle, limits, reply);
    SendKeepsInbound(idle, limits, reply);
    var d := Send(idle, limits, reply).0;
    if !d.closed && d.inbound != [] {
      BeginHandlerSound(d, limits);
    }
  }

  lemma ReceiveSound(c: Conn, limits: Limits, message: Incoming, reply: Entry)
    requires Sound(c, limits)
    ensures Sound(Receive(c, limits, message, reply), limits)
  {
    SendKeepsOutbound(c, limits, Some(reply));
    SendKeepsInbound(c, limits, Some(reply));
    if !c.closed && message.Text? && message.bytes <= limits.messageBytes
       && message.value.Some? && |c.inbound| < limits.inbound {
      var value := message.value.value;
      var queued := c.(inbound := c.inbound + [value], admitted := c.admitted + [value]);
      assert queued.started + queued.inbound == c.started + c.inbound + [value];
      if !c.inboundRunning {
        BeginHandlerSound(queued.(inboundRunning := true), limits);
      }
    }
  }

  lemma StepSound(c: Conn, limits: Limits, s: Step)
    requires Sound(c, limits) && Enabled(c, s)
    ensures Sound(Next(c, limits, s), limits)
  {
    match s
    case SendMessage(entry) =>
      SendKeepsOutbound(c, limits, entry);
      SendKeepsInbound(c, limits, entry);
    case MessageArrives(message, reply) => ReceiveSound(c, limits, message, reply);
    case HandlerReturns(error) => HandlerEndsSound(c, limits, error);
    case WriteReturns(failed, closes) => WriteEndsSound(c, limits, failed, closes);
    case Beat(_) =>
    case Pong =>
    case PeerCloses =>
    case SocketClosed =>
    case CloseCalled =>
  }

  // ---- Whole runs -------------------------------------------------------------

  predicate Run(c: Conn, limits: Limits, steps: seq<Step>, d: Conn)
    decreases steps
  {
    if steps == [] then c == d
    else Enabled(c, steps[0]) && Run(Next(c, limits, steps[0]), limits, steps[1..], d)
  }

  // d is a later state of c: what was admitted, started, accepted or written stays so, in
  // its order, and closing is for good.
  predicate Later(c: Conn, d: Conn) {
    && c.admitted <= d.admitted && c.started <= d.started
    && c.accepted <= d.accepted && c.written <= d.written
    && (c.closed ==> d.closed && d.started == c.started && d.written == c.written)
  }

  lemma SendIsLater(c: Conn, limits: Limits, entry: Option<Entry>)
    ensures Later(c, Send(c, limits, entry).0)
  {
  }

  lemma ReceiveIsLater(c: Conn, limits: Limits, message: Incoming, reply: Entry)
    ensures Later(c, Receive(c, limits, message, reply))
  {
    SendIsLater(c, limits, Some(reply));
  }

  lemma HandlerEndsIsLater(c: Conn, limits: Limits, reply: Option<Entry>)
    requires c.handlers > 0
    ensures Later(c, HandlerEnds(c, limits, reply))
  {
    SendIsLater(c.(handlers := c.handlers - 1), limits, reply);
  }

  lemma WriteEndsIsLater(c: Conn, failed: bool, closes: bool)
    requires c.writers > 0 && (c.closed ==> !c.open)
    ensures Later(c, WriteEnds(c, failed, closes))
  {
  }

  lemma StepIsLater(c: Conn, limits: Limits, s: Step)
    requires Sound(c, limits) && Enabled(c, s)
    ensures Later(c, Next(c, limits, s))
  {
    match s
    case SendMessage(entry) => SendIsLater(c, limits, entry);
    case MessageArrives(message, reply) => ReceiveIsLater(c, limits, message, reply);
    case HandlerReturns(error) => HandlerEndsIsLater(c, limits, error);
    case WriteReturns(failed, closes) => WriteEndsIsLater(c, failed, closes);
    case Beat(_) =>
    case Pong =>
    case PeerCloses =>
    case SocketClosed =>
    case CloseCalled =>
  }

  lemma {:induction false} RunStaysSound(c: Conn, limits: Limits, steps: seq<Step>, d: Conn)
    requires Sound(c, limits) && Run(c, limits, steps, d)
    ensures Sound(d, limits) && Later(c, d)
    decreases steps
  {
    if steps != [] {
      StepSound(c, limits, steps[0]);
      StepIsLater(c, limits, steps[0]);
      RunStaysSound(Next(c, limits, steps[0]), limits, steps[1..], d);
    }
  }

  // Every admitted message is handed to a handler exactly once, in the order of arrival and
  // one at a time; when the handler of an unclosed connection rests, all have been.
  lemma MessagesAreHandledInOrder(limits: Limits, steps: seq<Step>, c: Conn)
    requires Run(NEW_CONNECTION, limits, steps, c)
    ensures c.handlers <= 1 && |c.inbound| <= limits.inbound
    ensures c.started <= c.admitted
    ensures !c.closed && c.handlers == 0 ==> c.started == c.admitted
  {
    RunStaysSound(NEW_CONNECTION, limits, steps, c);
  }

  // What reaches the socket is a prefix of what was accepted, with the bytes in between
  // counted exactly and bounded; when the writer of an open connection rests, all of it is.
  lemma WritesAreInOrder(limits: Limits, steps: seq<Step>, c: Conn)
    requires Run(NEW_CONNECTION, limits, steps, c)
    ensures c.writers <= 1 && |c.outbound| <= limits.outbound
    ensures c.outboundBytes == Bytes(c.outbound) <= limits.outboundBytes
    ensures c.written <= c.accepted
    ensures c.open && c.writers == 0 ==> c.written == c.accepted
  {
    RunStaysSound(NEW_CONNECTION, limits, steps, c);
  }

  // After a close, nothing more is handled or written.
  lemma ClosedIsQuiet(limits: Limits, before: seq<Step>, c: Conn, after: seq<Step>, d: Conn)
    requires Run(NEW_CONNECTION, limits, before, c) && Run(c, limits, after, d) && c.closed
    ensures d.closed && d.started == c.started && d.written == c.written
  {
    RunStaysSound(NEW_CONNECTION, limits, before, c);
    RunStaysSound(c, limits, after, d);
  }

  // The writer has something to write, and nothing to write it to.
  predicate Spins(c: Conn) {
    !c.outboundRunning && !c.closed && !c.open && c.outbound != []
  }

  lemma NothingIsSent(c: Conn, limits: Limits, entry: Option<Entry>)
    requires !c.open
    ensures Send(c, limits, entry) == (c, false)
  {
  }

  lemma StepKeepsSpinning(c: Conn, limits: Limits, s: Step)
    requires Sound(c, limits) && !c.open && Enabled(c, s)
    ensures var d := Next(c, limits, s);
            && !d.open && d.written == c.written && d.accepted == c.accepted
            && (Spins(c) ==> d.closed || (Spins(d) && d.outbound == c.outbound))
  {
    hide Send, Bytes;
    match s
    case SendMessage(entry) => NothingIsSent(c, limits, entry);
    case MessageArrives(message, reply) => NothingIsSent(c, limits, Some(reply));
    case HandlerReturns(error) => NothingIsSent(c.(handlers := c.handlers - 1), limits, error);
    case _ =>
  }

  // A socket that stopped being open before the connection was closed leaves a writer that
  // starts over for ever: whatever happens, nothing more is accepted or written, and what
  // is queued stays queued until the connection is closed.
  lemma {:induction false} SpinningWritesNothing(c: Conn, limits: Limits, steps: seq<Step>, d: Conn)
    requires Sound(c, limits) && !c.open && Run(c, limits, steps, d)
    ensures !d.open && d.written == c.written && d.accepted == c.accepted
    ensures Spins(c) ==> d.closed || (Spins(d) && d.outbound == c.outbound && FlushPass(d) == Pass(d, true))
    decreases steps
  {
    if steps != [] {
      StepSound(c, limits, steps[0]);
      StepKeepsSpinning(c, limits, steps[0]);
      var next := Next(c, limits, steps[0]);
      SpinningWritesNothing(next, limits, steps[1..], d);
      if Spins(c) && next.closed {
        RunStaysSound(next, limits, steps[1..], d);
      }
    }
  }

  function Spinning(): Conn {
    NEW_CONNECTION.(outbound := [Entry("b", 1)], outboundRunning := true, outboundBytes := 1, writers := 1,
                    accepted := [Entry("a", 1), Entry("b", 1)], written := [Entry("a", 1)])
  }

  // Such a state is reached by sending twice and having the peer close in between.
  lemma SpinningIsReachable(limits: Limits)
    requires limits.outbound >= 1 && limits.outboundBytes >= 1
    ensures var a, b := SendMessage(Some(Entry("a", 1))), SendMessage(Some(Entry("b", 1)));
            && Run(NEW_CONNECTION, limits, [a, b, PeerCloses], Spinning().(open := false))
            && FlushPass(Spinning().(open := false, writers := 0, outboundRunning := false)).again
  {
    var a, b := SendMessage(Some(Entry("a", 1))), SendMessage(Some(Entry("b", 1)));
    var one := Next(NEW_CONNECTION, limits, a);
    assert one == NEW_CONNECTION.(outboundRunning := true, writers := 1,
                                  accepted := [Entry("a", 1)], written := [Entry("a", 1)]);
    var two := Next(one, limits, b);
    assert two == Spinning();
    assert Run(two, limits, [PeerCloses], Spinning().(open := false)) by {
      assert [PeerCloses][1..] == [];
    }
    assert [a, b, PeerCloses][1..] == [b, PeerCloses] && [b, PeerCloses][1..] == [PeerCloses];
  }

  predicate BeatFree(steps: seq<Step>) {
    forall i :: 0 <= i < |steps| ==> !steps[i].Beat?
  }

  lemma SendKeepsAlive(c: Conn, limits: Limits, entry: Option<Entry>)
    ensures Send(c, limits, entry).0.alive == c.alive
  {
  }

  lemma StepKeepsAlive(c: Conn, limits: Limits, s: Step)
    requires Enabled(c, s) && !s.Beat?
    ensures Next(c, limits, s).alive <==> c.alive || s.Pong?
  {
    hide Send;
    match s
    case SendMessage(entry) => SendKeepsAlive(c, limits, entry);
    case MessageArrives(message, reply) => SendKeepsAlive(c, limits, Some(reply));
    case HandlerReturns(error) => SendKeepsAlive(c.(handlers := c.handlers - 1), limits, error);
    case _ =>
  }

  lemma {:induction false} PongsKeepAlive(c: Conn, limits: Limits, steps: seq<Step>, d: Conn)
    requires Run(c, limits, steps, d) && BeatFree(steps)
    ensures d.alive <==> c.alive || Pong in steps
    decreases steps
  {
    if steps != [] {
      StepKeepsAlive(c, limits, steps[0]);
      assert BeatFree(steps[1..]);
      PongsKeepAlive(Next(c, limits, steps[0]), limits, steps[1..], d);
      assert Pong in steps <==> steps[0] == Pong || Pong in steps[1..];
    }
  }

  // Whatever happens between two beats, the second closes a connection that is still open
  // to it exactly if the peer has not answered the first.
  lemma SilenceIsCutOff(c: Conn, limits: Limits, between: seq<Step>, d: Conn)
    requires !c.closed && c.alive && BeatFree(between)
    requires Run(Heartbeat(c, false), limits, between, d)
    ensures Heartbeat(d, false).closed <==> d.closed || Pong !in between
  {
    PongsKeepAlive(Heartbeat(c, false), limits, between, d);
  }

  // ---- What each step comes to ------------------------------------------------

  // A message is accepted exactly while the socket is open and both bounds leave room for it,
  // and is written at once if no write is in progress. What the bounds have no room for
  // closes the connection; anything else that is refused changes nothing.
  lemma SendIsTaken(c: Conn, limits: Limits, entry: Option<Entry>)
    requires Sound(c, limits)
    ensures var (d, sent) := Send(c, limits, entry);
            if c.closed || !c.open || entry.None? then !sent && d == c
            else if |c.outbound| >= limits.outbound || Bytes(c.outbound) + entry.value.bytes > limits.outboundBytes
            then !sent && d == c.(closed := true, open := false)
            else
              && sent && d.accepted == c.accepted + [entry.value] && !d.closed && d.open && d.writers == 1
              && d.written == (if c.writers == 0 then d.accepted else c.written)
              && d == c.(outbound := d.outbound, outboundRunning := true, outboundBytes := d.outboundBytes,
                         writers := 1, accepted := d.accepted, written := d.written)
  {
    SendKeepsOutbound(c, limits, entry);
  }

  // A text message within the limit that parses is admitted while the queue has room, and
  // handed over at once if no handler is at work. Any other is answered, and an oversized
  // one closes the connection after that.
  lemma MessageIsTaken(c: Conn, limits: Limits, message: Incoming, reply: Entry)
    requires Sound(c, limits)
    ensures var d := Next(c, limits, MessageArrives(message, reply));
            var answered := Send(c, limits, Some(reply)).0;
            if c.closed then d == c
            else match message
              case Binary => d == answered
              case Text(bytes, value) =>
                if bytes > limits.messageBytes then d == answered.(closed := true, open := false)
                else match value
                  case None => d == answered
                  case Some(v) =>
                    if |c.inbound| >= limits.inbound then d == answered
                    else
                      && d.admitted == c.admitted + [v] && d.handlers == 1
                      && (if c.handlers == 0 then d.started == d.admitted && d.inbound == []
                          else d.started == c.started && d.inbound == c.inbound + [v])
                      && d == c.(inbound := d.inbound, inboundRunning := true, handlers := 1, admitted := d.admitted,
                                 started := d.started)
  {
    SendKeepsInbound(c, limits, Some(reply));
    ReceiveSound(c, limits, message, reply);
  }

  // A handler that returns makes way for the next message; one that throws is answered for
  // first.
  lemma HandlerGoesOn(c: Conn, limits: Limits, error: Option<Entry>)
    requires Sound(c, limits) && c.handlers > 0
    ensures var d := Next(c, limits, HandlerReturns(error));
            var answered := Send(c.(handlers := 0), limits, error).0;
            if answered.closed || c.inbound == [] then d == answered.(inboundRunning := false)
            else d == answered.(inbound := c.inbound[1..], handlers := 1, started := c.started + [c.inbound[0]])
  {
    SendKeepsInbound(c.(handlers := 0), limits, error);
  }

  // A write that is done makes way for the next one while the socket is open; one that fails
  // closes the connection. With a socket that is gone and messages left the writer starts
  // over until the stack is full, and the error that ends it may close the connection.
  lemma WriterGoesOn(c: Conn, limits: Limits, failed: bool, closes: bool)
    requires Sound(c, limits) && c.writers > 0
    ensures var d := Next(c, limits, WriteReturns(failed, closes));
            if failed then d == c.(writers := 0, outboundRunning := false, closed := true, open := false)
            else if c.open && c.outbound != []
            then d == c.(outbound := c.outbound[1..], outboundBytes := Bytes(c.outbound[1..]),
                         written := c.written + [c.outbound[0]])
            else if closes && !c.open && c.outbound != [] then d == c.(writers := 0, outboundRunning := false, closed := true)
            else d == c.(writers := 0, outboundRunning := false)
  {
  }

  // A beat takes back the sign of life of the last pong, and closes if there was none or the
  // ping fails. A close is for good, and empties the queues once the socket confirms it.
  lemma LifeAndDeath(c: Conn, limits: Limits, pingFails: bool)
    requires Sound(c, limits)
    ensures Next(c, limits, Beat(pingFails))
         == if c.closed then c
            else if c.alive && !pingFails then c.(alive := false)
            else c.(alive := false, closed := true, open := false)
    ensures Next(c, limits, Pong) == c.(alive := true)
    ensures Next(c, limits, PeerCloses) == c.(open := false)
    ensures Next(c, limits, CloseCalled) == c.(closed := true, open := false)
    ensures Next(c, limits, SocketClosed)
         == c.(closed := true, open := false, inbound := [], outbound := [], outboundBytes := 0)
  {
  }

  function Times(n: nat, s: Step): seq<Step> {
    if n == 0 then [] else [s] + Times(n - 1, s)
  }

  // While its handlers return, a connection works off its queue: as many returns as there
  // are messages waiting, and one more, and every message admitted has been handled.
  lemma {:induction false} HandlersWorkOff(c: Conn, limits: Limits) returns (d: Conn)
    requires Sound(c, limits) && !c.closed && c.handlers == 1
    ensures Run(c, limits, Times(|c.inbound| + 1, HandlerReturns(None)), d)
    ensures d == c.(inbound := [], inboundRunning := false, handlers := 0, started := c.admitted)
    decreases |c.inbound|
  {
    var next := Next(c, limits, HandlerReturns(None));
    HandlerGoesOn(c, limits, None);
    StepSound(c, limits, HandlerReturns(None));
    var steps := Times(|c.inbound| + 1, HandlerReturns(None));
    assert steps[0] == HandlerReturns(None) && steps[1..] == Times(|c.inbound|, HandlerReturns(None));
    if c.inbound == [] {
      d := next;
      assert c.started + c.inbound == c.started;
    } else {
      d := HandlersWorkOff(next, limits);
    }
  }

  // And while its writes succeed, everything accepted reaches the socket.
  lemma {:induction false} WritesWorkOff(c: Conn, limits: Limits) returns (d: Conn)
    requires Sound(c, limits) && c.open && c.writers == 1
    ensures Run(c, limits, Times(|c.outbound| + 1, WriteReturns(false, false)), d)
    ensures d == c.(outbound := [], outboundBytes := 0, outboundRunning := false, writers := 0, written := c.accepted)
    decreases |c.outbound|
  {
    var next := Next(c, limits, WriteReturns(false, false));
    WriterGoesOn(c, limits, false, false);
    StepSound(c, limits, WriteReturns(false, false));
    var steps := Times(|c.outbound| + 1, WriteReturns(false, false));
    assert steps[0] == WriteReturns(false, false) && steps[1..] == Times(|c.outbound|, WriteReturns(false, false));
    if c.outbound == [] {
      d := next;
      assert c.written + c.outbound == c.written;
    } else {
      d := WritesWorkOff(next, limits);
    }
  }
}
