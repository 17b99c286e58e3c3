/** What the calls on a connection amount to: each handler told by its effect on the queue, the wire and the
    user, and whole runs told by their calls alone. */
module ConnRuns {
  import opened Text
  import opened Buffers
  import opened ChannelSpec
  import opened ConnSpec

  // One call

  /** A write that takes `n` of the queued bytes moves just those to the wire.  It ends the wait to write, tells
      completion and, on a connection that is shutting down, half-closes, exactly when they are all there were. */
  lemma WriteExactly(c: Conn, n: nat)
    requires Core(c) && c.output != "" && c.Open() && 0 < n <= |c.output|
    ensures var (c', notices) := HandleWrite(c, Accepted(n));
      && c'.output == c.output[n..] && Wire(c'.trace) == Wire(c.trace) + c.output[..n]
      && c'.state == c.state && c'.input == c.input && Kept(c'.trace) == Kept(c.trace)
      && c'.chan.IsReading() && (c'.chan.IsWriting() <==> n < |c.output|)
      && notices == (if n == |c.output| && c.config.writeComplete then [WriteComplete] else [])
      && (HalfClosed in c'.trace <==> n == |c.output| && c.state.Disconnecting?)
  {
    hide Wire, Kept, Received, Consumed, Graceful;
    var e := Wrote(c.output[..n]);
    WireSnoc(c.trace, e);
    WireSnoc(c.trace + [e], HalfClosed);
  }

  /** Otherwise nothing happens: nothing is queued, or the socket takes nothing. */
  lemma WriteIdle(c: Conn, w: WriteResult)
    requires Core(c) && Possible(w, |c.output|)
    requires c.output == "" || !c.Open() || !w.Accepted? || w.n == 0
    ensures HandleWrite(c, w) == (c, [])
  {
    hide Wire, Kept, Received, Consumed, Graceful;
  }

  predicate Refused(c: Conn, w: WriteResult) { !c.state.Connected? || (c.output == "" && w.PeerGone?) }

  /** How much of a message goes to the socket at once. */
  function AtOnce(c: Conn, w: WriteResult): nat { if c.output == "" && w.Accepted? then w.n else 0 }

  /** Where the bytes of a message go: nowhere when it is refused, and otherwise in part to the wire, the rest
      behind what is queued. */
  lemma SendExactly(c: Conn, message: string, w: WriteResult)
    requires Core(c) && Possible(w, |message|)
    ensures var (n, c') := (AtOnce(c, w), Send(c, message, w).0);
      && c'.state == c.state && c'.input == c.input
      && (if Refused(c, w) then
            Kept(c'.trace) == Kept(c.trace) && Wire(c'.trace) == Wire(c.trace) && c'.output == c.output
          else
            && Kept(c'.trace) == Kept(c.trace) + message && Wire(c'.trace) == Wire(c.trace) + message[..n]
            && c'.output == c.output + message[n..])
  {
    hide Wire, Kept, Received, Consumed, Graceful, Send, DirectTrace;
    if !c.state.Connected? {
      RefusedSendIs(c, message, w);
      WireSnoc(c.trace, Sent(message, false));
    } else if c.output != "" {
      QueuedSendIs(c, message, w);
      WireSnoc(c.trace, Sent(message, true));
      assert message[0..] == message && Wire(c.trace) + message[..0] == Wire(c.trace);
    } else {
      DirectSendIs(c, message, w, AtOnce(c, w));
      DirectWire(c.trace, message, !w.PeerGone?, AtOnce(c, w));
    }
  }

  lemma RefusedSendIs(c: Conn, message: string, w: WriteResult)
    requires !c.state.Connected? && Possible(w, |message|)
    ensures Send(c, message, w) == (c.(trace := c.trace + [Sent(message, false)]), [])
  {
  }

  lemma DirectWire(t: seq<Event>, message: string, kept: bool, n: nat)
    requires n <= |message|
    ensures var t' := DirectTrace(t, message, kept, n);
      && Kept(t') == (if kept then Kept(t) + message else Kept(t))
      && Wire(t') == Wire(t) + message[..n]
  {
    hide Wire, Kept, Received, Consumed, Graceful;
    var t1 := t + [Sent(message, kept)];
    WireSnoc(t, Sent(message, kept));
    if n > 0 {
      WireSnoc(t1, Wrote(message[..n]));
    } else {
      assert t1 + [] == t1 && Wire(t) + message[..0] == Wire(t);
    }
  }

  /** Completion is told exactly for a message that goes to the socket whole and at once, if it is asked for. */
  lemma CompletionExactly(c: Conn, message: string, w: WriteResult)
    requires Core(c) && Possible(w, |message|)
    ensures WriteComplete in Send(c, message, w).1
        <==> c.state.Connected? && c.output == "" && w == Accepted(|message|) && c.config.writeComplete
    ensures multiset(Send(c, message, w).1)[WriteComplete] <= 1
  {
    hide Wire, Kept, Received, Consumed, Graceful;
  }

  /** Shutting down a connected connection leaves what is queued, and half-closes now exactly when nothing is;
      in any other state it does nothing. */
  lemma ShutdownExactly(c: Conn)
    requires Core(c)
    ensures var c' := Shutdown(c);
      if c.state.Connected? then
        && c'.state.Disconnecting? && c'.output == c.output && c'.input == c.input && c'.chan == c.chan
        && (HalfClosed in c'.trace <==> c.output == "")
        && Wire(c'.trace) == Wire(c.trace) && Kept(c'.trace) == Kept(c.trace)
      else c' == c
  {
    hide Wire, Kept, Received, Consumed, Graceful;
    WireSnoc(c.trace, HalfClosed);
  }

  /** The user gets as many bytes as it asks for, or all there are. */
  lemma RetrieveExactly(c: Conn, n: nat)
    ensures var c' := Retrieved(c, n);
      && c' == c.(input := c'.input, trace := c'.trace)
      && |c'.input| == (if n < |c.input| then |c.input| - n else 0)
      && Consumed(c'.trace) + c'.input == Consumed(c.trace) + c.input
  {
    hide Consumed, Drop;
    DropLeaves(c.input, n);
    DropLength(c.input, n);
    var rest := Drop(c.input, n);
    var bytes := c.input[..|c.input| - |rest|];
    if bytes == "" {
      assert c.trace + [] == c.trace;
    } else {
      ConsumedSnoc(c.trace, bytes);
      Regroup(Consumed(c.trace), bytes, rest);
    }
  }

  lemma DropLength(s: string, n: nat)
    ensures |Drop(s, n)| == if n < |s| then |s| - n else 0
  {
  }

  lemma ConsumedSnoc(t: seq<Event>, bytes: string)
    ensures Consumed(t + [Took(bytes)]) == Consumed(t) + bytes
  {
    WireSnoc(t, Took(bytes));
  }

  // Whole runs

  /** The state that the calls of a run lead to, whatever the sockets do. */
  function StateAfter(ops: seq<Op>): ConnState {
    if ops == [] then Connecting
    else
      var before := StateAfter(ops[..|ops| - 1]);
      match ops[|ops| - 1]
      case Establish => Connected
      case UserShutdown => if before.Connected? then Disconnecting else before
      case OnClose => Disconnected
      case OnRead(r) => if r == Got("") then Disconnected else before
      case Destroy => if before.Connected? then Disconnected else before
      case _ => before
  }

  lemma {:induction false} StateIsAsCalled(config: Config, ops: seq<Op>)
    requires RunOps(FreshConn(config), ops).Some?
    ensures RunOps(FreshConn(config), ops).value.state == StateAfter(ops)
    decreases |ops|
  {
    if ops == [] {
    } else {
      StateIsAsCalled(config, ops[..|ops| - 1]);
      StateStep(RunOps(FreshConn(config), ops[..|ops| - 1]).value, ops[|ops| - 1]);
    }
  }

  lemma StateStep(c: Conn, op: Op)
    requires Enabled(c, op)
    ensures Apply(c, op).state
         == match op
            case Establish => Connected
            case UserShutdown => if c.state.Connected? then Disconnecting else c.state
            case OnClose => Disconnected
            case OnRead(r) => if r == Got("") then Disconnected else c.state
            case Destroy => if c.state.Connected? then Disconnected else c.state
            case _ => c.state
  {
  }

  // Output: what is given, what is taken by the socket, what is queued

  /** What a call gives to be sent. */
  function Gives(c: Conn, op: Op): string {
    match op
    case UserSend(message, w) => if Refused(c, w) then "" else message
    case _ => ""
  }

  /** What the socket takes in a call: the count it returns, of what it is offered. */
  function Takes(c: Conn, op: Op): string
    requires Enabled(c, op)
  {
    match op
    case UserSend(message, w) => if !Refused(c, w) && c.output == "" && w.Accepted? then message[..w.n] else ""
    case OnWrite(w) => if c.Open() && c.output != "" && w.Accepted? then c.output[..w.n] else ""
    case _ => ""
  }

  function Given(c: Conn, ops: seq<Op>): string {
    if ops == [] then ""
    else
      match RunOps(c, ops[..|ops| - 1])
      case None => ""
      case Some(c1) => Given(c, ops[..|ops| - 1]) + Gives(c1, ops[|ops| - 1])
  }

  function Written(c: Conn, ops: seq<Op>): string
    requires RunOps(c, ops).Some?
  {
    if ops == [] then ""
    else Written(c, ops[..|ops| - 1]) + Takes(RunOps(c, ops[..|ops| - 1]).value, ops[|ops| - 1])
  }

  lemma StepStreams(c: Conn, op: Op)
    requires Core(c) && Enabled(c, op)
    ensures Kept(Apply(c, op).trace) == Kept(c.trace) + Gives(c, op)
    ensures Wire(Apply(c, op).trace) == Wire(c.trace) + Takes(c, op)
  {
    hide Core, Wire, Kept, Send, HandleWrite;
    assert Kept(c.trace) + "" == Kept(c.trace) && Wire(c.trace) + "" == Wire(c.trace);
    match op
    case UserSend(message, w) => SendExactly(c, message, w);
    case OnWrite(w) => WriteStreams(c, w);
    case _ => OtherStreams(c, op);
  }

  lemma WriteStreams(c: Conn, w: WriteResult)
    requires Core(c) && Possible(w, |c.output|)
    ensures Kept(HandleWrite(c, w).0.trace) == Kept(c.trace)
    ensures Wire(HandleWrite(c, w).0.trace)
         == Wire(c.trace) + if c.Open() && c.output != "" && w.Accepted? then c.output[..w.n] else ""
  {
    hide Core, Wire, Kept, HandleWrite;
    assert Wire(c.trace) + "" == Wire(c.trace);
    if c.Open() && c.output != "" && w.Accepted? && w.n > 0 {
      WriteExactly(c, w.n);
    } else {
      WriteIdle(c, w);
    }
  }

  lemma OtherStreams(c: Conn, op: Op)
    requires Enabled(c, op) && !op.UserSend? && !op.OnWrite?
    ensures Kept(Apply(c, op).trace) == Kept(c.trace) && Wire(Apply(c, op).trace) == Wire(c.trace)
  {
    hide Wire, Kept, Received, Consumed, Graceful, Drop;
    match op
    case Establish => WireSnoc(c.trace, Up);
    case UserShutdown => WireSnoc(c.trace, HalfClosed);
    case Retrieve(n) =>
      DropLeaves(c.input, n);
      assert c.trace + [] == c.trace;
      WireSnoc(c.trace, Took(c.input[..|c.input| - |Drop(c.input, n)|]));
    case OnRead(r) =>
      WireSnoc(c.trace, Down);
      if r.Got? { WireSnoc(c.trace, Message(r.bytes)); }
    case _ => WireSnoc(c.trace, Down);
  }

  /** Over every run what `send` was given and did not refuse is what the socket has taken followed by the output
      queue: nothing is lost, repeated or reordered, and nothing is written twice. */
  lemma EveryByteSent(config: Config, ops: seq<Op>)
    requires RunOps(FreshConn(config), ops).Some?
    ensures Given(FreshConn(config), ops)
         == Written(FreshConn(config), ops) + RunOps(FreshConn(config), ops).value.output
  {
    EveryRun(config, ops);
    HistoryIsTrue(config, ops);
  }

  /** The history says of both streams what the calls say. */
  lemma {:induction false} HistoryIsTrue(config: Config, ops: seq<Op>)
    requires RunOps(FreshConn(config), ops).Some?
    ensures var t := RunOps(FreshConn(config), ops).value.trace;
      Kept(t) == Given(FreshConn(config), ops) && Wire(t) == Written(FreshConn(config), ops)
    decreases |ops|
  {
    hide Core, Enabled, Apply, Gives, Takes;
    if ops == [] {
    } else {
      EveryRun(config, ops[..|ops| - 1]);
      HistoryIsTrue(config, ops[..|ops| - 1]);
      StepStreams(RunOps(FreshConn(config), ops[..|ops| - 1]).value, ops[|ops| - 1]);
    }
  }

  // Callbacks and the half-close

  predicate IsCallback(e: Event) { e.Up? || e.Message? || e.Down? }

  /** What the user was told, in order. */
  function Callbacks(t: seq<Event>): seq<Event> {
    if t == [] then []
    else Callbacks(t[..|t| - 1]) + if IsCallback(t[|t| - 1]) then [t[|t| - 1]] else []
  }

  /** What the calls of a run should tell it: one message for each read that brings something. */
  function Expected(ops: seq<Op>): seq<Event> {
    if ops == [] then []
    else
      var before := ops[..|ops| - 1];
      Expected(before) +
      match ops[|ops| - 1]
      case Establish => [Up]
      case OnClose => [Down]
      case OnRead(Got(bytes)) => if bytes == "" then [Down] else [Message(bytes)]
      case Destroy => if StateAfter(before).Connected? then [Down] else []
      case _ => []
  }

  lemma CallbacksSnoc(t: seq<Event>, e: Event)
    ensures Callbacks(t + [e]) == if IsCallback(e) then Callbacks(t) + [e] else Callbacks(t)
  {
    assert (t + [e])[..|t|] == t;
  }

  lemma SilentSend(c: Conn, message: string, w: WriteResult)
    requires Possible(w, |message|)
    ensures Callbacks(Send(c, message, w).0.trace) == Callbacks(c.trace)
  {
    hide Callbacks;
    var sent := Sent(message, c.state.Connected? && !PeerFoundGone(c, w));
    CallbacksSnoc(c.trace, sent);
    CallbacksSnoc(c.trace + [sent], Wrote(message[..Taken(c, w)]));
    assert c.trace + [sent] + [] == c.trace + [sent];
  }

  lemma SilentWrite(c: Conn, w: WriteResult)
    requires Possible(w, |c.output|)
    ensures Callbacks(HandleWrite(c, w).0.trace) == Callbacks(c.trace)
  {
    hide Callbacks, Drop;
    if c.chan.IsWriting() && w.Accepted? && w.n > 0 {
      var wrote := Wrote(c.output[..w.n]);
      CallbacksSnoc(c.trace, wrote);
      CallbacksSnoc(c.trace + [wrote], HalfClosed);
    }
  }

  lemma SilentStep(c: Conn, op: Op)
    requires Enabled(c, op) && (op.UserSend? || op.UserShutdown? || op.Retrieve? || op.OnWrite?)
    ensures Callbacks(Apply(c, op).trace) == Callbacks(c.trace)
  {
    hide Callbacks, Drop, Send, HandleWrite;
    match op
    case UserSend(message, w) => SilentSend(c, message, w);
    case OnWrite(w) => SilentWrite(c, w);
    case Retrieve(n) =>
      assert c.trace + [] == c.trace;
      DropLeaves(c.input, n);
      CallbacksSnoc(c.trace, Took(c.input[..|c.input| - |Drop(c.input, n)|]));
    case _ => CallbacksSnoc(c.trace, HalfClosed);
  }

  lemma CallbacksStep(c: Conn, op: Op)
    requires Enabled(c, op)
    ensures Callbacks(Apply(c, op).trace)
         == Callbacks(c.trace) + match op
                                 case Establish => [Up]
                                 case OnClose => [Down]
                                 case OnRead(Got(bytes)) => if bytes == "" then [Down] else [Message(bytes)]
                                 case Destroy => if c.state.Connected? then [Down] else []
                                 case _ => []
  {
    hide Callbacks, Send, HandleWrite, Retrieved;
    assert Callbacks(c.trace) + [] == Callbacks(c.trace);
    match op
    case Establish => CallbacksSnoc(c.trace, Up);
    case OnClose => CallbacksSnoc(c.trace, Down);
    case OnRead(r) => if r.Got? { CallbacksSnoc(c.trace, if r.bytes == "" then Down else Message(r.bytes)); }
    case Destroy => CallbacksSnoc(c.trace, Down);
    case _ => SilentStep(c, op);
  }

  /** Over every run the user is told exactly what the calls call for, in their order. */
  lemma {:induction false} CallbacksExactly(config: Config, ops: seq<Op>)
    requires RunOps(FreshConn(config), ops).Some?
    ensures Callbacks(RunOps(FreshConn(config), ops).value.trace) == Expected(ops)
    decreases |ops|
  {
    hide Enabled, Apply;
    if ops == [] {
    } else {
      CallbacksExactly(config, ops[..|ops| - 1]);
      StateIsAsCalled(config, ops[..|ops| - 1]);
      CallbacksStep(RunOps(FreshConn(config), ops[..|ops| - 1]).value, ops[|ops| - 1]);
    }
  }

  /** Some state of the run is shutting down with nothing queued. */
  predicate Drains(c: Conn, ops: seq<Op>)
    requires RunOps(c, ops).Some?
  {
    (RunOps(c, ops).value.state.Disconnecting? && RunOps(c, ops).value.output == "")
    || (ops != [] && Drains(c, ops[..|ops| - 1]))
  }

  lemma HalfCloseStep(c: Conn, op: Op)
    requires Core(c) && Enabled(c, op)
    ensures HalfClosed in Apply(c, op).trace
        <==> HalfClosed in c.trace || (Apply(c, op).state.Disconnecting? && Apply(c, op).output == "")
  {
    hide Core, Apply;
    ApplyKeeps(c, op);
    StateAdvances(c, op);
    HalfCloseState(Apply(c, op));
    if HalfClosed !in c.trace && HalfClosed in Apply(c, op).trace { OnlyDrainedHalfCloses(c, op); }
  }

  lemma HalfCloseState(c: Conn)
    requires Core(c)
    ensures c.state.Disconnecting? ==> (HalfClosed in c.trace <==> c.output == "")
  {
  }

  /** Only a connection that is shutting down is half-closed. */
  lemma OnlyDrainedHalfCloses(c: Conn, op: Op)
    requires Enabled(c, op) && HalfClosed !in c.trace && HalfClosed in Apply(c, op).trace
    ensures Apply(c, op).state.Disconnecting?
  {
    hide Send, Drop;
    match op
    case UserSend(message, w) => SendLeavesOpen(c, message, w);
    case _ =>
  }

  lemma SendLeavesOpen(c: Conn, message: string, w: WriteResult)
    requires Possible(w, |message|) && HalfClosed !in c.trace
    ensures HalfClosed !in Send(c, message, w).0.trace
  {
  }

  /** Over every run the write side of the socket is shut exactly when the connection has been shut down and its
      queue has drained, before it was closed. */
  lemma {:induction false} HalfCloseExactly(config: Config, ops: seq<Op>)
    requires RunOps(FreshConn(config), ops).Some?
    ensures HalfClosed in RunOps(FreshConn(config), ops).value.trace <==> Drains(FreshConn(config), ops)
    decreases |ops|
  {
    hide Core, Enabled, Apply;
    if ops == [] {
    } else {
      EveryRun(config, ops[..|ops| - 1]);
      HalfCloseExactly(config, ops[..|ops| - 1]);
      HalfCloseStep(RunOps(FreshConn(config), ops[..|ops| - 1]).value, ops[|ops| - 1]);
    }
  }

  /** Once a connection is shut down, and until it is closed, its write side is shut exactly when all that `send`
      was given and did not refuse is on the wire: by `shutdown` itself, or by the write that drains the queue. */
  lemma ShutdownCompletes(config: Config, ops: seq<Op>)
    requires RunOps(FreshConn(config), ops).Some? && StateAfter(ops).Disconnecting?
    ensures HalfClosed in RunOps(FreshConn(config), ops).value.trace
        <==> Given(FreshConn(config), ops) == Written(FreshConn(config), ops)
  {
    hide RunOps, StateAfter, Given, Written, Graceful, Wire, Kept, Received, Consumed;
    EveryRun(config, ops);
    StateIsAsCalled(config, ops);
    EveryByteSent(config, ops);
    var c := RunOps(FreshConn(config), ops).value;
    assert Written(FreshConn(config), ops) + "" == Written(FreshConn(config), ops);
    assert |Given(FreshConn(config), ops)| == |Written(FreshConn(config), ops)| + |c.output|;
  }

  // One dispatch

  /** The calls that a poll result comes to. */
  function DispatchOps(re: Revents, r: ReadResult, w: WriteResult): seq<Op> {
    (if ClosesFirst(re) then [OnClose] else []) + (if Reads(re) then [OnRead(r)] else [])
    + if re.out then [OnWrite(w)] else []
  }

  /** A poll result that does not end the connection is served in full: input that is ready is read and told, and
      output that is ready is written. */
  lemma DispatchServes(c: Conn, re: Revents, r: ReadResult, w: WriteResult)
    requires Core(c) && c.Open() && c.chan.index != New && Possible(w, |c.output|)
    requires !ClosesFirst(re) && !(Reads(re) && r == Got(""))
    ensures var (c', notices) := Dispatch(c, re, r, w);
      var n := if re.out && w.Accepted? then w.n else 0;
      && c'.state == c.state
      && c'.input == c.input + (if Reads(re) && r.Got? then r.bytes else "")
      && Callbacks(c'.trace) == Callbacks(c.trace) + (if Reads(re) && r.Got? then [Message(r.bytes)] else [])
      && c'.output == c.output[n..] && Wire(c'.trace) == Wire(c.trace) + c.output[..n]
      && notices == (if n > 0 && n == |c.output| && c.config.writeComplete then [WriteComplete] else [])
  {
    hide Core, Wire, Kept, Callbacks, HandleWrite, HandleClose;
    assert Callbacks(c.trace) + [] == Callbacks(c.trace) && c.input + "" == c.input;
    assert Wire(c.trace) + "" == Wire(c.trace);
    var c1 := if Reads(re) then HandleRead(c, r) else c;
    ReadKeeps(c, r);
    CallbacksStep(c, OnRead(r));
    OtherStreams(c, OnRead(r));
    if re.out {
      WriteStreams(c1, w);
      SilentStep(c1, OnWrite(w));
      if c1.output != "" && w.Accepted? && w.n > 0 { WriteExactly(c1, w.n); } else { WriteIdle(c1, w); }
    }
  }

  lemma RunThen(c: Conn, ops: seq<Op>, op: Op)
    requires RunOps(c, ops).Some? && Enabled(RunOps(c, ops).value, op)
    ensures RunOps(c, ops + [op]) == Some(Apply(RunOps(c, ops).value, op))
  {
    assert (ops + [op])[..|ops|] == ops;
  }

  lemma StaysKnown(c: Conn, r: ReadResult)
    requires c.chan.index != New
    ensures HandleClose(c).chan.index != New && HandleClose(c).output == c.output
    ensures HandleRead(c, r).chan.index != New && HandleRead(c, r).output == c.output
  {
  }

  /** Any poll result is handled as the calls it comes to, in that order. */
  lemma DispatchIsRun(c: Conn, re: Revents, r: ReadResult, w: WriteResult)
    requires c.chan.index != New && Possible(w, |c.output|)
    ensures RunOps(c, DispatchOps(re, r, w)) == Some(Dispatch(c, re, r, w).0)
  {
    hide RunOps, HandleClose, HandleRead, HandleWrite;
    NoCalls(c);
    var close: seq<Op> := if ClosesFirst(re) then [OnClose] else [];
    var c1 := if ClosesFirst(re) then HandleClose(c) else c;
    StaysKnown(c, r);
    if ClosesFirst(re) { RunThen(c, [], OnClose); assert [] + [OnClose] == close; }
    var read: seq<Op> := if Reads(re) then [OnRead(r)] else [];
    var c2 := if Reads(re) then HandleRead(c1, r) else c1;
    StaysKnown(c1, r);
    if Reads(re) { RunThen(c, close, OnRead(r)); } else { assert close + read == close; }
    if re.out { RunThen(c, close + read, OnWrite(w)); } else { assert close + read + [] == close + read; }
  }

  lemma NoCalls(c: Conn)
    ensures RunOps(c, []) == Some(c)
  {
  }
}
